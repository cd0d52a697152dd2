/**
 * The name-keyed maps `plugin_loaded` builds with dict comprehensions, and
 * the linear first-match search the hover code falls back on without them.
 */
module Index {
  import opened Wrappers
  import opened Knowledge

  /** `{key(x): x for x in xs}`: a later entry with the same key overwrites an earlier one. */
  function IndexBy<T>(xs: seq<T>, key: T -> string): map<string, T>
    decreases |xs|
  {
    if xs == [] then map[]
    else IndexBy(xs[..|xs| - 1], key)[key(xs[|xs| - 1]) := xs[|xs| - 1]]
  }

  /** `next((x for x in xs if key(x) == k), None)`. */
  function FirstBy<T>(xs: seq<T>, key: T -> string, k: string): (r: Option<T>)
    ensures r.Some? ==> r.value in xs && key(r.value) == k
    ensures r.None? <==> forall i :: 0 <= i < |xs| ==> key(xs[i]) != k
    decreases |xs|
  {
    if xs == [] then None
    else if key(xs[0]) == k then Some(xs[0])
    else
      var r := FirstBy(xs[1..], key, k);
      assert forall i :: 1 <= i < |xs| ==> xs[1..][i - 1] == xs[i];
      r
  }

  /** The set of keys the entries of `xs` carry. */
  ghost function KeysOf<T>(xs: seq<T>, key: T -> string): set<string> {
    set i | 0 <= i < |xs| :: key(xs[i])
  }

  /** No two entries share a key. */
  ghost predicate UniqueKeys<T>(xs: seq<T>, key: T -> string) {
    forall i, j :: 0 <= i < j < |xs| ==> key(xs[i]) != key(xs[j])
  }

  /** The index has exactly one key per key occurring in the list. */
  lemma {:induction false} IndexKeys<T>(xs: seq<T>, key: T -> string)
    ensures IndexBy(xs, key).Keys == KeysOf(xs, key)
    decreases |xs|
  {
    if xs != [] {
      var init := xs[..|xs| - 1];
      IndexKeys(init, key);
      assert KeysOf(xs, key) == KeysOf(init, key) + {key(xs[|xs| - 1])} by {
        forall k | k in KeysOf(xs, key) ensures k in KeysOf(init, key) + {key(xs[|xs| - 1])} {
          var i :| 0 <= i < |xs| && key(xs[i]) == k;
          if i < |xs| - 1 {
            assert init[i] == xs[i];
          }
        }
        forall k | k in KeysOf(init, key) ensures k in KeysOf(xs, key) {
          var i :| 0 <= i < |init| && key(init[i]) == k;
          assert xs[i] == init[i];
        }
      }
    }
  }

  /** For a key, the index holds the last entry carrying it. */
  lemma {:induction false} IndexLastWins<T>(xs: seq<T>, key: T -> string, i: int)
    requires 0 <= i < |xs|
    requires forall j :: i < j < |xs| ==> key(xs[j]) != key(xs[i])
    ensures key(xs[i]) in IndexBy(xs, key) && IndexBy(xs, key)[key(xs[i])] == xs[i]
    decreases |xs|
  {
    if i < |xs| - 1 {
      var init := xs[..|xs| - 1];
      assert init[i] == xs[i];
      forall j | i < j < |init| ensures key(init[j]) != key(init[i]) {
        assert init[j] == xs[j];
      }
      IndexLastWins(init, key, i);
    }
  }

  /** The linear search returns the first entry carrying the key. */
  lemma {:induction false} FirstByFirst<T>(xs: seq<T>, key: T -> string, i: int)
    requires 0 <= i < |xs|
    requires forall j :: 0 <= j < i ==> key(xs[j]) != key(xs[i])
    ensures FirstBy(xs, key, key(xs[i])) == Some(xs[i])
    decreases i
  {
    if i > 0 {
      assert key(xs[0]) != key(xs[i]);
      forall j | 0 <= j < i - 1 ensures key(xs[1..][j]) != key(xs[1..][i - 1]) {
        assert xs[1..][j] == xs[j + 1];
      }
      FirstByFirst(xs[1..], key, i - 1);
    }
  }

  /** A key is carried by some entry exactly when the linear search finds it. */
  lemma KeysOfSearch<T>(xs: seq<T>, key: T -> string, k: string)
    ensures k in KeysOf(xs, key) <==> FirstBy(xs, key, k).Some?
  {
    if FirstBy(xs, key, k).Some? {
      var i :| 0 <= i < |xs| && key(xs[i]) == k;
      assert key(xs[i]) in KeysOf(xs, key);
    }
  }

  /** With unique keys the index and the linear search find the same entry for every key. */
  lemma IndexAgreesWithSearch<T>(xs: seq<T>, key: T -> string, k: string)
    requires UniqueKeys(xs, key)
    ensures k in IndexBy(xs, key) <==> FirstBy(xs, key, k).Some?
    ensures k in IndexBy(xs, key) ==> IndexBy(xs, key)[k] == FirstBy(xs, key, k).value
  {
    IndexKeys(xs, key);
    if k in IndexBy(xs, key) {
      var i :| 0 <= i < |xs| && key(xs[i]) == k;
      IndexLastWins(xs, key, i);
      FirstByFirst(xs, key, i);
    }
  }

  /**
   * With two entries under one key the two lookups disagree: the index holds
   * the second, the linear search returns the first.
   */
  lemma DuplicateKeyDisagrees<T>(a: T, b: T, key: T -> string)
    requires key(a) == key(b) && a != b
    ensures IndexBy([a, b], key)[key(a)] == b
    ensures FirstBy([a, b], key, key(a)) == Some(a)
    ensures IndexBy([a, b], key)[key(a)] != FirstBy([a, b], key, key(a)).value
  {
    assert [a, b][..1] == [a];
    assert [a][..0] == [];
  }

  function CommandOf(i: Instruction): string { i.command }
  function EnvName(e: EnvVar): string { e.name }
  function ConstructName(c: Construct): string { c.name }

  /** The `_lookup` record: instructions keyed by `command`, the rest by `name`. */
  function BuildLookup(doc: Document): (r: Lookup)
    ensures r.instructions.Keys == KeysOf(doc.instructions, CommandOf)
    ensures r.environmentVariables.Keys == KeysOf(doc.environmentVariables, EnvName)
    ensures r.sections.Keys == KeysOf(doc.sections, ConstructName)
    ensures r.directives.Keys == KeysOf(doc.directives, ConstructName)
  {
    IndexKeys(doc.instructions, CommandOf);
    IndexKeys(doc.environmentVariables, EnvName);
    IndexKeys(doc.sections, ConstructName);
    IndexKeys(doc.directives, ConstructName);
    Lookup(
      IndexBy(doc.instructions, CommandOf),
      IndexBy(doc.environmentVariables, EnvName),
      IndexBy(doc.sections, ConstructName),
      IndexBy(doc.directives, ConstructName))
  }
}
