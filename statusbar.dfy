/**
 * The status-bar listener (`JenkinsDocStatusBar`): a per-view throttle that
 * lets at most one update through per 500 ms, and the text shown for a view.
 * The clock (`now`, in seconds) and the view id are parameters; what the
 * listener does to the status bar is returned as a `StatusUpdate`.
 */
module StatusBar {
  import opened Wrappers
  import opened Text
  import opened Knowledge
  import opened Utils

  /** `_throttle_ms`. */
  const ThrottleMs: real := 500.0

  /** The view was let through less than the throttle window before `now`. */
  predicate Throttled(lastUpdate: map<int, real>, viewId: int, now: real) {
    viewId in lastUpdate && (now - lastUpdate[viewId]) * 1000.0 < ThrottleMs
  }

  /** `_should_update` as a value: the answer and the timestamp map it leaves. */
  function Throttle(lastUpdate: map<int, real>, viewId: int, now: real): (bool, map<int, real>) {
    if Throttled(lastUpdate, viewId, now) then (false, lastUpdate) else (true, lastUpdate[viewId := now])
  }

  /**
   * A refused update records nothing; an accepted one records `now` for that
   * view only.
   */
  lemma ThrottleRecords(lastUpdate: map<int, real>, viewId: int, now: real)
    ensures !Throttle(lastUpdate, viewId, now).0 <==>
      (viewId in lastUpdate && now - lastUpdate[viewId] < 0.5)
    ensures !Throttle(lastUpdate, viewId, now).0 ==> Throttle(lastUpdate, viewId, now).1 == lastUpdate
    ensures Throttle(lastUpdate, viewId, now).0 ==>
      var m := Throttle(lastUpdate, viewId, now).1;
      && m.Keys == lastUpdate.Keys + {viewId} && m[viewId] == now
      && forall w :: w in lastUpdate && w != viewId ==> m[w] == lastUpdate[w]
  {
  }

  /**
   * After an accepted update at `t`, the same view is refused exactly while
   * less than 0.5 s has passed, whatever happened to other views meanwhile.
   */
  lemma ThrottleWindow(lastUpdate: map<int, real>, viewId: int, t: real, later: real)
    requires Throttle(lastUpdate, viewId, t).0
    ensures Throttled(Throttle(lastUpdate, viewId, t).1, viewId, later) <==> later - t < 0.5
  {
  }

  /** Updates of one view never throttle another. */
  lemma ViewsIndependent(lastUpdate: map<int, real>, v: int, w: int, t: real, later: real)
    requires v != w
    ensures Throttled(Throttle(lastUpdate, v, t).1, w, later) == Throttled(lastUpdate, w, later)
  {
  }

  /** The first update of a view always goes through. */
  lemma FirstUpdatePasses(lastUpdate: map<int, real>, viewId: int, now: real)
    requires viewId !in lastUpdate
    ensures Throttle(lastUpdate, viewId, now).0
  {
  }

  /** What `_update_status` does to the `jenkins_doc` status key. */
  datatype StatusUpdate = Unchanged | Erase | Show(text: string)

  /** The status text for a view that got past the throttle. */
  function StatusFor(settings: Option<Settings>, isJenkins: bool, data: Option<JenkinsData>): StatusUpdate {
    if settings.None? || !settings.value.showStatusBar || !isJenkins then Erase
    else
      var text := settings.value.statusBarText;
      if HasInstructions(data) then
        if settings.value.showInstructionCount then
          Show(text + " (" + NatToString(|data.value.doc.instructions|) + " steps)")
        else Show(text)
      else Show(text + " (no data)")
  }

  /**
   * The key is erased unless the status bar is enabled and the file is a
   * Jenkins file; then the configured text is shown, followed by the step
   * count when it is asked for and there are steps, or by ` (no data)` when
   * there are none.
   */
  lemma StatusCases(settings: Option<Settings>, isJenkins: bool, data: Option<JenkinsData>)
    ensures StatusFor(settings, isJenkins, data) == Erase <==>
      (settings.None? || !settings.value.showStatusBar || !isJenkins)
    ensures StatusFor(settings, isJenkins, data).Show? ==>
      var t := StatusFor(settings, isJenkins, data).text;
      && StartsWith(t, settings.value.statusBarText)
      && (!HasInstructions(data) <==> t == settings.value.statusBarText + " (no data)")
      && (HasInstructions(data) && settings.value.showInstructionCount <==>
            EndsWith(t, " steps)") && |t| > |settings.value.statusBarText|)
      && (HasInstructions(data) && !settings.value.showInstructionCount ==> t == settings.value.statusBarText)
  {
    if StatusFor(settings, isJenkins, data).Show? {
      var s := settings.value.statusBarText;
      if HasInstructions(data) {
        if settings.value.showInstructionCount {
          CountTextShape(s, NatToString(|data.value.doc.instructions|));
        } else {
          var t := StatusFor(settings, isJenkins, data).text;
          assert t[..|s|] == s;
          assert t != s + " (no data)" by {
            assert |t| == |s|;
          }
        }
      } else {
        NoDataTextShape(s);
      }
    }
  }

  /** The text with a step count starts with the configured text and ends with ` steps)`, unlike the no-data text. */
  lemma CountTextShape(s: string, n: string)
    requires n != [] && '0' <= n[0] <= '9'
    ensures var t := s + (" (" + n + " steps)");
      && StartsWith(t, s) && EndsWith(t, " steps)") && |t| > |s| && t != s + " (no data)"
  {
    var t := s + (" (" + n + " steps)");
    assert t[..|s|] == s;
    assert t[|t| - 7..] == " steps)";
    assert t[|s| + 2] == n[0];
    assert (s + " (no data)")[|s| + 2] == 'n';
  }

  /** The no-data text starts with the configured text and does not end with ` steps)`. */
  lemma NoDataTextShape(s: string)
    ensures var u := s + " (no data)";
      StartsWith(u, s) && !EndsWith(u, " steps)") && |u| > |s|
  {
    var u := s + " (no data)";
    assert u[..|s|] == s;
    assert u[|u| - 7..] == "o data)";
    assert " steps)"[1] == 's';
  }

  /** `JenkinsDocStatusBar` with its `_last_update` map. */
  class StatusBarListener {
    var lastUpdate: map<int, real>

    constructor()
      ensures lastUpdate == map[]
    {
      lastUpdate := map[];
    }

    /** `_should_update`. */
    method ShouldUpdate(viewId: int, now: real) returns (ok: bool)
      modifies this
      ensures (ok, lastUpdate) == Throttle(old(lastUpdate), viewId, now)
    {
      if viewId in lastUpdate {
        var sinceLast := (now - lastUpdate[viewId]) * 1000.0;
        if sinceLast < ThrottleMs {
          return false;
        }
      }
      lastUpdate := lastUpdate[viewId := now];
      ok := true;
    }

    /** `_update_status`, with `is_jenkins_file` evaluated on the view. */
    method UpdateStatus(viewId: int, now: real, settings: Option<Settings>, fileName: string,
                        scope: Option<string>, fnmatch: (string, string) -> bool, data: Option<JenkinsData>)
      returns (update: StatusUpdate)
      modifies this
      ensures lastUpdate == Throttle(old(lastUpdate), viewId, now).1
      ensures update ==
        if Throttle(old(lastUpdate), viewId, now).0
        then StatusFor(settings, IsJenkinsFile(settings, fileName, scope, fnmatch), data)
        else Unchanged
    {
      var ok := ShouldUpdate(viewId, now);
      if !ok {
        return Unchanged;
      }
      if settings.None? || !settings.value.showStatusBar {
        return Erase;
      }
      if IsJenkinsFile(settings, fileName, scope, fnmatch) {
        var text := settings.value.statusBarText;
        if data.Some? && data.value.doc.instructions != [] {
          if settings.value.showInstructionCount {
            text := text + " (" + NatToString(|data.value.doc.instructions|) + " steps)";
          }
          update := Show(text);
        } else {
          update := Show(text + " (no data)");
        }
      } else {
        update := Erase;
      }
    }
  }
}
