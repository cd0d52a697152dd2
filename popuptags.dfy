/**
 * The fixed tags of the popup template (`_format_*_doc`): their attribute
 * strings, and the fact that none of them carries an angle bracket.
 */
module PopupTags {
  import opened Html

  const ContentWrapper: string := "div class=" + "\"content-wrapper\""
  const SectionInfo: string := "div class=" + "\"section-info\""
  const TypeLabel: string := "span class=" + "\"type-label\""
  const ParamNameTag: string := "span class=" + "\"param-name\""
  const ParamTypeTag: string := "span class=" + "\"param-type\""
  const ParamOptionalTag: string := "span class=" + "\"param-optional\""
  const ValuesBox: string := "div style='margin-" + "left: 20px; margin-" + "top: 8px;'"
  const ValuesList: string := "ul style='margin: " + "4px 0; padding-" + "left: 20px;'"
  const ValueItemTag: string := "li style='color: " + "#9cdcfe;'"
  const ParamDescTag: string := "div class=" + "'param-desc'"

  lemma AngleFree3(a: string, b: string, c: string)
    requires AngleFree(a) && AngleFree(b) && AngleFree(c)
    ensures AngleFree(a + b + c)
  {
    AngleFreeAppend(a, b);
    AngleFreeAppend(a + b, c);
  }

  lemma WrapperTagsFree()
    ensures AngleFree(ContentWrapper) && AngleFree(SectionInfo)
  {
    assert AngleFree(ContentWrapper);
    assert AngleFree(SectionInfo);
  }

  lemma LabelTagsFree()
    ensures AngleFree(TypeLabel) && AngleFree(ParamNameTag)
  {
    assert AngleFree(TypeLabel);
    assert AngleFree(ParamNameTag);
  }

  lemma ParamTagsFree()
    ensures AngleFree(ParamTypeTag) && AngleFree(ParamOptionalTag)
  {
    assert AngleFree(ParamTypeTag);
    assert AngleFree(ParamOptionalTag);
  }

  lemma ValuesBoxFree()
    ensures AngleFree(ValuesBox)
  {
    assert AngleFree("div style='margin-");
    assert AngleFree("left: 20px; margin-");
    assert AngleFree("top: 8px;'");
    AngleFree3("div style='margin-", "left: 20px; margin-", "top: 8px;'");
  }

  lemma ValuesListFree()
    ensures AngleFree(ValuesList)
  {
    assert AngleFree("ul style='margin: ");
    assert AngleFree("4px 0; padding-");
    assert AngleFree("left: 20px;'");
    AngleFree3("ul style='margin: ", "4px 0; padding-", "left: 20px;'");
  }

  lemma ItemTagsFree()
    ensures AngleFree(ValueItemTag) && AngleFree(ParamDescTag)
  {
    assert AngleFree(ValueItemTag);
    assert AngleFree(ParamDescTag);
  }

  /** None of the template's fixed tags carries an angle bracket. */
  lemma FixedTagsFree()
    ensures AngleFree(ContentWrapper) && AngleFree(SectionInfo) && AngleFree(TypeLabel)
    ensures AngleFree(ParamNameTag) && AngleFree(ParamTypeTag) && AngleFree(ParamOptionalTag)
    ensures AngleFree(ValuesBox) && AngleFree(ValuesList) && AngleFree(ValueItemTag) && AngleFree(ParamDescTag)
  {
    WrapperTagsFree();
    LabelTagsFree();
    ParamTagsFree();
    ValuesBoxFree();
    ValuesListFree();
    ItemTagsFree();
  }
}
