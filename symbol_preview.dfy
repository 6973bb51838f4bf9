/** The one preview line that symbol-at-point shows for a symbol:
    `name : typeName`, followed by ` (declAs fullName)` when the server
    sent a non-empty `decl-as` or `full-name`. An absent field reads as "". */
module SymbolPreview {
  import opened Payloads

  /** The line shown in the preview when the reply carries no symbol. */
  const NoSymbolLine: string := "No symbol here"

  /** `name : typeName`, the part every symbol line starts with. */
  function Head(s: SymbolInfo): string {
    s.name + " : " + s.typ.name
  }

  function SymbolLine(s: SymbolInfo): (line: string)
    ensures Head(s) <= line
    ensures line == Head(s) <==> s.typ.declAs.GetOr("") == "" && s.typ.fullName.GetOr("") == ""
    ensures line != Head(s) ==>
      line[|Head(s)|..] == " (" + s.typ.declAs.GetOr("") + " " + s.typ.fullName.GetOr("") + ")"
  {
    var declAs := s.typ.declAs.GetOr("");
    var fullName := s.typ.fullName.GetOr("");
    var out := Head(s);
    if declAs != "" || fullName != "" then
      var line := out + " (" + declAs + " " + fullName + ")";
      assert line[|out|..] == " (" + declAs + " " + fullName + ")";
      line
    else
      out
  }

  /** The preview never shows a symbol line that could be taken for the
      "no symbol" line: every symbol line contains " : ". */
  lemma SymbolLineNotNoSymbol(s: SymbolInfo)
    ensures SymbolLine(s) != NoSymbolLine
  {
    var line := SymbolLine(s);
    var k := |s.name|;
    assert line[k + 1] == Head(s)[k + 1] == ':';
    assert forall i :: 0 <= i < |NoSymbolLine| ==> NoSymbolLine[i] != ':';
    assert line != NoSymbolLine;
  }

  /** An absent `decl-as` or `full-name` gives the same line as an empty one. */
  lemma AbsentMeansEmpty(name: string, typeName: string, declAs: Option<string>, fullName: Option<string>)
    ensures SymbolLine(SymbolInfo(name, TypeInfo(typeName, declAs, fullName)))
         == SymbolLine(SymbolInfo(name, TypeInfo(typeName, Some(declAs.GetOr("")), Some(fullName.GetOr("")))))
  {
  }

  /** A value of type String whose type has no declaration data: no suffix. */
  lemma PlainValueLine()
    ensures SymbolLine(SymbolInfo("toto", TypeInfo("String", None, None))) == "toto : String"
  {
  }

  /** Both fields present: the suffix carries both. */
  lemma FullyDeclaredLine()
    ensures SymbolLine(SymbolInfo("toto", TypeInfo("String", Some("class"), Some("java.lang.String"))))
         == "toto : String (class java.lang.String)"
  {
    var s := SymbolInfo("toto", TypeInfo("String", Some("class"), Some("java.lang.String")));
    assert Head(s) == "toto : String";
    var suffix := " (" + "class" + " " + "java.lang.String" + ")";
    assert suffix == " (class java.lang.String)";
    assert SymbolLine(s) == Head(s) + suffix;
  }

  /** A lone `decl-as` still produces the suffix, with an empty full name. */
  lemma LoneDeclAsLine()
    ensures SymbolLine(SymbolInfo("toto", TypeInfo("String", Some("class"), None))) == "toto : String (class )"
  {
  }
}
