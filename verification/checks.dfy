/**
  The checks as the plugins run them: each copies the name into `tempName`,
  edits that copy, builds the fix-it over the name's range and reports through
  the diagnostics engine. Each appends exactly the warnings its rule in
  `Rules` describes, and nothing else changes.
 */
module Checks {
  import opened Wrappers
  import opened Text
  import opened Decls
  import opened Diagnostics
  import opened Rules

  /** `checkClassNameForLowercaseName`: upper-case the first character of the copy. */
  method CheckClassNameForLowercaseName(diag: DiagnosticsEngine, d: ClassDecl)
    requires ValidClass(d)
    modifies diag
    ensures diag.reported == old(diag.reported) + ClassLowercase(d)
  {
    var c := d.name[0];
    if IsLower(c) {
      var tempName := d.name;
      tempName := tempName[0 := ToUpper(c)];
      diag.Report(d.loc, ClassLowercaseName, Some(Replacement(NameRange(d.loc, |d.name|), tempName)));
    }
  }

  /** `checkClassNameForUnderscoreInName`: remove every underscore of the copy; report at the first one. */
  method CheckClassNameForUnderscoreInName(diag: DiagnosticsEngine, d: ClassDecl)
    modifies diag
    ensures diag.reported == old(diag.reported) + ClassUnderscore(d)
  {
    var underscorePos := FindChar(d.name, '_', 0);
    if underscorePos.Some? {
      var tempName := RemoveUnderscores(d.name, 0);
      diag.Report(d.loc + underscorePos.value, ClassUnderscoreInName,
                  Some(Replacement(NameRange(d.loc, |d.name|), tempName)));
    }
  }

  /** `checkPropertyDecl`: a string, array or dictionary property without `copy`. */
  method CheckPropertyDecl(diag: DiagnosticsEngine, d: PropertyDecl)
    modifies diag
    ensures diag.reported == old(diag.reported) + PropertyCopy(d)
  {
    if d.hasTypeSourceInfo && ShouldUseCopy(d.typeStr) && Copy !in d.attributes {
      diag.Report(d.beginLoc, PropertyNotCopy(d.typeStr), None);
    }
  }

  /** `checkPropertyNameForUppercaseName`: lower-case the checked character of the copy. */
  method CheckPropertyNameForUppercaseName(diag: DiagnosticsEngine, d: PropertyDecl)
    requires ValidProperty(d)
    modifies diag
    ensures diag.reported == old(diag.reported) + PropertyUppercase(d)
  {
    var checkUppercaseNameIndex := 0;
    if FindChar(d.name, '_', 0) == Some(0) {
      checkUppercaseNameIndex := 1;
      assert d.name == d.name[..1] + d.name[1..];
    }
    var c := d.name[checkUppercaseNameIndex];
    if IsUpper(c) {
      var tempName := d.name;
      tempName := tempName[checkUppercaseNameIndex := ToLower(c)];
      diag.Report(d.loc, PropertyUppercaseName, Some(Replacement(NameRange(d.loc, |d.name|), tempName)));
    }
  }

  /** `checkPropertyNameForUnderscoreInName`: remove the underscores after the first character. */
  method CheckPropertyNameForUnderscoreInName(diag: DiagnosticsEngine, d: PropertyDecl)
    modifies diag
    ensures diag.reported == old(diag.reported) + PropertyUnderscore(d)
  {
    if |d.name| == 1 {
      return;
    }
    var underscorePos := FindChar(d.name, '_', 1);
    if underscorePos.Some? {
      var tempName := RemoveUnderscores(d.name, 1);
      diag.Report(d.loc, PropertyUnderscoreInName, Some(Replacement(NameRange(d.loc, |d.name|), tempName)));
    }
  }

  /** `checkDelegatePropertyForUsageWeak`: a protocol-typed property without `weak`. */
  method CheckDelegatePropertyForUsageWeak(diag: DiagnosticsEngine, d: PropertyDecl)
    modifies diag
    ensures diag.reported == old(diag.reported) + DelegateWeak(d)
  {
    if FindSub(d.typeStr, "<", 0).Some? && FindSub(d.typeStr, ">", 0).Some? {
      if Weak !in d.attributes {
        diag.Report(d.loc, DelegateNotWeak, None);
      }
    }
  }

  /** `checkMethodNameForUppercaseName`: the loop over the selector slots. */
  method CheckMethodNameForUppercaseName(diag: DiagnosticsEngine, m: MethodDecl)
    requires AllNamed(m.selector)
    modifies diag
    ensures diag.reported == old(diag.reported) + SelectorUppercase(m)
  {
    var selectorPartCount := |m.selector|;
    var i := 0;
    while i < selectorPartCount
      invariant 0 <= i <= selectorPartCount
      invariant AllNamed(m.selector[..i])
      invariant diag.reported
                == old(diag.reported) + LeadingUppercase(m.loc, MethodUppercaseName, m.selector[..i])
    {
      var selName := m.selector[i].name;
      var c := selName[0];
      if IsUpper(c) {
        var tempName := selName;
        tempName := tempName[0 := ToLower(c)];
        var nameStart := m.selector[i].loc;
        diag.Report(m.loc, MethodUppercaseName, Some(Replacement(NameRange(nameStart, |selName|), tempName)));
      }
      assert m.selector[..i + 1][..i] == m.selector[..i];
      i := i + 1;
    }
    assert m.selector[..i] == m.selector;
  }

  /** `checkMethodParamsNameForUppercaseName`: the loop over the parameters. */
  method CheckMethodParamsNameForUppercaseName(diag: DiagnosticsEngine, m: MethodDecl)
    requires AllNamed(m.params)
    modifies diag
    ensures diag.reported == old(diag.reported) + ParamsUppercase(m)
  {
    var it := 0;
    while it < |m.params|
      invariant 0 <= it <= |m.params|
      invariant AllNamed(m.params[..it])
      invariant diag.reported
                == old(diag.reported) + LeadingUppercase(m.loc, ParamUppercaseName, m.params[..it])
    {
      var parmVarDecl := m.params[it];
      var name := parmVarDecl.name;
      var c := name[0];
      if IsUpper(c) {
        var tempName := name;
        tempName := tempName[0 := ToLower(c)];
        diag.Report(m.loc, ParamUppercaseName,
                    Some(Replacement(NameRange(parmVarDecl.loc, |name|), tempName)));
      }
      assert m.params[..it + 1][..it] == m.params[..it];
      it := it + 1;
    }
    assert m.params[..it] == m.params;
  }

  /** `checkMethodBodyForOver50Lines`: split the body text on newlines and count. */
  method CheckMethodBodyForOver50Lines(diag: DiagnosticsEngine, m: MethodDecl)
    modifies diag
    ensures diag.reported == old(diag.reported) + BodyTooLong(m)
  {
    if m.body.Some? {
      var srcCode := m.body.value;
      var lines := Split(srcCode, '\n');
      if |lines| > MAX_METHOD_LINES {
        diag.Report(m.beginLoc, MethodOver50Lines, None);
      }
    }
  }
}
