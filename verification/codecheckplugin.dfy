/**
  The CodeCheckPlugin entry point: a match callback whose `run` receives the
  nodes one AST matcher bound, and runs, for each bound declaration from user
  code, the checks of its kind. It shares every rule with FYPlugin but merges
  the two class checks into one function, runs the body-length check before
  the selector check, and has no parameter check.
 */
module CodeCheckPlugin {
  import opened Wrappers
  import opened Text
  import opened Decls
  import opened Diagnostics
  import opened Rules
  import opened Checks
  import opened Ordering
  import FYPlugin

  /** The nodes bound under `"ObjCInterfaceDecl"`, `"ObjCPropertyDecl"` and `"ObjCMethodDecl"`. */
  datatype MatchResult = MatchResult(
    interfaceDecl: Option<ClassDecl>,
    propertyDecl: Option<PropertyDecl>,
    methodDecl: Option<MethodDecl>)

  /**
    Every bound declaration from user code meets what its checks read without
    a guard; `run` reads the selector slots of a method but not its parameters.
   */
  predicate ValidMatch(r: MatchResult) {
    && (r.interfaceDecl.Some? && IsUserSourceCode(r.interfaceDecl.value.file) ==> ValidClass(r.interfaceDecl.value))
    && (r.propertyDecl.Some? && IsUserSourceCode(r.propertyDecl.value.file) ==> ValidProperty(r.propertyDecl.value))
    && (r.methodDecl.Some? && IsUserSourceCode(r.methodDecl.value.file) ==> AllNamed(r.methodDecl.value.selector))
  }

  /** What `checkInterfaceDecl` reports: the lower-case warning, then the underscore warning. */
  function CheckInterface(d: ClassDecl): (r: seq<Diagnostic>)
    requires ValidClass(d)
    ensures |r| <= 2
    ensures forall w :: w in r ==> w.message == ClassLowercaseName || w.message == ClassUnderscoreInName
  {
    ClassLowercase(d) + ClassUnderscore(d)
  }

  /** The class branch of `run`. */
  function InterfaceReport(d: ClassDecl): (r: seq<Diagnostic>)
    requires IsUserSourceCode(d.file) ==> ValidClass(d)
    ensures |r| <= 2
  {
    if IsUserSourceCode(d.file) then CheckInterface(d) else []
  }

  /** The property branch of `run`: copy, upper-case, underscore, then weak rule. */
  function PropertyReport(d: PropertyDecl): (r: seq<Diagnostic>)
    requires IsUserSourceCode(d.file) ==> ValidProperty(d)
    ensures |r| <= 4
  {
    if IsUserSourceCode(d.file) then
      PropertyCopy(d) + PropertyUppercase(d) + PropertyUnderscore(d) + DelegateWeak(d)
    else []
  }

  /** The method branch of `run`: body length first, then selector slots; no parameter rule. */
  function MethodReport(m: MethodDecl): (r: seq<Diagnostic>)
    requires IsUserSourceCode(m.file) ==> AllNamed(m.selector)
    ensures |r| <= |m.selector| + 1
    ensures forall w :: w in r ==> w.message == MethodOver50Lines || w.message == MethodUppercaseName
  {
    if IsUserSourceCode(m.file) then BodyTooLong(m) + SelectorUppercase(m) else []
  }

  /** What `run` reports for one match: class, then property, then method branch. */
  function RunReport(r: MatchResult): (res: seq<Diagnostic>)
    requires ValidMatch(r)
    ensures |res| <= 6 + (if r.methodDecl.Some? then |r.methodDecl.value.selector| + 1 else 0)
  {
    (if r.interfaceDecl.Some? then InterfaceReport(r.interfaceDecl.value) else [])
    + (if r.propertyDecl.Some? then PropertyReport(r.propertyDecl.value) else [])
    + (if r.methodDecl.Some? then MethodReport(r.methodDecl.value) else [])
  }

  class CodeCheckHandler {
    /** `ci.getDiagnostics()`. */
    const diag: DiagnosticsEngine

    constructor (diag: DiagnosticsEngine)
      ensures this.diag == diag
    {
      this.diag := diag;
    }

    /** `checkInterfaceDecl`: both class checks, each computing its fix from the original name. */
    method CheckInterfaceDecl(decl: ClassDecl)
      requires ValidClass(decl)
      modifies diag
      ensures diag.reported == old(diag.reported) + CheckInterface(decl)
    {
      CheckClassNameForLowercaseName(diag, decl);
      CheckClassNameForUnderscoreInName(diag, decl);
    }

    /** `run`: each bound declaration from user code goes through the checks of its kind. */
    method Run(result: MatchResult)
      requires ValidMatch(result)
      modifies diag
      ensures diag.reported == old(diag.reported) + RunReport(result)
    {
      ghost var log0 := diag.reported;
      ghost var classPart := if result.interfaceDecl.Some? then InterfaceReport(result.interfaceDecl.value) else [];
      ghost var propertyPart := if result.propertyDecl.Some? then PropertyReport(result.propertyDecl.value) else [];
      ghost var methodPart := if result.methodDecl.Some? then MethodReport(result.methodDecl.value) else [];
      if result.interfaceDecl.Some? {
        var interfaceDecl := result.interfaceDecl.value;
        if IsUserSourceCode(interfaceDecl.file) {
          CheckInterfaceDecl(interfaceDecl);
        }
      }
      assert diag.reported == log0 + classPart;
      ghost var log1 := diag.reported;
      if result.propertyDecl.Some? {
        var propertyDecl := result.propertyDecl.value;
        if IsUserSourceCode(propertyDecl.file) {
          CheckPropertyDecl(diag, propertyDecl);
          CheckPropertyNameForUppercaseName(diag, propertyDecl);
          CheckPropertyNameForUnderscoreInName(diag, propertyDecl);
          CheckDelegatePropertyForUsageWeak(diag, propertyDecl);
          AppendFour(log1, PropertyCopy(propertyDecl), PropertyUppercase(propertyDecl),
                     PropertyUnderscore(propertyDecl), DelegateWeak(propertyDecl));
        }
      }
      assert diag.reported == log1 + propertyPart;
      ghost var log2 := diag.reported;
      if result.methodDecl.Some? {
        var methodDecl := result.methodDecl.value;
        if IsUserSourceCode(methodDecl.file) {
          CheckMethodBodyForOver50Lines(diag, methodDecl);
          CheckMethodNameForUppercaseName(diag, methodDecl);
          AppendTwo(log2, BodyTooLong(methodDecl), SelectorUppercase(methodDecl));
        }
      }
      assert diag.reported == log2 + methodPart;
      AppendThree(log0, classPart, propertyPart, methodPart);
    }
  }

  /**
    `checkInterfaceDecl` reports the lower-case warning before the underscore
    warning; both fixes cover the same whole-name range and are computed from
    the original name, so neither includes the other's edit.
   */
  lemma CheckInterfaceRule(d: ClassDecl)
    requires ValidClass(d)
    ensures var r := CheckInterface(d);
      && |r| == (if IsLower(d.name[0]) then 1 else 0) + (if '_' in d.name then 1 else 0)
      && (IsLower(d.name[0]) ==>
            r[0] == Diagnostic(d.loc, ClassLowercaseName,
                               Some(Replacement(NameRange(d.loc, |d.name|), d.name[0 := ToUpper(d.name[0])]))))
      && ('_' in d.name ==>
            var w := r[|r| - 1];
            && w.message == ClassUnderscoreInName
            && w.hint == Some(Replacement(NameRange(d.loc, |d.name|), StripUnderscores(d.name, 0)))
            && d.loc <= w.loc < d.loc + |d.name| && d.name[w.loc - d.loc] == '_'
            && (forall k :: 0 <= k < w.loc - d.loc ==> d.name[k] != '_'))
  {
  }

  /** On classes and properties `run` reports exactly what FYPlugin's visitor reports. */
  lemma AgreesWithFYOnClassesAndProperties(c: ClassDecl, p: PropertyDecl)
    requires IsUserSourceCode(c.file) ==> ValidClass(c)
    requires IsUserSourceCode(p.file) ==> ValidProperty(p)
    ensures InterfaceReport(c) == FYPlugin.VisitInterface(c)
    ensures PropertyReport(p) == FYPlugin.VisitProperty(p)
  {
  }

  /**
    On methods `run` reports FYPlugin's warnings less the parameter warnings:
    the same warnings counted with multiplicity, once those are added back.
    For a method without parameters both plugins report the same warnings.
   */
  lemma MethodWarningsVersusFY(m: MethodDecl)
    requires IsUserSourceCode(m.file) ==> ValidMethod(m)
    ensures var params := if IsUserSourceCode(m.file) then ParamsUppercase(m) else [];
      multiset(MethodReport(m)) + multiset(params) == multiset(FYPlugin.VisitMethod(m))
    ensures m.params == [] ==> multiset(MethodReport(m)) == multiset(FYPlugin.VisitMethod(m))
  {
  }

  /** The rank of a method warning in `run`'s order: body length before selector slots. */
  function BodyFirstRank(m: Message): nat {
    match m
    case MethodOver50Lines => 0
    case MethodUppercaseName => 1
    case _ => 2
  }

  /**
    Per kind `run` reports in its own order: class and property warnings in
    FYPlugin's order, the length warning before any selector warning.
   */
  lemma RunInOrder(r: MatchResult)
    requires ValidMatch(r)
    ensures r.interfaceDecl.Some? ==> Ordered(InterfaceReport(r.interfaceDecl.value), FYPlugin.CatalogRank)
    ensures r.propertyDecl.Some? ==> Ordered(PropertyReport(r.propertyDecl.value), FYPlugin.CatalogRank)
    ensures r.methodDecl.Some? ==> Ordered(MethodReport(r.methodDecl.value), BodyFirstRank)
  {
    if r.interfaceDecl.Some? {
      FYPlugin.VisitInterfaceInOrder(r.interfaceDecl.value);
    }
    if r.propertyDecl.Some? {
      FYPlugin.VisitPropertyInOrder(r.propertyDecl.value);
    }
    if r.methodDecl.Some? && IsUserSourceCode(r.methodDecl.value.file) {
      var m := r.methodDecl.value;
      var a, b := BodyTooLong(m), SelectorUppercase(m);
      BodyRuleSingle(m, BodyFirstRank);
      SingleRuleOrdered(a, BodyFirstRank, 0);
      LoopRanks(m.loc, MethodUppercaseName, m.selector, BodyFirstRank);
      OrderedConcat(a, b, BodyFirstRank, 0, 0, 1);
    }
  }

  /** A match whose bound declarations all come from platform code, or no file, reports nothing. */
  lemma PlatformMatchIsSilent(r: MatchResult)
    requires r.interfaceDecl.Some? ==> !IsUserSourceCode(r.interfaceDecl.value.file)
    requires r.propertyDecl.Some? ==> !IsUserSourceCode(r.propertyDecl.value.file)
    requires r.methodDecl.Some? ==> !IsUserSourceCode(r.methodDecl.value.file)
    ensures RunReport(r) == []
  {
  }
}
