/**
  The FYPlugin entry point: a recursive AST visitor whose `VisitObjC*Decl`
  callbacks run, for declarations in user code, the checks of that kind in a
  fixed order, and always let the traversal continue.
 */
module FYPlugin {
  import opened Text
  import opened Decls
  import opened Diagnostics
  import opened Rules
  import opened Checks
  import opened Ordering

  /** What `VisitObjCInterfaceDecl` reports: lower-case rule, then underscore rule. */
  function VisitInterface(d: ClassDecl): (r: seq<Diagnostic>)
    requires IsUserSourceCode(d.file) ==> ValidClass(d)
    ensures |r| <= 2
    ensures forall w :: w in r ==> w.message == ClassLowercaseName || w.message == ClassUnderscoreInName
  {
    if IsUserSourceCode(d.file) then ClassLowercase(d) + ClassUnderscore(d) else []
  }

  /** What `VisitObjCMethodDecl` reports: selector slots, then parameters, then body length. */
  function VisitMethod(m: MethodDecl): (r: seq<Diagnostic>)
    requires IsUserSourceCode(m.file) ==> ValidMethod(m)
    ensures |r| <= |m.selector| + |m.params| + 1
  {
    if IsUserSourceCode(m.file) then SelectorUppercase(m) + ParamsUppercase(m) + BodyTooLong(m) else []
  }

  /** What `VisitObjCPropertyDecl` reports: copy, upper-case, underscore, then weak rule. */
  function VisitProperty(d: PropertyDecl): (r: seq<Diagnostic>)
    requires IsUserSourceCode(d.file) ==> ValidProperty(d)
    ensures |r| <= 4
  {
    if IsUserSourceCode(d.file) then
      PropertyCopy(d) + PropertyUppercase(d) + PropertyUnderscore(d) + DelegateWeak(d)
    else []
  }

  class FYPluginVisitor {
    /** `Instance.getDiagnostics()`. */
    const diag: DiagnosticsEngine

    constructor (diag: DiagnosticsEngine)
      ensures this.diag == diag
    {
      this.diag := diag;
    }

    method VisitObjCInterfaceDecl(declaration: ClassDecl) returns (continueTraversal: bool)
      requires IsUserSourceCode(declaration.file) ==> ValidClass(declaration)
      modifies diag
      ensures continueTraversal
      ensures diag.reported == old(diag.reported) + VisitInterface(declaration)
    {
      if IsUserSourceCode(declaration.file) {
        CheckClassNameForLowercaseName(diag, declaration);
        CheckClassNameForUnderscoreInName(diag, declaration);
      }
      return true;
    }

    method VisitObjCMethodDecl(declaration: MethodDecl) returns (continueTraversal: bool)
      requires IsUserSourceCode(declaration.file) ==> ValidMethod(declaration)
      modifies diag
      ensures continueTraversal
      ensures diag.reported == old(diag.reported) + VisitMethod(declaration)
    {
      if IsUserSourceCode(declaration.file) {
        CheckMethodNameForUppercaseName(diag, declaration);
        CheckMethodParamsNameForUppercaseName(diag, declaration);
        CheckMethodBodyForOver50Lines(diag, declaration);
      }
      return true;
    }

    method VisitObjCPropertyDecl(declaration: PropertyDecl) returns (continueTraversal: bool)
      requires IsUserSourceCode(declaration.file) ==> ValidProperty(declaration)
      modifies diag
      ensures continueTraversal
      ensures diag.reported == old(diag.reported) + VisitProperty(declaration)
    {
      if IsUserSourceCode(declaration.file) {
        ghost var before := diag.reported;
        CheckPropertyDecl(diag, declaration);
        CheckPropertyNameForUppercaseName(diag, declaration);
        CheckPropertyNameForUnderscoreInName(diag, declaration);
        CheckDelegatePropertyForUsageWeak(diag, declaration);
        AppendFour(before, PropertyCopy(declaration), PropertyUppercase(declaration),
                   PropertyUnderscore(declaration), DelegateWeak(declaration));
      }
      return true;
    }
  }

  /**
    A declaration from platform code, or without a file, gets no warning
    whatever its names: the filter returns before any name is read.
   */
  lemma PlatformCodeIsSilent(c: ClassDecl, m: MethodDecl, p: PropertyDecl)
    ensures c.file == [] || StartsWith(c.file, XCODE_ROOT) ==> VisitInterface(c) == []
    ensures m.file == [] || StartsWith(m.file, XCODE_ROOT) ==> VisitMethod(m) == []
    ensures p.file == [] || StartsWith(p.file, XCODE_ROOT) ==> VisitProperty(p) == []
  {
  }

  /** The position of a rule in FYPlugin's per-kind order. */
  function CatalogRank(m: Message): nat {
    match m
    case ClassLowercaseName => 0
    case ClassUnderscoreInName => 1
    case PropertyNotCopy(_) => 0
    case PropertyUppercaseName => 1
    case PropertyUnderscoreInName => 2
    case DelegateNotWeak => 3
    case MethodUppercaseName => 0
    case ParamUppercaseName => 1
    case MethodOver50Lines => 2
  }

  /** The class visitor reports the lower-case warning before the underscore warning. */
  lemma VisitInterfaceInOrder(c: ClassDecl)
    requires IsUserSourceCode(c.file) ==> ValidClass(c)
    ensures Ordered(VisitInterface(c), CatalogRank)
  {
    if !IsUserSourceCode(c.file) { return; }
    var a, b := ClassLowercase(c), ClassUnderscore(c);
    ClassRulesSingle(c, CatalogRank);
    SingleRuleOrdered(a, CatalogRank, 0);
    SingleRuleOrdered(b, CatalogRank, 1);
    OrderedConcat(a, b, CatalogRank, 0, 0, 1);
  }

  /**
    The method visitor reports slot warnings, then parameter warnings, then
    the length warning: the three rules appended in that order are in rule order.
   */
  lemma VisitMethodInOrder(m: MethodDecl)
    requires IsUserSourceCode(m.file) ==> ValidMethod(m)
    ensures ValidMethod(m) ==> Ordered(SelectorUppercase(m) + ParamsUppercase(m) + BodyTooLong(m), CatalogRank)
    ensures Ordered(VisitMethod(m), CatalogRank)
  {
    if !ValidMethod(m) { return; }
    var a, b, e := SelectorUppercase(m), ParamsUppercase(m), BodyTooLong(m);
    LoopRanks(m.loc, MethodUppercaseName, m.selector, CatalogRank);
    LoopRanks(m.loc, ParamUppercaseName, m.params, CatalogRank);
    BodyRuleSingle(m, CatalogRank);
    SingleRuleOrdered(e, CatalogRank, 2);
    OrderedConcat(a, b, CatalogRank, 0, 0, 1);
    OrderedConcat(a + b, e, CatalogRank, 0, 1, 2);
    assert VisitMethod(m) == a + b + e || VisitMethod(m) == [];
  }

  /**
    The property visitor reports the copy, upper-case, underscore and weak
    warnings in that order: the four rules appended so are in rule order.
   */
  lemma VisitPropertyInOrder(p: PropertyDecl)
    requires IsUserSourceCode(p.file) ==> ValidProperty(p)
    ensures ValidProperty(p) ==>
              Ordered(PropertyCopy(p) + PropertyUppercase(p) + PropertyUnderscore(p) + DelegateWeak(p), CatalogRank)
    ensures Ordered(VisitProperty(p), CatalogRank)
  {
    if !ValidProperty(p) { return; }
    var a, b, e, f := PropertyCopy(p), PropertyUppercase(p), PropertyUnderscore(p), DelegateWeak(p);
    PropertyRulesSingle(p, CatalogRank);
    SingleRuleOrdered(a, CatalogRank, 0);
    SingleRuleOrdered(b, CatalogRank, 1);
    SingleRuleOrdered(e, CatalogRank, 2);
    SingleRuleOrdered(f, CatalogRank, 3);
    OrderedConcat(a, b, CatalogRank, 0, 0, 1);
    OrderedConcat(a + b, e, CatalogRank, 0, 1, 2);
    OrderedConcat(a + b + e, f, CatalogRank, 0, 2, 3);
    assert VisitProperty(p) == a + b + e + f || VisitProperty(p) == [];
  }
}
