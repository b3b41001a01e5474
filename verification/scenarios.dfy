/**
  Concrete declarations and what the two plugins report for them: the
  everyday cases the rules were written for.
 */
module Scenarios {
  import opened Wrappers
  import opened Text
  import opened Decls
  import opened Diagnostics
  import opened Rules
  import FYPlugin
  import CodeCheckPlugin

  /** Files of the project being compiled. */
  const ProjectHeader := "/Users/dev/App/Person.h"
  const ProjectSource := "/Users/dev/App/Person.m"

  /** Neither project file lies under the Xcode installation. */
  lemma ProjectFilesAreUserCode()
    ensures IsUserSourceCode(ProjectHeader) && IsUserSourceCode(ProjectSource)
  {
  }

  /** `@property (nonatomic, strong) NSString *age;` in a project header. */
  const Age := PropertyDecl("age", 50, 10, ProjectHeader, "NSString *", true, {Nonatomic, Strong})

  /** `@property (nonatomic, strong) id<SomeProtocol> delegate;` in a project header. */
  const Delegate := PropertyDecl("delegate", 107, 60, ProjectHeader, "id<SomeProtocol>", true,
                                 {Nonatomic, Strong})

  /** `- (void)doThing:(int)x WithValue:(int)value;`, the second selector slot starting upper-case. */
  const DoThing := MethodDecl([Ident("doThing", 8), Ident("WithValue", 23)],
                              [Ident("x", 21), Ident("value", 38)], 0, 0, ProjectSource, None)

  /** A header of the platform SDK declaring a class whose name breaks both class rules. */
  const PlatformClass := ClassDecl("my_View", 120, XCODE_ROOT + "Contents/Developer/Platforms/UIKit.h")

  /** A string property without `copy` gets the copy warning naming its type; declaring it `copy` silences it. */
  lemma StringPropertyWithoutCopy()
    ensures PropertyCopy(Age) == [Diagnostic(10, PropertyNotCopy("NSString *"), None)]
    ensures PropertyCopy(Age.(attributes := Age.attributes + {Copy})) == []
  {
    assert OccursAt(Age.typeStr, "NSString", 0);
    PropertyCopyRule(Age);
  }

  /** A delegate property that is not `weak` gets the delegate warning; declaring it `weak` silences it. */
  lemma DelegateWithoutWeak()
    ensures DelegateWeak(Delegate) == [Diagnostic(107, DelegateNotWeak, None)]
    ensures DelegateWeak(Delegate.(attributes := Delegate.attributes + {Weak})) == []
  {
    assert OccursAt(Delegate.typeStr, "<", 2) && OccursAt(Delegate.typeStr, ">", 15);
    DelegateWeakRule(Delegate);
  }

  /** The delegate property's type is no string, array or dictionary type, so it needs no `copy`. */
  lemma DelegateNeedsNoCopy()
    ensures PropertyCopy(Delegate) == []
  {
    assert 'N' !in Delegate.typeStr;
    if Contains(Delegate.typeStr, "NSString") { ContainsFirst(Delegate.typeStr, "NSString"); }
    if Contains(Delegate.typeStr, "NSArray") { ContainsFirst(Delegate.typeStr, "NSArray"); }
    if Contains(Delegate.typeStr, "NSDictionary") { ContainsFirst(Delegate.typeStr, "NSDictionary"); }
  }

  /**
    `doThing:WithValue:` gets exactly one selector warning, anchored at the
    method, whose fix rewrites only the slot `WithValue` to `withValue`.
   */
  lemma UpperCaseSelectorSlot()
    ensures Rules.SelectorUppercase(DoThing)
            == [Diagnostic(0, MethodUppercaseName, Some(Replacement(SourceRange(23, 31), "withValue")))]
    ensures Rules.ParamsUppercase(DoThing) == []
  {
    var slots, params := DoThing.selector, DoThing.params;
    assert slots[..1] == [Ident("doThing", 8)] && slots[..1][..0] == [];
    assert LeadingUppercase(0, MethodUppercaseName, slots[..1]) == [];
    assert ToLower('W') == 'w';
    assert "WithValue"[0 := 'w'] == "withValue";
    assert SelectorUppercase(DoThing) == LeadingUppercase(0, MethodUppercaseName, slots[..1])
                                         + IdentWarning(0, MethodUppercaseName, slots[1]);
    assert params[..1] == [Ident("x", 21)] && params[..1][..0] == [];
    assert LeadingUppercase(0, ParamUppercaseName, params[..1]) == [];
  }

  /** Platform code is silent in both plugins, though the same class in a project file breaks both class rules. */
  lemma PlatformClassIsSilent()
    ensures FYPlugin.VisitInterface(PlatformClass) == []
    ensures CodeCheckPlugin.InterfaceReport(PlatformClass) == []
    ensures |Rules.ClassLowercase(PlatformClass) + Rules.ClassUnderscore(PlatformClass)| == 2
  {
    assert StartsWith(PlatformClass.file, XCODE_ROOT);
    assert PlatformClass.name[2] == '_';
    assert FindChar(PlatformClass.name, '_', 0).Some?;
  }

  /** A method of 51 lines whose first slot starts upper-case: the two plugins report in opposite orders. */
  lemma DispatchOrdersDiffer(line: string)
    requires '\n' !in line
    ensures var m := MethodDecl([Ident("DoThing", 8)], [], 0, 0, ProjectSource,
                                Some(Repeat(line + "\n", 51)));
      var slot := Diagnostic(0, MethodUppercaseName, Some(Replacement(SourceRange(8, 14), "doThing")));
      var long := Diagnostic(0, MethodOver50Lines, None);
      && FYPlugin.VisitMethod(m) == [slot, long]
      && CodeCheckPlugin.MethodReport(m) == [long, slot]
  {
    var m := MethodDecl([Ident("DoThing", 8)], [], 0, 0, ProjectSource, Some(Repeat(line + "\n", 51)));
    RepeatedLines(line, 51);
    ProjectFilesAreUserCode();
    assert ToLower('D') == 'd';
    assert "DoThing"[0 := 'd'] == "doThing";
    assert m.selector[..0] == [];
    assert SelectorUppercase(m) == [Diagnostic(0, MethodUppercaseName, Some(Replacement(SourceRange(8, 14), "doThing")))];
    assert BodyTooLong(m) == [Diagnostic(0, MethodOver50Lines, None)];
  }
}
