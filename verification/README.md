# Objective-C naming and style rules, modelled in Dafny

Two clang plugins, FYPlugin and CodeCheckPlugin, check Objective-C declarations
against the same house style. Each check reads one declaration and may append
a warning to the compiler's diagnostics engine. Most warnings carry a fix-it:
a replacement text over a source range. The rules are:

- a class name must start upper-case and must contain no underscore;
- a property whose printed type mentions `NSString`, `NSArray` or
  `NSDictionary` must be `copy`;
- a property name must not start upper-case, where the first character after
  a leading underscore is the one checked;
- a property name must contain no underscore after its first character;
- a delegate property, meaning one whose type contains both `<` and `>`,
  must be `weak`;
- no selector slot and no parameter name may start upper-case;
- a method body may not exceed 50 lines.

Declarations from platform code are skipped. Platform code means a file
under `/Applications/Xcode.app/`, or no file at all.

FYPlugin dispatches the checks from a recursive AST visitor (`Visit*Decl`).
CodeCheckPlugin dispatches them from a matcher callback (`run`). The two
differ in four ways:

- CodeCheckPlugin merges the two class checks into one function;
- it runs the body-length check before the selector check;
- it has no parameter check, and registers no parameter message;
- it words the class-underscore and property-upper-case messages
  differently.

The model is organised as follows:

- `wrappers.dfy` has `Option`.
- `text.dfy` (module `Text`) holds the string primitives the checks use:
  - clang's ASCII case tests and flips;
  - `find` as a first-occurrence search;
  - `std::remove` followed by `erase`, done in place on an array;
  - the `getline`-based `split`, with `Lines` as its specification.
- `decls.dfy` (module `Decls`) holds the declarations as values:
  - names are `seq<char>` and locations are `nat` character offsets;
  - property attributes are a set;
  - a method body is its already-extracted text.
- `diagnostics.dfy` (module `Diagnostics`) holds:
  - warnings, fix-its and source ranges;
  - each plugin's message strings;
  - the diagnostics engine, a class whose `reported` sequence only grows.
- `rules.dfy` (module `Rules`) is the shared rule library. Each check is a
  function from a declaration to the warnings it appends, and lemmas state
  what each rule promises.
- `checks.dfy` (module `Checks`) holds the checks as the source runs them. It
  copies the name into `tempName`, edits the copy, builds the fix-it and
  reports. Each method is proved to append exactly its rule's warnings.
- `ordering.dfy` (module `Ordering`) defines what it means for a report to
  follow a plugin's rule order.
- `fyplugin.dfy` and `codecheckplugin.dfy` hold the two dispatchers. Each is
  a class over the engine with a specification function per entry point, plus
  lemmas for the filter, the dispatch order and how the two plugins compare.
- `scenarios.dfy` works through concrete declarations.

## Model

| member | source | states |
|---|---|---|
| Text.IsUpper | clangPlugin/FYPlugin/FYPlugin.cpp:118 | clang's `isUppercase` holds only of ASCII characters |
| Text.IsLower | clangPlugin/FYPlugin/FYPlugin.cpp:195 | clang's `isLowercase` holds only of ASCII characters, and never of an upper-case letter |
| Text.ToUpper | clangPlugin/FYPlugin/FYPlugin.cpp:195-199 | `toUppercase` turns an ASCII lower-case letter into the same letter upper-case, at the same place in the alphabet, and leaves every other character alone |
| Text.ToLower | clangPlugin/FYPlugin/FYPlugin.cpp:118-122 | `toLowercase` turns an ASCII upper-case letter into the same letter lower-case, at the same place in the alphabet, and leaves every other character alone |
| Text.CaseConversionsInverse | clangPlugin/FYPlugin/FYPlugin.cpp:195-199 | lower-casing undoes upper-casing of a lower-case letter, and the reverse |
| Text.FindSub | clangPlugin/FYPlugin/FYPlugin.cpp:319 | `find(sub, from)` returns the first position at or after `from` where `sub` occurs, or nothing when there is none |
| Text.FindChar | clangPlugin/FYPlugin/FYPlugin.cpp:147 | `find(c, from)` returns the first position at or after `from` holding `c`, or nothing when there is none |
| Text.ContainsFirst | clangPlugin/FYPlugin/FYPlugin.cpp:324-331 | a text that contains a non-empty string contains that string's first character |
| Text.FindSubFromStart | clangPlugin/FYPlugin/FYPlugin.cpp:319 | a search from 0 finds something iff the text contains the string, and finds it at 0 iff the text starts with it |
| Text.Without | clangPlugin/FYPlugin/FYPlugin.cpp:222-223 | dropping a character never makes a text longer |
| Text.WithoutExcludes | clangPlugin/FYPlugin/FYPlugin.cpp:222-223 | removing every `c` leaves no `c` |
| Text.WithoutMultiset | clangPlugin/FYPlugin/FYPlugin.cpp:222-223 | removing every `c` keeps every other character with its multiplicity |
| Text.WithoutAbsent | clangPlugin/FYPlugin/FYPlugin.cpp:222-223 | removing `c` from a text without `c` changes nothing |
| Text.WithoutAppend | clangPlugin/FYPlugin/FYPlugin.cpp:222-223 | dropping `c` from two texts written one after the other gives the two dropped texts in the same order |
| Text.StripUnderscores | clangPlugin/FYPlugin/FYPlugin.cpp:152-153 | the prefix before `from` is kept and no underscore remains from `from` on; the order of what remains is stated by `Text.StripUnderscoresStep` |
| Text.StripUnderscoresStep | clangPlugin/FYPlugin/FYPlugin.cpp:152-153 | the stripped name is built left to right: the first `from` characters as they are, then each later character in its turn unless it is `_`, so the kept characters stay in their order |
| Text.StripUnderscoresKeepsOthers | clangPlugin/FYPlugin/FYPlugin.cpp:152-153 | the part from `from` on keeps every non-underscore character with its multiplicity |
| Text.RemoveFrom | clangPlugin/FYPlugin/FYPlugin.cpp:152 | `std::remove` on the array from `from` on leaves the kept characters, in order, in front of the returned end, and leaves the prefix before `from` as it was |
| Text.RemoveUnderscores | clangPlugin/FYPlugin/FYPlugin.cpp:151-153 | copying the name, removing the underscores from `from` on and erasing the tail yields `StripUnderscores(name, from)` |
| Text.Lines | clangPlugin/FYPlugin/FYPlugin.cpp:30-39 | what `split` returns has at most one piece per character of the text, and at least one piece for a non-empty text |
| Text.LinesHaveNoDelimiter | clangPlugin/FYPlugin/FYPlugin.cpp:30-39 | no piece of the split contains the delimiter |
| Text.LinesRoundTrip | clangPlugin/FYPlugin/FYPlugin.cpp:30-39 | re-joining the pieces, each terminated by the delimiter, gives back the text, plus a final delimiter when it lacked one; the empty text gives no piece and there is no trailing empty piece |
| Text.LinesCount | clangPlugin/FYPlugin/FYPlugin.cpp:30-39 | the number of pieces is the number of delimiters, plus one when the text is non-empty and does not end in the delimiter |
| Text.GetLine | clangPlugin/FYPlugin/FYPlugin.cpp:35 | one `getline` from `pos` consumes at least one character and yields the first piece of the rest |
| Text.Split | clangPlugin/FYPlugin/FYPlugin.cpp:30-39 | the `getline` loop collects exactly the pieces `Lines` describes |
| Diagnostics.NameRange | clangPlugin/FYPlugin/FYPlugin.cpp:201-202 | the range `[loc, loc + len - 1]` starts at the name and covers exactly `len` characters |
| Diagnostics.FormatString | clangPlugin/FYPlugin/FYPlugin.cpp:98-305 | every message a plugin registers has a non-empty format string; CodeCheckPlugin registers none for parameters |
| Diagnostics.PluginWordings | clangPlugin/CodeCheckPlugin/CodeCheckPlugin.cpp:63-124 | of the messages both plugins register (all but the parameter message), they word every one alike except the class-underscore and property-upper-case messages |
| Diagnostics.DiagnosticsEngine.Report | clangPlugin/FYPlugin/FYPlugin.cpp:334-338 | `diagWaringReport` appends one warning, with its fix-it when one is given, and changes nothing else |
| Rules.IsUserSourceCode | clangPlugin/FYPlugin/FYPlugin.cpp:312-323 | a file is user code iff its name is non-empty and does not start with `/Applications/Xcode.app/` |
| Rules.ShouldUseCopy | clangPlugin/FYPlugin/FYPlugin.cpp:324-331 | true iff the printed type contains `NSString`, `NSArray` or `NSDictionary` |
| Rules.UppercaseCheckIndex | clangPlugin/FYPlugin/FYPlugin.cpp:109-115 | the checked index is 1 when the name starts with `_` and 0 otherwise |
| Rules.ClassLowercase | clangPlugin/FYPlugin/FYPlugin.cpp:190-207 | at most one warning, at the class name, with the lower-case message |
| Rules.ClassUnderscore | clangPlugin/FYPlugin/FYPlugin.cpp:214-231 | at most one warning, with the underscore message, anchored at a `_` inside the name |
| Rules.PropertyCopy | clangPlugin/FYPlugin/FYPlugin.cpp:90-101 | at most one warning, at the start of the declaration, naming the printed type |
| Rules.PropertyUppercase | clangPlugin/FYPlugin/FYPlugin.cpp:108-130 | at most one warning, at the property name, with the upper-case message |
| Rules.PropertyUnderscore | clangPlugin/FYPlugin/FYPlugin.cpp:137-161 | at most one warning, at the property name, with the underscore message |
| Rules.DelegateWeak | clangPlugin/FYPlugin/FYPlugin.cpp:168-182 | at most one warning, and it is the delegate warning at the property name with no fix |
| Rules.LeadingUppercase | clangPlugin/FYPlugin/FYPlugin.cpp:239-286 | a slot or parameter loop reports no more warnings than names, each anchored at the method with the loop's message |
| Rules.SelectorUppercase | clangPlugin/FYPlugin/FYPlugin.cpp:239-259 | no more warnings than selector slots, each at the method with the selector message |
| Rules.ParamsUppercase | clangPlugin/FYPlugin/FYPlugin.cpp:266-286 | no more warnings than parameters, each at the method with the parameter message |
| Rules.BodyTooLong | clangPlugin/FYPlugin/FYPlugin.cpp:293-308 | a method without a body gets no warning, and any warning is the length warning at the start of the method's range, without a fix |
| Rules.ClassLowercaseRule | clangPlugin/FYPlugin/FYPlugin.cpp:190-207 | the rule fires once iff the first character is lower-case, at the declaration. Its fix covers the whole name, replaces the first character by the same letter upper-case and keeps the rest, and the fixed name passes the rule |
| Rules.ClassUnderscoreRule | clangPlugin/FYPlugin/FYPlugin.cpp:214-231 | the rule fires once iff the name contains `_`, anchored at the first `_`. Its fix covers the whole name and is the name with every `_` dropped and the other characters in their order; it has no `_` and the fixed name passes the rule |
| Rules.PropertyUppercaseRule | clangPlugin/FYPlugin/FYPlugin.cpp:108-130 | the rule fires iff the character at the checked index is upper-case. The fix replaces that character by the same letter lower-case and nothing else, covers the whole name and passes the rule |
| Rules.PropertyUnderscoreRule | clangPlugin/FYPlugin/FYPlugin.cpp:137-161 | one-character names never fire; longer names fire iff `_` occurs at index 1 or later. The fix is the first character followed by the rest with every `_` dropped and the other characters in their order, and it passes the rule |
| Rules.PropertyCopyRule | clangPlugin/FYPlugin/FYPlugin.cpp:90-101 | the copy warning appears iff there is type information, the type is a string, array or dictionary type and `copy` is absent. It sits at the start of the declaration, names the type and has no fix, and adding `copy` silences it |
| Rules.DelegateWeakRule | clangPlugin/FYPlugin/FYPlugin.cpp:168-182 | the delegate warning appears iff the type contains `<` and `>` and `weak` is absent. It has no fix, and adding `weak` silences it |
| Rules.LowerFirsts | clangPlugin/FYPlugin/FYPlugin.cpp:239-286 | applying every fix of a slot or parameter loop keeps the number of names and leaves each one non-empty |
| Rules.LeadingUppercaseSilent | clangPlugin/FYPlugin/FYPlugin.cpp:239-286 | a loop reports nothing iff no slot (parameter) starts upper-case, and never more warnings than slots |
| Rules.LeadingUppercaseSound | clangPlugin/FYPlugin/FYPlugin.cpp:239-286 | every warning of a loop is anchored at the method and carries the lower-casing fix of an upper-case-led slot (parameter), over that slot's own range |
| Rules.LeadingUppercaseComplete | clangPlugin/FYPlugin/FYPlugin.cpp:239-286 | every upper-case-led slot (parameter) has its warning |
| Rules.LeadingUppercaseExact | clangPlugin/FYPlugin/FYPlugin.cpp:239-286 | a loop reports exactly one warning for each slot (parameter) that starts upper-case and none for any other, in slot order, each anchored at the method and carrying its own slot's fix |
| Rules.LeadingUppercaseFixed | clangPlugin/FYPlugin/FYPlugin.cpp:239-286 | once all the fixes are applied the loop reports nothing |
| Rules.LowerFirstFixRule | clangPlugin/FYPlugin/FYPlugin.cpp:249-254 | a slot's fix covers that slot only, replaces its first character by the same letter lower-case and keeps the rest |
| Rules.BodyTooLongRule | clangPlugin/FYPlugin/FYPlugin.cpp:293-308 | the length warning appears iff there is a body and it splits into more than 50 lines. It sits at the start of the method's range and has no fix |
| Rules.RepeatedLines | clangPlugin/FYPlugin/FYPlugin.cpp:30-39 | a text of `n` newline-terminated lines splits into `n` pieces |
| Rules.BodyLengthBoundary | clangPlugin/FYPlugin/FYPlugin.cpp:303 | a body of 50 lines passes and one of 51 lines is reported |
| Checks.CheckClassNameForLowercaseName | clangPlugin/FYPlugin/FYPlugin.cpp:190-207 | appends exactly `ClassLowercase(d)` to the engine |
| Checks.CheckClassNameForUnderscoreInName | clangPlugin/FYPlugin/FYPlugin.cpp:214-231 | appends exactly `ClassUnderscore(d)`; the fix text comes from the in-place `std::remove` |
| Checks.CheckPropertyDecl | clangPlugin/FYPlugin/FYPlugin.cpp:90-101 | appends exactly `PropertyCopy(d)` |
| Checks.CheckPropertyNameForUppercaseName | clangPlugin/FYPlugin/FYPlugin.cpp:108-130 | appends exactly `PropertyUppercase(d)` |
| Checks.CheckPropertyNameForUnderscoreInName | clangPlugin/FYPlugin/FYPlugin.cpp:137-161 | appends exactly `PropertyUnderscore(d)`, returning early for one-character names |
| Checks.CheckDelegatePropertyForUsageWeak | clangPlugin/FYPlugin/FYPlugin.cpp:168-182 | appends exactly `DelegateWeak(d)` |
| Checks.CheckMethodNameForUppercaseName | clangPlugin/FYPlugin/FYPlugin.cpp:239-259 | the slot loop appends exactly `SelectorUppercase(m)` |
| Checks.CheckMethodParamsNameForUppercaseName | clangPlugin/FYPlugin/FYPlugin.cpp:266-286 | the parameter loop appends exactly `ParamsUppercase(m)` |
| Checks.CheckMethodBodyForOver50Lines | clangPlugin/FYPlugin/FYPlugin.cpp:293-308 | splits the body with `Split` and appends exactly `BodyTooLong(m)` |
| Ordering.SingleRuleOrdered | clangPlugin/FYPlugin/FYPlugin.cpp:54-88 | a rule that reports at most once is in order |
| Ordering.OrderedConcat | clangPlugin/FYPlugin/FYPlugin.cpp:54-88 | running one rule's checks after another's keeps the report in order when the ranks do not go down |
| Ordering.ClassRulesSingle | clangPlugin/FYPlugin/FYPlugin.cpp:190-231 | each class rule reports at most once, with its own message |
| Ordering.PropertyRulesSingle | clangPlugin/FYPlugin/FYPlugin.cpp:90-182 | each property rule reports at most once, with its own message |
| Ordering.BodyRuleSingle | clangPlugin/FYPlugin/FYPlugin.cpp:293-308 | the body rule reports at most once, with its own message |
| Ordering.LoopRanks | clangPlugin/FYPlugin/FYPlugin.cpp:239-286 | every warning of a slot or parameter loop carries that loop's message |
| FYPlugin.VisitInterface | clangPlugin/FYPlugin/FYPlugin.cpp:54-63 | the class visitor reports at most two warnings, both with class messages |
| FYPlugin.VisitMethod | clangPlugin/FYPlugin/FYPlugin.cpp:65-75 | the method visitor reports at most one warning per selector slot and per parameter, plus one |
| FYPlugin.VisitProperty | clangPlugin/FYPlugin/FYPlugin.cpp:77-88 | the property visitor reports at most four warnings, one per rule |
| FYPlugin.FYPluginVisitor.VisitObjCInterfaceDecl | clangPlugin/FYPlugin/FYPlugin.cpp:54-63 | continues the traversal and appends exactly `VisitInterface(d)`: nothing for platform code, otherwise the lower-case rule then the underscore rule |
| FYPlugin.FYPluginVisitor.VisitObjCMethodDecl | clangPlugin/FYPlugin/FYPlugin.cpp:65-75 | continues the traversal and appends exactly `VisitMethod(m)`: slots, then parameters, then body length |
| FYPlugin.FYPluginVisitor.VisitObjCPropertyDecl | clangPlugin/FYPlugin/FYPlugin.cpp:77-88 | continues the traversal and appends exactly `VisitProperty(d)`: copy, upper-case, underscore, then weak |
| FYPlugin.PlatformCodeIsSilent | clangPlugin/FYPlugin/FYPlugin.cpp:312-323 | a declaration with no file, or one under the Xcode root, gets no warning whatever its names |
| FYPlugin.VisitInterfaceInOrder | clangPlugin/FYPlugin/FYPlugin.cpp:54-63 | no underscore warning precedes a lower-case warning |
| FYPlugin.VisitMethodInOrder | clangPlugin/FYPlugin/FYPlugin.cpp:65-75 | the three method rules, appended in dispatch order, are in rule order, and so is the method visitor's report: slot warnings, then parameter warnings, then the length warning |
| FYPlugin.VisitPropertyInOrder | clangPlugin/FYPlugin/FYPlugin.cpp:77-88 | the four property rules, appended in dispatch order, are in rule order, and so is the property visitor's report: copy, upper-case, underscore, then weak |
| CodeCheckPlugin.CheckInterface | clangPlugin/CodeCheckPlugin/CodeCheckPlugin.cpp:48-84 | `checkInterfaceDecl` reports at most two warnings, both with class messages |
| CodeCheckPlugin.InterfaceReport | clangPlugin/CodeCheckPlugin/CodeCheckPlugin.cpp:258-263 | the class branch of `run` reports at most two warnings |
| CodeCheckPlugin.PropertyReport | clangPlugin/CodeCheckPlugin/CodeCheckPlugin.cpp:265-273 | the property branch of `run` reports at most four warnings, one per rule |
| CodeCheckPlugin.MethodReport | clangPlugin/CodeCheckPlugin/CodeCheckPlugin.cpp:275-281 | the method branch of `run` reports at most one warning per selector slot plus one, each a length or selector warning |
| CodeCheckPlugin.RunReport | clangPlugin/CodeCheckPlugin/CodeCheckPlugin.cpp:256-282 | one match reports at most six class and property warnings, plus one per selector slot and one more for a bound method |
| CodeCheckPlugin.CodeCheckHandler.CheckInterfaceDecl | clangPlugin/CodeCheckPlugin/CodeCheckPlugin.cpp:48-84 | appends exactly `CheckInterface(d)`: the lower-case warning, then the underscore warning |
| CodeCheckPlugin.CheckInterfaceRule | clangPlugin/CodeCheckPlugin/CodeCheckPlugin.cpp:48-84 | one warning per broken class rule, lower-case first. Both fixes cover `[loc, loc+len-1]` and are computed from the original name; the underscore warning sits at the first `_` |
| CodeCheckPlugin.CodeCheckHandler.Run | clangPlugin/CodeCheckPlugin/CodeCheckPlugin.cpp:256-282 | appends exactly `RunReport(r)`: for each bound declaration in user code, its checks in CodeCheckPlugin's order |
| CodeCheckPlugin.AgreesWithFYOnClassesAndProperties | clangPlugin/CodeCheckPlugin/CodeCheckPlugin.cpp:256-274 | on classes and properties `run` reports exactly what FYPlugin's visitor reports |
| CodeCheckPlugin.MethodWarningsVersusFY | clangPlugin/CodeCheckPlugin/CodeCheckPlugin.cpp:276-282 | on methods, `run`'s warnings plus the parameter warnings are, as a multiset, FYPlugin's warnings. Without parameters the two multisets are equal |
| CodeCheckPlugin.RunInOrder | clangPlugin/CodeCheckPlugin/CodeCheckPlugin.cpp:256-282 | class and property warnings follow FYPlugin's order, and the length warning precedes every selector warning |
| CodeCheckPlugin.PlatformMatchIsSilent | clangPlugin/CodeCheckPlugin/CodeCheckPlugin.cpp:234-245 | a match whose declarations all come from platform code, or have no file, reports nothing |
| Scenarios.ProjectFilesAreUserCode | clangPlugin/FYPlugin/FYPlugin.cpp:312-323 | a file under `/Users/...` is user code |
| Scenarios.StringPropertyWithoutCopy | clangPlugin/FYPlugin/FYPlugin.cpp:90-101 | `NSString *age` without `copy` gets exactly the copy warning naming `NSString *`, and with `copy` it gets none |
| Scenarios.DelegateWithoutWeak | clangPlugin/FYPlugin/FYPlugin.cpp:168-182 | `id<SomeProtocol> delegate` without `weak` gets exactly the delegate warning, and with `weak` it gets none |
| Scenarios.DelegateNeedsNoCopy | clangPlugin/FYPlugin/FYPlugin.cpp:324-331 | a protocol-typed property gets no copy warning |
| Scenarios.UpperCaseSelectorSlot | clangPlugin/FYPlugin/FYPlugin.cpp:239-286 | `doThing:WithValue:` gets exactly one selector warning, at the method, whose fix rewrites only `WithValue` to `withValue`; its lower-case parameters get none |
| Scenarios.PlatformClassIsSilent | clangPlugin/CodeCheckPlugin/CodeCheckPlugin.cpp:256-262 | a class under the Xcode root is silent in both plugins, though its name breaks both class rules |
| Scenarios.DispatchOrdersDiffer | clangPlugin/CodeCheckPlugin/CodeCheckPlugin.cpp:276-282 | for a 51-line method with an upper-case-led slot, FYPlugin reports the slot warning first and CodeCheckPlugin the length warning first |

## Left out

- Host integration is not part of this model. That covers plugin
  registration, `PluginASTAction`, `ASTConsumer`, the recursive traversal,
  `MatchFinder` set-up and `ParseArgs` (FYPlugin.cpp:343-384,
  CodeCheckPlugin.cpp:287-325). A match result is modelled as the optional
  nodes bound under the three names.
- Extracting the body text through `SourceManager::getCharacterData` and
  raw-encoding arithmetic is pointer arithmetic into clang's buffers. The body
  is given as text, or as absent when the method has no body.
- `getFilename`, `getAsString` and `getTypeSourceInfo` are clang library
  calls. The file name, the printed type and the presence of type information
  are fields of the declaration.
- Rendering of diagnostics and application of fix-its happen inside clang.
  A warning is its anchor, its rule and its optional fix-it. Every warning
  has Warning severity. The message text of each plugin is given by
  `Diagnostics.FormatString`, which the rules do not consult.
- A fix-it range is kept as the two offsets the source computes. clang's
  token-range interpretation of `SourceRange` is not modelled.
- The `cout` debug prints, `setASTContext` and the unused `Context` field
  have no effect on the warnings and are left out.
- The null check on the property in `checkPropertyDecl` is left out. A
  declaration is always present here.
- The source reads `name[0]` without a guard, so names of classes,
  properties, selector slots and parameters are required to be non-empty.
  The uppercase check reads `name[1]` when the name starts with `_`, so a
  property named exactly `_` is excluded. These preconditions are the
  `Valid*` predicates. The dispatchers ask for them only of declarations
  from user code, since platform code is skipped before any name is read,
  and CodeCheckPlugin's `run` asks only for named selector slots, since it
  never reads parameter names.
- `checkUppercaseNameIndex` is a `bool` that only ever holds 0 or 1. It is
  modelled as a `nat` with exactly those values.
- Names and types are `seq<char>`, standing for the bytes of the source.
  clang's case functions only touch ASCII letters, and the model does the
  same.
- CodeCheckPlugin's `checkInterfaceDecl` repeats the code of FYPlugin's two
  class checks inline. The model runs the shared check methods one after
  the other, which appends the same warnings in the same order.
- Rules.DelegateWeak: both plugins bind `typeStr`, a `StringRef`, to the
  temporary string `getAsString` returns (FYPlugin.cpp:170,
  CodeCheckPlugin.cpp:166). The temporary is destroyed at the end of that
  statement, so the `find` calls after it read freed memory and their result
  is undefined behaviour. The model gives the evidently intended reading:
  both searches run over the printed type.
- Scenarios.StringPropertyWithoutCopy and Scenarios.DelegateWithoutWeak
  state the copy and weak rules for the example properties. They do not
  state the whole visitor report for those properties.
