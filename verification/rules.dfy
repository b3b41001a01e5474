/**
  The rule library both plugins share: for each check, the warnings it
  appends for one declaration, and what those warnings promise.
 */
module Rules {
  import opened Wrappers
  import opened Text
  import opened Decls
  import opened Diagnostics

  /** Files under the Xcode installation are platform code. */
  const XCODE_ROOT := "/Applications/Xcode.app/"

  /** A method body of more lines than this is reported. */
  const MAX_METHOD_LINES := 50

  /**
    `isUserSourceCode`: an empty file name, or one where `find` of the Xcode
    root returns 0, is not user code.
   */
  function IsUserSourceCode(filename: string): (r: bool)
    ensures r <==> filename != [] && !StartsWith(filename, XCODE_ROOT)
  {
    FindSubFromStart(filename, XCODE_ROOT);
    if filename == [] then false
    else if FindSub(filename, XCODE_ROOT, 0) == Some(0) then false
    else true
  }

  /** `isShouldUseCopy`: the printed type mentions `NSString`, `NSArray` or `NSDictionary`. */
  function ShouldUseCopy(typeStr: string): (r: bool)
    ensures r <==> Contains(typeStr, "NSString") || Contains(typeStr, "NSArray")
                   || Contains(typeStr, "NSDictionary")
  {
    FindSubFromStart(typeStr, "NSString");
    FindSubFromStart(typeStr, "NSArray");
    FindSubFromStart(typeStr, "NSDictionary");
    FindSub(typeStr, "NSString", 0).Some? || FindSub(typeStr, "NSArray", 0).Some?
    || FindSub(typeStr, "NSDictionary", 0).Some?
  }

  /** The fix-it replacing the whole name that starts at `loc`. */
  function NameFix(loc: nat, name: string, replacement: string): FixItHint
    requires name != []
  {
    Replacement(NameRange(loc, |name|), replacement)
  }

  /** `checkClassNameForLowercaseName`. */
  function ClassLowercase(d: ClassDecl): (r: seq<Diagnostic>)
    requires ValidClass(d)
    ensures |r| <= 1
    ensures forall w :: w in r ==> w.loc == d.loc && w.message == ClassLowercaseName
  {
    var c := d.name[0];
    if IsLower(c) then
      [Diagnostic(d.loc, ClassLowercaseName, Some(NameFix(d.loc, d.name, d.name[0 := ToUpper(c)])))]
    else []
  }

  /** `checkClassNameForUnderscoreInName`. */
  function ClassUnderscore(d: ClassDecl): (r: seq<Diagnostic>)
    ensures |r| <= 1
    ensures forall w :: w in r ==>
              && w.message == ClassUnderscoreInName
              && d.loc <= w.loc < d.loc + |d.name| && d.name[w.loc - d.loc] == '_'
  {
    match FindChar(d.name, '_', 0)
    case None => []
    case Some(pos) =>
      [Diagnostic(d.loc + pos, ClassUnderscoreInName,
                  Some(NameFix(d.loc, d.name, StripUnderscores(d.name, 0))))]
  }

  /** `checkPropertyDecl`: the copy rule; its warning sits at the start of the declaration. */
  function PropertyCopy(d: PropertyDecl): (r: seq<Diagnostic>)
    ensures |r| <= 1
    ensures forall w :: w in r ==> w.loc == d.beginLoc && w.message == PropertyNotCopy(d.typeStr)
  {
    if d.hasTypeSourceInfo && ShouldUseCopy(d.typeStr) && Copy !in d.attributes then
      [Diagnostic(d.beginLoc, PropertyNotCopy(d.typeStr), None)]
    else []
  }

  /**
    `checkUppercaseNameIndex`: 1 when `find('_') == 0`, that is when the name
    starts with an underscore, and 0 otherwise.
   */
  function UppercaseCheckIndex(name: string): (i: nat)
    ensures i == if name != [] && name[0] == '_' then 1 else 0
  {
    if FindChar(name, '_', 0) == Some(0) then 1 else 0
  }

  /** `checkPropertyNameForUppercaseName`. */
  function PropertyUppercase(d: PropertyDecl): (r: seq<Diagnostic>)
    requires ValidProperty(d)
    ensures |r| <= 1
    ensures forall w :: w in r ==> w.loc == d.loc && w.message == PropertyUppercaseName
  {
    var i := UppercaseCheckIndex(d.name);
    var c := d.name[i];
    if IsUpper(c) then
      [Diagnostic(d.loc, PropertyUppercaseName, Some(NameFix(d.loc, d.name, d.name[i := ToLower(c)])))]
    else []
  }

  /** `checkPropertyNameForUnderscoreInName`. */
  function PropertyUnderscore(d: PropertyDecl): (r: seq<Diagnostic>)
    ensures |r| <= 1
    ensures forall w :: w in r ==> w.loc == d.loc && w.message == PropertyUnderscoreInName
  {
    if |d.name| == 1 then []
    else match FindChar(d.name, '_', 1)
      case None => []
      case Some(_) =>
        [Diagnostic(d.loc, PropertyUnderscoreInName,
                    Some(NameFix(d.loc, d.name, StripUnderscores(d.name, 1))))]
  }

  /** `checkDelegatePropertyForUsageWeak`. */
  function DelegateWeak(d: PropertyDecl): (r: seq<Diagnostic>)
    ensures |r| <= 1
    ensures forall w :: w in r ==> w == Diagnostic(d.loc, DelegateNotWeak, None)
  {
    if FindSub(d.typeStr, "<", 0).Some? && FindSub(d.typeStr, ">", 0).Some?
       && Weak !in d.attributes
    then [Diagnostic(d.loc, DelegateNotWeak, None)]
    else []
  }

  /** The fix-it lower-casing the first character of one selector slot or parameter. */
  function LowerFirstFix(id: Ident): FixItHint
    requires id.name != []
  {
    NameFix(id.loc, id.name, id.name[0 := ToLower(id.name[0])])
  }

  /** The warning for one slot or parameter whose name starts upper-case, anchored at the method. */
  function IdentWarning(anchor: nat, message: Message, id: Ident): seq<Diagnostic>
    requires id.name != []
  {
    if IsUpper(id.name[0]) then [Diagnostic(anchor, message, Some(LowerFirstFix(id)))] else []
  }

  /** The warnings of the loop over selector slots, or over parameters, in order. */
  function LeadingUppercase(anchor: nat, message: Message, ids: seq<Ident>): (r: seq<Diagnostic>)
    requires AllNamed(ids)
    ensures |r| <= |ids|
    ensures forall w :: w in r ==> w.loc == anchor && w.message == message
  {
    if ids == [] then []
    else LeadingUppercase(anchor, message, ids[..|ids| - 1])
         + IdentWarning(anchor, message, ids[|ids| - 1])
  }

  /** `checkMethodNameForUppercaseName`. */
  function SelectorUppercase(m: MethodDecl): (r: seq<Diagnostic>)
    requires AllNamed(m.selector)
    ensures |r| <= |m.selector|
    ensures forall w :: w in r ==> w.loc == m.loc && w.message == MethodUppercaseName
  {
    LeadingUppercase(m.loc, MethodUppercaseName, m.selector)
  }

  /** `checkMethodParamsNameForUppercaseName`. */
  function ParamsUppercase(m: MethodDecl): (r: seq<Diagnostic>)
    requires AllNamed(m.params)
    ensures |r| <= |m.params|
    ensures forall w :: w in r ==> w.loc == m.loc && w.message == ParamUppercaseName
  {
    LeadingUppercase(m.loc, ParamUppercaseName, m.params)
  }

  /** `checkMethodBodyForOver50Lines`: the warning sits at the start of the method's range. */
  function BodyTooLong(m: MethodDecl): (r: seq<Diagnostic>)
    ensures m.body.None? ==> r == []
    ensures forall w :: w in r ==> w == Diagnostic(m.beginLoc, MethodOver50Lines, None)
  {
    match m.body
    case None => []
    case Some(text) =>
      if |Lines(text, '\n')| > MAX_METHOD_LINES then [Diagnostic(m.beginLoc, MethodOver50Lines, None)]
      else []
  }

  // ---------------------------------------------------------------------
  // What each rule promises
  // ---------------------------------------------------------------------

  /**
    A class name starting lower-case gets exactly one warning, at the name;
    its fix covers the whole name and upper-cases the first character only,
    and the fixed name passes the rule.
   */
  lemma ClassLowercaseRule(d: ClassDecl)
    requires ValidClass(d)
    ensures |ClassLowercase(d)| == if IsLower(d.name[0]) then 1 else 0
    ensures IsLower(d.name[0]) ==>
      var w := ClassLowercase(d)[0];
      && w.loc == d.loc && w.message == ClassLowercaseName && w.hint.Some?
      && w.hint.value.range == NameRange(d.loc, |d.name|)
      && var t := w.hint.value.text;
      && |t| == |d.name| && t[0] == ToUpper(d.name[0]) && IsUpper(t[0]) && t[1..] == d.name[1..]
      && ClassLowercase(d.(name := t)) == []
  {
  }

  /**
    A class name containing `'_'` gets exactly one warning, at the first
    underscore; its fix covers the whole name and is the name without any
    underscore, every other character kept in order; the fixed name passes
    the rule.
   */
  lemma ClassUnderscoreRule(d: ClassDecl)
    ensures ClassUnderscore(d) != [] <==> '_' in d.name
    ensures ClassUnderscore(d) != [] ==>
      var w := ClassUnderscore(d)[0];
      && |ClassUnderscore(d)| == 1
      && d.loc <= w.loc < d.loc + |d.name| && d.name[w.loc - d.loc] == '_'
      && (forall k :: 0 <= k < w.loc - d.loc ==> d.name[k] != '_')
      && w.message == ClassUnderscoreInName && w.hint.Some?
      && w.hint.value.range == NameRange(d.loc, |d.name|)
      && var t := w.hint.value.text;
      && t == Without(d.name, '_')
      && '_' !in t && multiset(t) == multiset(d.name)['_' := 0]
      && ClassUnderscore(d.(name := t)) == []
  {
    if '_' in d.name {
      var t := StripUnderscores(d.name, 0);
      StripUnderscoresKeepsOthers(d.name, 0);
      assert t == t[0..] && d.name == d.name[0..] && d.name[..0] == [];
      assert FindChar(t, '_', 0) == None;
    }
  }

  /**
    The checked position is 1 after a leading underscore and 0 otherwise; the
    rule fires exactly when the character there is upper-case, and its fix
    lower-cases that character only, which the rule then accepts.
   */
  lemma PropertyUppercaseRule(d: PropertyDecl)
    requires ValidProperty(d)
    ensures var i := if d.name[0] == '_' then 1 else 0;
      && i < |d.name|
      && (PropertyUppercase(d) != [] <==> IsUpper(d.name[i]))
      && (IsUpper(d.name[i]) ==>
            var w := PropertyUppercase(d)[0];
            && |PropertyUppercase(d)| == 1
            && w.loc == d.loc && w.message == PropertyUppercaseName && w.hint.Some?
            && w.hint.value.range == NameRange(d.loc, |d.name|)
            && var t := w.hint.value.text;
            && |t| == |d.name| && t[i] == ToLower(d.name[i]) && IsLower(t[i])
            && (forall k :: 0 <= k < |t| && k != i ==> t[k] == d.name[k])
            && PropertyUppercase(d.(name := t)) == [])
  {
  }

  /**
    One-character names are never reported; longer ones exactly when an
    underscore occurs after the first character. The fix keeps the first
    character (a leading underscore too), drops every later underscore and
    keeps the other characters in order; the fixed name passes the rule.
   */
  lemma PropertyUnderscoreRule(d: PropertyDecl)
    ensures |d.name| == 1 ==> PropertyUnderscore(d) == []
    ensures PropertyUnderscore(d) != []
            <==> |d.name| > 1 && exists k :: 1 <= k < |d.name| && d.name[k] == '_'
    ensures PropertyUnderscore(d) != [] ==>
      var w := PropertyUnderscore(d)[0];
      && |PropertyUnderscore(d)| == 1
      && w.loc == d.loc && w.message == PropertyUnderscoreInName && w.hint.Some?
      && w.hint.value.range == NameRange(d.loc, |d.name|)
      && var t := w.hint.value.text;
      && t == [d.name[0]] + Without(d.name[1..], '_')
      && t != [] && t[0] == d.name[0]
      && (forall k :: 1 <= k < |t| ==> t[k] != '_')
      && multiset(t[1..]) == multiset(d.name[1..])['_' := 0]
      && PropertyUnderscore(d.(name := t)) == []
  {
    if PropertyUnderscore(d) != [] {
      var t := StripUnderscores(d.name, 1);
      StripUnderscoresKeepsOthers(d.name, 1);
      assert d.name[..1] == [d.name[0]];
      assert forall k :: 1 <= k < |t| ==> t[k] == t[1..][k - 1];
      if |t| != 1 {
        assert FindChar(t, '_', 1) == None;
      }
    }
  }

  /**
    The copy warning appears exactly when the property has written type
    information, its type is a string, array or dictionary type and it is not
    `copy`; it names the type and has no fix. Declaring it `copy` silences it.
   */
  lemma PropertyCopyRule(d: PropertyDecl)
    ensures PropertyCopy(d) != []
            <==> && d.hasTypeSourceInfo
                 && (Contains(d.typeStr, "NSString") || Contains(d.typeStr, "NSArray")
                     || Contains(d.typeStr, "NSDictionary"))
                 && Copy !in d.attributes
    ensures PropertyCopy(d) != [] ==>
              PropertyCopy(d) == [Diagnostic(d.beginLoc, PropertyNotCopy(d.typeStr), None)]
    ensures PropertyCopy(d.(attributes := d.attributes + {Copy})) == []
  {
  }

  /**
    The delegate warning appears exactly when the printed type contains both
    `<` and `>` and the property is not `weak`; it has no fix. Declaring it
    `weak` silences it.
   */
  lemma DelegateWeakRule(d: PropertyDecl)
    ensures DelegateWeak(d) != []
            <==> Contains(d.typeStr, "<") && Contains(d.typeStr, ">") && Weak !in d.attributes
    ensures DelegateWeak(d) != [] ==> DelegateWeak(d) == [Diagnostic(d.loc, DelegateNotWeak, None)]
    ensures DelegateWeak(d.(attributes := d.attributes + {Weak})) == []
  {
    FindSubFromStart(d.typeStr, "<");
    FindSubFromStart(d.typeStr, ">");
  }

  /** Lower-cases the first character of each name: the names after every fix of the loop is applied. */
  function LowerFirsts(ids: seq<Ident>): (r: seq<Ident>)
    requires AllNamed(ids)
    ensures |r| == |ids| && AllNamed(r)
  {
    seq(|ids|, k requires 0 <= k < |ids| =>
      Ident(ids[k].name[0 := ToLower(ids[k].name[0])], ids[k].loc))
  }

  /**
    The slot and parameter loops report nothing exactly when no slot (or
    parameter) starts upper-case, and never more warnings than slots.
   */
  lemma {:induction false} LeadingUppercaseSilent(anchor: nat, message: Message, ids: seq<Ident>)
    requires AllNamed(ids)
    ensures |LeadingUppercase(anchor, message, ids)| <= |ids|
    ensures LeadingUppercase(anchor, message, ids) == []
            <==> forall k :: 0 <= k < |ids| ==> !IsUpper(ids[k].name[0])
    decreases |ids|
  {
    if ids != [] {
      var init := ids[..|ids| - 1];
      LeadingUppercaseSilent(anchor, message, init);
      assert forall k :: 0 <= k < |init| ==> init[k] == ids[k];
    }
  }

  /**
    Every warning of the loops is anchored at the method, carries the loop's
    message and the lower-casing fix of a slot (or parameter) that starts
    upper-case, over that slot's own range.
   */
  lemma {:induction false} LeadingUppercaseSound(anchor: nat, message: Message, ids: seq<Ident>)
    requires AllNamed(ids)
    ensures forall w :: w in LeadingUppercase(anchor, message, ids) ==>
              && w.loc == anchor && w.message == message
              && exists k :: 0 <= k < |ids| && IsUpper(ids[k].name[0])
                             && w.hint == Some(LowerFirstFix(ids[k]))
    decreases |ids|
  {
    if ids != [] {
      var init := ids[..|ids| - 1];
      LeadingUppercaseSound(anchor, message, init);
      forall w | w in LeadingUppercase(anchor, message, init)
        ensures exists k :: 0 <= k < |ids| && IsUpper(ids[k].name[0])
                            && w.hint == Some(LowerFirstFix(ids[k]))
      {
        var k :| 0 <= k < |init| && IsUpper(init[k].name[0]) && w.hint == Some(LowerFirstFix(init[k]));
        assert init[k] == ids[k];
      }
    }
  }

  /** Every slot (or parameter) that starts upper-case has its warning. */
  lemma {:induction false} LeadingUppercaseComplete(anchor: nat, message: Message, ids: seq<Ident>)
    requires AllNamed(ids)
    ensures forall k :: 0 <= k < |ids| && IsUpper(ids[k].name[0]) ==>
              Diagnostic(anchor, message, Some(LowerFirstFix(ids[k])))
                in LeadingUppercase(anchor, message, ids)
    decreases |ids|
  {
    if ids != [] {
      var init := ids[..|ids| - 1];
      LeadingUppercaseComplete(anchor, message, init);
      assert forall k :: 0 <= k < |init| ==> init[k] == ids[k];
    }
  }

  /**
    `r` holds one warning per slot (or parameter) that starts upper-case, in
    slot order: `idx` lists exactly those slots, in increasing order, and the
    `j`-th warning carries the fix of slot `idx[j]`, anchored at the method.
   */
  predicate SlotWarnings(anchor: nat, message: Message, ids: seq<Ident>, idx: seq<nat>, r: seq<Diagnostic>)
    requires AllNamed(ids)
  {
    && |idx| == |r|
    && (forall j :: 0 <= j < |idx| ==> idx[j] < |ids| && IsUpper(ids[idx[j]].name[0]))
    && (forall j, j' :: 0 <= j < j' < |idx| ==> idx[j] < idx[j'])
    && (forall k :: 0 <= k < |ids| && IsUpper(ids[k].name[0]) ==> k in idx)
    && (forall j :: 0 <= j < |idx| ==> r[j] == Diagnostic(anchor, message, Some(LowerFirstFix(ids[idx[j]]))))
  }

  /** A last slot that starts upper-case adds its own index and its own warning. */
  lemma SnocUpper(anchor: nat, message: Message, ids: seq<Ident>, idx0: seq<nat>, r0: seq<Diagnostic>)
    requires AllNamed(ids) && ids != [] && IsUpper(ids[|ids| - 1].name[0])
    requires SlotWarnings(anchor, message, ids[..|ids| - 1], idx0, r0)
    ensures var n := |ids| - 1;
      SlotWarnings(anchor, message, ids, idx0 + [n], r0 + [Diagnostic(anchor, message, Some(LowerFirstFix(ids[n])))])
  {
    var n := |ids| - 1;
    var init := ids[..n];
    var idx: seq<nat> := idx0 + [n];
    var r := r0 + [Diagnostic(anchor, message, Some(LowerFirstFix(ids[n])))];
    forall j | 0 <= j < |idx|
      ensures idx[j] < |ids| && IsUpper(ids[idx[j]].name[0])
      ensures r[j] == Diagnostic(anchor, message, Some(LowerFirstFix(ids[idx[j]])))
    {
      if j < |idx0| {
        assert idx[j] == idx0[j] && r[j] == r0[j];
        assert init[idx0[j]] == ids[idx0[j]];
      }
    }
    forall k | 0 <= k < |ids| && IsUpper(ids[k].name[0])
      ensures k in idx
    {
      if k < n {
        assert init[k] == ids[k];
        assert k in idx0;
      }
    }
  }

  /** A last slot that does not start upper-case adds nothing. */
  lemma SnocOther(anchor: nat, message: Message, ids: seq<Ident>, idx0: seq<nat>, r0: seq<Diagnostic>)
    requires AllNamed(ids) && ids != [] && !IsUpper(ids[|ids| - 1].name[0])
    requires SlotWarnings(anchor, message, ids[..|ids| - 1], idx0, r0)
    ensures SlotWarnings(anchor, message, ids, idx0, r0)
  {
    var n := |ids| - 1;
    var init := ids[..n];
    forall j | 0 <= j < |idx0|
      ensures idx0[j] < |ids| && IsUpper(ids[idx0[j]].name[0])
    {
      assert init[idx0[j]] == ids[idx0[j]];
    }
    forall k | 0 <= k < |ids| && IsUpper(ids[k].name[0])
      ensures k in idx0
    {
      assert init[k] == ids[k];
    }
  }

  /**
    The loops report exactly one warning for each slot (or parameter) that
    starts upper-case, and none for any other, in the order of the slots.
   */
  lemma {:induction false} LeadingUppercaseExact(anchor: nat, message: Message, ids: seq<Ident>)
    requires AllNamed(ids)
    ensures exists idx :: SlotWarnings(anchor, message, ids, idx, LeadingUppercase(anchor, message, ids))
    decreases |ids|
  {
    if ids == [] {
      assert SlotWarnings(anchor, message, ids, [], LeadingUppercase(anchor, message, ids));
    } else {
      var n := |ids| - 1;
      var init := ids[..n];
      LeadingUppercaseExact(anchor, message, init);
      var idx0: seq<nat> :| SlotWarnings(anchor, message, init, idx0, LeadingUppercase(anchor, message, init));
      if IsUpper(ids[n].name[0]) {
        SnocUpper(anchor, message, ids, idx0, LeadingUppercase(anchor, message, init));
        assert SlotWarnings(anchor, message, ids, idx0 + [n], LeadingUppercase(anchor, message, ids));
      } else {
        SnocOther(anchor, message, ids, idx0, LeadingUppercase(anchor, message, init));
        assert SlotWarnings(anchor, message, ids, idx0, LeadingUppercase(anchor, message, ids));
      }
    }
  }

  /** Once every fix of the loop is applied, the loop reports nothing. */
  lemma LeadingUppercaseFixed(anchor: nat, message: Message, ids: seq<Ident>)
    requires AllNamed(ids)
    ensures LeadingUppercase(anchor, message, LowerFirsts(ids)) == []
  {
    var fixed := LowerFirsts(ids);
    LeadingUppercaseSilent(anchor, message, fixed);
  }

  /** A fix of the loops lower-cases the first character of its slot's name and keeps the rest. */
  lemma LowerFirstFixRule(id: Ident)
    requires id.name != [] && IsUpper(id.name[0])
    ensures var f := LowerFirstFix(id);
      && f.range == NameRange(id.loc, |id.name|)
      && |f.text| == |id.name| && f.text[0] == ToLower(id.name[0]) && IsLower(f.text[0])
      && f.text[1..] == id.name[1..]
  {
  }

  /**
    The body rule fires exactly when the body splits into more than 50 lines,
    at the start of the method's range, without a fix.
   */
  lemma BodyTooLongRule(m: MethodDecl)
    ensures BodyTooLong(m) != [] <==> m.body.Some? && |Lines(m.body.value, '\n')| > MAX_METHOD_LINES
    ensures BodyTooLong(m) != [] ==> BodyTooLong(m) == [Diagnostic(m.beginLoc, MethodOver50Lines, None)]
  {
  }

  /** `n` copies of `line`. */
  function Repeat(line: string, n: nat): string {
    if n == 0 then [] else line + Repeat(line, n - 1)
  }

  /** A body made of `n` newline-terminated lines splits into exactly `n` lines. */
  lemma {:induction false} RepeatedLines(line: string, n: nat)
    requires '\n' !in line
    ensures |Lines(Repeat(line + "\n", n), '\n')| == n
  {
    if n > 0 {
      var rest := Repeat(line + "\n", n - 1);
      assert Repeat(line + "\n", n) == line + "\n" + rest;
      LinesAfterLine(line, rest, '\n');
      RepeatedLines(line, n - 1);
    }
  }

  /** The boundary of the length rule: a body of 50 lines passes, one of 51 lines is reported. */
  lemma BodyLengthBoundary(m: MethodDecl, line: string)
    requires '\n' !in line
    ensures BodyTooLong(m.(body := Some(Repeat(line + "\n", 50)))) == []
    ensures BodyTooLong(m.(body := Some(Repeat(line + "\n", 51)))) != []
  {
    RepeatedLines(line, 50);
    RepeatedLines(line, 51);
  }
}
