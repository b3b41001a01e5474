/**
  Text utilities the checks rely on: clang's ASCII character classes and case
  conversions, `std::string::find` / `StringRef::find`, the in-place
  `std::remove` + `erase` idiom, and the `getline`-based `split` helper.
  A name or a body is a `string`; each `char` stands for one byte of the source.
 */
module Text {
  import opened Wrappers

  /** clang's `isUppercase`: ASCII 'A'..'Z' only. */
  predicate IsUpper(c: char)
    ensures IsUpper(c) ==> c as int < 128
  {
    'A' <= c <= 'Z'
  }

  /** clang's `isLowercase`: ASCII 'a'..'z' only, never an upper-case letter. */
  predicate IsLower(c: char)
    ensures IsLower(c) ==> c as int < 128 && !IsUpper(c)
  {
    'a' <= c <= 'z'
  }

  /** clang's `toUppercase`: maps 'a'..'z' to 'A'..'Z', every other character to itself. */
  function ToUpper(c: char): (r: char)
    ensures IsLower(c) ==> IsUpper(r) && r as int - 'A' as int == c as int - 'a' as int
    ensures !IsLower(c) ==> r == c
  {
    if IsLower(c) then (c as int - 32) as char else c
  }

  /** clang's `toLowercase`: maps 'A'..'Z' to 'a'..'z', every other character to itself. */
  function ToLower(c: char): (r: char)
    ensures IsUpper(c) ==> IsLower(r) && r as int - 'a' as int == c as int - 'A' as int
    ensures !IsUpper(c) ==> r == c
  {
    if IsUpper(c) then (c as int + 32) as char else c
  }

  /** The two case conversions undo each other on letters. */
  lemma CaseConversionsInverse(c: char)
    ensures IsLower(c) ==> ToLower(ToUpper(c)) == c
    ensures IsUpper(c) ==> ToUpper(ToLower(c)) == c
  {
  }

  /** `sub` occurs in `s` starting at index `i`. */
  predicate OccursAt(s: string, sub: string, i: nat) {
    i + |sub| <= |s| && s[i..i + |sub|] == sub
  }

  /** `sub` occurs somewhere in `s`. */
  predicate Contains(s: string, sub: string) {
    exists i: nat :: i <= |s| && OccursAt(s, sub, i)
  }

  /** `s` begins with `prefix`. */
  predicate StartsWith(s: string, prefix: string) {
    |prefix| <= |s| && s[..|prefix|] == prefix
  }

  /**
    `s.find(sub, from)`: the first index at or after `from` where `sub` occurs,
    or `None` for `npos`.
   */
  function FindSub(s: string, sub: string, from: nat): (r: Option<nat>)
    ensures r.Some? ==> from <= r.value && OccursAt(s, sub, r.value)
    ensures forall j: nat :: from <= j && (r.None? || j < r.value) ==> !OccursAt(s, sub, j)
    decreases |s| - from
  {
    if |s| < from + |sub| then None
    else if OccursAt(s, sub, from) then Some(from)
    else FindSub(s, sub, from + 1)
  }

  /** `s.find(c, from)` for a single character: the first index at or after `from` holding `c`. */
  function FindChar(s: string, c: char, from: nat): (r: Option<nat>)
    ensures r.Some? ==> from <= r.value < |s| && s[r.value] == c
    ensures forall j :: from <= j < |s| && (r.None? || j < r.value) ==> s[j] != c
    decreases |s| - from
  {
    if |s| <= from then None
    else if s[from] == c then Some(from)
    else FindChar(s, c, from + 1)
  }

  /** A text that contains a non-empty string contains that string's first character. */
  lemma ContainsFirst(s: string, sub: string)
    requires sub != [] && Contains(s, sub)
    ensures sub[0] in s
  {
  }

  /** A search from the start finds something exactly when the text contains it. */
  lemma FindSubFromStart(s: string, sub: string)
    ensures FindSub(s, sub, 0).Some? <==> Contains(s, sub)
    ensures FindSub(s, sub, 0) == Some(0) <==> StartsWith(s, sub)
  {
  }

  /** `s` with every occurrence of `c` dropped, the other characters kept in order. */
  function Without(s: string, c: char): (r: string)
    ensures |r| <= |s|
    decreases |s|
  {
    if s == [] then []
    else Without(s[..|s| - 1], c) + (if s[|s| - 1] == c then [] else [s[|s| - 1]])
  }

  /** No occurrence of `c` is left. */
  lemma {:induction false} WithoutExcludes(s: string, c: char)
    ensures c !in Without(s, c)
    decreases |s|
  {
    if s != [] {
      WithoutExcludes(s[..|s| - 1], c);
    }
  }

  /** Appending one character to the input appends it to the output unless it is `c`. */
  lemma WithoutSnoc(s: string, x: char, c: char)
    ensures Without(s + [x], c) == Without(s, c) + (if x == c then [] else [x])
  {
    assert (s + [x])[..|s + [x]| - 1] == s;
  }

  /** Dropping `c` from two texts written one after the other drops it from each, keeping their order. */
  lemma {:induction false} WithoutAppend(a: string, b: string, c: char)
    ensures Without(a + b, c) == Without(a, c) + Without(b, c)
    decreases |b|
  {
    if b == [] {
      assert a + b == a;
    } else {
      var init, x := b[..|b| - 1], b[|b| - 1];
      WithoutAppend(a, init, c);
      assert b == init + [x];
      assert a + b == (a + init) + [x];
      WithoutSnoc(a + init, x, c);
      WithoutSnoc(init, x, c);
    }
  }

  /** One more element of a slice: what `std::remove` does at each step. */
  lemma WithoutStep(s: string, from: nat, i: nat, c: char)
    requires from <= i < |s|
    ensures Without(s[from..i + 1], c) == Without(s[from..i], c) + (if s[i] == c then [] else [s[i]])
  {
    assert s[from..i + 1] == s[from..i] + [s[i]];
    WithoutSnoc(s[from..i], s[i], c);
  }

  /** Only the occurrences of `c` are dropped: every other character keeps its count. */
  lemma {:induction false} WithoutMultiset(s: string, c: char)
    ensures multiset(Without(s, c)) == multiset(s)[c := 0]
    decreases |s|
  {
    if s != [] {
      var init, last := s[..|s| - 1], s[|s| - 1];
      WithoutMultiset(init, c);
      assert s == init + [last];
      assert multiset(s) == multiset(init) + multiset{last};
    }
  }

  /** Dropping a character that does not occur changes nothing. */
  lemma {:induction false} WithoutAbsent(s: string, c: char)
    requires forall k :: 0 <= k < |s| ==> s[k] != c
    ensures Without(s, c) == s
    decreases |s|
  {
    if s != [] {
      var init := s[..|s| - 1];
      assert forall k :: 0 <= k < |init| ==> init[k] == s[k];
      WithoutAbsent(init, c);
      assert s == init + [s[|s| - 1]];
    }
  }

  /**
    The `std::remove(begin() + from, end(), '_')` + `erase` idiom: keeps the
    first `from` characters and drops every `'_'` after them.
   */
  function StripUnderscores(name: string, from: nat): (r: string)
    requires from <= |name|
    ensures from <= |r| && r[..from] == name[..from]
    ensures '_' !in r[from..]
  {
    var r := name[..from] + Without(name[from..], '_');
    assert r[..from] == name[..from] && r[from..] == Without(name[from..], '_');
    WithoutExcludes(name[from..], '_');
    r
  }

  /**
    Stripping reads the name left to right: the first `from` characters are
    kept as they are, and each later character is appended, in its turn,
    unless it is `'_'`.
   */
  lemma StripUnderscoresStep(name: string, from: nat, i: nat)
    requires from <= i < |name|
    ensures StripUnderscores(name[..from], from) == name[..from]
    ensures StripUnderscores(name[..i + 1], from)
            == StripUnderscores(name[..i], from) + (if name[i] == '_' then [] else [name[i]])
  {
    assert name[..from][from..] == [];
    assert name[..i + 1][..from] == name[..i][..from] == name[..from];
    assert name[..i + 1][from..] == name[from..i + 1];
    assert name[..i][from..] == name[from..i];
    WithoutStep(name, from, i, '_');
  }

  /** Stripping keeps every character other than `'_'` after `from`, as often as it occurred. */
  lemma StripUnderscoresKeepsOthers(name: string, from: nat)
    requires from <= |name|
    ensures multiset(StripUnderscores(name, from)[from..]) == multiset(name[from..])['_' := 0]
  {
    var r := StripUnderscores(name, from);
    assert r[from..] == Without(name[from..], '_');
    WithoutMultiset(name[from..], '_');
  }

  /**
    `std::remove(a + from, a + a.Length, c)`: compacts, in place, every element
    of `a[from..]` that is not `c` to the front of that part, in order, and
    returns the new logical end.
   */
  method RemoveFrom(a: array<char>, from: nat, c: char) returns (newEnd: nat)
    requires from <= a.Length
    modifies a
    ensures from <= newEnd <= a.Length
    ensures a[..newEnd] == old(a[..from]) + Without(old(a[from..]), c)
  {
    ghost var orig := a[..];
    newEnd := from;
    var i := from;
    while i < a.Length
      invariant from <= newEnd <= i <= a.Length
      invariant forall k :: 0 <= k < from ==> a[k] == orig[k]
      invariant forall k :: i <= k < a.Length ==> a[k] == orig[k]
      invariant a[from..newEnd] == Without(orig[from..i], c)
    {
      ghost var kept := a[from..newEnd];
      WithoutStep(orig, from, i, c);
      if a[i] != c {
        a[newEnd] := a[i];
        assert a[from..newEnd + 1] == kept + [orig[i]];
        newEnd := newEnd + 1;
      }
      i := i + 1;
    }
    assert a[..newEnd] == a[..from] + a[from..newEnd];
    assert a[..from] == orig[..from] && orig[from..i] == orig[from..];
  }

  /**
    A check's `tempName` fix for underscores: copy the name, `std::remove` the
    `'_'` characters from index `from` on, then `erase` the tail.
   */
  method RemoveUnderscores(name: string, from: nat) returns (tempName: string)
    requires from <= |name|
    ensures tempName == StripUnderscores(name, from)
  {
    var buffer := new char[|name|](k requires 0 <= k < |name| => name[k]);
    assert buffer[..] == name;
    var endPos := RemoveFrom(buffer, from, '_');
    tempName := buffer[..endPos];
  }

  /**
    What `split(s, delim)` returns: the pieces `getline` reads one after the
    other. Each piece ends before a delimiter (which is consumed) or at the end
    of the text; a read that reaches the end without extracting anything fails,
    so there is no trailing empty piece and empty text gives no piece.
   */
  function Lines(s: string, delim: char): (r: seq<string>)
    ensures |r| <= |s|
    ensures s != [] ==> r != []
    decreases |s|
  {
    if s == [] then []
    else match FindChar(s, delim, 0)
      case None => [s]
      case Some(i) => [s[..i]] + Lines(s[i + 1..], delim)
  }

  /** No piece contains the delimiter. */
  lemma {:induction false} LinesHaveNoDelimiter(s: string, delim: char)
    ensures forall k :: 0 <= k < |Lines(s, delim)| ==> delim !in Lines(s, delim)[k]
    decreases |s|
  {
    if s != [] {
      match FindChar(s, delim, 0)
      case None =>
      case Some(i) =>
        LinesHaveNoDelimiter(s[i + 1..], delim);
    }
  }

  /** The first piece runs up to the first delimiter, which is consumed. */
  lemma LinesFirst(s: string, pos: nat, k: nat, delim: char)
    requires pos <= k < |s| && s[k] == delim
    requires forall i :: pos <= i < k ==> s[i] != delim
    ensures Lines(s[pos..], delim) == [s[pos..k]] + Lines(s[k + 1..], delim)
  {
    var rest := s[pos..];
    assert forall i :: 0 <= i < k - pos ==> rest[i] == s[pos + i];
    assert FindChar(rest, delim, 0) == Some(k - pos);
    assert rest[..k - pos] == s[pos..k] && rest[k - pos + 1..] == s[k + 1..];
  }

  /** Text that starts with a delimiter-free line: that line, then the lines of the rest. */
  lemma LinesAfterLine(line: string, rest: string, delim: char)
    requires delim !in line
    ensures Lines(line + [delim] + rest, delim) == [line] + Lines(rest, delim)
  {
    var s := line + [delim] + rest;
    assert forall i :: 0 <= i < |line| ==> s[i] == line[i];
    assert s[..|line|] == line && s[|line| + 1..] == rest;
    assert s[|line|] == delim;
    assert forall i :: 0 <= i < |line| ==> s[i] != delim;
    assert FindChar(s, delim, 0) == Some(|line|);
  }

  /** A non-empty remainder without a delimiter is one last piece. */
  lemma LinesLast(s: string, pos: nat, delim: char)
    requires pos < |s|
    requires forall i :: pos <= i < |s| ==> s[i] != delim
    ensures Lines(s[pos..], delim) == [s[pos..]]
  {
  }

  /** Each line followed by the delimiter, all concatenated. */
  function Terminated(lines: seq<string>, delim: char): string {
    if lines == [] then [] else lines[0] + [delim] + Terminated(lines[1..], delim)
  }

  /** Terminating a first line, then the others. */
  lemma TerminatedCons(line: string, lines: seq<string>, delim: char)
    ensures Terminated([line] + lines, delim) == line + [delim] + Terminated(lines, delim)
  {
    assert ([line] + lines)[1..] == lines;
  }

  /**
    Round trip: writing the pieces back with a delimiter after each gives the
    text, plus one delimiter when the text did not already end with one.
   */
  lemma {:induction false} LinesRoundTrip(s: string, delim: char)
    ensures Terminated(Lines(s, delim), delim)
            == if s == [] || s[|s| - 1] == delim then s else s + [delim]
    decreases |s|
  {
    if s != [] {
      match FindChar(s, delim, 0)
      case None =>
        TerminatedCons(s, [], delim);
      case Some(i) =>
        var t := s[i + 1..];
        LinesRoundTrip(t, delim);
        TerminatedCons(s[..i], Lines(t, delim), delim);
        assert s == s[..i] + [delim] + t;
        if t != [] {
          assert s[|s| - 1] == t[|t| - 1];
        }
    }
  }

  /** Splitting at the first delimiter: one delimiter before the rest, none in front of it. */
  lemma DelimiterCount(s: string, i: nat, delim: char)
    requires i < |s| && s[i] == delim
    requires forall j :: 0 <= j < i ==> s[j] != delim
    ensures multiset(s)[delim] == 1 + multiset(s[i + 1..])[delim]
  {
    assert s == s[..i] + [delim] + s[i + 1..];
    assert delim !in s[..i];
    assert multiset(s) == multiset(s[..i]) + multiset{delim} + multiset(s[i + 1..]);
  }

  /**
    The number of pieces is the number of delimiters, plus one for a final
    piece that is not followed by a delimiter.
   */
  lemma {:induction false} LinesCount(s: string, delim: char)
    ensures |Lines(s, delim)|
            == multiset(s)[delim] + (if s != [] && s[|s| - 1] != delim then 1 else 0)
    decreases |s|
  {
    if s != [] {
      match FindChar(s, delim, 0)
      case None =>
        assert delim !in s;
      case Some(i) =>
        var t := s[i + 1..];
        LinesCount(t, delim);
        DelimiterCount(s, i, delim);
        assert Lines(s, delim) == [s[..i]] + Lines(t, delim);
        if t != [] {
          assert s[|s| - 1] == t[|t| - 1];
        }
    }
  }

  /**
    One successful `getline(ss, item, delim)` on the text left at `pos`:
    extracts characters up to the next delimiter or the end, and consumes the
    delimiter. The piece read is the first of `Lines` of the remaining text.
   */
  method GetLine(s: string, pos: nat, delim: char) returns (item: string, next: nat)
    requires pos < |s|
    ensures pos < next <= |s|
    ensures Lines(s[pos..], delim) == [item] + Lines(s[next..], delim)
  {
    item := "";
    var j := pos;
    while j < |s| && s[j] != delim
      invariant pos <= j <= |s|
      invariant item == s[pos..j]
      invariant forall k :: pos <= k < j ==> s[k] != delim
    {
      item := item + [s[j]];
      j := j + 1;
    }
    if j < |s| {
      LinesFirst(s, pos, j, delim);
      next := j + 1;
    } else {
      next := j;
      assert item == s[pos..] && s[next..] == [];
      assert Lines(s[next..], delim) == [];
      LinesLast(s, pos, delim);
    }
  }

  /**
    The `split` helper: a `getline` loop that pushes every piece it reads.
    It is the function `Lines` computed step by step.
   */
  method Split(s: string, delim: char) returns (elems: seq<string>)
    ensures elems == Lines(s, delim)
  {
    elems := [];
    var pos := 0;
    while pos < |s|
      invariant 0 <= pos <= |s|
      invariant elems + Lines(s[pos..], delim) == Lines(s, delim)
      decreases |s| - pos
    {
      var item, next := GetLine(s, pos, delim);
      elems, pos := elems + [item], next;
    }
  }
}
