/**
  Order of the warnings one dispatch appends: each plugin ranks its rules in
  the order it runs them, and a report is in order when no warning of a
  later rule comes before a warning of an earlier one.
 */
module Ordering {
  import opened Decls
  import opened Diagnostics
  import opened Rules

  /** No warning of a later rule precedes one of an earlier rule. */
  predicate Ordered(ds: seq<Diagnostic>, rank: Message -> nat) {
    forall i, j :: 0 <= i < j < |ds| ==> rank(ds[i].message) <= rank(ds[j].message)
  }

  /** Every warning in `ds` has a rank in `[lo, hi]`. */
  predicate RanksWithin(ds: seq<Diagnostic>, rank: Message -> nat, lo: nat, hi: nat) {
    forall w :: w in ds ==> lo <= rank(w.message) <= hi
  }

  /** A rule that reports at most once, always with a message of rank `k`. */
  predicate SingleRule(ds: seq<Diagnostic>, rank: Message -> nat, k: nat) {
    |ds| <= 1 && RanksWithin(ds, rank, k, k)
  }

  /** A run of at most one warning is in order. */
  lemma SingleRuleOrdered(ds: seq<Diagnostic>, rank: Message -> nat, k: nat)
    requires SingleRule(ds, rank, k)
    ensures Ordered(ds, rank) && RanksWithin(ds, rank, k, k)
  {
  }

  /**
    Two ordered runs, every warning of the first ranked no higher than any of
    the second, stay ordered when appended, and the bands combine.
   */
  lemma OrderedConcat(a: seq<Diagnostic>, b: seq<Diagnostic>, rank: Message -> nat, lo: nat, mid: nat, hi: nat)
    requires lo <= mid <= hi
    requires Ordered(a, rank) && Ordered(b, rank)
    requires RanksWithin(a, rank, lo, mid) && RanksWithin(b, rank, mid, hi)
    ensures Ordered(a + b, rank) && RanksWithin(a + b, rank, lo, hi)
  {
  }

  /** The class rules report at most once each, with their own message. */
  lemma ClassRulesSingle(c: ClassDecl, rank: Message -> nat)
    requires ValidClass(c)
    ensures SingleRule(ClassLowercase(c), rank, rank(ClassLowercaseName))
    ensures SingleRule(ClassUnderscore(c), rank, rank(ClassUnderscoreInName))
  {
  }

  /** The property rules report at most once each, with their own message. */
  lemma PropertyRulesSingle(p: PropertyDecl, rank: Message -> nat)
    requires ValidProperty(p)
    ensures SingleRule(PropertyCopy(p), rank, rank(PropertyNotCopy(p.typeStr)))
    ensures SingleRule(PropertyUppercase(p), rank, rank(PropertyUppercaseName))
    ensures SingleRule(PropertyUnderscore(p), rank, rank(PropertyUnderscoreInName))
    ensures SingleRule(DelegateWeak(p), rank, rank(DelegateNotWeak))
  {
  }

  /** The body rule reports at most once, with its own message. */
  lemma BodyRuleSingle(m: MethodDecl, rank: Message -> nat)
    ensures SingleRule(BodyTooLong(m), rank, rank(MethodOver50Lines))
  {
  }

  /** Every warning of a slot or parameter loop carries that loop's message. */
  lemma LoopRanks(anchor: nat, message: Message, ids: seq<Ident>, rank: Message -> nat)
    requires AllNamed(ids)
    ensures var r := LeadingUppercase(anchor, message, ids);
      Ordered(r, rank) && RanksWithin(r, rank, rank(message), rank(message))
  {
    LeadingUppercaseSound(anchor, message, ids);
    var r := LeadingUppercase(anchor, message, ids);
    assert forall i :: 0 <= i < |r| ==> r[i] in r;
  }
}
