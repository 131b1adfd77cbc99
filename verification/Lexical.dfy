/** The order of Go strings. */
module Lexical {
  /** Go's `<` on strings: by the first differing element, a prefix first. */
  predicate Less(a: string, b: string) {
    b != [] && (a == [] || a[0] < b[0] || (a[0] == b[0] && Less(a[1..], b[1..])))
  }

  /** `a` comes first at position `i`: they agree before it, and there `a` ends or
    * has the smaller character. */
  predicate FirstAt(a: string, b: string, i: nat) {
    i <= |a| && i < |b| && a[..i] == b[..i] && (i == |a| || a[i] < b[i])
  }

  lemma {:induction false} LessExactly(a: string, b: string)
    ensures Less(a, b) <==> exists i :: FirstAt(a, b, i)
  {
    if b != [] && (a == [] || a[0] < b[0]) {
      assert FirstAt(a, b, 0);
    } else if b != [] {
      if a[0] == b[0] { LessExactly(a[1..], b[1..]); }
      forall i: nat ensures FirstAt(a, b, i) <==> i > 0 && a[0] == b[0] && FirstAt(a[1..], b[1..], i - 1) {
        FirstAtTail(a, b, i);
      }
      if Less(a, b) {
        var i: nat :| FirstAt(a[1..], b[1..], i);
        assert FirstAt(a, b, i + 1);
      }
    }
  }

  lemma FirstAtTail(a: string, b: string, i: nat)
    requires a != [] && b != [] && a[0] >= b[0]
    ensures FirstAt(a, b, i) <==> i > 0 && a[0] == b[0] && FirstAt(a[1..], b[1..], i - 1)
  {
    if 0 < i <= |a| && i <= |b| {
      assert a[..i] == [a[0]] + a[1..][..i - 1];
      assert b[..i] == [b[0]] + b[1..][..i - 1];
    }
  }

  lemma {:induction false} LessIrreflexive(a: string)
    ensures !Less(a, a)
  {
    if a != [] { LessIrreflexive(a[1..]); }
  }

  lemma {:induction false} LessTransitive(a: string, b: string, c: string)
    requires Less(a, b) && Less(b, c)
    ensures Less(a, c)
  {
    if a != [] && a[0] == b[0] == c[0] { LessTransitive(a[1..], b[1..], c[1..]); }
  }

  lemma {:induction false} LessTotal(a: string, b: string)
    ensures a == b || Less(a, b) || Less(b, a)
  {
    if a != [] && b != [] && a[0] == b[0] {
      LessTotal(a[1..], b[1..]);
      assert a == [a[0]] + a[1..] && b == [b[0]] + b[1..];
    }
  }
}
