/** The order in which strings, and pairs of strings, are sorted: character by
    character, a prefix first. */
module Lexical {

  predicate Less(a: string, b: string) {
    b != "" && (a == "" || a[0] < b[0] || (a[0] == b[0] && Less(a[1..], b[1..])))
  }

  lemma {:induction false} Irreflexive(a: string)
    ensures !Less(a, a)
  {
    if a != "" {
      Irreflexive(a[1..]);
    }
  }

  lemma {:induction false} Transitive(a: string, b: string, c: string)
    requires Less(a, b) && Less(b, c)
    ensures Less(a, c)
  {
    if a != "" && a[0] == b[0] == c[0] {
      Transitive(a[1..], b[1..], c[1..]);
    }
  }

  lemma {:induction false} Total(a: string, b: string)
    ensures Less(a, b) || a == b || Less(b, a)
  {
    if a != "" && b != "" && a[0] == b[0] {
      Total(a[1..], b[1..]);
      assert a == [a[0]] + a[1..] && b == [b[0]] + b[1..];
    }
  }

  predicate PairLess(a: (string, string), b: (string, string)) {
    Less(a.0, b.0) || (a.0 == b.0 && Less(a.1, b.1))
  }

  /** A strict total order. */
  lemma PairOrder(a: (string, string), b: (string, string), c: (string, string))
    ensures !PairLess(a, a)
    ensures PairLess(a, b) && PairLess(b, c) ==> PairLess(a, c)
    ensures PairLess(a, b) || a == b || PairLess(b, a)
  {
    Irreflexive(a.0);
    Irreflexive(a.1);
    Total(a.0, b.0);
    Total(a.1, b.1);
    if PairLess(a, b) && PairLess(b, c) {
      if Less(a.0, b.0) && Less(b.0, c.0) {
        Transitive(a.0, b.0, c.0);
      }
      if Less(a.1, b.1) && Less(b.1, c.1) {
        Transitive(a.1, b.1, c.1);
      }
    }
  }

  /** The first separator splits a string in one way. */
  lemma SplitOnce(a: string, b: string, a': string, b': string, c: char)
    requires c !in a && c !in a' && a + [c] + b == a' + [c] + b'
    ensures a == a' && b == b'
  {
    var whole := a + [c] + b;
    assert whole[|a|] == c && whole[|a'|] == c;
    assert |a| == |a'|;
    assert a == whole[..|a|] && a' == whole[..|a'|];
    assert b == whole[|a| + 1..] && b' == whole[|a'| + 1..];
  }
}
