// Sequences got from others by leaving elements out.
module Subsequences {
  // a can be got from b by leaving elements out.
  predicate Subsequence<T(==)>(a: seq<T>, b: seq<T>) {
    if a == [] then true
    else if b == [] then false
    else (a[0] == b[0] && Subsequence(a[1..], b[1..])) || Subsequence(a, b[1..])
  }

  lemma {:induction false} SubsequencePrefix<T>(a: seq<T>, c: seq<T>, b: seq<T>)
    requires Subsequence(a + c, b)
    ensures Subsequence(a, b)
    decreases |b|
  {
    if a != [] {
      assert (a + c)[1..] == a[1..] + c;
      if b != [] && a[0] == b[0] && Subsequence(a[1..] + c, b[1..]) {
        SubsequencePrefix(a[1..], c, b[1..]);
      } else {
        SubsequencePrefix(a, c, b[1..]);
      }
    }
  }

  lemma {:induction false} SubsequenceExtend<T>(a: seq<T>, b: seq<T>, c: seq<T>)
    requires Subsequence(a, b)
    ensures Subsequence(a + c, b + c) && Subsequence(a, b + c)
    decreases |b|
  {
    if b == [] {
      assert a + c == c && b + c == c;
      SubsequenceSelf(c);
    } else {
      assert (b + c)[1..] == b[1..] + c;
      if a == [] {
        SubsequenceExtend([], b[1..], c);
        assert [] + c == c;
      } else if a[0] == b[0] && Subsequence(a[1..], b[1..]) {
        SubsequenceExtend(a[1..], b[1..], c);
        assert (a + c)[1..] == a[1..] + c;
      } else {
        SubsequenceExtend(a, b[1..], c);
      }
    }
  }

  lemma {:induction false} SubsequenceSelf<T>(c: seq<T>)
    ensures Subsequence(c, c)
  {
    if c != [] {
      SubsequenceSelf(c[1..]);
    }
  }

  lemma {:induction false} SubsequenceTrans<T>(a: seq<T>, b: seq<T>, c: seq<T>)
    requires Subsequence(a, b) && Subsequence(b, c)
    ensures Subsequence(a, c)
    decreases |b| + |c|
  {
    if a != [] {
      if b[0] == c[0] && Subsequence(b[1..], c[1..]) {
        if a[0] == b[0] && Subsequence(a[1..], b[1..]) {
          SubsequenceTrans(a[1..], b[1..], c[1..]);
        } else {
          SubsequenceTrans(a, b[1..], c[1..]);
        }
      } else {
        SubsequenceTrans(a, b, c[1..]);
      }
    }
  }
}
