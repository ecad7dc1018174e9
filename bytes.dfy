/** Bytes and chunk lists, as held by a Node.js `Buffer[]`. */
module Bytes {

  /** One octet of a `Buffer`. */
  type byte = b: int | 0 <= b < 256

  /** `Buffer.concat`: the bytes of the chunks, front to back. */
  function Concat(cs: seq<seq<byte>>): seq<byte>
  {
    if cs == [] then [] else cs[0] + Concat(cs[1..])
  }

  /** Concatenation distributes over appending chunk lists. */
  lemma {:induction false} ConcatAppend(a: seq<seq<byte>>, b: seq<seq<byte>>)
    ensures Concat(a + b) == Concat(a) + Concat(b)
  {
    if a == [] {
      assert a + b == b;
    } else {
      assert (a + b)[1..] == a[1..] + b;
      ConcatAppend(a[1..], b);
    }
  }

  /** A single chunk concatenates to itself. */
  lemma ConcatSingle(c: seq<byte>)
    ensures Concat([c]) == c
  {
    assert [c][1..] == [];
  }

  /**
   * `calcLength`: the chunk lengths summed by a left fold, as `reduce` does;
   * it is the number of bytes the chunks hold.
   */
  function CalcLength(cs: seq<seq<byte>>): (r: nat)
    ensures r == |Concat(cs)|
  {
    if cs == [] then 0
    else
      var init, last := cs[..|cs| - 1], cs[|cs| - 1];
      assert init + [last] == cs;
      ConcatAppend(init, [last]);
      ConcatSingle(last);
      CalcLength(init) + |last|
  }

  /** Concatenation is associative. */
  lemma Assoc<T>(a: seq<T>, b: seq<T>, c: seq<T>)
    ensures (a + b) + c == a + (b + c)
  {
  }

  /** The four parts of `a + b + c + d` can be sliced back out of it. */
  lemma Parts<T>(a: seq<T>, b: seq<T>, c: seq<T>, d: seq<T>)
    ensures var m, i, j, k := a + b + c + d, |a|, |a| + |b|, |a| + |b| + |c|;
      m[..i] == a && m[i..j] == b && m[j..k] == c && m[k..] == d
  {
  }
}
