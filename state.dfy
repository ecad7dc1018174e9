/** The byte accumulator of `src/state.ts`: received chunks and their cached total length. */
module Accumulator {
  import opened Wrappers
  import opened Bytes
  import Text

  /** The error `get` throws when asked for more bytes than are held. */
  function CouldNotGet(n: nat): string
  {
    "could not get " + Text.Decimal(n) + " bytes"
  }

  class State {
    /** `_buffers`: the retained chunks, oldest first. */
    var chunks: seq<seq<byte>>
    /** `_length`: the cached number of retained bytes. */
    var length: nat

    /** The cached length is the sum of the chunk lengths. */
    ghost predicate Valid()
      reads this
    {
      length == CalcLength(chunks)
    }

    /** The bytes held, in arrival order. */
    ghost function Contents(): seq<byte>
      reads this
    {
      Concat(chunks)
    }

    constructor ()
      ensures Valid()
      ensures chunks == [] && length == 0 && Contents() == []
    {
      chunks := [];
      length := 0;
    }

    /** The `length` getter: the number of bytes held. */
    function Length(): (r: nat)
      reads this
      requires Valid()
      ensures r == |Contents()|
    {
      length
    }

    /** `has(n)`: at least `n` bytes are held; `has()`: some byte is held. */
    function Has(n: Option<nat>): (r: bool)
      reads this
      requires Valid()
      ensures n.None? ==> (r <==> |Contents()| > 0)
      ensures n.Some? ==> (r <==> |Contents()| >= n.value)
    {
      if n.None? then length > 0 else length >= n.value
    }

    /** `add(data)`: keeps `data` as the newest chunk. */
    method Add(data: seq<byte>)
      requires Valid()
      modifies this
      ensures Valid()
      ensures chunks == old(chunks) + [data] && length == old(length) + |data|
      ensures Contents() == old(Contents()) + data
    {
      ghost var before := chunks;
      length := length + |data|;
      chunks := chunks + [data];
      ConcatAppend(before, [data]);
      ConcatSingle(data);
      assert CalcLength(chunks) == |Concat(chunks)| == |Concat(before)| + |data|;
    }

    /**
     * `get(n)`: removes and returns the first `n` bytes, or every byte when `n` is
     * absent; asking for more than is held fails and changes nothing.
     */
    method Get(n: Option<nat>) returns (r: Result<seq<byte>, string>)
      requires Valid()
      modifies this
      ensures Valid()
      ensures n.None? || n.value <= old(length) ==>
        var k := if n.None? then old(length) else n.value;
        && r == Ok(old(Contents())[..k])
        && Contents() == old(Contents())[k..]
        && length == old(length) - k
      ensures n.Some? && n.value > old(length) ==>
        r == Err(CouldNotGet(n.value)) && chunks == old(chunks) && length == old(length)
      // taking everything leaves no chunk behind
      ensures n.None? || n.value == old(length) ==> chunks == []
      // a cut inside the first of several chunks touches only that chunk
      ensures n.Some? && n.value != old(length) && |old(chunks)| > 1 && n.value <= |old(chunks)[0]| ==>
        chunks == (if n.value == |old(chunks)[0]| then [] else [old(chunks)[0][n.value..]]) + old(chunks)[1..]
      // otherwise whole chunks are dropped from the front, the next one keeps only a tail
      // and the rest are untouched
      ensures n.Some? && n.value < old(length) && !(|old(chunks)| > 1 && n.value <= |old(chunks)[0]|) ==>
        && 0 < |chunks| <= |old(chunks)|
        && var j := |old(chunks)| - |chunks|;
        && chunks[1..] == old(chunks)[j + 1..]
        && |chunks[0]| <= |old(chunks)[j]| && chunks[0] == old(chunks)[j][|old(chunks)[j]| - |chunks[0]|..]
        && (n.value > 0 ==> |Concat(old(chunks)[..j])| < n.value)
      // the chunk list never grows
      ensures |chunks| <= |old(chunks)|
    {
      if n.None? || n.value == length {
        var buf := TakeAll();
        assert buf[..|buf|] == buf;
        r := Ok(buf);
      } else if |chunks| > 1 && n.value <= |chunks[0]| {
        var buf := CutFirst(n.value);
        r := Ok(buf);
      } else if n.value < length {
        var buf := CutAcross(n.value);
        r := Ok(buf);
      } else {
        r := Err(CouldNotGet(n.value));
      }
    }

    /** The branch of `get` that empties the accumulator. */
    method TakeAll() returns (buf: seq<byte>)
      requires Valid()
      modifies this
      ensures Valid()
      ensures buf == old(Contents()) && |buf| == old(length)
      ensures chunks == [] && length == 0
    {
      buf := Concat(chunks);
      length := 0;
      chunks := [];
    }

    /** The branch of `get` that cuts inside the first of several chunks. */
    method CutFirst(k: nat) returns (buf: seq<byte>)
      requires Valid() && |chunks| > 1 && k <= |chunks[0]|
      modifies this
      ensures Valid()
      ensures buf == old(Contents())[..k] && Contents() == old(Contents())[k..]
      ensures k <= old(length) && length == old(length) - k
      ensures chunks == (if k == |old(chunks)[0]| then [] else [old(chunks)[0][k..]]) + old(chunks)[1..]
    {
      var first := chunks[0];
      var rest := chunks[1..];
      assert Concat(chunks) == first + Concat(rest);
      buf := first[..k];
      if k == |first| {
        chunks := rest;
      } else {
        chunks := [first[k..]] + rest;
        assert Concat(chunks) == first[k..] + Concat(rest);
      }
      length := length - k;
      assert old(Contents()) == buf + Contents();
    }

    /**
     * The branch of `get` that drops whole chunks from the front while they fall
     * short of `k` bytes and then cuts the next one.
     */
    method CutAcross(k: nat) returns (buf: seq<byte>)
      requires Valid() && k < length
      modifies this
      ensures Valid()
      ensures buf == old(Contents())[..k] && Contents() == old(Contents())[k..]
      ensures length == old(length) - k
      // the whole chunks in front are dropped, the next one keeps only a tail, the rest are untouched
      ensures 0 < |chunks| <= |old(chunks)|
      ensures var j := |old(chunks)| - |chunks|;
        && chunks[1..] == old(chunks)[j + 1..]
        && |chunks[0]| <= |old(chunks)[j]| && chunks[0] == old(chunks)[j][|old(chunks)[j]| - |chunks[0]|..]
      // the chunks dropped fall short of `k`, so a cut on a chunk boundary leaves an empty tail
      ensures k > 0 ==> |Concat(old(chunks)[..|old(chunks)| - |chunks|])| < k
    {
      var out, len := DropShort(k);
      ghost var j, kept := |out|, chunks;
      ghost var head, dropped := kept[0], out;
      assert head == old(chunks)[j];
      if len < k {
        var first := chunks[0];
        SplitChunk(out, chunks, k - len);
        out := out + [first[..k - len]];
        chunks := [first[k - len..]] + chunks[1..];
        length := length - k;
        assert chunks[0] == head[k - len..] && |head| - |chunks[0]| == k - len;
      } else {
        assert head[0..] == head;
      }
      assert chunks[0] == head[|head| - |chunks[0]|..];
      assert |chunks| == |kept| && chunks[1..] == kept[1..] && kept == old(chunks)[j..];
      assert old(chunks)[..j] == dropped;
      buf := Concat(out);
      assert buf == (buf + Concat(chunks))[..k];
      assert Concat(chunks) == (buf + Concat(chunks))[k..];
    }

    /**
     * The `while` loop of that branch: moves whole chunks to `out` while the bytes
     * moved plus the next chunk fall short of `k`; `len` counts the bytes moved.
     */
    method DropShort(k: nat) returns (out: seq<seq<byte>>, len: nat)
      requires Valid() && k < length
      modifies this`chunks
      ensures chunks != [] && len + |chunks[0]| >= k
      ensures len <= k && (len == 0 || len < k)
      ensures len + |Concat(chunks)| == length
      ensures Concat(out) + Concat(chunks) == old(Contents()) && |Concat(out)| == len
      ensures |out| < |old(chunks)| && out == old(chunks)[..|out|] && chunks == old(chunks)[|out|..]
    {
      ghost var all := Contents();
      out, len := [], 0;
      while len + |chunks[0]| < k
        invariant len <= k && (len == 0 || len < k)
        invariant len + |Concat(chunks)| == length
        invariant Concat(out) + Concat(chunks) == all
        invariant |Concat(out)| == len
        invariant |out| < |old(chunks)| && out == old(chunks)[..|out|] && chunks == old(chunks)[|out|..]
        invariant chunks != []
        decreases |chunks|
      {
        var b := chunks[0];
        ShiftChunk(out, chunks);
        chunks := chunks[1..];
        len := len + |b|;
        out := out + [b];
      }
    }
  }

  /** Moving the front chunk of `cs` to the back of `out` keeps the bytes in order. */
  lemma ShiftChunk(out: seq<seq<byte>>, cs: seq<seq<byte>>)
    requires cs != []
    ensures Concat(out + [cs[0]]) + Concat(cs[1..]) == Concat(out) + Concat(cs)
    ensures |Concat(out + [cs[0]])| == |Concat(out)| + |cs[0]|
  {
    ConcatAppend(out, [cs[0]]);
    ConcatSingle(cs[0]);
  }

  /** Cutting the front chunk of `cs` after `j` bytes, the head going to `out`, keeps the bytes in order. */
  lemma SplitChunk(out: seq<seq<byte>>, cs: seq<seq<byte>>, j: nat)
    requires cs != [] && j <= |cs[0]|
    ensures Concat(out + [cs[0][..j]]) + Concat([cs[0][j..]] + cs[1..]) == Concat(out) + Concat(cs)
    ensures |Concat(out + [cs[0][..j]])| == |Concat(out)| + j
  {
    var h, t, rest := cs[0][..j], cs[0][j..], cs[1..];
    ConcatAppend(out, [h]);
    ConcatSingle(h);
    assert ([t] + rest)[0] == t && ([t] + rest)[1..] == rest;
    assert Concat([t] + rest) == t + Concat(rest);
    assert h + t == cs[0];
    assert Concat(cs) == (h + t) + Concat(rest);
    Assoc(Concat(out) + h, t, Concat(rest));
    Assoc(Concat(out), h, t + Concat(rest));
    Assoc(h, t, Concat(rest));
  }

  /**
   * Two successive `get`s return consecutive slices of the held bytes, wherever
   * the chunk boundaries fall.
   */
  method GetTwice(s: State, a: nat, b: nat) returns (first: seq<byte>, second: seq<byte>)
    requires s.Valid() && a + b <= s.length
    modifies s
    ensures s.Valid()
    ensures first == old(s.Contents())[..a] && second == old(s.Contents())[a..a + b]
    ensures s.Contents() == old(s.Contents())[a + b..]
  {
    var r1 := s.Get(Some(a));
    var r2 := s.Get(Some(b));
    first, second := r1.value, r2.value;
  }
}
