/**
 The bounded tail of a process's standard error: whatever the chunks it arrives in,
 the ring holds the last bytes of the whole stream.
 */
module StderrTail {

  type Byte = bv8

  const DEFAULT_STDERR_BUFFER_BYTES := 8192

  /** The last `max` elements, or all of them. */
  function Suffix(s: seq<Byte>, max: nat): seq<Byte> {
    if |s| <= max then s else s[|s| - max..]
  }

  lemma SuffixOfAppend(s: seq<Byte>, p: seq<Byte>, max: nat)
    ensures Suffix(Suffix(s, max) + p, max) == Suffix(s + p, max)
  {
    var a, b := Suffix(Suffix(s, max) + p, max), Suffix(s + p, max);
    assert |a| == |b|;
    assert forall k :: 0 <= k < |b| ==> a[k] == b[k];
  }

  lemma SuffixIsTail(s: seq<Byte>, max: nat)
    ensures |Suffix(s, max)| == if |s| < max then |s| else max
    ensures Suffix(s, max) == s[|s| - |Suffix(s, max)|..]
  {
  }

  /** What is left of a buffer that is not too long, after the bytes are appended. */
  lemma SuffixAfterAppend(buf: seq<Byte>, p: seq<Byte>, max: nat)
    requires |buf| <= max
    ensures |p| >= max ==> Suffix(buf + p, max) == p[|p| - max..]
    ensures |p| < max < |buf| + |p| ==> Suffix(buf + p, max) == buf[|buf| + |p| - max..] + p
    ensures |buf| + |p| <= max ==> Suffix(buf + p, max) == buf + p
  {
    if |p| >= max {
      assert (buf + p)[|buf| + |p| - max..] == p[|p| - max..];
    } else if |buf| + |p| > max {
      assert (buf + p)[|buf| + |p| - max..] == buf[|buf| + |p| - max..] + p;
    }
  }

  class StderrRing {
    const max: nat
    var buf: seq<Byte>
    /** Everything ever appended. */
    ghost var stream: seq<Byte>

    ghost predicate Valid()
      reads this
    {
      0 < max && buf == Suffix(stream, max)
    }

    constructor (max: int)
      ensures Valid() && stream == []
      ensures this.max == if max <= 0 then 8192 else max
    {
      this.max := if max <= 0 then DEFAULT_STDERR_BUFFER_BYTES else max;
      buf := [];
      stream := [];
    }

    method Append(p: seq<Byte>)
      requires Valid()
      modifies this
      ensures Valid() && stream == old(stream) + p
      ensures buf == Suffix(old(stream) + p, max)
    {
      SuffixOfAppend(stream, p, max);
      SuffixIsTail(stream, max);
      SuffixAfterAppend(buf, p, max);
      hide Suffix;
      stream := stream + p;
      if |p| >= max {
        buf := p[|p| - max..];
        return;
      }
      var overflow := |buf| + |p| - max;
      if overflow > 0 {
        buf := buf[overflow..];
      }
      buf := buf + p;
    }

    method Write(p: seq<Byte>) returns (n: nat)
      requires Valid()
      modifies this
      ensures Valid() && stream == old(stream) + p && n == |p|
    {
      Append(p);
      n := |p|;
    }

    method String() returns (s: seq<Byte>)
      requires Valid()
      ensures |s| == (if |stream| < max then |stream| else max) && s == stream[|stream| - |s|..]
    {
      SuffixIsTail(stream, max);
      s := buf;
    }

    /** The drain loop: chunk after chunk until the reader ends. */
    method Drain(chunks: seq<seq<Byte>>)
      requires Valid()
      modifies this
      ensures Valid() && stream == old(stream) + Concat(chunks)
    {
      assert chunks[..|chunks|] == chunks;
      for i := 0 to |chunks|
        invariant Valid() && stream == old(stream) + Concat(chunks[..i])
      {
        assert chunks[..i + 1][..i] == chunks[..i];
        var n := Write(chunks[i]);
      }
    }
  }

  function Concat(chunks: seq<seq<Byte>>): seq<Byte> {
    if chunks == [] then [] else Concat(chunks[..|chunks| - 1]) + chunks[|chunks| - 1]
  }

  /** What a ring holds after the chunks, one append at a time. */
  function AfterAppends(chunks: seq<seq<Byte>>, max: nat): seq<Byte> {
    if chunks == [] then []
    else Suffix(AfterAppends(chunks[..|chunks| - 1], max) + chunks[|chunks| - 1], max)
  }

  /** The contents after any chunks are the tail of the stream, so how it was cut up is irrelevant. */
  lemma {:induction false} ChunkingIsIrrelevant(chunks: seq<seq<Byte>>, max: nat)
    ensures AfterAppends(chunks, max) == Suffix(Concat(chunks), max)
  {
    if chunks != [] {
      ChunkingIsIrrelevant(chunks[..|chunks| - 1], max);
      SuffixOfAppend(Concat(chunks[..|chunks| - 1]), chunks[|chunks| - 1], max);
    }
  }
}
