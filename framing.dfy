/**
 * The frame reader of DTMFdetect.c (`read_frame`): short reads are
 * accumulated into one frame of N == 240 bytes; a read that returns nothing
 * before the frame is full ends the stream and the partial frame is dropped.
 */
module Framing {
  import opened Tones

  /** The bytes a source delivers before end of file: its chunks up to the first empty one. */
  function Delivered(chunks: seq<seq<bv8>>): seq<bv8>
  {
    if chunks == [] || chunks[0] == [] then [] else chunks[0] + Delivered(chunks[1..])
  }

  /**
   * The input descriptor. `chunks` are the byte runs successive reads see;
   * an empty chunk, or none left, is end of file.
   */
  class ByteSource {
    var chunks: seq<seq<bv8>>

    constructor (chunks: seq<seq<bv8>>)
      ensures this.chunks == chunks
    {
      this.chunks := chunks;
    }

    /** `read(fd, &buf[at], n)`: at most n bytes of the current chunk, copied to buf[at..]. */
    method Read(buf: array<bv8>, at: nat, n: nat) returns (x: int)
      requires at + n <= buf.Length
      modifies this, buf
      ensures 0 <= x <= n && x <= |old(Delivered(chunks))|
      ensures x == 0 <==> n == 0 || old(Delivered(chunks)) == []
      ensures buf[at..at + x] == old(Delivered(chunks))[..x]
      ensures forall k :: 0 <= k < buf.Length && !(at <= k < at + x) ==> buf[k] == old(buf[k])
      ensures Delivered(chunks) == old(Delivered(chunks))[x..]
    {
      if n == 0 || chunks == [] || chunks[0] == [] {
        return 0;
      }
      var c := chunks[0];
      x := if |c| <= n then |c| else n;
      var j := 0;
      while j < x
        modifies buf
        invariant 0 <= j <= x
        invariant buf[at..at + j] == c[..j]
        invariant forall k :: 0 <= k < buf.Length && !(at <= k < at + j) ==> buf[k] == old(buf[k])
      {
        buf[at + j] := c[j];
        j := j + 1;
      }
      var rest := chunks[1..];
      assert old(Delivered(chunks)) == c + Delivered(rest);
      assert (c + Delivered(rest))[x..] == c[x..] + Delivered(rest);
      if x == |c| {
        chunks := rest;
      } else {
        chunks := [c[x..]] + rest;
        assert chunks[1..] == rest;
      }
    }
  }

  /**
   * `read_frame`: true with the next N bytes in buf[..N] when the source
   * still holds a whole frame; false, having consumed the rest, otherwise.
   */
  method ReadFrame(src: ByteSource, buf: array<bv8>) returns (ok: bool)
    requires buf.Length >= N
    modifies src, buf
    ensures ok == (|old(Delivered(src.chunks))| >= N)
    ensures ok ==> buf[..N] == old(Delivered(src.chunks))[..N]
    ensures ok ==> Delivered(src.chunks) == old(Delivered(src.chunks))[N..]
    ensures !ok ==> Delivered(src.chunks) == []
  {
    var i := 0;
    while i < N
      invariant 0 <= i <= N && i <= |old(Delivered(src.chunks))|
      invariant buf[..i] == old(Delivered(src.chunks))[..i]
      invariant Delivered(src.chunks) == old(Delivered(src.chunks))[i..]
    {
      var x := src.Read(buf, i, N - i);
      if x <= 0 {
        return false;
      }
      assert buf[..i + x] == buf[..i] + buf[i..i + x];
      i := i + x;
    }
    return true;
  }

  /** The whole frames of a byte stream, in order; a short tail is dropped. */
  function Frames(bytes: seq<bv8>): seq<seq<bv8>>
  {
    if |bytes| < N then [] else [bytes[..N]] + Frames(bytes[N..])
  }

  /** A stream of L bytes holds L / N frames, frame k being bytes k*N up to (k+1)*N. */
  lemma {:induction false} FramesOfStream(bytes: seq<bv8>)
    ensures |Frames(bytes)| == |bytes| / N
    ensures forall k :: 0 <= k < |Frames(bytes)| ==> Frames(bytes)[k] == bytes[k * N..k * N + N]
  {
    if |bytes| >= N {
      var rest := bytes[N..];
      FramesOfStream(rest);
      forall k | 0 <= k < |Frames(bytes)|
        ensures Frames(bytes)[k] == bytes[k * N..k * N + N]
      {
        if k > 0 {
          assert Frames(bytes)[k] == Frames(rest)[k - 1];
          assert rest[(k - 1) * N..(k - 1) * N + N] == bytes[k * N..k * N + N];
        }
      }
    }
  }
}
