/**
 * `copy_trimmed` (and its twin `copy_trimmed_string` in the legacy parser):
 * copy a fixed-width, NUL/space padded text field into a C string buffer of
 * `dstSize` bytes. The model keeps the bytes that precede the terminating NUL;
 * "always NUL-terminated" becomes "strictly shorter than the buffer".
 */
module Trim {
  import opened Bytes

  /** The padding bytes the copy drops from the end: NUL and space. */
  predicate IsPad(b: uint8) { b == 0 || b == 0x20 }

  /** Length of `src` once its trailing padding is dropped. */
  function TrimmedLength(src: seq<uint8>): (n: nat)
    ensures n <= |src|
    decreases |src|
  {
    if |src| > 0 && IsPad(src[|src| - 1]) then TrimmedLength(src[..|src| - 1]) else |src|
  }

  /**
   * What `TrimmedLength` keeps: everything after it is padding, and the last
   * byte kept is not, so the trailing padding is dropped as a whole.
   */
  lemma {:induction false} TrimmedLengthDropsPadding(src: seq<uint8>)
    ensures var n := TrimmedLength(src);
      (forall k :: n <= k < |src| ==> IsPad(src[k])) && (n > 0 ==> !IsPad(src[n - 1]))
    decreases |src|
  {
    if |src| > 0 && IsPad(src[|src| - 1]) {
      var prefix := src[..|src| - 1];
      TrimmedLengthDropsPadding(prefix);
      assert forall k :: 0 <= k < |prefix| ==> prefix[k] == src[k];
    }
  }

  /** Dropping a tail of padding does not change where the trimmed text ends. */
  lemma {:induction false} TrimmedPaddingTail(src: seq<uint8>, n: nat)
    requires n <= |src|
    requires forall k :: n <= k < |src| ==> IsPad(src[k])
    ensures TrimmedLength(src) == TrimmedLength(src[..n])
    decreases |src|
  {
    if |src| > n {
      assert src[..|src| - 1][..n] == src[..n];
      TrimmedPaddingTail(src[..|src| - 1], n);
    } else {
      assert src[..n] == src;
    }
  }

  /** The text `copy_trimmed` leaves in a `dstSize`-byte buffer, without its NUL. */
  function Trimmed(src: seq<uint8>, dstSize: nat): seq<uint8>
    requires dstSize >= 1
  {
    src[..Min(TrimmedLength(src), dstSize - 1)]
  }

  /**
   * The loop of `copy_trimmed`: walk `count` back over trailing padding, then
   * cap it at `dstSize - 1` so that the terminating NUL fits.
   */
  method CopyTrimmed(src: seq<uint8>, dstSize: nat) returns (dst: seq<uint8>)
    requires dstSize >= 1
    ensures |dst| < dstSize && |dst| <= |src| && dst == src[..|dst|]
    ensures dst == Trimmed(src, dstSize)
  {
    var count := |src|;
    assert src[..count] == src;
    while count > 0 && IsPad(src[count - 1])
      invariant 0 <= count <= |src|
      invariant TrimmedLength(src[..count]) == TrimmedLength(src)
    {
      assert src[..count][..count - 1] == src[..count - 1];
      count := count - 1;
    }
    if count >= dstSize {
      count := dstSize - 1;
    }
    dst := src[..count];
  }

  /**
   * When the buffer is wide enough (always so in the parsers: 20 bytes into
   * 21, 22 into 23) trimming only removes padding: the source is the result
   * followed by NUL and space bytes.
   */
  lemma TrimmedDropsOnlyPadding(src: seq<uint8>, dstSize: nat)
    requires |src| < dstSize
    ensures var r := Trimmed(src, dstSize);
      src == r + src[|r|..] && forall k :: |r| <= k < |src| ==> IsPad(src[k])
  {
    TrimmedLengthDropsPadding(src);
  }

  /** Trimming twice is trimming once, when the buffer is wide enough. */
  lemma {:induction false} TrimmedIdempotent(src: seq<uint8>, dstSize: nat)
    requires |src| < dstSize
    ensures Trimmed(Trimmed(src, dstSize), dstSize) == Trimmed(src, dstSize)
  {
    var r := Trimmed(src, dstSize);
    TrimmedLengthDropsPadding(src);
    if |r| > 0 {
      assert r[..|r| - 1] == src[..|r| - 1];
    }
  }
}
