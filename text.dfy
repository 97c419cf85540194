/**
 * String helpers of the pipeline. A `string` here holds the bytes of a Go string, one
 * element per byte: Go's `len` and slicing count bytes, and every literal text of the
 * pipeline is ASCII, so one element per byte is exact for them.
 */
module Text {

  const Ellipsis := "..."

  /**
   * `truncate`: a string of at most `maxLen` bytes is returned as it is; a longer one is
   * cut to its first `maxLen` bytes and `"..."` is appended (so the result is
   * `maxLen + 3` bytes long, longer than the limit).
   */
  function Truncate(s: string, maxLen: nat): (r: string)
    ensures |s| <= maxLen ==> r == s
    ensures |s| > maxLen ==> |r| == maxLen + 3 && r[..maxLen] == s[..maxLen] && r[maxLen..] == Ellipsis
  {
    if |s| <= maxLen then s else s[..maxLen] + Ellipsis
  }

  /** Truncating an already truncated string changes nothing. */
  lemma TruncateIdempotent(s: string, maxLen: nat)
    ensures Truncate(Truncate(s, maxLen), maxLen) == Truncate(s, maxLen)
  {
    if |s| > maxLen {
      var t := Truncate(s, maxLen);
      assert t[..maxLen] + Ellipsis == t by {
        assert t == t[..maxLen] + t[maxLen..];
      }
    }
  }

  /**
   * `truncate` returns its input exactly when the input fits, or when the input is one
   * byte-for-byte equal to its own truncation: `maxLen` bytes followed by "...".
   */
  lemma TruncateUnchangedIff(s: string, maxLen: nat)
    ensures Truncate(s, maxLen) == s <==> |s| <= maxLen || (|s| == maxLen + 3 && s[maxLen..] == Ellipsis)
  {
    if |s| > maxLen && |s| == maxLen + 3 && s[maxLen..] == Ellipsis {
      assert s == s[..maxLen] + s[maxLen..];
    }
  }

  /** Go's `strings.HasPrefix`. */
  predicate HasPrefix(s: string, prefix: string) {
    |prefix| <= |s| && s[..|prefix|] == prefix
  }

  /** Go's `strings.Contains`: `sub` occurs somewhere in `s`. */
  predicate Contains(s: string, sub: string)
    decreases |s|
  {
    HasPrefix(s, sub) || (|s| > 0 && Contains(s[1..], sub))
  }

  /** Concatenation is associative (stated once so that proofs about long texts need not rediscover it). */
  lemma ConcatAssoc<T>(x: seq<T>, y: seq<T>, z: seq<T>)
    ensures (x + y) + z == x + (y + z)
  {
  }
}
