/** The push-then-shift trimming every bounded buffer of the real-time detector uses. */
module Capped {

  /** `buf.push(x); if (buf.length > cap) buf.shift();` */
  function PushCapped<T>(s: seq<T>, x: T, cap: nat): seq<T>
  {
    var t := s + [x];
    if |t| > cap then t[1..] else t
  }

  /**
   * Below capacity the element is appended; at capacity the oldest element is
   * evicted and nothing else changes; either way the buffer respects the cap
   * and ends with the new element.
   */
  lemma PushCappedEvictsOldest<T>(s: seq<T>, x: T, cap: nat)
    requires 0 < cap && |s| <= cap
    ensures |PushCapped(s, x, cap)| <= cap
    ensures PushCapped(s, x, cap)[|PushCapped(s, x, cap)| - 1] == x
    ensures |s| < cap ==> PushCapped(s, x, cap) == s + [x]
    ensures |s| == cap ==> PushCapped(s, x, cap) == s[1..] + [x]
    ensures |s| == cap ==> |PushCapped(s, x, cap)| == cap
  {
    if |s| == cap {
      assert (s + [x])[1..] == s[1..] + [x];
    }
  }

  /** `w` is the newest part of `h`: its last `|w|` elements, in order. */
  ghost predicate SuffixOf<T>(w: seq<T>, h: seq<T>)
  {
    |w| <= |h| && w == h[|h| - |w|..]
  }

  /** The newest part of the newest part of `c` is a newest part of `c`. */
  lemma SuffixTrans<T>(a: seq<T>, b: seq<T>, c: seq<T>)
    requires SuffixOf(a, b) && SuffixOf(b, c)
    ensures SuffixOf(a, c)
  {
    var i, j := |b| - |a|, |c| - |b|;
    assert forall k :: 0 <= k < |a| ==> a[k] == b[i + k] == c[j + i + k];
  }

  /** Of two newest parts of `c`, the shorter is a newest part of the longer. */
  lemma SuffixOfSuffix<T>(a: seq<T>, b: seq<T>, c: seq<T>)
    requires SuffixOf(a, c) && SuffixOf(b, c) && |a| <= |b|
    ensures SuffixOf(a, b)
  {
    var i, j := |c| - |a|, |c| - |b|;
    assert forall k :: 0 <= k < |a| ==> a[k] == c[i + k] == b[i - j + k];
  }

  /** Pushing the same element onto a short buffer and a longer one with a larger cap keeps the first a suffix of the second. */
  lemma PushCappedKeepsSuffix<T>(w: seq<T>, h: seq<T>, x: T, wcap: nat, hcap: nat)
    requires wcap <= hcap && |w| <= wcap && SuffixOf(w, h)
    ensures SuffixOf(PushCapped(w, x, wcap), PushCapped(h, x, hcap))
  {
    var w1, h1 := w + [x], h + [x];
    assert SuffixOf(w1, h1) by {
      var d := |h| - |w|;
      assert forall k :: 0 <= k < |w1| ==> w1[k] == h1[d + k];
    }
    var w2, h2 := PushCapped(w, x, wcap), PushCapped(h, x, hcap);
    assert SuffixOf(w2, w1) && SuffixOf(h2, h1);
    SuffixTrans(w2, w1, h1);
    SuffixOfSuffix(w2, h2, h1);
  }
}
