/** What `MipmapStorage::compare` computes, as a scan over two texel
    buffers in flat order: texel by texel, and within a texel channel by
    channel. The storage's loops over levels, rows, texels and channels
    visit the texels of the levels they scan in exactly this order. */
module TexelCompare {
  import opened MipMath
  import opened StorageLayout

  /** `a > b ? a - b : b - a` on `uint8_t`: no wrap-around. */
  function Delta(a: u8, b: u8): (r: u8)
    ensures a >= b ==> a == b + r
    ensures b >= a ==> b == a + r
  {
    if a > b then a - b else b - a
  }

  /** The difference at channel `c` of texel `k`. */
  function ChannelDelta(a: seq<Texel>, b: seq<Texel>, k: nat, c: nat): u8
    requires k < |a| <= |b| && c < 4
  {
    Delta(Channel(a[k], c), Channel(b[k], c))
  }

  /** The worst difference so far and the texel and channel it was found
      at. */
  datatype Worst = Worst(delta: u8, texel: nat, channel: nat)

  const NoDifference: Worst := Worst(0, 0, 0)

  /** Channel `c` of texel `k` comes before channel `c'` of texel `k'` in
      the scan. */
  predicate Before(k: nat, c: nat, k': nat, c': nat)
  {
    k < k' || (k == k' && c < c')
  }

  /** Channels 0 to `c - 1` of texel `k` scanned after `acc`, replacing the
      worst only on a strictly larger difference. */
  function ScanChannels(acc: Worst, a: seq<Texel>, b: seq<Texel>, k: nat, c: nat): Worst
    requires k < |a| <= |b| && c <= 4
  {
    if c == 0 then acc
    else
      var w := ScanChannels(acc, a, b, k, c - 1);
      var d := ChannelDelta(a, b, k, c - 1);
      if d > w.delta then Worst(d, k, c - 1) else w
  }

  /** Texels `lo` to `hi - 1` scanned in order, starting from no difference
      at texel 0, channel 0. */
  function Scan(a: seq<Texel>, b: seq<Texel>, lo: nat, hi: nat): Worst
    requires lo <= hi <= |a| <= |b|
    decreases hi - lo
  {
    if hi == lo then NoDifference
    else ScanChannels(Scan(a, b, lo, hi - 1), a, b, hi - 1, 4)
  }

  /** Scanning the channels of one texel either keeps the worst so far,
      when no channel is worse, or moves it to the first worst channel,
      which is strictly worse than before. */
  lemma {:induction false} ScanChannelsFirstMaximum(acc: Worst, a: seq<Texel>, b: seq<Texel>, k: nat, c: nat)
    requires k < |a| <= |b| && c <= 4
    ensures var w := ScanChannels(acc, a, b, k, c);
            && w.delta >= acc.delta
            && (forall c' :: 0 <= c' < c ==> ChannelDelta(a, b, k, c') <= w.delta)
            && (w == acc || (w.delta > acc.delta && w.texel == k && w.channel < c
                             && ChannelDelta(a, b, k, w.channel) == w.delta
                             && forall c' :: 0 <= c' < w.channel ==> ChannelDelta(a, b, k, c') < w.delta))
    decreases c
  {
    if c > 0 {
      ScanChannelsFirstMaximum(acc, a, b, k, c - 1);
    }
  }

  /** The scan finds the largest difference over the range and reports the
      first texel and channel holding it; when every difference is zero it
      reports texel 0, channel 0. */
  lemma {:induction false} ScanIsFirstMaximum(a: seq<Texel>, b: seq<Texel>, lo: nat, hi: nat)
    requires lo <= hi <= |a| <= |b|
    ensures var w := Scan(a, b, lo, hi);
            && (forall k, c :: lo <= k < hi && 0 <= c < 4 ==> ChannelDelta(a, b, k, c) <= w.delta)
            && (w.delta == 0 ==> w == NoDifference)
            && (w.delta > 0 ==>
                  && lo <= w.texel < hi && w.channel < 4
                  && ChannelDelta(a, b, w.texel, w.channel) == w.delta
                  && forall k, c :: lo <= k <= w.texel && 0 <= c < 4 && Before(k, c, w.texel, w.channel) ==>
                                      ChannelDelta(a, b, k, c) < w.delta)
    decreases hi - lo
  {
    if hi > lo {
      ScanIsFirstMaximum(a, b, lo, hi - 1);
      ScanChannelsFirstMaximum(Scan(a, b, lo, hi - 1), a, b, hi - 1, 4);
    }
  }

  lemma {:induction false} ScanChannelsSymmetric(acc: Worst, a: seq<Texel>, b: seq<Texel>, k: nat, c: nat)
    requires k < |a| == |b| && c <= 4
    ensures ScanChannels(acc, a, b, k, c) == ScanChannels(acc, b, a, k, c)
    decreases c
  {
    if c > 0 {
      ScanChannelsSymmetric(acc, a, b, k, c - 1);
    }
  }

  /** Comparing `b` with `a` gives what comparing `a` with `b` gives: the
      same difference at the same texel and channel. */
  lemma {:induction false} ScanSymmetric(a: seq<Texel>, b: seq<Texel>, lo: nat, hi: nat)
    requires lo <= hi <= |a| == |b|
    ensures Scan(a, b, lo, hi) == Scan(b, a, lo, hi)
    decreases hi - lo
  {
    if hi > lo {
      ScanSymmetric(a, b, lo, hi - 1);
      ScanChannelsSymmetric(Scan(a, b, lo, hi - 1), a, b, hi - 1, 4);
    }
  }

  /** Buffers that agree over the range compare as no difference at
      texel 0, channel 0; in particular identical buffers do, and so does
      an empty range. */
  lemma ScanAgreeing(a: seq<Texel>, b: seq<Texel>, lo: nat, hi: nat)
    requires lo <= hi <= |a| <= |b|
    requires forall k :: lo <= k < hi ==> a[k] == b[k]
    ensures Scan(a, b, lo, hi) == NoDifference
  {
    ScanIsFirstMaximum(a, b, lo, hi);
  }

  lemma {:induction false} ScanChannelsReadsTexel(acc: Worst, a: seq<Texel>, b: seq<Texel>, a': seq<Texel>, b': seq<Texel>,
                                                  k: nat, c: nat)
    requires k < |a| <= |b| && k < |a'| <= |b'| && a[k] == a'[k] && b[k] == b'[k] && c <= 4
    ensures ScanChannels(acc, a, b, k, c) == ScanChannels(acc, a', b', k, c)
    decreases c
  {
    if c > 0 {
      ScanChannelsReadsTexel(acc, a, b, a', b', k, c - 1);
    }
  }

  /** The scan reads only the texels of its range: texels before `lo`
      (for the storage, level 0) and from `hi` on may hold anything. */
  lemma {:induction false} ScanReadsRange(a: seq<Texel>, b: seq<Texel>, a': seq<Texel>, b': seq<Texel>, lo: nat, hi: nat)
    requires lo <= hi <= |a| <= |b| && hi <= |a'| <= |b'|
    requires forall k :: lo <= k < hi ==> a[k] == a'[k] && b[k] == b'[k]
    ensures Scan(a, b, lo, hi) == Scan(a', b', lo, hi)
    decreases hi - lo
  {
    if hi > lo {
      ScanReadsRange(a, b, a', b', lo, hi - 1);
      ScanChannelsReadsTexel(Scan(a, b, lo, hi - 1), a, b, a', b', hi - 1, 4);
    }
  }
}
