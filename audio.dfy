/**
 * The layout of the audio buffer libsndfile fills: frames one after the
 * other, each holding one sample per channel, so sample `i` of channel
 * `ch` (counted from 1) sits at `i * channels + ch - 1`.
 */
module Audio {

  /** Where sample `i` of channel `ch` lies in an interleaved buffer. */
  function FrameIndex(i: int, channels: int, ch: int): int
  {
    i * channels + ch - 1
  }

  /** In a buffer of `n` frames every sample of every channel lies inside the buffer. */
  lemma FrameIndexInBounds(i: int, n: int, channels: int, ch: int)
    requires 0 <= i < n && 1 <= ch <= channels
    ensures 0 <= FrameIndex(i, channels, ch) < n * channels
  {
    assert i * channels <= (n - 1) * channels by {
      assert (n - 1) * channels - i * channels == (n - 1 - i) * channels;
    }
    assert (n - 1) * channels + channels == n * channels;
  }

  /** The first `n` samples of channel `ch`. */
  function Channel(buf: seq<real>, channels: nat, ch: int, n: nat): (r: seq<real>)
    requires 1 <= ch <= channels && n * channels <= |buf|
    ensures |r| == n
  {
    if n == 0 then []
    else
      FrameIndexInBounds(n - 1, n, channels, ch);
      assert (n - 1) * channels <= n * channels;
      Channel(buf, channels, ch, n - 1) + [buf[FrameIndex(n - 1, channels, ch)]]
  }

  lemma {:induction false} ChannelAt(buf: seq<real>, channels: nat, ch: int, n: nat, i: int)
    requires 1 <= ch <= channels && n * channels <= |buf| && 0 <= i < n
    ensures FrameIndex(i, channels, ch) < |buf|
    ensures Channel(buf, channels, ch, n)[i] == buf[FrameIndex(i, channels, ch)]
  {
    FrameIndexInBounds(i, n, channels, ch);
    if i < n - 1 {
      assert (n - 1) * channels <= n * channels;
      ChannelAt(buf, channels, ch, n - 1, i);
    }
  }

  /**
   * De-interleaving loses nothing: sample `k` of the buffer is sample
   * `k / channels` of channel `k % channels + 1`.
   */
  lemma Deinterleaves(buf: seq<real>, channels: nat, n: nat, k: int)
    requires channels >= 1 && n * channels <= |buf| && 0 <= k < n * channels
    ensures k / channels < n
    ensures Channel(buf, channels, k % channels + 1, n)[k / channels] == buf[k]
  {
    var i, ch := k / channels, k % channels + 1;
    assert k == i * channels + (ch - 1);
    if i >= n {
      MulMonotone(n, i, channels);
      assert false;
    }
    ChannelAt(buf, channels, ch, n, i);
  }

  lemma MulMonotone(a: int, b: int, c: int)
    requires 0 <= a <= b && c >= 0
    ensures a * c <= b * c
  {
    assert b * c - a * c == (b - a) * c;
  }
}
