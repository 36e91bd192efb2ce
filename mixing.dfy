/** Sample-level arithmetic of MixSounds: 16-bit sums that wrap, the length
    of the mix, the sample rate it is given, and a buffer's duration. */
module Mixing {

  /** std::int16_t. */
  newtype int16 = x: int | -0x8000 <= x < 0x8000

  /** sf::SoundBuffer, reduced to its interleaved samples, its sample rate
      and its channel count (both unsigned in SFML). */
  datatype SampleBuffer = SampleBuffer(samples: seq<int16>, sampleRate: nat, channelCount: nat)

  /** Conversion of an int to std::int16_t: the value modulo 2^16 taken
      into the signed range. */
  function Wrap16(x: int): (w: int16)
    ensures (w as int - x) % 0x1_0000 == 0
    ensures -0x8000 <= x < 0x8000 ==> w as int == x
  {
    ((x + 0x8000) % 0x1_0000 - 0x8000) as int16
  }

  /** Wrapping after every addition gives what wrapping once at the end gives. */
  lemma Wrap16Add(a: int, b: int)
    ensures Wrap16(Wrap16(a) as int + b) == Wrap16(a + b)
  {
    var w := Wrap16(a) as int;
    var q := (w - a) / 0x1_0000;
    assert w + b + 0x8000 == (a + b + 0x8000) + q * 0x1_0000;
    ModShift(a + b + 0x8000, q);
  }

  lemma ModShift(x: int, q: int)
    ensures (x + q * 0x1_0000) % 0x1_0000 == x % 0x1_0000
  {
  }

  /** The sample at index i of a buffer, 0 past its end (the
      `i < getSampleCount()` test of the mixing loop). */
  function SampleAt(b: SampleBuffer, i: nat): int {
    if i < |b.samples| then b.samples[i] as int else 0
  }

  /** The exact sum, over all mixed buffers, of their samples at index i. */
  function SampleSum(bufs: seq<SampleBuffer>, i: nat): int {
    if bufs == [] then 0
    else SampleSum(bufs[..|bufs| - 1], i) + SampleAt(bufs[|bufs| - 1], i)
  }

  /** mixedSamplesCount: the sample count of the longest mixed buffer (0 for none). */
  function MaxSampleCount(bufs: seq<SampleBuffer>): nat {
    if bufs == [] then 0
    else
      var rest := MaxSampleCount(bufs[..|bufs| - 1]);
      var last := bufs[|bufs| - 1];
      if |last.samples| > rest then |last.samples| else rest
  }

  /** The mix length bounds every source's sample count and is one of them
      (0 when nothing is mixed). */
  lemma {:induction false} MaxSampleCountBounds(bufs: seq<SampleBuffer>)
    ensures forall b :: b in bufs ==> |b.samples| <= MaxSampleCount(bufs)
    ensures bufs == [] ==> MaxSampleCount(bufs) == 0
    ensures bufs != [] ==> exists b :: b in bufs && |b.samples| == MaxSampleCount(bufs)
  {
    if bufs != [] {
      var init := bufs[..|bufs| - 1];
      var last := bufs[|bufs| - 1];
      assert bufs == init + [last];
      MaxSampleCountBounds(init);
      forall b | b in bufs ensures |b.samples| <= MaxSampleCount(bufs) {
        if b != last {
          assert b in init;
        }
      }
      if |last.samples| < MaxSampleCount(bufs) {
        var b :| b in init && |b.samples| == MaxSampleCount(init);
        assert b in bufs;
      }
    }
  }

  /** The mixed samples: as many as the longest buffer has, each the
      wrapped sum of the samples the buffers have at that index. */
  function Mix(bufs: seq<SampleBuffer>): seq<int16> {
    seq(MaxSampleCount(bufs), i requires 0 <= i => Wrap16(SampleSum(bufs, i)))
  }

  /** The inner mixing loop: a 16-bit running total of the buffers' samples
      at index i, in the order the buffers are given. */
  method MixAt(bufs: seq<SampleBuffer>, i: nat) returns (total: int16)
    ensures total == Wrap16(SampleSum(bufs, i))
  {
    total := 0;
    for j := 0 to |bufs|
      invariant total == Wrap16(SampleSum(bufs[..j], i))
    {
      assert bufs[..j + 1][..j] == bufs[..j];
      Wrap16Add(SampleSum(bufs[..j], i), SampleAt(bufs[j], i));
      if i < |bufs[j].samples| {
        total := Wrap16(total as int + bufs[j].samples[i] as int);
      } else {
        assert total == Wrap16(total as int + 0);
      }
    }
    assert bufs[..|bufs|] == bufs;
  }

  /** The outer mixing loop, filling a freshly allocated int16 array of
      `count` samples, `count` being the longest buffer's sample count. */
  method MixSamples(bufs: seq<SampleBuffer>, count: nat) returns (mixed: seq<int16>)
    requires count == MaxSampleCount(bufs)
    ensures |mixed| == MaxSampleCount(bufs)
    ensures forall i :: 0 <= i < |mixed| ==> mixed[i] == Wrap16(SampleSum(bufs, i))
    ensures mixed == Mix(bufs)
  {
    var a := new int16[count];
    for i := 0 to count
      invariant forall k :: 0 <= k < i ==> a[k] == Wrap16(SampleSum(bufs, k))
    {
      a[i] := MixAt(bufs, i);
    }
    mixed := a[..];
  }

  /** The samples of two lists of buffers add up index by index. */
  lemma {:induction false} SampleSumAppend(xs: seq<SampleBuffer>, ys: seq<SampleBuffer>, i: nat)
    ensures SampleSum(xs + ys, i) == SampleSum(xs, i) + SampleSum(ys, i)
  {
    if ys != [] {
      var zs := xs + ys;
      assert zs[..|zs| - 1] == xs + ys[..|ys| - 1];
      SampleSumAppend(xs, ys[..|ys| - 1], i);
    } else {
      assert xs + ys == xs;
    }
  }

  /** The order in which the ids are passed does not change the mix. */
  lemma MixOrderIrrelevant(xs: seq<SampleBuffer>, ys: seq<SampleBuffer>)
    ensures Mix(xs + ys) == Mix(ys + xs)
  {
    forall i: nat ensures SampleSum(xs + ys, i) == SampleSum(ys + xs, i) {
      SampleSumAppend(xs, ys, i);
      SampleSumAppend(ys, xs, i);
    }
    MaxOfAppend(xs, ys);
    MaxOfAppend(ys, xs);
  }

  lemma {:induction false} MaxOfAppend(xs: seq<SampleBuffer>, ys: seq<SampleBuffer>)
    ensures MaxSampleCount(xs + ys) == if MaxSampleCount(xs) < MaxSampleCount(ys) then MaxSampleCount(ys) else MaxSampleCount(xs)
  {
    if ys == [] {
      assert xs + ys == xs;
    } else {
      var init, y := ys[..|ys| - 1], ys[|ys| - 1];
      assert ys == init + [y];
      assert xs + ys == (xs + init) + [y];
      MaxOfAppend(xs, init);
      AppendOne(xs + init, y);
      AppendOne(init, y);
    }
  }

  /** Mixing a single sound gives back its own samples. */
  lemma MixOfOne(b: SampleBuffer)
    ensures Mix([b]) == b.samples
  {
    assert [b][..0] == [];
    assert MaxSampleCount([b]) == |b.samples|;
    forall i | 0 <= i < |b.samples| ensures Mix([b])[i] == b.samples[i] {
      assert SampleSum([b], i) == b.samples[i] as int;
    }
  }

  /** A sound mixed with itself is its samples doubled, modulo 2^16. */
  lemma MixWithItself(b: SampleBuffer)
    ensures forall i :: 0 <= i < |b.samples| ==> Mix([b, b])[i] == Wrap16(2 * b.samples[i] as int)
  {
    assert [b, b][..1] == [b] && [b][..0] == [];
    assert MaxSampleCount([b]) == |b.samples|;
    assert MaxSampleCount([b, b]) == |b.samples|;
    forall i | 0 <= i < |b.samples| ensures Mix([b, b])[i] == Wrap16(2 * b.samples[i] as int) {
      assert SampleSum([b], i) == b.samples[i] as int;
      assert SampleSum([b, b], i) == 2 * b.samples[i] as int;
    }
  }

  /** Truncating division, as C++ divides ints: the quotient is rounded towards zero. */
  function TruncDiv(n: int, d: int): (q: int)
    requires d > 0
    ensures n >= 0 ==> q * d <= n < (q + 1) * d
    ensures n < 0 ==> (q - 1) * d < n <= q * d
  {
    if n >= 0 then n / d else -((-n) / d)
  }

  /** The conversion of an int to unsigned int (32 bits). */
  function ToUnsigned32(x: int): (u: nat)
    ensures u < 0x1_0000_0000 && (u - x) % 0x1_0000_0000 == 0
    ensures 0 <= x < 0x1_0000_0000 ==> u == x
  {
    x % 0x1_0000_0000
  }

  /** The sum of the buffers' sample rates (averageSampleRate before the division). */
  function RateSum(bufs: seq<SampleBuffer>): nat {
    if bufs == [] then 0 else RateSum(bufs[..|bufs| - 1]) + bufs[|bufs| - 1].sampleRate
  }

  /** Appending one buffer to the list: the longest count and the rate sum
      grow as the first loop of MixSounds updates them. */
  lemma AppendOne(bufs: seq<SampleBuffer>, b: SampleBuffer)
    ensures MaxSampleCount(bufs + [b]) == if |b.samples| > MaxSampleCount(bufs) then |b.samples| else MaxSampleCount(bufs)
    ensures RateSum(bufs + [b]) == RateSum(bufs) + b.sampleRate
  {
    assert (bufs + [b])[..|bufs|] == bufs;
  }

  /** The rate the mixed buffer is loaded with: with -1, half the integer
      mean of the mixed buffers' rates; otherwise half the requested rate,
      which a negative request turns into a huge unsigned rate. */
  function MixedRate(sampleRate: int, bufs: seq<SampleBuffer>): (rate: nat)
    requires sampleRate == -1 ==> |bufs| > 0
    ensures sampleRate == -1 ==> 2 * rate <= RateSum(bufs) / |bufs| <= 2 * rate + 1
    ensures 0 <= sampleRate < 0x1_0000_0000 ==> 2 * rate <= sampleRate <= 2 * rate + 1
    ensures -0x8000_0000 <= sampleRate < -1 ==> rate >= 0xC000_0000
  {
    if sampleRate == -1 then (RateSum(bufs) / |bufs|) / 2
    else ToUnsigned32(TruncDiv(sampleRate, 2))
  }

  /** Buffers at 44100 Hz and 22050 Hz mixed at their mean rate play at 16537 Hz. */
  lemma MixedRateExample()
    ensures MixedRate(-1, [SampleBuffer([], 44100, 2), SampleBuffer([], 22050, 2)]) == 16537
  {
    var bufs := [SampleBuffer([], 44100, 2), SampleBuffer([], 22050, 2)];
    assert bufs[..1] == [bufs[0]] && bufs[..1][..0] == [];
    assert RateSum(bufs[..1]) == 44100;
    assert RateSum(bufs) == 66150;
  }

  /** getDuration().asMilliseconds(): the whole milliseconds the samples
      last at the buffer's rate and channel count; 0 for an empty format. */
  function DurationMs(b: SampleBuffer): (ms: nat)
    ensures b.sampleRate * b.channelCount > 0 ==>
              ms * (b.sampleRate * b.channelCount) <= |b.samples| * 1000 < (ms + 1) * (b.sampleRate * b.channelCount)
  {
    var frames := b.sampleRate * b.channelCount;
    if frames == 0 then 0 else |b.samples| * 1000 / frames
  }
}
