/** Deciding whether a chunk of 16-bit PCM audio counts as silence. */
module SilenceDetection {
  import opened Messaging

  const SILENCE_THRESHOLD_DBFS := -50.0

  /** Little-endian signed 16-bit samples; an odd trailing byte is not part of any. */
  function Samples(data: Chunk): (r: seq<int>)
    ensures |r| == |data| / 2
    ensures forall i :: 0 <= i < |r| ==> IsSample(r[i]) && IsPair(r[i], data[2 * i], data[2 * i + 1])
  {
    seq(|data| / 2, i requires 0 <= i < |data| / 2 =>
      var u := data[2 * i] as int + 256 * data[2 * i + 1] as int;
      if u < 32768 then u else u - 65536)
  }

  predicate IsSample(x: int) {
    -32768 <= x < 32768
  }

  /** The two bytes stand for `x`, or for `x` less one full turn. */
  predicate IsPair(x: int, low: int, high: int) {
    x == low + 256 * high || x == low + 256 * high - 65536
  }

  function SumOfSquares(samples: seq<int>): nat {
    if samples == [] then 0
    else SumOfSquares(samples[..|samples| - 1]) + Square(samples[|samples| - 1])
  }

  function Square(x: int): nat {
    if x < 0 then (-x) * (-x) else x * x
  }

  /** `Malformed`: an odd number of bytes above one cannot be decoded as samples. */
  datatype Verdict = Silent | Loud | Malformed

  function Judge(data: Chunk): Verdict {
    var n := |data| / 2;
    if n == 0 then Silent
    else if |data| % 2 != 0 then Malformed
    else if 100000 * SumOfSquares(Samples(data)) < n * 0x4000_0000 then Silent
    else Loud
  }

  // ----- What the test reads -----

  /** Two's complement, the low byte first. */
  function BytesOf(x: int): (data: Chunk)
    requires IsSample(x)
    ensures |data| == 2
  {
    var u := if x < 0 then 65536 + x else x;
    var low: byte, high: byte := u % 256, u / 256;
    [low, high]
  }

  function Encoded(samples: seq<int>): (data: Chunk)
    requires forall i :: 0 <= i < |samples| ==> IsSample(samples[i])
    ensures |data| == 2 * |samples|
  {
    if samples == [] then [] else Encoded(samples[..|samples| - 1]) + BytesOf(samples[|samples| - 1])
  }

  lemma PairOfBytes(x: int, low: byte, high: byte)
    requires IsSample(x)
    ensures IsPair(x, low, high) <==> BytesOf(x) == [low, high]
  {
    var u := if x < 0 then 65536 + x else x;
    assert BytesOf(x)[0] == u % 256 && BytesOf(x)[1] == u / 256;
  }

  lemma SamplesAppend(before: Chunk, x: int)
    requires |before| % 2 == 0 && IsSample(x)
    ensures Samples(before + BytesOf(x)) == Samples(before) + [x]
  {
    var data, n := before + BytesOf(x), |before| / 2;
    assert data[2 * n] == BytesOf(x)[0] && data[2 * n + 1] == BytesOf(x)[1];
    PairOfBytes(x, data[2 * n], data[2 * n + 1]);
    assert BytesOf(x) == [data[2 * n], data[2 * n + 1]];
    assert Samples(data)[n] == x;
    assert forall i :: 0 <= i < n ==> data[2 * i] == before[2 * i] && data[2 * i + 1] == before[2 * i + 1];
  }

  /** Reading undoes writing, and writing undoes reading of any even number of bytes. */
  lemma {:induction false} SamplesRoundTrip(samples: seq<int>)
    requires forall i :: 0 <= i < |samples| ==> IsSample(samples[i])
    ensures Samples(Encoded(samples)) == samples
    decreases |samples|
  {
    if samples != [] {
      var front := samples[..|samples| - 1];
      SamplesRoundTrip(front);
      SamplesAppend(Encoded(front), samples[|samples| - 1]);
    }
  }

  lemma {:induction false} BytesRoundTrip(data: Chunk)
    requires |data| % 2 == 0
    ensures Encoded(Samples(data)) == data
    decreases |data|
  {
    if data != [] {
      var n, samples := |data| / 2 - 1, Samples(data);
      var before := data[..2 * n];
      BytesRoundTrip(before);
      PairOfBytes(samples[n], data[2 * n], data[2 * n + 1]);
      assert data == before + BytesOf(samples[n]);
      SamplesAppend(before, samples[n]);
      assert samples[..n] == Samples(before);
    }
  }

  /** The energy of a chunk is that of its parts together, and of one sample its square. */
  lemma {:induction false} EnergyAdds(a: seq<int>, b: seq<int>, x: int)
    ensures SumOfSquares([]) == 0 && SumOfSquares([x]) == x * x
    ensures SumOfSquares(a + b) == SumOfSquares(a) + SumOfSquares(b)
    decreases |b|
  {
    assert [x][..0] == [];
    if b == [] {
      assert a + b == a;
    } else {
      var front := b[..|b| - 1];
      EnergyAdds(a, front, x);
      assert (a + b)[..|a + b| - 1] == a + front;
    }
  }

  /** Less than one sample is silence; otherwise an odd number of bytes is exactly what cannot be judged. */
  lemma MalformedExactlyWhen(data: Chunk)
    ensures |data| < 2 ==> Judge(data).Silent?
    ensures Judge(data).Malformed? <==> |data| >= 2 && |data| % 2 == 1
  {
  }

  function SilentChunk(samples: nat): Chunk {
    seq(2 * samples, _ => 0)
  }

  lemma {:induction false} ZerosAreSilent(samples: seq<int>)
    requires forall i :: 0 <= i < |samples| ==> samples[i] == 0
    ensures SumOfSquares(samples) == 0
    decreases |samples|
  {
    if samples != [] { ZerosAreSilent(samples[..|samples| - 1]); }
  }

  lemma SilentChunkIsSilent(samples: nat)
    ensures Judge(SilentChunk(samples)) == Silent && |SilentChunk(samples)| / 2 == samples
  {
    var data := SilentChunk(samples);
    forall i | 0 <= i < |Samples(data)| ensures Samples(data)[i] == 0 {
      assert data[2 * i] == 0 && data[2 * i + 1] == 0;
      assert IsPair(Samples(data)[i], data[2 * i], data[2 * i + 1]);
    }
    ZerosAreSilent(Samples(data));
  }

  const LOUD_CHUNK: Chunk := [255, 127]

  // ----- The integer test is the decibel test -----

  ghost predicate ProductLaw(lg: real -> real, x: real, y: real) {
    0.0 < x && 0.0 < y ==> lg(x * y) == lg(x) + lg(y)
  }

  ghost predicate OrderLaw(lg: real -> real, x: real, y: real) {
    0.0 < x < y ==> lg(x) < lg(y)
  }

  /** The laws of a base-ten logarithm used here. */
  ghost predicate IsLog10(lg: real -> real) {
    lg(10.0) == 1.0 && (forall x, y :: ProductLaw(lg, x, y)) && (forall x, y :: OrderLaw(lg, x, y))
  }

  lemma LogOfConstants(lg: real -> real)
    requires IsLog10(lg)
    ensures lg(100000.0) == 5.0 && lg(1.0) == 0.0
  {
    assert ProductLaw(lg, 1.0, 10.0);
    assert ProductLaw(lg, 10.0, 10.0);
    assert ProductLaw(lg, 100.0, 100.0);
    assert ProductLaw(lg, 10000.0, 10.0);
  }

  lemma ProductPositive(a: real, b: real, c: real)
    requires 0.0 < a && 0.0 < b && c == a * b
    ensures 0.0 < c
  {
  }

  lemma LogOfProduct(lg: real -> real, x: real, y: real, z: real)
    requires IsLog10(lg) && 0.0 < x && 0.0 < y && z == x * y
    ensures lg(z) == lg(x) + lg(y)
  {
    assert ProductLaw(lg, x, y);
  }

  lemma LogPreservesOrder(lg: real -> real, x: real, y: real)
    requires IsLog10(lg) && 0.0 < x && 0.0 < y
    ensures lg(x) < lg(y) <==> x < y
  {
    assert OrderLaw(lg, x, y) && OrderLaw(lg, y, x);
  }

  /** A level below -50 dB means a squared amplitude below one hundred thousandth. */
  lemma LevelTest(lg: real -> real, x: real)
    requires IsLog10(lg) && 0.0 < x
    ensures 20.0 * lg(x) < SILENCE_THRESHOLD_DBFS <==> x * x * 100000.0 < 1.0
  {
    var y := x * x;
    ProductPositive(x, x, y);
    var z := y * 100000.0;
    LogOfConstants(lg);
    LogOfProduct(lg, x, x, y);
    LogOfProduct(lg, y, 100000.0, z);
    LogPreservesOrder(lg, z, 1.0);
  }

  lemma IntegerTest(x: real, rms: real, n: real, sum: real)
    requires 0.0 < n && rms == x * 32768.0 && rms * rms * n == sum
    ensures 100000.0 * sum < n * 1073741824.0 <==> x * x * 100000.0 < 1.0
  {
    var y, m := x * x, n * 1073741824.0;
    assert sum == y * 1073741824.0 * n == y * m;
    assert 100000.0 * sum == (y * 100000.0) * m;
    assert (y * 100000.0) * m < 1.0 * m <==> y * 100000.0 < 1.0;
  }

  /**
   For the true root mean square of a chunk, which is zero or has a level in
   decibels relative to full scale, "zero or below -50 dBFS" is the integer
   test above.  It holds for any function with the laws of the logarithm.
   */
  lemma DecibelTestIsIntegerTest(lg: real -> real, data: Chunk, rms: real)
    requires IsLog10(lg)
    requires |data| >= 2 && |data| % 2 == 0
    requires 0.0 <= rms && rms * rms * ((|data| / 2) as real) == SumOfSquares(Samples(data)) as real
    ensures Judge(data).Silent? <==> rms == 0.0 || 20.0 * lg(rms / 32768.0) < SILENCE_THRESHOLD_DBFS
  {
    var n, sum := |data| / 2, SumOfSquares(Samples(data));
    var x := rms / 32768.0;
    IntegerTest(x, rms, n as real, sum as real);
    assert 100000 * sum < n * 0x4000_0000 <==> 100000.0 * (sum as real) < (n as real) * 1073741824.0;
    if rms > 0.0 {
      LevelTest(lg, x);
    }
  }
}
