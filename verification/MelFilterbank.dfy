/** The triangular mel filters of the speaker embedder, over the reals, and how audio is cut into frames. */
module MelFilterbank {

  const WIN_LENGTH := 400
  const HOP_LENGTH := 160
  const MIN_SAMPLES := 4000

  /** Filter edges in order, all inside the spectrum's `rows`. */
  ghost predicate Fits(bins: seq<int>, rows: nat) {
    && |bins| >= 3 && 0 <= bins[0] && bins[|bins| - 1] <= rows
    && forall i, j :: 0 <= i <= j < |bins| ==> bins[i] <= bins[j]
  }

  function Filters(bins: seq<int>): nat
    requires |bins| >= 3
  {
    |bins| - 2
  }

  function Ratio(part: int, whole: int): real {
    (part as real) / ((if whole < 1 then 1 else whole) as real)
  }

  /** A triangle that rises from `left` to `center` and falls to `right`. */
  function Triangle(left: int, center: int, right: int, k: int): real {
    if left <= k < center then Ratio(k - left, center - left)
    else if center <= k < right then Ratio(right - k, right - center)
    else 0.0
  }

  /** Up from zero at `left` to one at `center`, and down again to zero at `right`, in straight lines; zero elsewhere. */
  ghost predicate OnSlopes(left: int, center: int, right: int, k: int, w: real) {
    && (left <= k < center ==> w * ((center - left) as real) == (k - left) as real)
    && (center <= k < right ==> w * ((right - center) as real) == (right - k) as real)
    && (k < left || right <= k ==> w == 0.0)
  }

  lemma TriangleIsOnSlopes(left: int, center: int, right: int, k: int)
    requires left <= center <= right
    ensures OnSlopes(left, center, right, k, Triangle(left, center, right, k))
  {
  }

  /** The slopes determine the weight. */
  lemma OneWeightOnSlopes(left: int, center: int, right: int, k: int, w: real)
    requires left <= center <= right && OnSlopes(left, center, right, k, w)
    ensures w == Triangle(left, center, right, k)
  {
    TriangleIsOnSlopes(left, center, right, k);
    var v := Triangle(left, center, right, k);
    if left <= k < center {
      var width := (center - left) as real;
      assert (w - v) * width == 0.0;
    } else if center <= k < right {
      var width := (right - center) as real;
      assert (w - v) * width == 0.0;
    }
  }

  /** The weight of filter `m`, counted from one, at frequency row `k`. */
  function Weight(bins: seq<int>, k: int, m: nat): real
    requires 1 <= m < |bins| - 1
  {
    Triangle(bins[m - 1], bins[m], bins[m + 1], k)
  }

  /** One filter into one column: first the rising side, then the falling side. */
  method FillFilter(fb: array2<real>, c: nat, left: int, center: int, right: int)
    requires c < fb.Length1 && 0 <= left <= center <= right <= fb.Length0
    requires forall i :: 0 <= i < fb.Length0 ==> fb[i, c] == 0.0
    modifies fb
    ensures forall i :: 0 <= i < fb.Length0 ==> fb[i, c] == Triangle(left, center, right, i)
                                                && OnSlopes(left, center, right, i, fb[i, c])
    ensures forall i, p :: 0 <= i < fb.Length0 && 0 <= p < fb.Length1 && p != c ==> fb[i, p] == old(fb[i, p])
  {
    for k := left to center
      invariant forall i :: 0 <= i < fb.Length0 ==> fb[i, c] == if i < k then Triangle(left, center, right, i) else 0.0
      invariant forall i, p :: 0 <= i < fb.Length0 && 0 <= p < fb.Length1 && p != c ==> fb[i, p] == old(fb[i, p])
    {
      fb[k, c] := Ratio(k - left, center - left);
    }
    for k := center to right
      invariant forall i :: 0 <= i < fb.Length0 ==> fb[i, c] == if i < k then Triangle(left, center, right, i) else 0.0
      invariant forall i, p :: 0 <= i < fb.Length0 && 0 <= p < fb.Length1 && p != c ==> fb[i, p] == old(fb[i, p])
    {
      fb[k, c] := Ratio(right - k, right - center);
    }
    forall i | 0 <= i < fb.Length0 ensures OnSlopes(left, center, right, i, fb[i, c]) {
      TriangleIsOnSlopes(left, center, right, i);
    }
  }

  /** Fills the matrix filter by filter. */
  method BuildFilterbank(bins: seq<int>, rows: nat) returns (fb: array2<real>)
    requires Fits(bins, rows)
    ensures fb.Length0 == rows && fb.Length1 == Filters(bins)
    ensures forall k, c :: 0 <= k < rows && 0 <= c < Filters(bins) ==>
              fb[k, c] == Weight(bins, k, c + 1) && OnSlopes(bins[c], bins[c + 1], bins[c + 2], k, fb[k, c])
  {
    var n := |bins| - 2;
    fb := new real[rows, n]((i, j) => 0.0);
    for m := 1 to n + 1
      invariant forall k, c :: 0 <= k < rows && 0 <= c < m - 1 ==> fb[k, c] == Weight(bins, k, c + 1)
      invariant forall k, c :: 0 <= k < rows && m - 1 <= c < n ==> fb[k, c] == 0.0
    {
      FillFilter(fb, m - 1, bins[m - 1], bins[m], bins[m + 1]);
    }
    forall k, c | 0 <= k < rows && 0 <= c < n ensures OnSlopes(bins[c], bins[c + 1], bins[c + 2], k, fb[k, c]) {
      TriangleIsOnSlopes(bins[c], bins[c + 1], bins[c + 2], k);
    }
  }

  // ----- Partition of unity -----

  lemma WeightRange(bins: seq<int>, rows: nat, k: int, m: nat)
    requires Fits(bins, rows) && 1 <= m <= Filters(bins)
    ensures 0.0 <= Weight(bins, k, m) <= 1.0
  {
    var left, center, right := bins[m - 1], bins[m], bins[m + 1];
    if left <= k < center {
    } else if center <= k < right {
    }
  }

  lemma ComplementaryRatios(a: int, b: int)
    requires 0 <= a && 0 <= b && 1 <= a + b
    ensures Ratio(a, a + b) + Ratio(b, a + b) == 1.0
  {
    var w := (a + b) as real;
    assert (a as real) / w + (b as real) / w == ((a as real) + (b as real)) / w;
  }

  /** The sum of a row over the first `n` filters. */
  function RowSum(bins: seq<int>, k: int, n: nat): real
    requires n < |bins| - 1
  {
    if n == 0 then 0.0 else RowSum(bins, k, n - 1) + Weight(bins, k, n)
  }

  /** Row `k` lies between edges `j` and `j + 1`. */
  ghost predicate Between(bins: seq<int>, k: int, j: nat) {
    j + 1 < |bins| && bins[j] <= k < bins[j + 1]
  }

  lemma {:induction false} SumBetween(bins: seq<int>, rows: nat, k: int, j: nat, n: nat)
    requires Fits(bins, rows) && Between(bins, k, j) && n <= Filters(bins)
    ensures RowSum(bins, k, n) ==
            (if 1 <= j <= n then Ratio(bins[j + 1] - k, bins[j + 1] - bins[j]) else 0.0)
            + (if j + 1 <= n then Ratio(k - bins[j], bins[j + 1] - bins[j]) else 0.0)
  {
    if n > 0 {
      SumBetween(bins, rows, k, j, n - 1);
    }
  }

  lemma {:induction false} FindBetween(bins: seq<int>, k: int, hi: nat) returns (j: nat)
    requires 0 < hi < |bins| && bins[0] <= k < bins[hi]
    ensures j < hi && Between(bins, k, j)
  {
    if bins[hi - 1] <= k {
      j := hi - 1;
    } else {
      j := FindBetween(bins, k, hi - 1);
    }
  }

  lemma {:induction false} SumOutside(bins: seq<int>, rows: nat, k: int, n: nat)
    requires Fits(bins, rows) && n <= Filters(bins)
    requires k < bins[0] || bins[|bins| - 1] <= k
    ensures RowSum(bins, k, n) == 0.0
  {
    if n > 0 { SumOutside(bins, rows, k, n - 1); }
  }

  /** In every row at most two filters, neighbours of each other, are non-zero. */
  lemma AtMostTwoFilters(bins: seq<int>, rows: nat, k: int) returns (j: nat)
    requires Fits(bins, rows)
    ensures forall m :: 1 <= m <= Filters(bins) && m != j && m != j + 1 ==> Weight(bins, k, m) == 0.0
  {
    if bins[0] <= k < bins[|bins| - 1] {
      j := FindBetween(bins, k, |bins| - 1);
      forall m | 1 <= m <= Filters(bins) && m != j && m != j + 1 ensures Weight(bins, k, m) == 0.0 {
      }
    } else {
      j := 0;
    }
  }

  /**
   The filters sum to exactly one in every row from the first peak up to, and
   with a last falling side including, the last peak, and in no other row;
   repeated edges are allowed.
   */
  lemma PartitionOfUnity(bins: seq<int>, rows: nat, k: int)
    requires Fits(bins, rows)
    ensures var n := Filters(bins);
            RowSum(bins, k, n) == 1.0 <==> bins[1] <= k < bins[n] || bins[n] == k < bins[n + 1]
  {
    var n := Filters(bins);
    if bins[0] <= k < bins[n + 1] {
      var j := FindBetween(bins, k, n + 1);
      SumBetween(bins, rows, k, j, n);
      var up, down := k - bins[j], bins[j + 1] - k;
      ComplementaryRatios(up, down);
    } else {
      SumOutside(bins, rows, k, n);
    }
  }

  // ----- Frames -----

  function FrameCount(length: int): int {
    var n := 1 + (length - WIN_LENGTH) / HOP_LENGTH;
    if n < 1 then 1 else n
  }

  /** The sample that frame `t` wants at offset `i`. */
  function FrameIndex(t: int, i: int): int {
    i + HOP_LENGTH * t
  }

  function Clipped(i: int, length: int): int {
    if i < 0 then 0 else if i > length - 1 then length - 1 else i
  }

  /** Clamping takes the nearest sample there is. */
  lemma ClippedIsNearest(i: int, length: int, j: int)
    requires 0 <= j < length
    ensures 0 <= Clipped(i, length) < length
    ensures var c := Clipped(i, length);
            (if c < i then i - c else c - i) <= (if j < i then i - j else j - i)
  {
  }

  /** Frames start at the first sample, each one a hop after the one before, and leave no sample between them. */
  lemma FramesTile(length: int, p: int) returns (t: int, i: int)
    requires length >= 1 && 0 <= p < HOP_LENGTH * (FrameCount(length) - 1) + WIN_LENGTH
    ensures 0 <= t < FrameCount(length) && 0 <= i < WIN_LENGTH && FrameIndex(t, i) == p
    ensures FrameIndex(t + 1, i) == FrameIndex(t, i + HOP_LENGTH)
  {
    t := if p / HOP_LENGTH < FrameCount(length) then p / HOP_LENGTH else FrameCount(length) - 1;
    i := p - HOP_LENGTH * t;
  }

  /** Clamping the frame indices changes one exactly when the audio is shorter than a window; otherwise the frames leave less than a hop uncovered. */
  lemma ClampOnlyShortAudio(length: int)
    requires length >= 1
    ensures length >= WIN_LENGTH <==>
            forall t, i :: 0 <= t < FrameCount(length) && 0 <= i < WIN_LENGTH ==>
              Clipped(FrameIndex(t, i), length) == FrameIndex(t, i)
    ensures length >= WIN_LENGTH ==>
              0 <= length - (HOP_LENGTH * (FrameCount(length) - 1) + WIN_LENGTH) < HOP_LENGTH
  {
    if length < WIN_LENGTH {
      assert Clipped(FrameIndex(0, WIN_LENGTH - 1), length) != FrameIndex(0, WIN_LENGTH - 1);
    }
  }

  /** Audio that is long enough to be embedded at all is never clamped. */
  lemma ClampIsDead(length: int, t: int, i: int)
    requires length >= MIN_SAMPLES
    requires 0 <= t < FrameCount(length) && 0 <= i < WIN_LENGTH
    ensures Clipped(FrameIndex(t, i), length) == FrameIndex(t, i)
  {
    ClampOnlyShortAudio(length);
  }
}
