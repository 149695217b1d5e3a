/**
 * Smoothing of sensor readings: a moving-average FIR filter over the last
 * ten readings, and a "recent minimum" that holds a value steady while the
 * readings wobble within one unit above it.
 */
module DataSmoothing {
  import MatrixPixels

  /** The number of taps of the filter. */
  const NumFirTaps: nat := 10

  /** Readings up to this far above the recent minimum report the recent minimum. */
  const RecentMinWindow: int := 1

  /** Sum of a sequence, folded from the back. */
  function Sum(s: seq<int>): int
  {
    if s == [] then 0 else Sum(s[..|s| - 1]) + s[|s| - 1]
  }

  lemma {:induction false} SumConcat(a: seq<int>, b: seq<int>)
    ensures Sum(a + b) == Sum(a) + Sum(b)
    decreases |b|
  {
    if b != [] {
      assert (a + b)[..|a + b| - 1] == a + b[..|b| - 1];
      SumConcat(a, b[..|b| - 1]);
    } else {
      assert a + b == a;
    }
  }

  function Zeros(n: nat): (z: seq<int>)
    ensures |z| == n && forall i :: 0 <= i < n ==> z[i] == 0
  {
    seq(n, _ => 0)
  }

  lemma {:induction false} SumZeros(n: nat)
    ensures Sum(Zeros(n)) == 0
  {
    if n > 0 {
      assert Zeros(n)[..n - 1] == Zeros(n - 1);
      SumZeros(n - 1);
    }
  }

  /** The readings the filter averages: the last ten, or all of them while there are fewer. */
  function Window(samples: seq<int>): (w: seq<int>)
    ensures |w| == if |samples| < NumFirTaps then |samples| else NumFirTaps
    ensures w == samples[|samples| - |w|..]
  {
    if |samples| < NumFirTaps then samples else samples[|samples| - NumFirTaps..]
  }

  /** The last ten readings, with zeros standing in front for readings not yet made. */
  function Padded(samples: seq<int>): (p: seq<int>)
    ensures |p| == NumFirTaps
  {
    if |samples| < NumFirTaps then Zeros(NumFirTaps - |samples|) + samples
    else samples[|samples| - NumFirTaps..]
  }

  /** `(int) result` with `result` the exact mean: C++ truncates toward zero. */
  function TruncMean(sum: int, count: int): int
    requires count > 0
  {
    MatrixPixels.CppDiv(sum, count)
  }

  /**
   * The filter state: the ten taps, the slot the next reading goes to, and
   * how many readings were seen since the last `initFIR`.
   */
  class FirFilter {
    const taps: array<int>
    var tapPosition: int
    var numSamplesObserved: int
    /** Every reading observed since the last initialisation. */
    ghost var samples: seq<int>

    /**
     * The taps are the padded window rotated so that slot `tapPosition`
     * holds the oldest reading: the cyclic buffer the source maintains.
     */
    ghost predicate Valid()
      reads this, taps
    {
      taps.Length == NumFirTaps &&
      numSamplesObserved == |samples| &&
      tapPosition == |samples| % NumFirTaps &&
      taps[..] == Padded(samples)[NumFirTaps - tapPosition..] + Padded(samples)[..NumFirTaps - tapPosition]
    }

    /** The globals start zeroed, as C++ static storage does. */
    constructor()
      ensures Valid() && samples == [] && fresh(taps)
    {
      taps := new int[NumFirTaps](_ => 0);
      tapPosition := 0;
      numSamplesObserved := 0;
      samples := [];
      new;
      assert taps[..] == Zeros(NumFirTaps);
    }

    /** `initFIR`: zero every tap and forget every reading. */
    method InitFir()
      requires taps.Length == NumFirTaps
      modifies this, taps
      ensures Valid() && samples == []
    {
      for i := 0 to NumFirTaps
        invariant forall j :: 0 <= j < i ==> taps[j] == 0
      {
        taps[i] := 0;
      }
      tapPosition := 0;
      numSamplesObserved := 0;
      samples := [];
      assert taps[..] == Zeros(NumFirTaps);
    }

    /** The averaging loop of `observeSample`: the sum of the first numTapsToUse taps. */
    method SumTaps(numTapsToUse: int) returns (result: int)
      requires 0 <= numTapsToUse <= taps.Length
      ensures result == Sum(taps[..numTapsToUse])
    {
      result := 0;
      for i := 0 to numTapsToUse
        invariant result == Sum(taps[..i])
      {
        assert taps[..i + 1][..i] == taps[..i];
        result := result + taps[i];
      }
    }

    /**
     * `observeSample`: store the reading in the current slot, advance the
     * slot cyclically, and return the mean of the first min(n, 10) taps,
     * truncated toward zero: the mean of the window of recent readings.
     */
    method ObserveSample(newReading: int) returns (r: int)
      requires Valid()
      modifies this, taps
      ensures Valid()
      ensures samples == old(samples) + [newReading]
      ensures taps[..] == old(taps[..])[old(tapPosition) := newReading]
      ensures tapPosition == (old(tapPosition) + 1) % NumFirTaps
      ensures numSamplesObserved == old(numSamplesObserved) + 1
      ensures r == TruncMean(Sum(Window(samples)), |Window(samples)|)
    {
      Record(newReading);
      var numTapsToUse := if numSamplesObserved < NumFirTaps then numSamplesObserved else NumFirTaps;
      var result := SumTaps(numTapsToUse);
      TapsSumIsWindowSum(samples, tapPosition, taps[..]);
      r := TruncMean(result, numTapsToUse);
    }

    /** The first half of `observeSample`: write the current slot, count the reading, advance the slot cyclically. */
    method Record(newReading: int)
      requires Valid()
      modifies this, taps
      ensures Valid()
      ensures samples == old(samples) + [newReading]
      ensures taps[..] == old(taps[..])[old(tapPosition) := newReading]
      ensures tapPosition == (old(tapPosition) + 1) % NumFirTaps
      ensures numSamplesObserved == old(numSamplesObserved) + 1
    {
      ghost var p := Padded(samples);
      ghost var pos := tapPosition;
      ghost var before := taps[..];
      taps[tapPosition] := newReading;
      assert taps[..] == before[pos := newReading];
      tapPosition := tapPosition + 1;
      numSamplesObserved := numSamplesObserved + 1;
      if tapPosition == NumFirTaps {
        tapPosition := 0;
      }
      NextSlot(pos);
      CyclicStep(|samples|);
      samples := samples + [newReading];
      PaddedStep(old(samples), newReading);
      RotatedWrite(p, newReading, pos, before, taps[..]);
    }
  }

  /** The slot after `pos` wraps to 0 past the last one. */
  lemma NextSlot(pos: int)
    requires 0 <= pos < NumFirTaps
    ensures (pos + 1) % NumFirTaps == if pos + 1 == NumFirTaps then 0 else pos + 1
  {
  }

  /** The slot after slot n % 10 is slot (n + 1) % 10. */
  lemma CyclicStep(n: nat)
    ensures (n + 1) % NumFirTaps == (n % NumFirTaps + 1) % NumFirTaps
  {
    var q := n / NumFirTaps;
    var r := n % NumFirTaps;
    assert n + 1 == NumFirTaps * q + (r + 1);
    if r + 1 < NumFirTaps {
      MatrixPixels.DivModUnique(n + 1, NumFirTaps, q, r + 1);
    } else {
      assert n + 1 == NumFirTaps * (q + 1) + 0;
      MatrixPixels.DivModUnique(n + 1, NumFirTaps, q + 1, 0);
    }
  }

  /** One more reading shifts the padded window by one. */
  lemma PaddedStep(samples: seq<int>, x: int)
    ensures Padded(samples + [x]) == Padded(samples)[1..] + [x]
  {
    var s := samples + [x];
    if |samples| < NumFirTaps {
      if |s| == NumFirTaps {
        assert Padded(samples) == [0] + samples;
      }
    } else {
      assert s[|s| - NumFirTaps..] == samples[|samples| - NumFirTaps + 1..] + [x];
    }
  }

  /** Overwriting the oldest slot of the rotated window rotates the shifted window one step further. */
  lemma RotatedWrite(p: seq<int>, x: int, pos: int, before: seq<int>, after: seq<int>)
    requires |p| == NumFirTaps && 0 <= pos < NumFirTaps
    requires before == p[NumFirTaps - pos..] + p[..NumFirTaps - pos]
    requires after == before[pos := x]
    ensures var q := p[1..] + [x];
      var next := (pos + 1) % NumFirTaps;
      after == q[NumFirTaps - next..] + q[..NumFirTaps - next]
  {
    var q := p[1..] + [x];
    var next := (pos + 1) % NumFirTaps;
    var rotated := q[NumFirTaps - next..] + q[..NumFirTaps - next];
    assert |rotated| == NumFirTaps;
    forall j | 0 <= j < NumFirTaps
      ensures after[j] == rotated[j]
    {
      if j < pos {
        assert after[j] == p[NumFirTaps - pos + j];
      } else if j == pos {
        assert after[j] == x;
      } else {
        assert after[j] == p[j - pos];
      }
    }
  }

  /** The taps the loop adds up hold exactly the window of readings. */
  lemma TapsSumIsWindowSum(samples: seq<int>, tapPosition: int, taps: seq<int>)
    requires |samples| > 0 && tapPosition == |samples| % NumFirTaps
    requires taps == Padded(samples)[NumFirTaps - tapPosition..] + Padded(samples)[..NumFirTaps - tapPosition]
    ensures Sum(taps[..|Window(samples)|]) == Sum(Window(samples))
  {
    var p := Padded(samples);
    if |samples| < NumFirTaps {
      assert p[NumFirTaps - tapPosition..] == samples;
      assert taps[..|samples|] == samples;
    } else {
      assert taps[..NumFirTaps] == taps;
      SumConcat(p[NumFirTaps - tapPosition..], p[..NumFirTaps - tapPosition]);
      SumConcat(p[..NumFirTaps - tapPosition], p[NumFirTaps - tapPosition..]);
      assert p[..NumFirTaps - tapPosition] + p[NumFirTaps - tapPosition..] == p;
    }
  }

  /** Bounds on every reading bound the sum of a window. */
  lemma {:induction false} SumBounds(s: seq<int>, lo: int, hi: int)
    requires forall i :: 0 <= i < |s| ==> lo <= s[i] <= hi
    ensures lo * |s| <= Sum(s) <= hi * |s|
  {
    if s != [] {
      var n := |s|;
      SumBounds(s[..n - 1], lo, hi);
      assert lo * n == lo * (n - 1) + lo;
      assert hi * n == hi * (n - 1) + hi;
    }
  }

  /** The truncated mean of values in [lo, hi] lies in [lo, hi]. */
  lemma TruncMeanBounds(sum: int, count: int, lo: int, hi: int)
    requires count > 0 && lo * count <= sum <= hi * count
    ensures lo <= TruncMean(sum, count) <= hi
  {
    if sum >= 0 {
      MatrixPixels.DivBounds(sum, count, lo, hi);
    } else {
      MatrixPixels.DivBounds(-sum, count, -hi, -lo);
    }
  }

  /**
   * The smoothed value never leaves the range of the readings it averages:
   * with every recent reading in [lo, hi], so is the result.
   */
  lemma SmoothedWithinReadings(samples: seq<int>, lo: int, hi: int)
    requires |samples| > 0
    requires forall i :: 0 <= i < |samples| ==> lo <= samples[i] <= hi
    ensures lo <= TruncMean(Sum(Window(samples)), |Window(samples)|) <= hi
  {
    var w := Window(samples);
    SumBounds(w, lo, hi);
    TruncMeanBounds(Sum(w), |w|, lo, hi);
  }

  /** A steady reading is reported unchanged once it fills the window. */
  lemma SteadyReading(samples: seq<int>, v: int)
    requires |samples| > 0
    requires forall i :: 0 <= i < |samples| ==> samples[i] == v
    ensures TruncMean(Sum(Window(samples)), |Window(samples)|) == v
  {
    SmoothedWithinReadings(samples, v, v);
  }

  /**
   * `recentMinForSample`'s decision: keep the recent minimum while the new
   * value lies within [recentMin, recentMin + 1], otherwise (and while the
   * recent minimum is still the sentinel -1) adopt the new value.
   */
  function NextRecentMin(recentMin: int, newValue: int): (r: int)
    ensures r <= newValue <= r + RecentMinWindow
    ensures r == recentMin || r == newValue
    ensures r == recentMin <==> recentMin == newValue || (recentMin != -1 && recentMin <= newValue <= recentMin + RecentMinWindow)
  {
    if recentMin == -1 then newValue
    else if newValue >= recentMin && newValue <= recentMin + RecentMinWindow then recentMin
    else newValue
  }

  /** Reporting the same value twice changes nothing the second time. */
  lemma NextRecentMinIdempotent(recentMin: int, newValue: int)
    ensures NextRecentMin(NextRecentMin(recentMin, newValue), newValue) == NextRecentMin(recentMin, newValue)
  {
  }

  /** The recent-minimum state; -1 means none yet. */
  class RecentMinTracker {
    var recentMin: int

    constructor()
      ensures recentMin == -1
    {
      recentMin := -1;
    }

    /** `recentMinForSample`: update the recent minimum and return it. */
    method RecentMinForSample(newValue: int) returns (r: int)
      modifies this
      ensures recentMin == NextRecentMin(old(recentMin), newValue)
      ensures r == recentMin
    {
      if recentMin == -1 {
        recentMin := newValue;
        return recentMin;
      }
      if newValue >= recentMin && newValue <= recentMin + RecentMinWindow {
        return recentMin;
      }
      recentMin := newValue;
      return recentMin;
    }
  }
}
