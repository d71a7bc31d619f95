/** Reduction of one acquisition window of ADC readings (the two sampling
    loops of `readSensors`) to a running sum, minimum and maximum, and the
    quantities derived from them: the truncated mean and the peak-to-peak
    spread. */
module Sampling {
  import opened Config
  import opened Arithmetic

  /** One `analogRead` result of the 12-bit ADC. */
  type AdcReading = x: int | 0 <= x <= ADC_MAX

  datatype ChannelStats = ChannelStats(sum: int, min: int, max: int)

  /** The loop's starting state: sum 0, minimum 4095, maximum 0. */
  const Initial: ChannelStats := ChannelStats(0, ADC_MAX, 0)

  /** One loop iteration: add the reading to the sum, raise the maximum and
      lower the minimum when the reading passes them. */
  function Step(acc: ChannelStats, reading: AdcReading): ChannelStats {
    ChannelStats(acc.sum + reading,
                 if reading < acc.min then reading else acc.min,
                 if reading > acc.max then reading else acc.max)
  }

  /** The state after the loop has consumed the readings `s`, in order. */
  function Stats(s: seq<AdcReading>): (st: ChannelStats)
    ensures 0 <= st.sum <= |s| * ADC_MAX
    ensures 0 <= st.min <= ADC_MAX && 0 <= st.max <= ADC_MAX
  {
    if |s| == 0 then Initial else Step(Stats(s[..|s| - 1]), s[|s| - 1])
  }

  /** Reference sum of a sequence, accumulated from the front. */
  function Sum(s: seq<int>): int {
    if |s| == 0 then 0 else s[0] + Sum(s[1..])
  }

  /** Truncated mean `sum / SAMPLES`; the sum is non-negative, so C's
      truncating division and Dafny's `/` agree. */
  function Mean(s: seq<AdcReading>): int
    requires |s| > 0
  {
    Stats(s).sum / |s|
  }

  /** Peak-to-peak spread `max - min`. */
  function PeakToPeak(s: seq<AdcReading>): int {
    Stats(s).max - Stats(s).min
  }

  /** The sampling loop itself. */
  method ScanSamples(s: seq<AdcReading>) returns (st: ChannelStats)
    ensures st == Stats(s)
    ensures st.sum == Sum(s)
    ensures forall i :: 0 <= i < |s| ==> st.min <= s[i] <= st.max
    ensures |s| > 0 ==> exists i :: 0 <= i < |s| && s[i] == st.min
    ensures |s| > 0 ==> exists j :: 0 <= j < |s| && s[j] == st.max
    ensures |s| == 0 ==> st == Initial
  {
    st := Initial;
    var i := 0;
    while i < |s|
      invariant 0 <= i <= |s|
      invariant st == Stats(s[..i])
    {
      var reading := s[i];
      st := st.(sum := st.sum + reading);
      if reading > st.max {
        st := st.(max := reading);
      }
      if reading < st.min {
        st := st.(min := reading);
      }
      assert s[..i + 1][..i] == s[..i];
      i := i + 1;
    }
    assert s[..|s|] == s;
    StatsSum(s);
    StatsBounds(s);
    if |s| > 0 {
      StatsAttained(s);
    }
  }

  lemma {:induction false} SumSnoc(s: seq<int>, x: int)
    ensures Sum(s + [x]) == Sum(s) + x
    decreases |s|
  {
    if |s| > 0 {
      assert (s + [x])[1..] == s[1..] + [x];
      SumSnoc(s[1..], x);
    }
  }

  /** The running sum is the sum of the readings. */
  lemma {:induction false} StatsSum(s: seq<AdcReading>)
    ensures Stats(s).sum == Sum(s)
    decreases |s|
  {
    if |s| > 0 {
      var p := s[..|s| - 1];
      StatsSum(p);
      assert p + [s[|s| - 1]] == s;
      SumSnoc(p, s[|s| - 1]);
    }
  }

  /** Every reading lies between the tracked minimum and maximum. */
  lemma {:induction false} StatsBounds(s: seq<AdcReading>)
    ensures forall i :: 0 <= i < |s| ==> Stats(s).min <= s[i] <= Stats(s).max
    decreases |s|
  {
    if |s| > 0 {
      var p := s[..|s| - 1];
      StatsBounds(p);
      assert forall i :: 0 <= i < |p| ==> s[i] == p[i];
    }
  }

  /** On a non-empty window the minimum and maximum are actual readings
      (the starting values 4095 and 0 never survive). */
  lemma {:induction false} StatsAttained(s: seq<AdcReading>)
    requires |s| > 0
    ensures exists i :: 0 <= i < |s| && s[i] == Stats(s).min
    ensures exists j :: 0 <= j < |s| && s[j] == Stats(s).max
    decreases |s|
  {
    var p := s[..|s| - 1];
    var last := |s| - 1;
    if |p| == 0 {
      assert s[0] == Stats(s).min && s[0] == Stats(s).max;
    } else {
      StatsAttained(p);
      var i :| 0 <= i < |p| && p[i] == Stats(p).min;
      var j :| 0 <= j < |p| && p[j] == Stats(p).max;
      if s[last] < Stats(p).min {
        assert s[last] == Stats(s).min;
      } else {
        assert s[i] == Stats(s).min;
      }
      if s[last] > Stats(p).max {
        assert s[last] == Stats(s).max;
      } else {
        assert s[j] == Stats(s).max;
      }
    }
  }

  /** The sum of `|s|` readings, each at least `m`, is at least `|s| * m`. */
  lemma {:induction false} SumAtLeast(s: seq<AdcReading>, m: int)
    requires forall i :: 0 <= i < |s| ==> m <= s[i]
    ensures |s| * m <= Stats(s).sum
    decreases |s|
  {
    if |s| > 0 {
      var p := s[..|s| - 1];
      SumAtLeast(p, m);
      assert |s| * m == |p| * m + m;
    }
  }

  /** The sum of `|s|` readings, each at most `m`, is at most `|s| * m`. */
  lemma {:induction false} SumAtMost(s: seq<AdcReading>, m: int)
    requires forall i :: 0 <= i < |s| ==> s[i] <= m
    ensures Stats(s).sum <= |s| * m
    decreases |s|
  {
    if |s| > 0 {
      var p := s[..|s| - 1];
      SumAtMost(p, m);
      assert |s| * m == |p| * m + m;
    }
  }

  /** The truncated mean lies between the minimum and the maximum reading. */
  lemma MeanBetween(s: seq<AdcReading>)
    requires |s| > 0
    ensures Stats(s).min <= Mean(s) <= Stats(s).max
  {
    StatsBounds(s);
    SumAtLeast(s, Stats(s).min);
    SumAtMost(s, Stats(s).max);
    DivBetween(Stats(s).sum, |s|, Stats(s).min, Stats(s).max);
  }

  /** On a non-empty window the spread lies in [0, 4095]. */
  lemma PeakToPeakRange(s: seq<AdcReading>)
    requires |s| > 0
    ensures 0 <= PeakToPeak(s) <= ADC_MAX
  {
  }

  /** The spread exceeds `t` exactly when some two readings differ by more than `t`. */
  lemma SpreadExceeds(s: seq<AdcReading>, t: int)
    requires |s| > 0
    ensures PeakToPeak(s) > t <==> exists i, j :: 0 <= i < |s| && 0 <= j < |s| && s[i] - s[j] > t
  {
    StatsBounds(s);
    StatsAttained(s);
    var i :| 0 <= i < |s| && s[i] == Stats(s).max;
    var j :| 0 <= j < |s| && s[j] == Stats(s).min;
    if PeakToPeak(s) > t {
      assert s[i] - s[j] > t;
    }
  }

  /** A window short enough that `|s| * ADC_MAX` fits a `long` never
      overflows the running sum: the sum stays in range after every sample,
      not only at the end. */
  lemma SumFitsLong(s: seq<AdcReading>)
    requires |s| * ADC_MAX <= LONG_MAX
    ensures forall k :: 0 <= k <= |s| ==> 0 <= Stats(s[..k]).sum <= LONG_MAX
  {
  }

  /** The bound of `SumFitsLong` is exact: one sample more, every reading at
      full scale, and the sum no longer fits a `long`. */
  lemma FullScaleWindowOverflows(s: seq<AdcReading>)
    requires |s| * ADC_MAX > LONG_MAX
    requires forall i :: 0 <= i < |s| ==> s[i] == ADC_MAX
    ensures Stats(s).sum > LONG_MAX
  {
    SumAtLeast(s, ADC_MAX);
  }
}
