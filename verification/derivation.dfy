/** Conversion of a peak-to-peak ADC count into a physical magnitude:
    `(ptp / ADC_RESOLUTION) * ADC_REF_VOLTAGE * CAL / 2`.

    Halving the scaled peak-to-peak is the firmware's simplified AC "RMS"
    estimate; it is kept as written, not replaced by a true RMS. The division
    by the resolution is integer or real division depending on the type of
    the resolution constant (see `Config.Resolution`). */
module Derivation {
  import opened Config
  import opened Arithmetic

  /** Fraction of full scale, times the reference voltage. */
  function Normalize(ptp: nat, res: Resolution, ref: real): real
    requires res.Valid()
  {
    match res
    case IntegerResolution(n) => (ptp / n) as real * ref
    case RealResolution(r) => (ptp as real / r) * ref
  }

  /** The calibrated magnitude (volts for the voltage channel, amperes for
      the current channel). */
  function Magnitude(ptp: nat, res: Resolution, ref: real, cal: real): (m: real)
    requires res.Valid()
    ensures ref >= 0.0 && cal >= 0.0 ==> m >= 0.0
    ensures ptp == 0 ==> m == 0.0
  {
    NonNegativeProduct(Normalize(ptp, res, ref), cal, ref, ptp, res);
    Normalize(ptp, res, ref) * cal / 2.0
  }

  lemma NonNegativeProduct(x: real, cal: real, ref: real, ptp: nat, res: Resolution)
    requires res.Valid() && x == Normalize(ptp, res, ref)
    ensures ref >= 0.0 && cal >= 0.0 ==> x * cal / 2.0 >= 0.0
    ensures ptp == 0 ==> x * cal / 2.0 == 0.0
  {
    if ptp == 0 {
      match res {
        case IntegerResolution(n) => assert ptp / n == 0;
        case RealResolution(r) => assert ptp as real / r == 0.0;
      }
    }
    if ref >= 0.0 && cal >= 0.0 {
      match res {
        case IntegerResolution(n) =>
          var q := (ptp / n) as real;
          assert q >= 0.0;
          RealMulMonotone(0.0, q, ref);
          RealMulMonotone(0.0, q * ref, cal);
        case RealResolution(r) =>
          var q := ptp as real / r;
          assert q >= 0.0;
          RealMulMonotone(0.0, q, ref);
          RealMulMonotone(0.0, q * ref, cal);
      }
    }
  }

  /** A larger peak-to-peak never yields a smaller normalised value. */
  lemma NormalizeMonotone(p1: nat, p2: nat, res: Resolution, ref: real)
    requires res.Valid() && ref >= 0.0 && p1 <= p2
    ensures Normalize(p1, res, ref) <= Normalize(p2, res, ref)
  {
    match res {
      case IntegerResolution(n) =>
        DivMonotone(p1, p2, n);
        RealMulMonotone((p1 / n) as real, (p2 / n) as real, ref);
      case RealResolution(r) =>
        RealMulMonotone(p1 as real, p2 as real, 1.0 / r);
        assert p1 as real / r <= p2 as real / r;
        RealMulMonotone(p1 as real / r, p2 as real / r, ref);
    }
  }

  /** A larger peak-to-peak never yields a smaller magnitude, for either
      kind of resolution constant. */
  lemma MagnitudeMonotone(p1: nat, p2: nat, res: Resolution, ref: real, cal: real)
    requires res.Valid() && ref >= 0.0 && cal >= 0.0 && p1 <= p2
    ensures Magnitude(p1, res, ref, cal) <= Magnitude(p2, res, ref, cal)
  {
    NormalizeMonotone(p1, p2, res, ref);
    RealMulMonotone(Normalize(p1, res, ref), Normalize(p2, res, ref), cal);
  }

  /** With an integer resolution constant, every spread below the resolution
      scales to zero: with `ADC_RESOLUTION` 4095 only a full-scale swing
      gives a non-zero magnitude, and with 4096 none does. */
  lemma IntegerResolutionTruncates(ptp: nat, n: int, ref: real, cal: real)
    requires n > 0 && ptp < n
    ensures Magnitude(ptp, IntegerResolution(n), ref, cal) == 0.0
  {
    assert ptp / n == 0;
  }

  /** The two kinds of resolution constant disagree on an ordinary mains
      reading: a 3900-count swing with resolution 4095, reference 3.3 V and
      calibration 250 gives about 392.9 V with real division and 0 V with
      integer division. */
  lemma ResolutionKindsDiverge()
    ensures Magnitude(3900, RealResolution(4095.0), 3.3, 250.0) > 392.8
    ensures Magnitude(3900, RealResolution(4095.0), 3.3, 250.0) < 392.9
    ensures Magnitude(3900, IntegerResolution(4095), 3.3, 250.0) == 0.0
  {
  }
}
