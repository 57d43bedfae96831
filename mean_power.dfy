/** The shortwave screen's live mean-power readout. */
module PowerReadout {
  import opened Wrappers

  /** The emission-mode label for continuous shortwave. */
  const Continuous := "Continuo (CSWD)"

  function Abs(x: real): real
  {
    if x < 0.0 then -x else x
  }

  /** The real number k tenths. */
  function Tenth(k: int): real
  {
    k as real / 10.0
  }

  /** `r` is `x` rounded to one decimal place: a whole number of tenths, no
      tenth closer to `x`, and on an exact tie between two tenths the one with
      an even count of tenths. */
  ghost predicate NearestTenth(x: real, r: real)
  {
    && (r * 10.0).Floor as real == r * 10.0
    && Abs(r - x) <= 0.05
    && (forall k: int :: Abs(x - Tenth(k)) >= Abs(x - r))
    && (Abs(r - x) == 0.05 ==> (r * 10.0).Floor % 2 == 0)
  }

  /** `x` rounded to one decimal place, ties to even, as Python's `round(x, 1)`. */
  function RoundTenths(x: real): (r: real)
    ensures NearestTenth(x, r)
  {
    var n := (x * 10.0).Floor;
    var f := x * 10.0 - n as real;
    var k := if f < 0.5 then n else if f > 0.5 then n + 1 else if n % 2 == 0 then n else n + 1;
    var r := Tenth(k);
    assert r * 10.0 == k as real;
    assert (r * 10.0).Floor == k;
    assert Abs(r - x) <= 0.05;
    forall j: int ensures Abs(x - Tenth(j)) >= Abs(x - r) {
      if j < k {
        assert Tenth(j) <= r - 0.1;
      } else if j > k {
        assert Tenth(j) >= r + 0.1;
      }
    }
    assert Abs(r - x) == 0.05 ==> f == 0.5 && k % 2 == 0;
    r
  }

  /** Mean power from emission mode, pulse width (microseconds), pulse frequency
      (Hz) and peak power (W); an empty field counts as 0. */
  function MeanPower(mode: string, phase: Option<real>, freq: Option<real>, peak: Option<real>): (r: real)
    ensures mode == Continuous ==> r == peak.GetOr(0.0)
    ensures mode != Continuous ==>
      NearestTenth(peak.GetOr(0.0) * (phase.GetOr(0.0) * 0.000001) * freq.GetOr(0.0), r)
  {
    if mode == Continuous then peak.GetOr(0.0)
    else RoundTenths(peak.GetOr(0.0) * (phase.GetOr(0.0) * 0.000001) * freq.GetOr(0.0))
  }

  /** An empty field and a field holding 0 give the same readout. */
  lemma EmptyFieldsAreZero(mode: string, phase: Option<real>, freq: Option<real>, peak: Option<real>)
    ensures MeanPower(mode, phase, freq, peak)
         == MeanPower(mode, Some(phase.GetOr(0.0)), Some(freq.GetOr(0.0)), Some(peak.GetOr(0.0)))
  {
  }

  /** In continuous mode pulse width and frequency do not matter. */
  lemma ContinuousIgnoresPulse(phase: Option<real>, freq: Option<real>, phase': Option<real>, freq': Option<real>, peak: Option<real>)
    ensures MeanPower(Continuous, phase, freq, peak) == MeanPower(Continuous, phase', freq', peak)
    ensures MeanPower(Continuous, phase, freq, Some(50.0)) == 50.0
  {
  }

  /** An exact tie goes to the even neighbour: 0.25 rounds to 0.2, 0.75 to 0.8.
      Both values are exact in binary, so Python's float rounding agrees. */
  lemma TiesGoToEven()
    ensures RoundTenths(0.25) == 0.2
    ensures RoundTenths(0.75) == 0.8
  {
    assert (0.25 * 10.0).Floor == 2;
    assert (0.75 * 10.0).Floor == 7;
  }

  /** Pulsed, 100 W peak, 200 microseconds, 50 Hz: 1.0 W mean. */
  lemma PulsedExample()
    ensures MeanPower("Pulsado (PSWD)", Some(200.0), Some(50.0), Some(100.0)) == 1.0
  {
    var r := MeanPower("Pulsado (PSWD)", Some(200.0), Some(50.0), Some(100.0));
    assert 100.0 * (200.0 * 0.000001) * 50.0 == 1.0;
    assert Abs(1.0 - r) <= Abs(1.0 - Tenth(10));
  }

  /** Rounding is the identity on values that already are whole tenths. */
  lemma {:induction false} RoundTenthsOfTenth(k: int)
    ensures RoundTenths(Tenth(k)) == Tenth(k)
  {
    var r := RoundTenths(Tenth(k));
    assert Abs(Tenth(k) - r) <= Abs(Tenth(k) - Tenth(k));
  }
}
