/**
 * Generator against detector: the frequency pair DTMFgen.c plays for a digit
 * falls, bin by bin, on the row and column bins DTMFdetect.c looks for, so a
 * frame in which exactly those two bins are on decodes to the digit dialled.
 *
 * The power estimate itself is not modelled; "falls on" means the monitored
 * bin whose centre frequency is nearest.
 */
module RoundTrip {
  import opened Tones
  import opened Classifier
  import opened Generator

  /** Three times the distance in Hz from f to the centre of bin i (bin i sits at K[i] * 100 / 3 Hz). */
  function Dist(f: int, i: int): (dist: int)
    requires 0 <= i < NUMTONES
    ensures dist >= 0
  {
    if 3 * f >= 100 * K[i] then 3 * f - 100 * K[i] else 100 * K[i] - 3 * f
  }

  /** Bin b is nearer to f than bin k, unless they are the same bin. */
  predicate Beats(f: int, b: int, k: int)
    requires 0 <= b < NUMTONES && 0 <= k < NUMTONES
  {
    k == b || Dist(f, b) < Dist(f, k)
  }

  /** Bin b is the monitored bin nearest to frequency f, strictly. */
  predicate Nearest(f: int, b: int)
    requires 0 <= b < NUMTONES
  {
    forall k :: 0 <= k < NUMTONES ==> Beats(f, b, k)
  }

  /** Checked bin by bin, b is the nearest bin to f, and no other bin is. */
  lemma NearestIs(f: int, b: int)
    requires 0 <= b < NUMTONES
    requires Beats(f, b, 0) && Beats(f, b, 1) && Beats(f, b, 2) && Beats(f, b, 3) && Beats(f, b, 4) && Beats(f, b, 5) &&
      Beats(f, b, 6) && Beats(f, b, 7) && Beats(f, b, 8) && Beats(f, b, 9) && Beats(f, b, 10) && Beats(f, b, 11) &&
      Beats(f, b, 12) && Beats(f, b, 13) && Beats(f, b, 14) && Beats(f, b, 15) && Beats(f, b, 16) && Beats(f, b, 17)
    ensures forall k :: 0 <= k < NUMTONES ==> (Nearest(f, k) <==> k == b)
  {
    forall k | 0 <= k < NUMTONES
      ensures Beats(f, b, k)
    {
      assert k == 0 || k == 1 || k == 2 || k == 3 || k == 4 || k == 5 || k == 6 || k == 7 || k == 8 || k == 9 || k == 10 || k == 11 || k == 12 || k == 13 || k == 14 || k == 15 || k == 16 || k == 17;
    }
    forall k | 0 <= k < NUMTONES && k != b
      ensures !Nearest(f, k)
    {
      assert !Beats(f, k, b);
    }
  }

  /** Where digit code d sits on the Q.23 keypad: its row and column. */
  function KeyOf(d: int): (rc: (int, int))
    requires 0 <= d < 12
    ensures 0 <= rc.0 < 4 && 0 <= rc.1 < 3
    ensures KEYPAD[rc.0][rc.1] == DIALABLE[d]
    ensures DtmfCode(rc.0, rc.1) == d
    ensures rc.0 == 0 && rc.1 == 2 <==> d == 3
  {
    match d
    case 0 => (3, 1)
    case 1 => (0, 0)
    case 2 => (0, 1)
    case 3 => (0, 2)
    case 4 => (1, 0)
    case 5 => (1, 1)
    case 6 => (1, 2)
    case 7 => (2, 0)
    case 8 => (2, 1)
    case 9 => (2, 2)
    case 10 => (3, 0)
    case _ => (3, 2)
  }

  /** The nearest bins of the four Q.23 row frequencies are the detector's row bins. */
  lemma RowFrequencyBins()
    ensures forall k :: 0 <= k < NUMTONES ==> (Nearest(697, k) <==> k == R1)
    ensures forall k :: 0 <= k < NUMTONES ==> (Nearest(770, k) <==> k == R2)
    ensures forall k :: 0 <= k < NUMTONES ==> (Nearest(852, k) <==> k == R3)
    ensures forall k :: 0 <= k < NUMTONES ==> (Nearest(941, k) <==> k == R4)
  {
    NearestIs(697, R1);
    NearestIs(770, R2);
    NearestIs(852, R3);
    NearestIs(941, R4);
  }

  /** The nearest bins of the generator's column frequencies, 1447 Hz included. */
  lemma ColumnFrequencyBins()
    ensures forall k :: 0 <= k < NUMTONES ==> (Nearest(1209, k) <==> k == C1)
    ensures forall k :: 0 <= k < NUMTONES ==> (Nearest(1336, k) <==> k == C2)
    ensures forall k :: 0 <= k < NUMTONES ==> (Nearest(1477, k) <==> k == C3)
    ensures forall k :: 0 <= k < NUMTONES ==> (Nearest(1447, k) <==> k == C3)
  {
    NearestIs(1209, C1);
    NearestIs(1336, C2);
    NearestIs(1477, C3);
    NearestIs(1447, C3);
  }

  /**
   * The tones `dtmf` plays for each digit land on the detector's bins for the
   * digit's keypad row and column; digit 9's 1447 Hz lands on the 1477 Hz
   * column bin all the same.
   */
  lemma {:induction false} DigitBins(d: int)
    requires 0 <= d < 12
    ensures forall k :: 0 <= k < NUMTONES ==> (Nearest(ROW[d], k) <==> k == ROW_BINS[KeyOf(d).0])
    ensures forall k :: 0 <= k < NUMTONES ==> (Nearest(COL[d], k) <==> k == COL_BINS[KeyOf(d).1])
  {
    RowFrequencyBins();
    ColumnFrequencyBins();
  }

  /**
   * A loud frame in which just the bins of digit d's tones are on decodes to
   * d, and prints the character dialled; the one exception is "3", whose bins
   * are also the MF pair for "7" and decode as 7 between KP and ST.
   */
  lemma GeneratedDigitDecodes(p: PowerVector, mf: bool, d: int)
    requires 0 <= d < 12 && MaxPower(p) >= THRESH
    requires forall k :: 0 <= k < NUMTONES ==> (IsOn(p, k) <==> Nearest(ROW[d], k) || Nearest(COL[d], k))
    ensures Classify(p, mf) == Decision(if d == 3 && mf then D7 else d, mf)
    ensures !(d == 3 && mf) ==> DTRAN[Classify(p, mf).symbol] == [DIALABLE[d]]
  {
    var (r, c) := KeyOf(d);
    DigitBins(d);
    DtmfPair(p, mf, r, c);
    assert Classify(p, mf) == Decision(if d == 3 && mf then D7 else d, mf);
    DtmfFollowsKeypad(r, c);
  }
}
