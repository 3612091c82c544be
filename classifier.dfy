/**
 * The tone classifier of DTMFdetect.c (`decode`): from the powers of the 18
 * monitored bins of one frame to one symbol code, threading the one bit of
 * state that says whether the stream is inside an MF KP...ST bracket.
 *
 * `Classify` is the specification; `Decode` is the classifier as the source
 * writes it, with its counting loops, proved equal to `Classify`.
 */
module Classifier {
  import opened Tones

  /** The per-bin powers of one frame. */
  type PowerVector = p: seq<real> | |p| == NUMTONES witness seq(NUMTONES, i => 0.0)

  /** A classification: the symbol code and the MF-bracket flag afterwards. */
  datatype Decision = Decision(symbol: int, mfMode: bool)

  // ---------------------------------------------------------------------
  // Scans over a prefix v[0..n), in the order the source's loops visit it.

  /** The loudest power among p[0..n), the scan starting from 0.0. */
  function MaxBelow(p: seq<real>, n: nat): (m: real)
    requires n <= |p|
    ensures 0.0 <= m
    ensures forall i :: 0 <= i < n ==> p[i] <= m
    ensures m == 0.0 || exists i :: 0 <= i < n && p[i] == m
  {
    if n == 0 then 0.0
    else
      var m := MaxBelow(p, n - 1);
      if p[n - 1] > m then p[n - 1] else m
  }

  /** How many of v[0..n) are set. */
  function CountBelow(v: seq<bool>, n: nat): (c: nat)
    requires n <= |v|
    ensures c <= n
    ensures c == 0 <==> forall k :: 0 <= k < n ==> !v[k]
  {
    if n == 0 then 0 else CountBelow(v, n - 1) + (if v[n - 1] then 1 else 0)
  }

  /** The highest set index below n, or -1 when none is set. */
  function LastBelow(v: seq<bool>, n: nat): (r: int)
    requires n <= |v|
    ensures -1 <= r < n
    ensures r >= 0 ==> v[r] && forall k :: r < k < n ==> !v[k]
    ensures r == -1 ==> forall k :: 0 <= k < n ==> !v[k]
  {
    if n == 0 then -1 else if v[n - 1] then n - 1 else LastBelow(v, n - 1)
  }

  /** The set index just below LastBelow(v, n), or -1 when there is none. */
  function SecondBelow(v: seq<bool>, n: nat): (r: int)
    requires n <= |v|
    ensures -1 <= r < n
    ensures r >= 0 ==> r < LastBelow(v, n) && v[r]
    ensures LastBelow(v, n) >= 0 ==> forall k :: r < k < LastBelow(v, n) ==> !v[k]
    ensures CountBelow(v, n) >= 2 ==> r >= 0
  {
    if n == 0 then -1 else if v[n - 1] then LastBelow(v, n - 1) else SecondBelow(v, n - 1)
  }

  /** Exactly one set entry in v[0..n), at i. */
  lemma {:induction false} CountOne(v: seq<bool>, n: nat, i: int)
    requires 0 <= i < n <= |v| && v[i]
    ensures CountBelow(v, n) == 1 <==> forall k :: 0 <= k < n && v[k] ==> k == i
  {
    if n - 1 != i {
      CountOne(v, n - 1, i);
    }
  }

  /** Exactly two set entries in v[0..n), at i and j. */
  lemma {:induction false} CountTwo(v: seq<bool>, n: nat, i: int, j: int)
    requires 0 <= i < j < n <= |v| && v[i] && v[j]
    ensures CountBelow(v, n) >= 2
    ensures CountBelow(v, n) == 2 <==> forall k :: 0 <= k < n && v[k] ==> k == i || k == j
  {
    if n - 1 == j {
      CountOne(v, n - 1, i);
    } else {
      CountTwo(v, n - 1, i, j);
    }
  }

  /** Exactly v[i] set among v[0..n): the scans find one, at i. */
  lemma OneOn(v: seq<bool>, n: nat, i: int)
    requires 0 <= i < n <= |v|
    requires forall k :: 0 <= k < n ==> (v[k] <==> k == i)
    ensures CountBelow(v, n) == 1 && LastBelow(v, n) == i
  {
    CountOne(v, n, i);
  }

  /** Exactly v[i] and v[j] set among v[0..n): the scans find two, j last and i before it. */
  lemma TwoOn(v: seq<bool>, n: nat, i: int, j: int)
    requires 0 <= i < j < n <= |v|
    requires forall k :: 0 <= k < n ==> (v[k] <==> k == i || k == j)
    ensures CountBelow(v, n) == 2 && LastBelow(v, n) == j && SecondBelow(v, n) == i
  {
    CountTwo(v, n, i, j);
  }

  /** A view v picks on[bins[k]]; with just bins x and y on, v[k] is on just where bins[k] is x or y. */
  lemma Picked(on: seq<bool>, bins: seq<int>, v: seq<bool>, x: int, y: int)
    requires |v| == |bins| && forall k :: 0 <= k < |bins| ==> 0 <= bins[k] < |on| && v[k] == on[bins[k]]
    requires forall k :: 0 <= k < |on| ==> (on[k] <==> k == x || k == y)
    ensures forall k :: 0 <= k < |v| ==> (v[k] <==> bins[k] == x || bins[k] == y)
  {
  }

  // ---------------------------------------------------------------------
  // The specification of one classification.

  function MaxPower(p: PowerVector): real
  {
    MaxBelow(p, NUMTONES)
  }

  /** Bin i is on: its power exceeds RANGE times the loudest power. */
  predicate IsOn(p: PowerVector, i: int)
    requires 0 <= i < NUMTONES
  {
    p[i] > RANGE * MaxPower(p)
  }

  function OnVector(p: PowerVector): seq<bool>
  {
    seq(NUMTONES, i requires 0 <= i < NUMTONES => IsOn(p, i))
  }

  /** The on flags of the row, column and MF band bins, in table order. */
  function RowView(on: seq<bool>): (v: seq<bool>)
    requires |on| == NUMTONES
    ensures |v| == 4 && forall k :: 0 <= k < 4 ==> v[k] == on[ROW_BINS[k]]
  {
    [on[R1], on[R2], on[R3], on[R4]]
  }

  function ColView(on: seq<bool>): (v: seq<bool>)
    requires |on| == NUMTONES
    ensures |v| == 4 && forall k :: 0 <= k < 4 ==> v[k] == on[COL_BINS[k]]
  {
    [on[C1], on[C2], on[C3], on[C4]]
  }

  function BandView(on: seq<bool>): (v: seq<bool>)
    requires |on| == NUMTONES
    ensures |v| == 8 && forall k :: 0 <= k < 8 ==> v[k] == on[BAND_BINS[k]]
  {
    [on[B1], on[B2], on[B3], on[B4], on[B5], on[B6], on[B7], on[B8]]
  }

  /** Distinct rows, columns and band positions are distinct bins, and none is a call-progress bin. */
  lemma BinsDistinct()
    ensures forall i, j :: 0 <= i < 8 && 0 <= j < 8 && BAND_BINS[i] == BAND_BINS[j] ==> i == j
    ensures forall i, j :: 0 <= i < 4 && 0 <= j < 4 && ROW_BINS[i] == ROW_BINS[j] ==> i == j
    ensures forall i, j :: 0 <= i < 4 && 0 <= j < 4 && COL_BINS[i] == COL_BINS[j] ==> i == j
    ensures forall i, j :: 0 <= i < 4 && 0 <= j < 4 ==> ROW_BINS[i] != COL_BINS[j]
    ensures forall i :: 0 <= i < 8 ==> X4 < BAND_BINS[i]
    ensures forall i :: 0 <= i < 4 ==> X4 < ROW_BINS[i] && X4 < COL_BINS[i]
  {
    forall i, j | 0 <= i < 8 && 0 <= j < 8
      ensures BAND_BINS[i] == BAND_BINS[j] ==> i == j
      ensures i < 4 && j < 4 ==> (ROW_BINS[i] == ROW_BINS[j] ==> i == j) && (COL_BINS[i] == COL_BINS[j] ==> i == j)
      ensures i < 4 && j < 4 ==> ROW_BINS[i] != COL_BINS[j]
    {
      assert i == 0 || i == 1 || i == 2 || i == 3 || i == 4 || i == 5 || i == 6 || i == 7;
      assert j == 0 || j == 1 || j == 2 || j == 3 || j == 4 || j == 5 || j == 6 || j == 7;
    }
  }

  /** The band shares exactly two bins with the DTMF tables: B1 == R1 and B5 == C3. */
  lemma SharedBins()
    ensures forall i, m :: 0 <= i < 4 && 0 <= m < 8 ==> (ROW_BINS[i] == BAND_BINS[m] <==> i == 0 && m == 0)
    ensures forall i, m :: 0 <= i < 4 && 0 <= m < 8 ==> (COL_BINS[i] == BAND_BINS[m] <==> i == 2 && m == 4)
  {
    forall i, m | 0 <= i < 4 && 0 <= m < 8
      ensures ROW_BINS[i] == BAND_BINS[m] <==> i == 0 && m == 0
      ensures COL_BINS[i] == BAND_BINS[m] <==> i == 2 && m == 4
    {
      assert i == 0 || i == 1 || i == 2 || i == 3;
      assert m == 0 || m == 1 || m == 2 || m == 3 || m == 4 || m == 5 || m == 6 || m == 7;
    }
  }

  /** The DTMF symbol the source computes for one row and one column. */
  function DtmfCode(row: int, col: int): (code: int)
    requires 0 <= row < 4 && 0 <= col < 4
    ensures D0 <= code <= DD
  {
    if col == 3 then DA + row
    else if row == 3 && col == 0 then DSTAR
    else if row == 3 && col == 2 then DPND
    else if row == 3 then D0
    else D1 + col + row * 3
  }

  /**
   * The MF symbol for on band positions b2 < b1, and the bracket flag:
   * KP (b1 == 5, b2 in {2, 3}) opens the bracket, ST (b1 == 5, b2 == 4) closes it.
   */
  function MfDecision(b1: int, b2: int, mf: bool): (d: Decision)
    requires 0 <= b2 < b1 < 8
    ensures d.mfMode == (if d.symbol == DKP1 || d.symbol == DKP2 then true
                         else if d.symbol == DST then false else mf)
    ensures d.symbol == INVALID || d.symbol == D2426 || D0 <= d.symbol <= DST
  {
    if b1 == 7 then Decision(if b2 == 6 then D2426 else INVALID, mf)
    else if b1 == 6 then Decision(INVALID, mf)
    else if b1 == 5 then Decision(DC11 + b2, if b2 == 2 || b2 == 3 then true else if b2 == 4 then false else mf)
    else if b1 == 4 then Decision(if b2 == 3 then D0 else D7 + b2, mf)
    else if b1 == 3 then Decision(D4 + b2, mf)
    else if b1 == 2 then Decision(D2 + b2, mf)
    else Decision(D1, mf)
  }

  /**
   * The decision table for two bins on, from what the scans of the rows, the
   * columns and the MF band found: DTMF when one row and one column are on
   * (but not the shared DTMF 3 / MF 7 pair inside a bracket), else MF when
   * two band bins are on, else INVALID.
   */
  function PairTable(rcount: int, row: int, ccount: int, col: int, bcount: int, b1: int, b2: int, mf: bool): (d: Decision)
    requires rcount == 1 ==> 0 <= row < 4
    requires ccount == 1 ==> 0 <= col < 4
    requires bcount == 2 ==> 0 <= b2 < b1 < 8
    ensures d.mfMode == (if d.symbol == DKP1 || d.symbol == DKP2 then true
                         else if d.symbol == DST then false else mf)
    ensures -1 <= d.symbol < DSIL
  {
    if rcount == 1 && ccount == 1 && !(row == 0 && col == 2 && mf) then
      Decision(DtmfCode(row, col), mf)
    else if bcount == 2 then
      MfDecision(b1, b2, mf)
    else
      Decision(INVALID, mf)
  }

  /** The decision for a frame with exactly two bins on. */
  function ClassifyPair(on: seq<bool>, mf: bool): (d: Decision)
    requires |on| == NUMTONES
    ensures d.mfMode == (if d.symbol == DKP1 || d.symbol == DKP2 then true
                         else if d.symbol == DST then false else mf)
    ensures -1 <= d.symbol < DSIL
  {
    if on[X1] && on[X2] then Decision(DDT, mf)
    else if on[X2] && on[X3] then Decision(DRING, mf)
    else if on[X3] && on[X4] then Decision(DBUSY, mf)
    else
      var r, c, b := RowView(on), ColView(on), BandView(on);
      PairTable(CountBelow(r, 4), LastBelow(r, 4), CountBelow(c, 4), LastBelow(c, 4),
                CountBelow(b, 8), LastBelow(b, 8), SecondBelow(b, 8), mf)
  }

  /**
   * One classification. The bracket flag changes only when KP or ST is
   * reported, and every result is a symbol code or INVALID.
   */
  function Classify(p: PowerVector, mf: bool): (d: Decision)
    ensures d.mfMode == (if d.symbol == DKP1 || d.symbol == DKP2 then true
                         else if d.symbol == DST then false else mf)
    ensures -1 <= d.symbol <= DSIL
  {
    if MaxPower(p) < THRESH then Decision(DSIL, mf)
    else
      var on := OnVector(p);
      var count := CountBelow(on, NUMTONES);
      if count == 1 then
        Decision(if on[B7] then D24 else if on[B8] then D26 else INVALID, mf)
      else if count == 2 then ClassifyPair(on, mf)
      else if count == 0 then Decision(DSIL, mf)
      else Decision(INVALID, mf)
  }

  // ---------------------------------------------------------------------
  // The classifier as the source writes it.

  method Decode(power: PowerVector, mfMode: bool) returns (x: int, mfMode': bool)
    ensures Decision(x, mfMode') == Classify(power, mfMode)
  {
    var maxpower := ScanMax(power);
    if maxpower < THRESH {
      return DSIL, mfMode;
    }
    var thresh := RANGE * maxpower;
    var on, onCount := ScanOn(power, thresh);
    if onCount == 1 {
      if on[B7] {
        return D24, mfMode;
      }
      if on[B8] {
        return D26, mfMode;
      }
      return INVALID, mfMode;
    }
    if onCount == 2 {
      x, mfMode' := DecodePair(on[..], mfMode);
      return;
    }
    if onCount == 0 {
      return DSIL, mfMode;
    }
    return INVALID, mfMode;
  }

  /** The first loop of `decode`: the loudest power, from 0.0. */
  method ScanMax(power: PowerVector) returns (maxpower: real)
    ensures maxpower == MaxPower(power)
  {
    maxpower := 0.0;
    var i := 0;
    while i < NUMTONES
      invariant 0 <= i <= NUMTONES
      invariant maxpower == MaxBelow(power, i)
    {
      if power[i] > maxpower {
        maxpower := power[i];
      }
      i := i + 1;
    }
  }

  /** The second loop of `decode`: the on flags against thresh, and how many are set. */
  method ScanOn(power: PowerVector, thresh: real) returns (on: array<bool>, onCount: int)
    requires thresh == RANGE * MaxPower(power)
    ensures fresh(on) && on[..] == OnVector(power)
    ensures onCount == CountBelow(on[..], NUMTONES)
  {
    on := new bool[NUMTONES];
    onCount := 0;
    var i := 0;
    while i < NUMTONES
      invariant 0 <= i <= NUMTONES
      invariant forall k :: 0 <= k < i ==> on[k] == IsOn(power, k)
      invariant onCount == CountBelow(OnVector(power), i)
    {
      if power[i] > thresh {
        on[i] := true;
        onCount := onCount + 1;
      } else {
        on[i] := false;
      }
      i := i + 1;
    }
    assert on[..] == OnVector(power);
  }

  /** The two-bins-on part of `decode`: call progress, DTMF, then MF. */
  method DecodePair(on: seq<bool>, mfMode: bool) returns (x: int, mfMode': bool)
    requires |on| == NUMTONES
    ensures Decision(x, mfMode') == ClassifyPair(on, mfMode)
  {
    if on[X1] && on[X2] {
      return DDT, mfMode;
    }
    if on[X2] && on[X3] {
      return DRING, mfMode;
    }
    if on[X3] && on[X4] {
      return DBUSY, mfMode;
    }
    var b := [on[B1], on[B2], on[B3], on[B4], on[B5], on[B6], on[B7], on[B8]];
    var c := [on[C1], on[C2], on[C3], on[C4]];
    var r := [on[R1], on[R2], on[R3], on[R4]];

    var bcount, b1, b2 := ScanBand(b);
    var rcount, row := ScanLine(r);
    var ccount, col := ScanLine(c);
    assert r == RowView(on) && c == ColView(on) && b == BandView(on);
    assert ClassifyPair(on, mfMode) == PairTable(rcount, row, ccount, col, bcount, b1, b2, mfMode);

    if rcount == 1 && ccount == 1 {
      if col == 3 {
        return DA + row, mfMode;
      }
      if row == 3 && col == 0 {
        return DSTAR, mfMode;
      }
      if row == 3 && col == 2 {
        return DPND, mfMode;
      }
      if row == 3 {
        return D0, mfMode;
      }
      if row == 0 && col == 2 {
        // DTMF 3 and MF 7 share these bins: MF 7 only inside a KP...ST bracket.
        if !mfMode {
          return D3, mfMode;
        }
      } else {
        return D1 + col + row * 3, mfMode;
      }
    }

    if bcount == 2 {
      x, mfMode' := DecodeMf(b1, b2, mfMode);
      return;
    }
    return INVALID, mfMode;
  }

  /** The MF part of `decode`, for on band positions b2 < b1: the R1 table and the KP...ST bracket. */
  method DecodeMf(b1: int, b2: int, mfMode: bool) returns (x: int, mfMode': bool)
    requires 0 <= b2 < b1 < 8
    ensures Decision(x, mfMode') == MfDecision(b1, b2, mfMode)
  {
    mfMode' := mfMode;
    if b1 == 7 {
      x := if b2 == 6 then D2426 else INVALID;
    } else if b1 == 6 {
      x := INVALID;
    } else if b1 == 5 {
      if b2 == 2 || b2 == 3 {
        mfMode' := true;   // KP
      }
      if b2 == 4 {
        mfMode' := false;  // ST
      }
      x := DC11 + b2;
    } else if b1 == 4 {
      x := if b2 == 3 then D0 else D7 + b2;
    } else if b1 == 3 {
      x := D4 + b2;
    } else if b1 == 2 {
      x := D2 + b2;
    } else {
      x := D1;
    }
  }

  /** The loop over the MF band: how many bins are on, the last one on and the one before it. */
  method ScanBand(b: seq<bool>) returns (bcount: int, b1: int, b2: int)
    ensures bcount == CountBelow(b, |b|)
    ensures b1 == LastBelow(b, |b|) && b2 == SecondBelow(b, |b|)
  {
    bcount, b1, b2 := 0, -1, -1;
    var i := 0;
    while i < |b|
      invariant 0 <= i <= |b|
      invariant bcount == CountBelow(b, i)
      invariant b1 == LastBelow(b, i) && b2 == SecondBelow(b, i)
    {
      if b[i] {
        bcount := bcount + 1;
        b2 := b1;
        b1 := i;
      }
      i := i + 1;
    }
  }

  /** The loop over the rows (or the columns): how many are on, and the last one on. */
  method ScanLine(v: seq<bool>) returns (count: int, last: int)
    ensures count == CountBelow(v, |v|) && last == LastBelow(v, |v|)
  {
    count, last := 0, -1;
    var i := 0;
    while i < |v|
      invariant 0 <= i <= |v|
      invariant count == CountBelow(v, i) && last == LastBelow(v, i)
    {
      if v[i] {
        count := count + 1;
        last := i;
      }
      i := i + 1;
    }
  }

  // ---------------------------------------------------------------------
  // What the classification promises.

  /** Above the floor the loudest bin is always on, so no frame there has zero bins on. */
  lemma LoudestIsOn(p: PowerVector)
    requires MaxPower(p) >= THRESH
    ensures exists i :: 0 <= i < NUMTONES && IsOn(p, i)
    ensures CountBelow(OnVector(p), NUMTONES) >= 1
  {
    var i :| 0 <= i < NUMTONES && p[i] == MaxPower(p);
    assert OnVector(p)[i];
  }

  /** A frame is reported as silence exactly when every bin is below THRESH. */
  lemma SilenceIffQuiet(p: PowerVector, mf: bool)
    ensures Classify(p, mf).symbol == DSIL <==> forall i :: 0 <= i < NUMTONES ==> p[i] < THRESH
    ensures Classify(p, mf).symbol == DSIL ==> Classify(p, mf).mfMode == mf
  {
    if MaxPower(p) >= THRESH {
      LoudestIsOn(p);
      var i :| 0 <= i < NUMTONES && p[i] == MaxPower(p);
    }
  }

  /** One bin on: only 2400 Hz and 2600 Hz stand alone. */
  lemma {:induction false} SingleBin(p: PowerVector, mf: bool, i: int)
    requires 0 <= i < NUMTONES && MaxPower(p) >= THRESH
    requires forall k :: 0 <= k < NUMTONES ==> (IsOn(p, k) <==> k == i)
    ensures Classify(p, mf) == Decision(if i == B7 then D24 else if i == B8 then D26 else INVALID, mf)
  {
    CountOne(OnVector(p), NUMTONES, i);
  }

  /** Three or more bins on is never a tone. */
  lemma {:induction false} ThreeBins(p: PowerVector, mf: bool, i: int, j: int, k: int)
    requires 0 <= i < j < k < NUMTONES && MaxPower(p) >= THRESH
    requires IsOn(p, i) && IsOn(p, j) && IsOn(p, k)
    ensures Classify(p, mf) == Decision(INVALID, mf)
  {
    var on := OnVector(p);
    assert on[i] && on[j] && on[k];
    CountTwo(on, NUMTONES, i, j);
  }

  /** The adjacent call-progress pairs: dial tone, ring, busy. */
  lemma {:induction false} CallProgress(p: PowerVector, mf: bool, i: int)
    requires 0 <= i < 3 && MaxPower(p) >= THRESH
    requires forall k :: 0 <= k < NUMTONES ==> (IsOn(p, k) <==> k == i || k == i + 1)
    ensures Classify(p, mf) == Decision([DDT, DRING, DBUSY][i], mf)
  {
    CountTwo(OnVector(p), NUMTONES, i, i + 1);
  }

  /** Just bins i and j on, and not one row bin with one column bin: the two line scans do not both find one bin. */
  lemma OtherPairLines(on: seq<bool>, i: int, j: int)
    requires |on| == NUMTONES && 0 <= i < j < NUMTONES
    requires forall k :: 0 <= k < NUMTONES ==> (on[k] <==> k == i || k == j)
    requires !(i in ROW_BINS && j in COL_BINS) && !(j in ROW_BINS && i in COL_BINS)
    ensures !(CountBelow(RowView(on), 4) == 1 && CountBelow(ColView(on), 4) == 1)
  {
    var r, c := RowView(on), ColView(on);
    BinsDistinct();
    Picked(on, ROW_BINS, r, i, j);
    Picked(on, COL_BINS, c, i, j);
    if i in ROW_BINS || j in ROW_BINS {
      assert i !in COL_BINS && j !in COL_BINS;
      assert forall k :: 0 <= k < 4 ==> !c[k];
    } else {
      assert forall k :: 0 <= k < 4 ==> !r[k];
    }
  }

  /** Just bins i and j on, not both band bins: the band scan does not find two. */
  lemma OtherPairBand(on: seq<bool>, i: int, j: int)
    requires |on| == NUMTONES && 0 <= i < j < NUMTONES
    requires forall k :: 0 <= k < NUMTONES ==> (on[k] <==> k == i || k == j)
    requires !(i in BAND_BINS && j in BAND_BINS)
    ensures CountBelow(BandView(on), 8) != 2
  {
    var b := BandView(on);
    BinsDistinct();
    Picked(on, BAND_BINS, b, i, j);
    if i in BAND_BINS {
      var m :| 0 <= m < 8 && BAND_BINS[m] == i;
      OneOn(b, 8, m);
    } else if j in BAND_BINS {
      var m :| 0 <= m < 8 && BAND_BINS[m] == j;
      OneOn(b, 8, m);
    } else {
      assert forall k :: 0 <= k < 8 ==> !b[k];
    }
  }

  /**
   * Just bins i and j on, and the pair is no call-progress pair, no row
   * with a column and no two band bins: the pair falls through to INVALID.
   */
  lemma OtherPairOn(on: seq<bool>, mf: bool, i: int, j: int)
    requires |on| == NUMTONES && 0 <= i < j < NUMTONES
    requires forall k :: 0 <= k < NUMTONES ==> (on[k] <==> k == i || k == j)
    requires !(j == i + 1 && j <= X4)
    requires !(i in ROW_BINS && j in COL_BINS) && !(j in ROW_BINS && i in COL_BINS)
    requires !(i in BAND_BINS && j in BAND_BINS)
    ensures CountBelow(on, NUMTONES) == 2
    ensures ClassifyPair(on, mf) == Decision(INVALID, mf)
  {
    TwoOn(on, NUMTONES, i, j);
    OtherPairLines(on, i, j);
    OtherPairBand(on, i, j);
  }

  /** Any other two bins on is not a tone (the fall-through of the two-bin case). */
  lemma OtherPairInvalid(p: PowerVector, mf: bool, i: int, j: int)
    requires 0 <= i < j < NUMTONES && MaxPower(p) >= THRESH
    requires forall k :: 0 <= k < NUMTONES ==> (IsOn(p, k) <==> k == i || k == j)
    requires !(j == i + 1 && j <= X4)
    requires !(i in ROW_BINS && j in COL_BINS) && !(j in ROW_BINS && i in COL_BINS)
    requires !(i in BAND_BINS && j in BAND_BINS)
    ensures Classify(p, mf) == Decision(INVALID, mf)
  {
    OtherPairOn(OnVector(p), mf, i, j);
  }

  /** Just the bins of one row and one column on: each line scan finds its one bin, and no call-progress bin is on. */
  lemma DtmfLines(on: seq<bool>, row: int, col: int)
    requires |on| == NUMTONES && 0 <= row < 4 && 0 <= col < 4
    requires forall k :: 0 <= k < NUMTONES ==> (on[k] <==> k == ROW_BINS[row] || k == COL_BINS[col])
    ensures CountBelow(RowView(on), 4) == 1 && LastBelow(RowView(on), 4) == row
    ensures CountBelow(ColView(on), 4) == 1 && LastBelow(ColView(on), 4) == col
    ensures !on[X1] && !on[X2] && !on[X3] && !on[X4]
  {
    var r, c := RowView(on), ColView(on);
    BinsDistinct();
    Picked(on, ROW_BINS, r, ROW_BINS[row], COL_BINS[col]);
    Picked(on, COL_BINS, c, ROW_BINS[row], COL_BINS[col]);
    OneOn(r, 4, row);
    OneOn(c, 4, col);
  }

  /** Just R1 and C3 on: they are also band bins B1 and B5, which the band scan finds. */
  lemma SharedPairBand(on: seq<bool>)
    requires |on| == NUMTONES
    requires forall k :: 0 <= k < NUMTONES ==> (on[k] <==> k == R1 || k == C3)
    ensures CountBelow(BandView(on), 8) == 2 && LastBelow(BandView(on), 8) == 4 && SecondBelow(BandView(on), 8) == 0
  {
    var b := BandView(on);
    SharedBins();
    Picked(on, BAND_BINS, b, R1, C3);
    TwoOn(b, 8, 0, 4);
  }

  /** On flags with exactly the bins of one row and one column set: the DTMF table. */
  lemma DtmfPairOn(on: seq<bool>, mf: bool, row: int, col: int)
    requires |on| == NUMTONES && 0 <= row < 4 && 0 <= col < 4
    requires forall k :: 0 <= k < NUMTONES ==> (on[k] <==> k == ROW_BINS[row] || k == COL_BINS[col])
    ensures CountBelow(on, NUMTONES) == 2
    ensures ClassifyPair(on, mf) == Decision(if row == 0 && col == 2 && mf then D7 else DtmfCode(row, col), mf)
  {
    BinsDistinct();
    TwoOn(on, NUMTONES, ROW_BINS[row], COL_BINS[col]);
    DtmfLines(on, row, col);
    if row == 0 && col == 2 {
      SharedPairBand(on);
    }
  }

  /**
   * One row and one column on: the DTMF key, a code in 0..15, except that
   * row 0 with column 2 is MF 7 inside a KP...ST bracket.
   */
  lemma DtmfPair(p: PowerVector, mf: bool, row: int, col: int)
    requires 0 <= row < 4 && 0 <= col < 4 && MaxPower(p) >= THRESH
    requires forall k :: 0 <= k < NUMTONES ==> (IsOn(p, k) <==> k == ROW_BINS[row] || k == COL_BINS[col])
    ensures Classify(p, mf) == Decision(if row == 0 && col == 2 && mf then D7 else DtmfCode(row, col), mf)
    ensures D0 <= Classify(p, mf).symbol <= DD
  {
    DtmfPairOn(OnVector(p), mf, row, col);
  }

  /** DTMF "3" and MF "7" share bins R1 == B1 and C3 == B5: the bracket decides. */
  lemma MfBracketResolvesCollision(p: PowerVector)
    requires MaxPower(p) >= THRESH
    requires forall k :: 0 <= k < NUMTONES ==> (IsOn(p, k) <==> k == R1 || k == C3)
    ensures Classify(p, false) == Decision(D3, false)
    ensures Classify(p, true) == Decision(D7, true)
  {
    DtmfPair(p, false, 0, 2);
    DtmfPair(p, true, 0, 2);
  }

  /** Just band bins lo < hi on: the band scan finds both, and no call-progress bin is on. */
  lemma MfBand(on: seq<bool>, lo: int, hi: int)
    requires |on| == NUMTONES && 0 <= lo < hi < 8
    requires forall k :: 0 <= k < NUMTONES ==> (on[k] <==> k == BAND_BINS[lo] || k == BAND_BINS[hi])
    ensures CountBelow(BandView(on), 8) == 2 && LastBelow(BandView(on), 8) == hi && SecondBelow(BandView(on), 8) == lo
    ensures !on[X1] && !on[X2] && !on[X3] && !on[X4]
  {
    var b := BandView(on);
    BinsDistinct();
    Picked(on, BAND_BINS, b, BAND_BINS[lo], BAND_BINS[hi]);
    TwoOn(b, 8, lo, hi);
  }

  /** Just band bins lo < hi on: the row and column scans find one bin each only for B1 with B5 (R1 with C3). */
  lemma MfLines(on: seq<bool>, lo: int, hi: int)
    requires |on| == NUMTONES && 0 <= lo < hi < 8
    requires forall k :: 0 <= k < NUMTONES ==> (on[k] <==> k == BAND_BINS[lo] || k == BAND_BINS[hi])
    ensures CountBelow(RowView(on), 4) == 1 && CountBelow(ColView(on), 4) == 1 <==> lo == 0 && hi == 4
    ensures lo == 0 && hi == 4 ==> LastBelow(RowView(on), 4) == 0 && LastBelow(ColView(on), 4) == 2
  {
    var r, c := RowView(on), ColView(on);
    SharedBins();
    Picked(on, ROW_BINS, r, BAND_BINS[lo], BAND_BINS[hi]);
    Picked(on, COL_BINS, c, BAND_BINS[lo], BAND_BINS[hi]);
    if lo == 0 && hi == 4 {
      OneOn(r, 4, 0);
      OneOn(c, 4, 2);
    }
  }

  /** On flags with exactly two band bins set (not the DTMF "3" pair outside a bracket): the MF table. */
  lemma MfPairOn(on: seq<bool>, mf: bool, lo: int, hi: int)
    requires |on| == NUMTONES && 0 <= lo < hi < 8
    requires forall k :: 0 <= k < NUMTONES ==> (on[k] <==> k == BAND_BINS[lo] || k == BAND_BINS[hi])
    requires !(lo == 0 && hi == 4 && !mf)
    ensures CountBelow(on, NUMTONES) == 2
    ensures ClassifyPair(on, mf) == MfDecision(hi, lo, mf)
  {
    BinsDistinct();
    TwoOn(on, NUMTONES, BAND_BINS[lo], BAND_BINS[hi]);
    MfBand(on, lo, hi);
    MfLines(on, lo, hi);
  }

  /** Two MF band bins on (other than the DTMF "3" pair outside a bracket): the MF table. */
  lemma MfPair(p: PowerVector, mf: bool, lo: int, hi: int)
    requires 0 <= lo < hi < 8 && MaxPower(p) >= THRESH
    requires forall k :: 0 <= k < NUMTONES ==> (IsOn(p, k) <==> k == BAND_BINS[lo] || k == BAND_BINS[hi])
    requires !(lo == 0 && hi == 4 && !mf)
    ensures Classify(p, mf) == MfDecision(hi, lo, mf)
  {
    MfPairOn(OnVector(p), mf, lo, hi);
  }

  /** The DTMF codes are the labels of the Q.23 push-button matrix. */
  lemma DtmfFollowsKeypad(row: int, col: int)
    requires 0 <= row < 4 && 0 <= col < 4
    ensures DTRAN[DtmfCode(row, col)] == [KEYPAD[row][col]]
  {
  }

  /**
   * The MF table is the R1 signalling plan for the band frequencies
   * 700..1700 Hz; of the pairs with 2400 or 2600 Hz only 2400+2600 is a symbol.
   */
  lemma MfFollowsR1(lo: int, hi: int, mf: bool)
    requires 0 <= lo < hi < 8
    ensures MfDecision(hi, lo, mf).symbol ==
      if hi < 6 then R1Code(BinFreq(BAND_BINS[lo]), BinFreq(BAND_BINS[hi]))
      else if lo == 6 then D2426 else INVALID
  {
    assert [BinFreq(B1), BinFreq(B2), BinFreq(B3), BinFreq(B4), BinFreq(B5), BinFreq(B6)]
        == [700, 900, 1100, 1300, 1500, 1700];
  }
}
