/**
 * Constants shared by the detector and the generator: the 18 monitored
 * frequency bins, the symbol codes the classifier returns, their display
 * text, and the two tone plans the classifier decodes (the push-button
 * matrix of ITU-T Recommendation Q.23 and the R1 multifrequency code of
 * ITU-T Recommendation Q.320).
 */
module Tones {

  const FSAMPLE := 8000  // samples per second
  const N := 240         // samples per frame (30 ms)
  const NUMTONES := 18   // monitored bins

  /** DFT bin index k of each monitored tone; bin i sits at K[i] * FSAMPLE / N Hz. */
  const K: seq<int> := [11, 13, 14, 19, 21, 23, 26, 27, 28, 33, 36, 39, 40, 45, 49, 51, 72, 78]

  // Call-progress bins: 350, 440, 480, 620 Hz.
  const X1 := 0
  const X2 := 1
  const X3 := 2
  const X4 := 3

  // DTMF rows (697, 770, 852, 941 Hz) and columns (1209, 1336, 1477, 1633 Hz).
  const R1 := 4
  const R2 := 5
  const R3 := 6
  const R4 := 8
  const C1 := 10
  const C2 := 12
  const C3 := 13
  const C4 := 14

  // MF ("blue box") bins: 700, 900, 1100, 1300, 1500, 1700, 2400, 2600 Hz.
  // B1 shares its bin with R1 and B5 with C3.
  const B1 := 4
  const B2 := 7
  const B3 := 9
  const B4 := 11
  const B5 := 13
  const B6 := 15
  const B7 := 16
  const B8 := 17

  const ROW_BINS: seq<int> := [R1, R2, R3, R4]
  const COL_BINS: seq<int> := [C1, C2, C3, C4]
  const BAND_BINS: seq<int> := [B1, B2, B3, B4, B5, B6, B7, B8]

  // Symbol codes returned by the classifier.
  const INVALID := -1
  const D0 := 0
  const D1 := 1
  const D2 := 2
  const D3 := 3
  const D4 := 4
  const D5 := 5
  const D6 := 6
  const D7 := 7
  const D8 := 8
  const D9 := 9
  const DSTAR := 10
  const DPND := 11
  const DA := 12
  const DB := 13
  const DC := 14
  const DD := 15
  const DC11 := 16
  const DC12 := 17
  const DKP1 := 18
  const DKP2 := 19
  const DST := 20
  const D24 := 21
  const D26 := 22
  const D2426 := 23
  const DDT := 24
  const DRING := 25
  const DBUSY := 26
  const DSIL := 27

  /** Display text of each symbol code 0..27. */
  const DTRAN: seq<string> := [
    "0", "1", "2", "3", "4", "5", "6", "7", "8", "9",
    "*", "#", "A", "B", "C", "D",
    "+C11 ", "+C12 ", " KP1+", " KP2+", "+ST ",
    " 2400 ", " 2600 ", " 2400+2600 ",
    " DIALTONE ", " RING ", " BUSY ", ""]

  const RANGE: real := 0.1      // a bin is on above RANGE times the peak
  const THRESH: real := 100.0   // minimum power of the loudest bin
  const FLUSH_TIME := 100       // silent frames before a line break (3 s)

  /** The Q.23 push-button matrix: key labels by row and column. */
  const KEYPAD: seq<string> := ["123A", "456B", "789C", "*0#D"]
  const Q23_LOW: seq<int> := [697, 770, 852, 941]
  const Q23_HIGH: seq<int> := [1209, 1336, 1477, 1633]

  /** Frequency in Hz of monitored bin i (exact for every MF bin). */
  function BinFreq(i: int): int
    requires 0 <= i < NUMTONES
  {
    K[i] * FSAMPLE / N
  }

  /**
   * The R1 signalling plan: the symbol code of each pair of frequencies
   * lo < hi in Hz, or INVALID for a pair the plan does not use.
   */
  function R1Code(lo: int, hi: int): int
  {
    match (lo, hi)
    case (700, 900) => D1
    case (700, 1100) => D2
    case (900, 1100) => D3
    case (700, 1300) => D4
    case (900, 1300) => D5
    case (1100, 1300) => D6
    case (700, 1500) => D7
    case (900, 1500) => D8
    case (1100, 1500) => D9
    case (1300, 1500) => D0
    case (700, 1700) => DC11
    case (900, 1700) => DC12
    case (1100, 1700) => DKP1
    case (1300, 1700) => DKP2
    case (1500, 1700) => DST
    case _ => INVALID
  }
}
