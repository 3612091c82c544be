/**
 * The decoding loop of DTMFdetect.c (`dtmf_to_ascii`): read whole frames,
 * classify each, and format the symbol stream, ending with a line break.
 *
 * The Goertzel power estimate is not modelled; the loop is given it as the
 * function `calcPower` from a frame's bytes to its 18 bin powers.
 */
module Session {
  import opened Tones
  import opened Classifier
  import opened Formatter
  import opened Framing

  /** The symbols of a run of frames, and the MF-bracket flag after them. */
  datatype Decoded = Decoded(symbols: seq<int>, mfMode: bool)

  /** Classifying frames fs in order, the bracket flag threaded from mf0. */
  function Symbols(fs: seq<seq<bv8>>, calcPower: seq<bv8> -> PowerVector, mf0: bool): (d: Decoded)
    ensures |d.symbols| == |fs| && AllSymbols(d.symbols)
  {
    if fs == [] then Decoded([], mf0)
    else
      var before := Symbols(fs[..|fs| - 1], calcPower, mf0);
      var last := Classify(calcPower(fs[|fs| - 1]), before.mfMode);
      Decoded(before.symbols + [last.symbol], last.mfMode)
  }

  /** Classifying one more frame appends its symbol and updates the flag. */
  lemma SymbolsSnoc(fs: seq<seq<bv8>>, f: seq<bv8>, calcPower: seq<bv8> -> PowerVector, mf0: bool)
    ensures Symbols(fs + [f], calcPower, mf0).symbols ==
      Symbols(fs, calcPower, mf0).symbols + [Classify(calcPower(f), Symbols(fs, calcPower, mf0).mfMode).symbol]
    ensures Symbols(fs + [f], calcPower, mf0).mfMode ==
      Classify(calcPower(f), Symbols(fs, calcPower, mf0).mfMode).mfMode
  {
    assert (fs + [f])[..|fs|] == fs;
  }

  /**
   * What `dtmf_to_ascii` holds after the frames fs: the bracket flag mf, the
   * formatter state st and the text out are those of classifying and
   * formatting fs from the start.
   */
  ghost predicate After(fs: seq<seq<bv8>>, calcPower: seq<bv8> -> PowerVector, silence0: int,
                        mf: bool, st: State, out: string)
  {
    var d := Symbols(fs, calcPower, false);
    d.mfMode == mf && Run(State(DSIL, silence0), d.symbols) == Output(st, out)
  }

  /** One more frame f: classify it with the flag so far, then format its symbol. */
  lemma AfterFrame(fs: seq<seq<bv8>>, f: seq<bv8>, calcPower: seq<bv8> -> PowerVector, silence0: int,
                   mf: bool, st: State, out: string)
    requires After(fs, calcPower, silence0, mf, st, out)
    ensures var d := Classify(calcPower(f), mf);
            var o := Step(st, d.symbol);
            After(fs + [f], calcPower, silence0, d.mfMode, o.state, out + o.text)
  {
    var syms := Symbols(fs, calcPower, false).symbols;
    SymbolsSnoc(fs, f, calcPower, false);
    RunSnoc(State(DSIL, silence0), syms, Classify(calcPower(f), mf).symbol);
  }

  /** Taking the next whole frame off the remaining bytes keeps the frames read and the frames left together. */
  lemma NextFrame(fs: seq<seq<bv8>>, rest: seq<bv8>, all: seq<seq<bv8>>)
    requires fs + Frames(rest) == all && |rest| >= N
    ensures (fs + [rest[..N]]) + Frames(rest[N..]) == all
  {
    assert Frames(rest) == [rest[..N]] + Frames(rest[N..]);
    assert (fs + [rest[..N]]) + Frames(rest[N..]) == fs + ([rest[..N]] + Frames(rest[N..]));
  }

  /** The whole text printed for an input stream, the bracket flag starting clear. */
  function Transcript(bytes: seq<bv8>, calcPower: seq<bv8> -> PowerVector, silence0: int): string
  {
    Run(State(DSIL, silence0), Symbols(Frames(bytes), calcPower, false).symbols).text + "\n"
  }

  /**
   * `dtmf_to_ascii`. The source never initialises `silence_time`; its
   * starting value is the parameter silence0.
   */
  method DtmfToAscii(src: ByteSource, calcPower: seq<bv8> -> PowerVector, silence0: int)
    returns (out: string)
    modifies src
    ensures out == Transcript(old(Delivered(src.chunks)), calcPower, silence0)
    ensures |out| > 0 && out[|out| - 1] == '\n'
    ensures Delivered(src.chunks) == []
  {
    var frame := new bv8[N + 5];
    var last, silenceTime := DSIL, silence0;
    var mfMode := false;
    out := "";
    ghost var input := Delivered(src.chunks);
    ghost var fs: seq<seq<bv8>> := [];
    while true
      invariant fs + Frames(Delivered(src.chunks)) == Frames(input)
      invariant After(fs, calcPower, silence0, mfMode, State(last, silenceTime), out)
      decreases |Delivered(src.chunks)|
    {
      ghost var rest := Delivered(src.chunks);
      var ok := ReadFrame(src, frame);
      if !ok {
        assert fs == Frames(input);
        break;
      }
      AfterFrame(fs, frame[..N], calcPower, silence0, mfMode, State(last, silenceTime), out);
      var x;
      x, mfMode := Decode(calcPower(frame[..N]), mfMode);
      var text;
      last, silenceTime, text := FormatSymbol(last, silenceTime, x);
      out := out + text;
      NextFrame(fs, rest, Frames(input));
      fs := fs + [frame[..N]];
    }
    out := out + "\n";
  }

  /**
   * The formatting part of the loop body of `dtmf_to_ascii` for one frame's
   * symbol x: the new last symbol and silence counter, and the text printed.
   */
  method FormatSymbol(last: int, silenceTime: int, x: int)
    returns (last': int, silenceTime': int, text: string)
    requires IsSymbol(x)
    ensures State(last', silenceTime') == Step(State(last, silenceTime), x).state
    ensures text == Step(State(last, silenceTime), x).text
  {
    last', silenceTime', text := last, silenceTime, "";
    if x >= 0 {
      if x == DSIL {
        silenceTime' := silenceTime' + (if silenceTime' >= 0 then 1 else 0);
      } else {
        silenceTime' := 0;
      }
      if silenceTime' == FLUSH_TIME {
        text := text + "\n";
        silenceTime' := -1;  // stop counting
      }
      if x != DSIL && x != last &&
         (last == DSIL || last == D24 || last == D26 || last == D2426 ||
          last == DDT || last == DBUSY || last == DRING) {
        text := text + DTRAN[x];
      }
      last' := x;
    }
  }

  /** Every whole frame of the input is classified once; the short tail is not. */
  lemma TranscriptCoversWholeFrames(bytes: seq<bv8>, calcPower: seq<bv8> -> PowerVector)
    ensures |Symbols(Frames(bytes), calcPower, false).symbols| == |bytes| / N
  {
    FramesOfStream(bytes);
  }
}
