/**
 * The output side of `dtmf_to_ascii` in DTMFdetect.c: how the stream of
 * per-frame symbol codes becomes text. A held tone lasts many frames but is
 * printed once; a long silence is marked by one line break.
 *
 * `Step` is one pass of the loop body; `Run` is the loop over a stream.
 */
module Formatter {
  import opened Tones

  /**
   * The formatter's variables: the last valid symbol, and the silence-run
   * counter, -1 once a run has been flushed ("stop counting").
   */
  datatype State = State(last: int, silenceTime: int)

  /** A code the classifier can return. */
  predicate IsSymbol(x: int)
  {
    INVALID <= x <= DSIL
  }

  predicate AllSymbols(xs: seq<int>)
  {
    forall i :: 0 <= i < |xs| ==> IsSymbol(xs[i])
  }

  /** After these a new, different symbol is printed at once. */
  predicate Resumes(last: int)
  {
    last == DSIL || last == D24 || last == D26 || last == D2426 ||
    last == DDT || last == DBUSY || last == DRING
  }

  /** A state together with the text printed on the way to it. */
  datatype Output = Output(state: State, text: string)

  /** One frame's symbol x: the new state and the text printed. */
  function Step(s: State, x: int): Output
    requires IsSymbol(x)
  {
    if x < 0 then Output(s, "")
    else
      var t := if x == DSIL then s.silenceTime + (if s.silenceTime >= 0 then 1 else 0) else 0;
      var flush := t == FLUSH_TIME;
      var token := if x != DSIL && x != s.last && Resumes(s.last) then DTRAN[x] else "";
      Output(State(x, if flush then -1 else t), (if flush then "\n" else "") + token)
  }

  /** The state and the text after the symbols xs, in order. */
  function Run(s: State, xs: seq<int>): Output
    requires AllSymbols(xs)
  {
    if xs == [] then Output(s, "")
    else
      var before := Run(s, xs[..|xs| - 1]);
      var step := Step(before.state, xs[|xs| - 1]);
      Output(step.state, before.text + step.text)
  }

  function Repeat(x: int, n: nat): (r: seq<int>)
  {
    seq(n, i => x)
  }

  /** The stream with its INVALID frames removed. */
  function WithoutInvalid(xs: seq<int>): (r: seq<int>)
  {
    if xs == [] then []
    else WithoutInvalid(xs[..|xs| - 1]) + (if xs[|xs| - 1] == INVALID then [] else [xs[|xs| - 1]])
  }

  /** Running one more symbol is one more step. */
  lemma RunSnoc(s: State, xs: seq<int>, x: int)
    requires AllSymbols(xs) && IsSymbol(x)
    ensures AllSymbols(xs + [x])
    ensures Run(s, xs + [x]).state == Step(Run(s, xs).state, x).state
    ensures Run(s, xs + [x]).text == Run(s, xs).text + Step(Run(s, xs).state, x).text
  {
    assert (xs + [x])[..|xs|] == xs;
  }

  /** Running two streams one after the other is running their concatenation. */
  lemma {:induction false} RunAppend(s: State, a: seq<int>, b: seq<int>)
    requires AllSymbols(a) && AllSymbols(b)
    ensures AllSymbols(a + b)
    ensures Run(s, a + b).state == Run(Run(s, a).state, b).state
    ensures Run(s, a + b).text == Run(s, a).text + Run(Run(s, a).state, b).text
  {
    if b != [] {
      var b', x := b[..|b| - 1], b[|b| - 1];
      assert b == b' + [x];
      assert a + b == (a + b') + [x];
      RunAppend(s, a, b');
      RunSnoc(s, a + b', x);
      RunSnoc(Run(s, a).state, b', x);
    } else {
      assert a + b == a;
    }
  }

  /** INVALID frames print nothing and change nothing, wherever they occur. */
  lemma {:induction false} InvalidFramesIgnored(s: State, xs: seq<int>)
    requires AllSymbols(xs)
    ensures AllSymbols(WithoutInvalid(xs))
    ensures Run(s, xs).state == Run(s, WithoutInvalid(xs)).state
    ensures Run(s, xs).text == Run(s, WithoutInvalid(xs)).text
  {
    if xs != [] {
      var init, x := xs[..|xs| - 1], xs[|xs| - 1];
      InvalidFramesIgnored(s, init);
      assert xs == init + [x];
      RunSnoc(s, init, x);
      if x == INVALID {
        assert WithoutInvalid(xs) == WithoutInvalid(init);
      } else {
        RunSnoc(s, WithoutInvalid(init), x);
      }
    }
  }

  /** A tone held for n >= 1 frames prints its token at most once, at its first frame. */
  lemma {:induction false} HeldTone(s: State, x: int, n: nat)
    requires D0 <= x < DSIL && n >= 1
    ensures Run(s, Repeat(x, n)).state == State(x, 0)
    ensures Run(s, Repeat(x, n)).text == if x != s.last && Resumes(s.last) then DTRAN[x] else ""
  {
    assert Repeat(x, n) == Repeat(x, n - 1) + [x];
    RunSnoc(s, Repeat(x, n - 1), x);
    if n > 1 {
      HeldTone(s, x, n - 1);
    } else {
      assert Repeat(x, 0) == [];
    }
  }

  /**
   * Silence while counting is suspended (negative) or past the flush point
   * prints nothing; a suspended counter stays as it is.
   */
  lemma {:induction false} SilenceWithoutFlush(s: State, k: nat)
    requires s.silenceTime < 0 || s.silenceTime >= FLUSH_TIME
    ensures Run(s, Repeat(DSIL, k)).state ==
      State(if k == 0 then s.last else DSIL, if s.silenceTime < 0 then s.silenceTime else s.silenceTime + k)
    ensures Run(s, Repeat(DSIL, k)).text == ""
  {
    if k > 0 {
      assert Repeat(DSIL, k) == Repeat(DSIL, k - 1) + [DSIL];
      RunSnoc(s, Repeat(DSIL, k - 1), DSIL);
      SilenceWithoutFlush(s, k - 1);
      var before := Run(s, Repeat(DSIL, k - 1));
      assert Step(before.state, DSIL) ==
        Output(State(DSIL, if s.silenceTime < 0 then s.silenceTime else s.silenceTime + k), "");
    }
  }

  /**
   * A silence run counted from t < FLUSH_TIME prints exactly one line break,
   * when the count reaches FLUSH_TIME, and then stops counting (-1).
   */
  lemma {:induction false} SilenceRun(s: State, k: nat)
    requires 0 <= s.silenceTime < FLUSH_TIME
    ensures Run(s, Repeat(DSIL, k)).state ==
      State(if k == 0 then s.last else DSIL,
            if s.silenceTime + k >= FLUSH_TIME then -1 else s.silenceTime + k)
    ensures Run(s, Repeat(DSIL, k)).text == if s.silenceTime + k >= FLUSH_TIME then "\n" else ""
  {
    if k > 0 {
      assert Repeat(DSIL, k) == Repeat(DSIL, k - 1) + [DSIL];
      RunSnoc(s, Repeat(DSIL, k - 1), DSIL);
      SilenceRun(s, k - 1);
      var before := Run(s, Repeat(DSIL, k - 1));
      if s.silenceTime + k - 1 >= FLUSH_TIME {
        assert before.state.silenceTime == -1 && before.text == "\n";
        assert Step(before.state, DSIL) == Output(State(DSIL, -1), "");
      } else {
        assert before.state.silenceTime == s.silenceTime + k - 1 && before.text == "";
        assert Step(before.state, DSIL).state.silenceTime ==
          if s.silenceTime + k == FLUSH_TIME then -1 else s.silenceTime + k;
      }
    }
  }

  /** Key d held for h frames, then g frames of silence. */
  function Burst(d: int, h: nat, g: nat): (r: seq<int>)
  {
    Repeat(d, h) + Repeat(DSIL, g)
  }

  /** Each key of ds held for h frames, followed by g frames of silence. */
  function Bursts(ds: seq<int>, h: nat, g: nat): (r: seq<int>)
  {
    if ds == [] then [] else Bursts(ds[..|ds| - 1], h, g) + Burst(ds[|ds| - 1], h, g)
  }

  /**
   * After a symbol that lets a new key print, a burst of a different key
   * with a gap shorter than FLUSH_TIME prints the key's token once and ends
   * counting silence.
   */
  lemma OneBurst(m: State, d: int, h: nat, g: nat)
    requires D0 <= d <= DST && d != m.last && Resumes(m.last)
    requires h >= 1 && 1 <= g < FLUSH_TIME
    ensures AllSymbols(Burst(d, h, g))
    ensures Run(m, Burst(d, h, g)) == Output(State(DSIL, g), DTRAN[d])
  {
    HeldTone(m, d, h);
    SilenceRun(State(d, 0), g);
    RunAppend(m, Repeat(d, h), Repeat(DSIL, g));
    assert Run(m, Repeat(d, h)) == Output(State(d, 0), DTRAN[d]);
    assert Run(State(d, 0), Repeat(DSIL, g)) == Output(State(DSIL, g), "");
  }

  /** The display text of the codes ds, one token each. */
  function Tokens(ds: seq<int>): string
    requires forall i :: 0 <= i < |ds| ==> D0 <= ds[i] < DSIL
  {
    if ds == [] then "" else Tokens(ds[..|ds| - 1]) + DTRAN[ds[|ds| - 1]]
  }

  /**
   * Keys separated by silent gaps shorter than FLUSH_TIME are printed once
   * each, in order, repeated keys included: the keypad round trip.
   */
  lemma {:induction false} KeysBetweenGaps(s: State, ds: seq<int>, h: nat, g: nat)
    requires forall i :: 0 <= i < |ds| ==> D0 <= ds[i] <= DST
    requires h >= 1 && 1 <= g < FLUSH_TIME && Resumes(s.last)
    ensures AllSymbols(Bursts(ds, h, g))
    ensures Run(s, Bursts(ds, h, g)).state == if ds == [] then s else State(DSIL, g)
    ensures Run(s, Bursts(ds, h, g)).text == Tokens(ds)
  {
    if ds != [] {
      var init, d := ds[..|ds| - 1], ds[|ds| - 1];
      var before := Bursts(init, h, g);
      KeysBetweenGaps(s, init, h, g);
      var mid := Run(s, before).state;
      OneBurst(mid, d, h, g);
      RunAppend(s, before, Burst(d, h, g));
    }
  }
}
