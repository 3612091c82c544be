/**
 * The tone generator of DTMFgen.c: `dial` turns a number into DTMF digit
 * tones and pauses, `dtmf` looks up a digit's frequency pair, and
 * `two_tones` / `silence` produce 8 kHz 8-bit samples, 128 to a write.
 *
 * The sine polynomial and the float-to-sample conversion are not modelled:
 * a tone sample is the value of a function `wave` of the two 16-bit phases.
 */
module Generator {
  import opened Tones

  const BLEN := 128                   // samples per write
  const TWO16 := 0x1_0000
  const TWO32 := 0x1_0000_0000

  /**
   * The silence sample FLOAT_TO_SAMPLE(0.0) of the default (unsigned) build:
   * (0.0 + 1.0) * 127.0.
   */
  const C0: bv8 := 127

  /** Milliseconds of each tone and each pause that `dial` plays. */
  const DIAL_MS := 50

  /** The characters `dial` plays as tones, at their digit codes 0..11. */
  const DIALABLE: string := "0123456789*#"

  /** `dtmf`'s tables: the low and high frequency in Hz of digit codes 0..11. */
  const ROW: seq<int> := [941, 697, 697, 697, 770, 770, 770, 852, 852, 852, 941, 941]
  const COL: seq<int> := [1336, 1209, 1336, 1477, 1209, 1336, 1477, 1209, 1336, 1447, 1209, 1477]

  /** Conversion to `short`: the value congruent to v modulo 2^16 in -2^15 .. 2^15-1. */
  function Wrap16(v: int): (s: int)
    ensures -0x8000 <= s < 0x8000
    ensures (s - v) % TWO16 == 0
  {
    (v + 0x8000) % TWO16 - 0x8000
  }

  /** Two values congruent modulo 2^16 become the same `short`. */
  lemma Wrap16Congruent(u: int, v: int)
    requires (u - v) % TWO16 == 0
    ensures Wrap16(u) == Wrap16(v)
  {
    var k := (u - v) / TWO16;
    assert u + 0x8000 == (v + 0x8000) + k * TWO16;
  }

  /** Adding to a wrapped phase wraps like adding to the unwrapped one. */
  lemma {:induction false} Wrap16Add(a: int, b: int)
    ensures Wrap16(Wrap16(a) + b) == Wrap16(a + b)
  {
    Wrap16Congruent(Wrap16(a) + b, a + b);
  }

  /**
   * `l = (length * FSAMPLE) / 1000` for an unsigned 32-bit length: the
   * product wraps modulo 2^32. Without wrap-around it is 8 samples per ms.
   */
  function SampleCount(length: int): (l: int)
    requires 0 <= length < TWO32
    ensures 0 <= l < TWO32 / 1000 + 1
    ensures length * FSAMPLE < TWO32 ==> l == 8 * length
  {
    (length * FSAMPLE) % TWO32 / 1000
  }

  /**
   * `ad = (tone << 16) / FSAMPLE` for an unsigned 32-bit tone: the phase step
   * per sample, 2^16 being one full turn. For a tone below 2^16 Hz it is
   * tone/FSAMPLE of a turn, rounded down.
   */
  function Advance(tone: int): (ad: int)
    requires 0 <= tone < TWO32
    ensures 0 <= ad && ad * FSAMPLE < TWO32
    ensures tone < TWO16 ==> ad * FSAMPLE <= tone * TWO16 < (ad + 1) * FSAMPLE
  {
    (tone * TWO16) % TWO32 / FSAMPLE
  }

  /** A `short` phase accumulator after i steps of ad from 0, each step wrapping. */
  function Phase(ad: int, i: nat): (c: int)
    ensures -0x8000 <= c < 0x8000
  {
    if i == 0 then 0 else Wrap16(Phase(ad, i - 1) + ad)
  }

  /** One step of the accumulator: add ad and wrap. */
  lemma PhaseStep(ad: int, i: nat)
    ensures Phase(ad, i + 1) == Wrap16(Phase(ad, i) + ad)
  {
  }

  /** Wrapping at every step is wrapping once: the phase after i steps is i * ad as a `short`. */
  lemma {:induction false} PhaseIsWrappedProduct(ad: int, i: nat)
    ensures Phase(ad, i) == Wrap16(i * ad)
  {
    if i > 0 {
      PhaseIsWrappedProduct(ad, i - 1);
      Wrap16Add((i - 1) * ad, ad);
      assert (i - 1) * ad + ad == i * ad;
    }
  }

  /** The l samples of two tones with phase steps ad1, ad2: sample i at phases i*ad1, i*ad2. */
  function ToneSamples(ad1: int, ad2: int, l: nat, wave: (int, int) -> bv8): (s: seq<bv8>)
    ensures |s| == l
  {
    seq(l, i requires 0 <= i => wave(Phase(ad1, i), Phase(ad2, i)))
  }

  /** The l samples of a pause. */
  function SilenceSamples(l: nat): (s: seq<bv8>)
    ensures |s| == l
  {
    seq(l, i => C0)
  }

  /** The full BLEN-sample blocks at the front of s, in order. */
  function Full(s: seq<bv8>): seq<seq<bv8>>
    decreases |s|
  {
    if |s| < BLEN then [] else [s[..BLEN]] + Full(s[BLEN..])
  }

  /** The writes that emit s: its full blocks, then the rest (possibly empty). */
  function Blocks(s: seq<bv8>): seq<seq<bv8>>
  {
    Full(s) + [s[|s| / BLEN * BLEN..]]
  }

  /** The bytes of a series of writes, in order. */
  function Flatten(ws: seq<seq<bv8>>): seq<bv8>
  {
    if ws == [] then [] else ws[0] + Flatten(ws[1..])
  }

  lemma {:induction false} FlattenAppend(a: seq<seq<bv8>>, b: seq<seq<bv8>>)
    ensures Flatten(a + b) == Flatten(a) + Flatten(b)
  {
    if a != [] {
      assert (a + b)[1..] == a[1..] + b;
      FlattenAppend(a[1..], b);
    } else {
      assert a + b == b;
    }
  }

  /** Full(s) is |s| / BLEN blocks of BLEN samples that together are s's front part. */
  lemma {:induction false} FullShape(s: seq<bv8>)
    ensures |Full(s)| == |s| / BLEN
    ensures forall k :: 0 <= k < |Full(s)| ==> |Full(s)[k]| == BLEN
    ensures Flatten(Full(s)) == s[..|s| / BLEN * BLEN]
  {
    if |s| >= BLEN {
      var rest := s[BLEN..];
      FullShape(rest);
      assert |rest| / BLEN * BLEN + BLEN == |s| / BLEN * BLEN;
      assert s[..|s| / BLEN * BLEN] == s[..BLEN] + rest[..|rest| / BLEN * BLEN];
    }
  }

  /**
   * The writes of a sample run: every write but the last holds exactly BLEN
   * samples, the last holds the remaining |s| % BLEN, and together they are
   * s in order.
   */
  lemma BlocksShape(s: seq<bv8>)
    ensures |Blocks(s)| == |s| / BLEN + 1
    ensures forall k :: 0 <= k < |Blocks(s)| - 1 ==> |Blocks(s)[k]| == BLEN
    ensures |Blocks(s)[|Blocks(s)| - 1]| == |s| % BLEN
    ensures Flatten(Blocks(s)) == s
  {
    var tail := s[|s| / BLEN * BLEN..];
    FullShape(s);
    FlattenAppend(Full(s), [tail]);
    assert Flatten([tail]) == tail;
    assert s == s[..|s| / BLEN * BLEN] + tail;
  }

  /** Blocks of a run that starts on a block boundary (after nb full blocks). */
  lemma {:induction false} FullAppend(t: seq<bv8>, u: seq<bv8>, nb: nat)
    requires |t| == nb * BLEN
    ensures Full(t + u) == Full(t) + Full(u)
  {
    if nb == 0 {
      assert t + u == u;
    } else {
      assert (t + u)[..BLEN] == t[..BLEN];
      assert (t + u)[BLEN..] == t[BLEN..] + u;
      FullAppend(t[BLEN..], u, nb - 1);
    }
  }

  /** Completing block nb of s adds it to the full blocks before it. */
  lemma FullBlock(s: seq<bv8>, nb: nat)
    requires nb * BLEN + BLEN <= |s|
    ensures Full(s[..nb * BLEN + BLEN]) == Full(s[..nb * BLEN]) + [s[nb * BLEN..nb * BLEN + BLEN]]
  {
    var block := s[nb * BLEN..nb * BLEN + BLEN];
    assert s[..nb * BLEN + BLEN] == s[..nb * BLEN] + block;
    FullAppend(s[..nb * BLEN], block, nb);
    assert block[..BLEN] == block && block[BLEN..] == [];
  }

  /** The writes of a run of nb full blocks and fewer than BLEN more samples. */
  lemma BlocksEnd(s: seq<bv8>, nb: nat)
    requires nb * BLEN <= |s| < nb * BLEN + BLEN
    ensures Blocks(s) == Full(s[..nb * BLEN]) + [s[nb * BLEN..]]
  {
    assert s == s[..nb * BLEN] + s[nb * BLEN..];
    FullAppend(s[..nb * BLEN], s[nb * BLEN..], nb);
    assert |s| / BLEN == nb;
  }

  /** The output device; `written` holds the bytes of each `write`, in order. */
  class SoundOut {
    var written: seq<seq<bv8>>

    constructor ()
      ensures written == []
    {
      written := [];
    }

    /** `write(fd, buf, n)`. */
    method Write(buf: array<bv8>, n: int)
      requires 0 <= n <= buf.Length
      modifies this
      ensures written == old(written) + [buf[..n]]
    {
      written := written + [buf[..n]];
    }
  }

  /**
   * Storing sample v, the next sample of s, at cout[x] and writing the buffer
   * out when that fills it: the buffer handling `two_tones` and `silence`
   * share. Afterwards the buffer holds the samples of s after the nb' full
   * blocks written, and those blocks have been written.
   */
  method Put(sound: SoundOut, cout: array<bv8>, x: int, v: bv8,
             ghost s: seq<bv8>, ghost nb: nat, ghost w0: seq<seq<bv8>>) returns (x': int, ghost nb': nat)
    requires cout.Length == BLEN && 0 <= x < BLEN && nb * BLEN + x < |s| && s[nb * BLEN + x] == v
    requires forall k :: 0 <= k < x ==> cout[k] == s[nb * BLEN + k]
    requires sound.written == w0 + Full(s[..nb * BLEN])
    modifies sound, cout
    ensures 0 <= x' < BLEN && nb' * BLEN + x' == nb * BLEN + x + 1
    ensures forall k :: 0 <= k < x' ==> cout[k] == s[nb' * BLEN + k]
    ensures sound.written == w0 + Full(s[..nb' * BLEN])
  {
    cout[x] := v;
    x' := x + 1;
    nb' := nb;
    if x' == BLEN {
      assert cout[..BLEN] == s[nb * BLEN..nb * BLEN + BLEN];
      FullBlock(s, nb);
      sound.Write(cout, x');
      x', nb' := 0, nb + 1;
    }
  }

  /** Writing out the x samples left after nb full blocks completes the writes of s. */
  method WriteRest(sound: SoundOut, cout: array<bv8>, x: int, ghost s: seq<bv8>, ghost nb: nat, ghost w0: seq<seq<bv8>>)
    requires 0 <= x < BLEN == cout.Length && |s| == nb * BLEN + x
    requires forall k :: 0 <= k < x ==> cout[k] == s[nb * BLEN + k]
    requires sound.written == w0 + Full(s[..nb * BLEN])
    modifies sound
    ensures sound.written == w0 + Blocks(s)
  {
    assert cout[..x] == s[nb * BLEN..];
    BlocksEnd(s, nb);
    sound.Write(cout, x);
  }

  /**
   * `two_tones`: plays tone1 and tone2 (Hz) for length ms, filling a
   * BLEN-sample buffer in place and writing it whenever it is full, then
   * writing what is left. The phases start at 0 and wrap as `short`s.
   */
  method TwoTones(sound: SoundOut, tone1: int, tone2: int, length: int, wave: (int, int) -> bv8)
    requires 0 <= tone1 < TWO32 && 0 <= tone2 < TWO32 && 0 <= length < TWO32
    modifies sound
    ensures sound.written ==
      old(sound.written) + Blocks(ToneSamples(Advance(tone1), Advance(tone2), SampleCount(length), wave))
  {
    var cout := new bv8[BLEN];
    var ad1 := Advance(tone1);
    var ad2 := Advance(tone2);
    var l := SampleCount(length);
    var x := 0;
    ghost var s := ToneSamples(ad1, ad2, l, wave);
    var c1, c2, i := 0, 0, 0;
    ghost var nb := 0;  // blocks written so far
    while i < l
      invariant 0 <= i <= l
      invariant 0 <= x < BLEN && i == nb * BLEN + x
      invariant forall k :: 0 <= k < x ==> cout[k] == s[nb * BLEN + k]
      invariant sound.written == old(sound.written) + Full(s[..nb * BLEN])
      invariant c1 == Phase(ad1, i) && c2 == Phase(ad2, i)
    {
      assert s[i] == wave(c1, c2);
      x, nb := Put(sound, cout, x, wave(c1, c2), s, nb, old(sound.written));
      PhaseStep(ad1, i);
      PhaseStep(ad2, i);
      i, c1, c2 := i + 1, Wrap16(c1 + ad1), Wrap16(c2 + ad2);
    }
    WriteRest(sound, cout, x, s, nb, old(sound.written));
  }

  /** `silence`: length ms of the constant sample C0, written as `two_tones` does. */
  method Silence(sound: SoundOut, length: int)
    requires 0 <= length < TWO32
    modifies sound
    ensures sound.written == old(sound.written) + Blocks(SilenceSamples(SampleCount(length)))
  {
    var cout := new bv8[BLEN];
    var x := 0;
    var l := SampleCount(length);
    ghost var s := SilenceSamples(l);
    var i := 0;
    ghost var nb := 0;  // blocks written so far
    while i < l
      invariant 0 <= i <= l
      invariant 0 <= x < BLEN && i == nb * BLEN + x
      invariant forall k :: 0 <= k < x ==> cout[k] == s[nb * BLEN + k]
      invariant sound.written == old(sound.written) + Full(s[..nb * BLEN])
    {
      x, nb := Put(sound, cout, x, C0, s, nb, old(sound.written));
      i := i + 1;
    }
    WriteRest(sound, cout, x, s, nb, old(sound.written));
  }

  /** The samples `dtmf` plays for digit code d: its table pair for length ms. */
  function DigitSamples(d: int, length: int, wave: (int, int) -> bv8): (s: seq<bv8>)
    requires 0 <= d < 12
  {
    ToneSamples(Advance(ROW[d]), Advance(COL[d]), SampleCount(length % TWO32), wave)
  }

  /** `dtmf`: digit code d (0-9, 10 for '*', 11 for '#'); the int length is passed as unsigned. */
  method Dtmf(sound: SoundOut, d: int, length: int, wave: (int, int) -> bv8)
    requires 0 <= d < 12
    modifies sound
    ensures sound.written == old(sound.written) + Blocks(DigitSamples(d, length, wave))
  {
    TwoTones(sound, ROW[d], COL[d], length % TWO32, wave);
  }

  /** The character-to-code mapping of `dial`: the position in DIALABLE, or -1. */
  function DialCode(c: char): (x: int)
    ensures -1 <= x < |DIALABLE|
    ensures x >= 0 <==> c in DIALABLE
    ensures x >= 0 ==> DIALABLE[x] == c
  {
    if '0' <= c <= '9' then c as int - '0' as int
    else if c == '*' then 10
    else if c == '#' then 11
    else -1
  }

  /** The characters of a C string: everything before the first NUL. */
  function Dialled(number: string): (s: string)
    ensures '\0' !in s
    ensures |s| <= |number| && s == number[..|s|]
    ensures |s| == |number| || number[|s|] == '\0'
  {
    if number == [] || number[0] == '\0' then []
    else
      var t := Dialled(number[1..]);
      assert number[..|t| + 1] == [number[0]] + number[1..][..|t|];
      [number[0]] + t
  }

  /** The writes `dial` makes for one character: its tone if it has a code, then a pause. */
  function CharWrites(c: char, wave: (int, int) -> bv8): seq<seq<bv8>>
  {
    (if DialCode(c) >= 0 then Blocks(DigitSamples(DialCode(c), DIAL_MS, wave)) else []) +
    Blocks(SilenceSamples(SampleCount(DIAL_MS)))
  }

  /** The writes `dial` makes for the characters s, in order. */
  function DialWrites(s: string, wave: (int, int) -> bv8): seq<seq<bv8>>
  {
    if s == [] then [] else DialWrites(s[..|s| - 1], wave) + CharWrites(s[|s| - 1], wave)
  }

  /** `dial`: each character of the C string number as a 50 ms tone (if dialable) and a 50 ms pause. */
  method Dial(sound: SoundOut, number: string, wave: (int, int) -> bv8)
    modifies sound
    ensures sound.written == old(sound.written) + DialWrites(Dialled(number), wave)
  {
    ghost var w0 := sound.written;
    var i := 0;
    DialledGuard(number, i);
    while i < |number| && number[i] != '\0'
      invariant 0 <= i <= |Dialled(number)|
      invariant (i < |number| && number[i] != '\0') <==> i < |Dialled(number)|
      invariant sound.written == w0 + DialWrites(number[..i], wave)
    {
      DialChar(sound, number[i], wave);
      DialWritesStep(w0, number, i, wave);
      i := i + 1;
      DialledGuard(number, i);
    }
  }

  /** The body of `dial`'s loop: one character's tone, if it has a code, then its pause. */
  method DialChar(sound: SoundOut, c: char, wave: (int, int) -> bv8)
    modifies sound
    ensures sound.written == old(sound.written) + CharWrites(c, wave)
  {
    var x := DialCode(c);
    if x >= 0 {
      Dtmf(sound, x, DIAL_MS, wave);
    }
    Silence(sound, DIAL_MS);
  }

  /** Up to the end of the dialled prefix, the loop of `dial` goes on exactly while it has not reached it. */
  lemma DialledGuard(number: string, i: int)
    requires 0 <= i <= |Dialled(number)|
    ensures (i < |number| && number[i] != '\0') <==> i < |Dialled(number)|
    ensures i == |Dialled(number)| ==> number[..i] == Dialled(number)
  {
    var s := Dialled(number);
    if i < |s| {
      assert number[i] == s[i] && s[i] in s;
    }
  }

  /** One more character of `dial`'s loop appends its writes to those made so far. */
  lemma DialWritesStep(w0: seq<seq<bv8>>, number: string, i: int, wave: (int, int) -> bv8)
    requires 0 <= i < |number|
    ensures w0 + DialWrites(number[..i + 1], wave) == w0 + DialWrites(number[..i], wave) + CharWrites(number[i], wave)
  {
    assert number[..i + 1] == number[..i] + [number[i]];
    DialWritesSnoc(number[..i], number[i], wave);
  }

  /** Dialling one more character appends its writes. */
  lemma DialWritesSnoc(s: string, c: char, wave: (int, int) -> bv8)
    ensures DialWrites(s + [c], wave) == DialWrites(s, wave) + CharWrites(c, wave)
  {
    assert (s + [c])[..|s|] == s;
  }

  /** How many characters of s `dial` plays as tones. */
  function Dialable(s: string): (n: nat)
    ensures n <= |s|
  {
    if s == [] then 0 else Dialable(s[..|s| - 1]) + (if DialCode(s[|s| - 1]) >= 0 then 1 else 0)
  }

  /**
   * Dialling s emits 400 samples (50 ms) of pause for every character and
   * 400 samples of tone for every dialable one.
   */
  lemma {:induction false} DialLength(s: string, wave: (int, int) -> bv8)
    ensures |Flatten(DialWrites(s, wave))| == SampleCount(DIAL_MS) * (|s| + Dialable(s))
    ensures SampleCount(DIAL_MS) == 400
  {
    if s != [] {
      var c := s[|s| - 1];
      DialLength(s[..|s| - 1], wave);
      FlattenAppend(DialWrites(s[..|s| - 1], wave), CharWrites(c, wave));
      var pause := Blocks(SilenceSamples(SampleCount(DIAL_MS)));
      BlocksShape(SilenceSamples(SampleCount(DIAL_MS)));
      if DialCode(c) >= 0 {
        var tone := Blocks(DigitSamples(DialCode(c), DIAL_MS, wave));
        FlattenAppend(tone, pause);
        BlocksShape(DigitSamples(DialCode(c), DIAL_MS, wave));
      } else {
        assert CharWrites(c, wave) == pause;
      }
    }
  }

  /** The pause `dial` plays after every character is nothing but C0 samples. */
  lemma PauseIsSilent()
    ensures |Flatten(Blocks(SilenceSamples(SampleCount(DIAL_MS))))| == 400
    ensures forall k :: 0 <= k < 400 ==> Flatten(Blocks(SilenceSamples(SampleCount(DIAL_MS))))[k] == C0
  {
    BlocksShape(SilenceSamples(SampleCount(DIAL_MS)));
  }

  /**
   * `dtmf`'s tables against the Q.23 keypad: the digit on keypad row r,
   * column c gets the row's low frequency, and the column's high frequency
   * for every digit except 9, whose table entry is 1447 Hz, not 1477 Hz.
   */
  lemma DigitTablesFollowKeypad(d: int, r: int, c: int)
    requires 0 <= d < 12 && 0 <= r < 4 && 0 <= c < 4
    requires KEYPAD[r][c] == DIALABLE[d]
    ensures ROW[d] == Q23_LOW[r]
    ensures COL[d] == Q23_HIGH[c] <==> d != 9
  {
  }
}
