# DTMF / MF tone detector and DTMF dialler

This project models the discrete core of two small C programs.

`DTMFdetect.c` reads 8-bit audio in frames of 240 samples (30 ms at 8 kHz).
For each frame it estimates the power at 18 monitored frequencies. It
classifies the frame as one of 28 symbol codes, or as invalid:
- a touch-tone key (ITU-T Recommendation Q.23);
- an R1 multifrequency ("MF", blue-box) digit or KP/ST/C11/C12 (ITU-T Recommendation Q.320);
- 2400 Hz, 2600 Hz or both;
- dial tone, ring or busy;
- silence.

It then prints the symbol stream as text. A held tone is printed at most once.
A new symbol prints only after silence, a 2400/2600 Hz tone or a
call-progress tone, so a key that directly follows another key prints
nothing. After a tone, three seconds of silence print one line break.

`DTMFgen.c` dials a string. Each digit, `*` and `#` becomes 50 ms of the
frequency pair of `dtmf`'s tables, which is the Q.23 pair for every key but
9 (its column entry is 1447 Hz, not 1477 Hz). Every character is followed by
50 ms of silence. The samples pass through a 128-sample buffer that is written out whenever it
fills. The phases are two 16-bit accumulators.

The model is written in the source's own form:
- **Detector** (`Classifier`, `Framing`, `Formatter`, `Session`):
  - `decode` is `Classifier.Decode`: a method with the source's loops, proved equal to the specification function `Classifier.Classify`.
  - The static `MFmode` of `decode` is passed in and returned explicitly. The decoding loop starts it clear, as the static initialiser does.
  - `read_frame` is a method over a `ByteSource` object whose `Read` hands out chunks.
  - The `dtmf_to_ascii` loop is `Session.DtmfToAscii`. It is proved to print `Transcript`: classification (`Symbols`) followed by formatting (`Formatter.Run` of `Formatter.Step`).
- **Generator** (`Generator`):
  - `two_tones` and `silence` fill a `bv8` array in place. They write it through a `SoundOut` object whose `written` field records every `write`.
  - Each is proved to write exactly the blocks (`Blocks`) of a sample sequence given as a function (`ToneSamples`, `SilenceSamples`).
  - `dial` is proved to write `DialWrites` of the C string's characters.
- **Round trip** (`RoundTrip`): a digit's tones, after the generator's table lookup, land on the detector's bins for that key, and a frame with just those bins on decodes to the key ("3" decodes as MF 7 between KP and ST).

The sample value of `two_tones` is the function parameter `wave` of the two
phases; the sine approximation is not modelled. The detector takes its power
vector from the parameter `calcPower`. `Tones` holds the shared constants:
- the bin layout;
- the symbol codes;
- the display table `dtran`;
- `RANGE`, `THRESH` and `FLUSH_TIME`;
- the Q.23 matrix and the R1 code.

Points where the code does something easy to misread, and what the model does:
- **The 2400+2600 Hz pair** is found by the MF switch (DTMFdetect.c:376-394), which runs after the DTMF test (358-373). No DTMF pair uses those bins, so testing for it first would give the same result.
- **The two MF bins** `b1` and `b2` are the upper and lower set band positions (DTMFdetect.c:338-344), not the two strongest bins.
- **The silence counter** `silence_time` is declared without an initial value (DTMFdetect.c:428), so its starting value is a parameter (`silence0`). It is not assumed to be 0.
- **A failed read** (a negative return) ends the stream like end of file does, because `read_frame` tests `x <= 0` (DTMFdetect.c:411-412). It is not reported as an error.
- **DTMF 3 and MF 7** share bins R1/B1 and C3/B5. As the comment at DTMFdetect.c:271-278 says, MF 7 is reported only between KP and ST, DTMF 3 otherwise.

## Model

| member | source | states |
|---|---|---|
| Classifier.MaxBelow | DTMFdetect.c:290-292 | the scan's maximum bounds every power seen and is one of them (or the 0.0 it starts from) |
| Classifier.CountBelow | DTMFdetect.c:338-356 | the count of on flags is 0 exactly when none is on |
| Classifier.LastBelow | DTMFdetect.c:338-356 | the index the counting loops keep last is the highest set one, -1 when none is set |
| Classifier.SecondBelow | DTMFdetect.c:338-344 | `b2` is the set position just below `b1`, and exists whenever two are set |
| Classifier.CountOne | DTMFdetect.c:338-356 | the count is 1 exactly when the only set flag is the given one |
| Classifier.CountTwo | DTMFdetect.c:338-356 | the count is 2 exactly when the only set flags are the two given ones |
| Classifier.OneOn | DTMFdetect.c:345-356 | with one flag set, `rcount`/`ccount` is 1 and `row`/`col` is its index |
| Classifier.TwoOn | DTMFdetect.c:338-344 | with two flags set, `bcount` is 2, `b1` is the upper and `b2` the lower |
| Classifier.BinsDistinct | DTMFdetect.c:112-133 | band positions, rows and columns name distinct bins, rows never share with columns, and all lie above the call-progress bins |
| Classifier.SharedBins | DTMFdetect.c:117-133 | the band shares exactly two bins with the DTMF tables: B1 is R1 and B5 is C3 |
| Classifier.MaxPower | DTMFdetect.c:290-292 | defines `maxpower`: the max loop over the 18 powers from 0.0 |
| Classifier.IsOn | DTMFdetect.c:301-304 | defines `on[i]`: the power exceeds RANGE times `maxpower` |
| Classifier.OnVector | DTMFdetect.c:302-308 | defines the `on` array of the flag loop |
| Classifier.RowView | DTMFdetect.c:336 | defines `r`: the on flags of R1..R4 |
| Classifier.ColView | DTMFdetect.c:335 | defines `c`: the on flags of C1..C4 |
| Classifier.BandView | DTMFdetect.c:333-334 | defines `b`: the on flags of B1..B8 |
| Classifier.DtmfCode | DTMFdetect.c:358-373 | every row/column pair gets a DTMF code in 0..15 |
| Classifier.MfDecision | DTMFdetect.c:376-394 | the MF result is INVALID, 2400+2600 or a code up to ST; the bracket opens only on KP and closes only on ST |
| Classifier.PairTable | DTMFdetect.c:358-395 | for two bins on, the symbol is below silence and the bracket flag changes only on KP/ST |
| Classifier.ClassifyPair | DTMFdetect.c:325-396 | the same for the whole two-bins-on branch, call-progress pairs included |
| Classifier.Classify | DTMFdetect.c:279-401 | every frame gets a code in -1..27; `MFmode` is set only by KP and cleared only by ST |
| Classifier.Decode | DTMFdetect.c:279-401 | the source's max loop, on-flag loop and branches return exactly `Classify` of the powers and flag |
| Classifier.ScanMax | DTMFdetect.c:290-292 | the max loop ends with `maxpower` equal to `MaxPower` of the powers |
| Classifier.ScanOn | DTMFdetect.c:301-308 | the on-flag loop against RANGE times the peak fills `on` with `OnVector` of the powers and counts its set flags |
| Classifier.DecodePair | DTMFdetect.c:325-396 | the two-bins-on branch, with its view arrays and scans, returns `ClassifyPair` |
| Classifier.DecodeMf | DTMFdetect.c:376-394 | the MF switch returns `MfDecision` of `b1`, `b2` and the flag |
| Classifier.ScanBand | DTMFdetect.c:338-344 | the band loop's `bcount`, `b1`, `b2` are the count, last and second-last set positions |
| Classifier.ScanLine | DTMFdetect.c:345-356 | the row/column loop's count and index are the count and last set position |
| Classifier.LoudestIsOn | DTMFdetect.c:299-308 | above THRESH the loudest bin exceeds RANGE times the peak, so at least one bin is on |
| Classifier.SilenceIffQuiet | DTMFdetect.c:299-300 | the result is silence exactly when every bin is below THRESH (so the `on_count == 0` return at 398-399 is unreachable) |
| Classifier.SingleBin | DTMFdetect.c:317-323 | one bin on gives D24 for bin 16, D26 for bin 17, INVALID otherwise |
| Classifier.ThreeBins | DTMFdetect.c:325-400 | three or more bins on always give INVALID with the flag unchanged |
| Classifier.CallProgress | DTMFdetect.c:326-331 | bins X1+X2, X2+X3 and X3+X4 give dial tone, ring and busy |
| Classifier.OtherPairLines | DTMFdetect.c:335-358 | two bins on that are not one row with one column never give one row and one column to the line scans |
| Classifier.OtherPairBand | DTMFdetect.c:333-344 | two bins on that are not both band bins never give the band scan two |
| Classifier.OtherPairOn | DTMFdetect.c:325-396 | any other two bins on (no call-progress pair, no row with a column, not two band bins) fall through to INVALID with the flag unchanged |
| Classifier.OtherPairInvalid | DTMFdetect.c:325-396 | the same from a power vector: such a frame gives INVALID |
| Classifier.DtmfLines | DTMFdetect.c:335-356 | for a row and column pair, each line scan finds just its bin, and no call-progress bin is on |
| Classifier.SharedPairBand | DTMFdetect.c:333-344 | for R1 with C3, the band scan finds B1 and B5 |
| Classifier.DtmfPairOn | DTMFdetect.c:325-373 | one row and one column on give their DTMF code, except R1+C3 inside a bracket, which gives MF 7 |
| Classifier.DtmfPair | DTMFdetect.c:358-373 | the same from a power vector, and the code is in 0..15 |
| Classifier.MfBracketResolvesCollision | DTMFdetect.c:368-389 | R1+C3 decodes as DTMF 3 outside a KP...ST bracket and as MF 7 inside it |
| Classifier.MfBand | DTMFdetect.c:333-344 | for two band bins on, the band scan finds both, upper last |
| Classifier.MfLines | DTMFdetect.c:335-358 | for two band bins, one row and one column are found exactly for B1 with B5 |
| Classifier.MfPairOn | DTMFdetect.c:325-394 | two band bins on (other than R1+C3 outside a bracket) give the MF decision |
| Classifier.MfPair | DTMFdetect.c:376-394 | the same from a power vector |
| Classifier.DtmfFollowsKeypad | DTMFdetect.c:181-186 | the display text of each DTMF code is the key label at that Q.23 row and column |
| Classifier.MfFollowsR1 | DTMFdetect.c:376-394 | for band frequencies 700..1700 Hz the MF code is the R1 plan's symbol; with 2400/2600 only the pair of both is a symbol |
| Framing.ByteSource.Read | DTMFdetect.c:410 | a read copies at most n of the next bytes, returns 0 only at end of data or for n == 0, and consumes what it returns |
| Framing.ReadFrame | DTMFdetect.c:403-416 | succeeds exactly when N bytes remain and then holds the next N; otherwise it consumes the rest and fails |
| Framing.Frames | DTMFdetect.c:403-416 | defines the frames `read_frame` hands the loop: consecutive N-byte slices, the short tail dropped |
| Framing.FramesOfStream | DTMFdetect.c:430 | a stream of L bytes gives L / N frames, frame k being bytes kN up to (k+1)N |
| Formatter.Resumes | DTMFdetect.c:450-453 | defines the symbols after which a new key prints: silence, 2400, 2600, both, dial tone, busy and ring |
| Formatter.Step | DTMFdetect.c:440-460 | defines one pass of the loop body: INVALID changes nothing; silence counts (or stays stopped) and prints a line break on reaching FLUSH_TIME; a symbol other than silence and other than `last` prints its token when `last` is one of `Resumes`; `last` becomes the symbol |
| Formatter.Run | DTMFdetect.c:430-461 | defines the loop over a symbol stream: Step applied in order, the texts concatenated |
| Formatter.RunSnoc | DTMFdetect.c:430-461 | formatting one more symbol is one more step of the loop body |
| Formatter.RunAppend | DTMFdetect.c:430-461 | formatting two streams in turn is formatting their concatenation |
| Formatter.InvalidFramesIgnored | DTMFdetect.c:440 | INVALID frames print nothing and change neither `last` nor `silence_time`, wherever they occur |
| Formatter.HeldTone | DTMFdetect.c:450-459 | a tone held for any number of frames prints its token at most once, at its first frame |
| Formatter.SilenceWithoutFlush | DTMFdetect.c:441-448 | silence while counting is stopped (-1) prints nothing and leaves the counter at -1 |
| Formatter.SilenceRun | DTMFdetect.c:441-448 | a silence run counted from t < FLUSH_TIME prints one line break exactly when it reaches FLUSH_TIME, then stops counting |
| Formatter.OneBurst | DTMFdetect.c:440-459 | a new key held, then silence shorter than FLUSH_TIME, prints the key's token once |
| Formatter.KeysBetweenGaps | DTMFdetect.c:440-459 | keys separated by short silences print one token each, in order, repeated keys included |
| Session.Symbols | DTMFdetect.c:287-431 | one symbol per frame, each a classifier code |
| Session.Transcript | DTMFdetect.c:422-463 | defines the output of `dtmf_to_ascii`: the formatted text of the frames' symbols, then one line break |
| Session.SymbolsSnoc | DTMFdetect.c:430-431 | one more frame appends its classification under the flag left by the frames before |
| Session.AfterFrame | DTMFdetect.c:430-460 | the loop body's classification and formatting keep the loop's state equal to the specification's after one more frame |
| Session.NextFrame | DTMFdetect.c:430 | reading the next whole frame keeps frames read plus frames left equal to all frames |
| Session.DtmfToAscii | DTMFdetect.c:422-463 | prints exactly `Transcript` of the delivered bytes, ending in one line break, and consumes all input |
| Session.FormatSymbol | DTMFdetect.c:440-460 | the loop body's formatting code gives `Formatter.Step`'s new state and text |
| Session.TranscriptCoversWholeFrames | DTMFdetect.c:403-430 | an L-byte input yields L / N symbols; the short tail is dropped |
| Generator.Wrap16 | DTMFgen.c:70-80 | conversion to `short` gives a value in -2^15..2^15-1 congruent to its input modulo 2^16 |
| Generator.Wrap16Congruent | DTMFgen.c:70-80 | congruent values become the same `short` |
| Generator.Wrap16Add | DTMFgen.c:80 | adding to a wrapped accumulator wraps like adding to the unwrapped sum |
| Generator.SampleCount | DTMFgen.c:75 | the sample count is below 2^32/1000 + 1, and 8 per ms when the unsigned product does not wrap |
| Generator.Advance | DTMFgen.c:73-74 | the phase step is tone/FSAMPLE of a turn of 2^16, rounded down, for tones below 2^16 Hz |
| Generator.Phase | DTMFgen.c:78-80 | the accumulator always holds a `short` |
| Generator.PhaseStep | DTMFgen.c:80 | each sample advances the accumulator by ad and wraps |
| Generator.PhaseIsWrappedProduct | DTMFgen.c:78-80 | after i samples the accumulator is i * ad wrapped to 16 bits |
| Generator.ToneSamples | DTMFgen.c:78-82 | l samples, one per loop pass |
| Generator.SilenceSamples | DTMFgen.c:101-107 | l samples |
| Generator.Full | DTMFgen.c:82-87 | defines the writes made each time the buffer fills: the 128-sample blocks of the run |
| Generator.Blocks | DTMFgen.c:82-90 | defines all writes of a run: its full blocks, then the final write of the rest (possibly empty) |
| Generator.FlattenAppend | DTMFgen.c:85-90 | the bytes of two series of writes are the bytes of each in turn |
| Generator.FullShape | DTMFgen.c:83-87 | the full-buffer writes are |s| / 128 writes of 128 samples that together are s's front part |
| Generator.BlocksShape | DTMFgen.c:82-90 | every write but the last holds 128 samples, the last holds the remaining |s| mod 128, and together they are s in order |
| Generator.FullAppend | DTMFgen.c:83-87 | full blocks of a run starting on a block boundary split at that boundary |
| Generator.FullBlock | DTMFgen.c:83-87 | completing block nb adds it to the full blocks before it |
| Generator.BlocksEnd | DTMFgen.c:90 | nb full blocks and a shorter rest are the writes of the run |
| Generator.SoundOut.Write | DTMFgen.c:85 | `write` appends the buffer's first n samples to the writes |
| Generator.Put | DTMFgen.c:82-87 | storing the next sample keeps the buffer index below 128 and the buffer holding the unwritten samples, writing a full buffer out |
| Generator.WriteRest | DTMFgen.c:90 | the final write completes the writes of the run |
| Generator.TwoTones | DTMFgen.c:64-92 | `two_tones` writes exactly the blocks of the SampleCount(length) samples of the two wrapped phase sequences |
| Generator.Silence | DTMFgen.c:98-114 | `silence` writes exactly the blocks of SampleCount(length) samples of c0 |
| Generator.Dtmf | DTMFgen.c:121-131 | `dtmf` plays the table pair of digit d, its int length passed as unsigned |
| Generator.DigitSamples | DTMFgen.c:121-131 | defines `dtmf`'s samples: the tone samples of the `row`/`col` table pair of the digit |
| Generator.DialCode | DTMFgen.c:145-152 | a character has a code exactly when it is a digit, `*` or `#`, and the code is its position in "0123456789*#" |
| Generator.Dialled | DTMFgen.c:144 | the dialled characters are the prefix of the string up to its first NUL (or all of it when there is none), and contain no NUL |
| Generator.Dial | DTMFgen.c:138-161 | `dial` writes exactly `DialWrites` of the dialled characters |
| Generator.DialChar | DTMFgen.c:145-158 | one character writes its tone when it has a code, then a pause |
| Generator.DialledGuard | DTMFgen.c:144 | the loop test `number[i]` holds exactly while i is inside the dialled prefix, and the prefix read so far is all of it when i reaches its end |
| Generator.DialWritesStep | DTMFgen.c:144-158 | one more pass of the loop appends that character's writes to the writes so far |
| Generator.CharWrites | DTMFgen.c:145-158 | defines one character's writes: its tone's blocks when it has a code, then the pause's blocks |
| Generator.DialWrites | DTMFgen.c:144-159 | defines the writes of a character string: each character's writes in order |
| Generator.DialWritesSnoc | DTMFgen.c:144-158 | dialling one more character appends its writes |
| Generator.Dialable | DTMFgen.c:153 | at most every character is played as a tone |
| Generator.DialLength | DTMFgen.c:138-161 | dialling s writes 400 samples of pause per character and 400 of tone per dialable one |
| Generator.PauseIsSilent | DTMFgen.c:101-107 | the 50 ms pause is 400 samples, each c0 |
| Generator.DigitTablesFollowKeypad | DTMFgen.c:124-128 | each digit's row frequency is its Q.23 row; its column frequency is the Q.23 column exactly for digits other than 9 |
| RoundTrip.NearestIs | DTMFdetect.c:100-101 | a bin closer to f than each other bin is the only nearest bin |
| RoundTrip.KeyOf | DTMFgen.c:124-128 | each digit code has a Q.23 key with its label, whose DTMF code is the digit; only "3" sits at row 0, column 2 |
| RoundTrip.RowFrequencyBins | DTMFdetect.c:117-120 | 697, 770, 852 and 941 Hz are nearest to R1..R4 |
| RoundTrip.ColumnFrequencyBins | DTMFdetect.c:121-123 | 1209, 1336 and 1477 Hz are nearest to C1..C3, and so is 1447 Hz to C3 |
| RoundTrip.DigitBins | DTMFgen.c:124-128 | the table pair of each digit lands on the bins of its key's row and column |
| RoundTrip.GeneratedDigitDecodes | DTMFgen.c:121-131 | a frame with just a dialled digit's bins on decodes to that digit and prints its character (MF 7 for "3" inside a bracket) |

## Left out

- Power estimation: `calc_power` (the Goertzel filter) and the float coefficient table are floating point. The decoding loop is given the power of a frame as the function `calcPower`; `decode` takes a vector of `real` powers.
- Sample synthesis: `mysine` and `FLOAT_TO_SAMPLE` are floating point. The sample value is the function parameter `wave` of the two phases. `silence`'s `c0` is the unsigned build's `FLOAT_TO_SAMPLE(0.0)` = 127; the `SIGNED` build's 0 is not modelled.
- Debug `printf`s, `fflush`, `NOFLUSH`, both `main` functions, device and file opening, and the `#if 0` copy of the generator in DTMFdetect.c: plumbing with no logical effect on what is decoded or written.
- MakeWav.c is not part of this model: it is a one-shot header dump whose bytes depend on compiler layout.
- Framing.ByteSource.Read: does not model error returns (-1). A read that returns nothing ends the data, which `read_frame` treats the same way as an error.
- Session.DtmfToAscii: `silence_time` is a C `int` and the model's counter is unbounded. An initial value at or above FLUSH_TIME keeps counting on silence and would overflow in C after about 2^31 frames; that wrap-around is not modelled.
- Loop bodies as methods: the classification and the formatting in `dtmf_to_ascii`'s loop are `Classifier.Decode` and `Session.FormatSymbol`. The two loops at the head of `decode` are `Classifier.ScanMax` and `Classifier.ScanOn`. The buffer step of `two_tones`/`silence` is `Generator.Put`, and the body of `dial`'s loop is `Generator.DialChar`. Each is the source's code for that step, called from the loop that holds it in the source.
- Classifier.Decode: the view arrays `r`, `c`, `b` are sequences, and the scans of `b1`, `b2`, `row`, `col` are `Classifier.ScanBand`/`ScanLine`. The C variables that are read only after a count proves them set start at -1.
- RoundTrip.GeneratedDigitDecodes: "a tone lands on a bin" means the bin whose centre frequency is strictly nearest. How much power leaks into neighbouring bins is not modelled, so the lemma assumes the on flags rather than deriving them from samples.
