# pyMS chart parser and renderer, modelled in Dafny

pyMS turns a BMS chart into one audio file. A BMS chart is a line-oriented
text format for rhythm games. The pipeline in `parse.py` has these stages:

- **Control-flow reducer** (`parse_control_flow`). It resolves the
  `#RANDOM n` / `#IF v` / `#ENDIF` blocks into one line sequence.
- **Header extractor** (`BMSHeader`). It matches `#COMMAND value` lines and
  fills the named header fields and the 1296-entry table of indexed tempos
  (`#BPMxx`).
- **Measure decoder** (`BMSRawMeasure`, `BMSChannels`). Each line
  `#mmmcc:content` edits channel `cc` of measure `mmm`. Consecutive lines of
  one measure number share a record.
- **Timeline** (`BMSOnsetChart.__init__`). Each measure gets a
  piecewise-constant tempo schedule. Its slots sit at evenly spaced beats and
  are turned into seconds through that schedule. Background slots are mixed
  additively into a growing two-channel buffer. Lane slots become notes
  (`BMSNotes`).
- **Renderer** (`gen_audio`). It mixes the notes onto a copy of the
  background buffer.

There is one Dafny module per stage: `ControlFlow`, `Header`, `Measures`,
`Chart`, and `Mixing` for the buffer. `Text` holds the shared character,
digit and field helpers.

The model keeps the source's form:

- **Loops are methods.** Each loop becomes a `method` with a loop and
  invariants, proved equal to a reference function. The pairs are
  `ReduceLines`/`Reduce`, `ExtractHeader`/`HeaderOf`,
  `BuildMeasures`/`Group`, `BuildChart`/`ChartOf`, `FillTimes`/`Times` and
  `GenAudio`/`Rendered`.
- **The properties are lemmas.** What the source promises is proved as
  lemmas about those reference functions.
- **Objects updated in place are classes.** `Measures.RawMeasure` and
  `Mixing.AudioBuffer` are classes. The buffer holds its frames in an
  `array`. It grows by reallocation and is added into in place.
- **Inputs that cannot be modelled become parameters:**
  - `random.randint` is a draw function (the value of the k-th random
    directive).
  - Python's `float()` is a partial function `string -> Option<real>`.
  - The decoded sound files are a table of 1296 clips.
  - The sample rate is a number.

Where the specification and the code disagree, the model follows the code:

- Header commands are compared case-sensitively. The pattern's
  `re.IGNORECASE` does not reach the `==` tests.
- A `#BPMxx` command is any command that starts with `BPM` other than `BPM`
  itself. Its index is the command's last two characters in base 36.
- Measure records follow runs, not distinct numbers. The grouper opens a new record at every event line whose measure number differs from the current record's, after a leading record for measure 0. A number that comes back after another one gets a second record, and a chart without measure 000 still has the empty measure-0 record (`Measures.RecordNumbers`, `Measures.RecordsAreRuns`).
- Sample offsets truncate (`int(t * fs)`) and do not round.
- An odd-length channel content ends in a one-character token.
- An unknown channel number is ignored.
- An event's beat is looked up with a strict comparison. The model proves
  that this gives the same time as "the latest point at or before the beat"
  (`Chart.ChangePointTime`).

Four places where the code does not do what it evidently means are listed
under "## Findings". Each is modelled both as written and as corrected. The
pipeline (`ChartOf`, `BuildChart`) uses the corrected forms.

## Model

| member | source | states |
|---|---|---|
| ControlFlow.ReduceLines | parse.py:20-46 | the in-place loop returns exactly what the one-pass reducer `Reduce` yields: the surviving lines in order, or the error a directive raises |
| ControlFlow.DrawLine | parse.py:25-30 | a random directive draws the next value and resets the block flags; the draw fails unless the operand reads as a number n >= 1 |
| ControlFlow.TrackLine | parse.py:31-45 | under an active random value, `#IF` opens a block whose liveness is the operand comparison, `#ENDIF` closes it, both directive lines go, and other lines go only inside a block that is not live |
| ControlFlow.RunAppend | parse.py:22-45 | reducing `a + b` is reducing `a`, then reducing `b` from the flags `a` left, with the kept lines concatenated |
| ControlFlow.OutputIsSubsequence | parse.py:22-45 | the reducer only removes lines: its output is a subsequence of its input |
| ControlFlow.NothingRemovedBeforeRandom | parse.py:21-31 | with no random value active and no random directive among the lines, every line survives and no flag changes |
| ControlFlow.PrefixBeforeRandomKept | parse.py:21-31 | the lines before the first random directive come through untouched, in front of whatever the rest reduces to |
| ControlFlow.DirectivesRemoved | parse.py:25-42 | no random directive survives; once a value is active no `#IF` or `#ENDIF` survives either and the value stays active |
| ControlFlow.PlainLines | parse.py:43-45 | lines that are not directives are all kept, or all dropped exactly when a non-matching block is open, and the flags do not change |
| ControlFlow.Block | parse.py:32-42 | a whole `#IF v ... #ENDIF` block yields its body exactly when `v` selects the drawn value, never its directive lines, and leaves no block open |
| ControlFlow.DirectiveFields | parse.py:23-24 | for a line `cmd arg` with its newline, the first field is `cmd`, and the last field is `arg` once the newline is trimmed and `arg` plus the newline otherwise |
| ControlFlow.WordFields | parse.py:23 | the first field of a one-word line keeps the newline unless it is trimmed |
| ControlFlow.AsWrittenNoDirective | parse.py:25 | as written, no line of a `#RANDOM` chart is recognised as a random directive |
| ControlFlow.AsWrittenKeepsEverything | parse.py:25-34 | as written, a `#RANDOM 3` chart with two `#IF` blocks comes through unchanged, directives and both branches included |
| ControlFlow.IntendedDrawsTwo | parse.py:25-30 | with the intended keyword, the random line activates the forced draw 2 and is removed |
| ControlFlow.IntendedIfOperands | parse.py:34-37 | with numeric operands, `#IF 1` does not match the draw 2 and `#IF 2` does |
| ControlFlow.TwoBlocks | parse.py:22-45 | a random line followed by two `#IF` blocks reduces to exactly the bodies of the blocks that match the draw |
| ControlFlow.IntendedSelectsBranch | parse.py:20-46 | with the draw forced to 2, only the line of the `#IF 2` branch survives |
| ControlFlow.UntrimmedEndIfLeavesBlockOpen | parse.py:23-39 | as written, a `#ENDIF` line read with its newline is not `#ENDIF`: it is not removed as a directive and does not close the block, and is dropped only as part of a block that is not live; `#IF 2`'s operand is `2` plus the newline, which as a string never equals the draw |
| ControlFlow.TrimmedEndIfClosesBlock | parse.py:23-42 | with the newline trimmed, a `#ENDIF` line closes the block and is removed |
| ControlFlow.DrawInRange | parse.py:25-28 | a random directive whose draw keeps `randint`'s promise activates a value in `[1, n]` |
| ControlFlow.BranchBeyondRangeDropped | parse.py:25-45 | after `#RANDOM n`, an `#IF v` block with `v` outside `[1, n]` is never live: the random line and the whole block are dropped |
| Header.FindKey | parse.py:62-85 | the field found has the command as its name and comes from the tested list; none is found only when no field's name equals the command |
| Header.KeyOfName | parse.py:62-85 | every field is selected by its own name: the names in the `elif` chain are distinct |
| Header.TempoCommandIsNoKey | parse.py:84-86 | a command starting with `BPM` other than `BPM` names no field, so it reaches the indexed-tempo branch |
| Header.HeaderMatch | parse.py:51-61 | a match gives a non-empty command of word characters, and a value, when present, that is non-empty, starts with a non-space and has no newline |
| Header.HeaderLineRoundTrip | parse.py:51-61 | the line `#command value` plus newline matches back to that same command and value |
| Header.BareCommand | parse.py:51-61 | the line `#command` plus newline matches with no value |
| Header.NoTempos | parse.py:55 | the tempo table starts with 1296 entries, none written |
| Header.ExtractHeader | parse.py:49-88 | the loop that sets fields and writes the tempo table in place returns exactly `HeaderOf`: the header after every line in order, or the first tempo line's error |
| Header.HeaderFromAppend | parse.py:57-88 | processing `a + b` is processing `a`, then `b` from the header `a` produced, stopping at the first error |
| Header.NamedFieldSet | parse.py:62-85 | a line whose command names a field sets that field to the line's value and changes nothing else |
| Header.ExactTempo | parse.py:84-85 | an exact `#BPM v` line sets the base tempo field and leaves the table and its switch alone |
| Header.IndexedTempoStores | parse.py:86-88 | a `#BPMxy v` line with a readable value writes that tempo at slot 36x + y, always below 1296, turns the table on, and changes nothing else |
| Header.IndexedEntrySet | parse.py:86-88 | a `#BPMxx` line with a readable value and index writes exactly that entry and sets the switch |
| Header.IndexedTempoNeedsValue | parse.py:86-87 | a `#BPMxx` line with no value, or one `float` rejects, is an error naming the line |
| Header.NonMatchingIgnored | parse.py:58-59 | a line the pattern does not match leaves the header as it was |
| Header.NonMatchingLineRemovable | parse.py:57-59 | removing a non-matching line from anywhere in the input leaves the result the same |
| Header.LastFieldWins | parse.py:62-85 | after a line sets a named field, the header no longer depends on what that field held before |
| Header.LastTempoWins | parse.py:86-88 | of two `#BPMxx` lines writing the same slot, the second one decides the header |
| Header.ApplyLineAgrees | parse.py:57-88 | on two headers that differ at most in one tempo slot and the table switch, a line fails alike on both or succeeds on both keeping them so, and makes them equal when it writes that slot |
| Header.LaterTempoWriteWins | parse.py:57-88 | once a later `#BPMxx` line writes the slot, such headers give the same result, errors included |
| Header.EarlierTempoWriteIrrelevant | parse.py:86-88 | of two `#BPMxx` lines writing the same slot anywhere in the input, dropping the earlier one leaves the header the same |
| Header.PlayLevelNeverSet | parse.py:70-71 | the play-level field is never set: its name contains a space, which a matched command never does |
| Header.TempoLineExample | parse.py:86-88 | `#BPM0A 150` on the empty header puts 150 in slot 10 and turns the table on |
| Measures.Fresh | parse.py:116-124 | a new record has its number, 4 beats, no tempo channel, no background or image tracks and eight empty lanes |
| Measures.LaneOf | parse.py:139-162 | exactly channels 11-16, 18 and 19 feed a lane, each below 8 |
| Measures.Edit | parse.py:126-163 | an edit fails exactly when a slot channel's content is not base-36 pairs or channel 2's number is unreadable, and never changes the measure number |
| Measures.EditBackground | parse.py:127-129 | channel 1 appends one track, the decoded content, keeping the earlier tracks and every other field |
| Measures.EditBeats | parse.py:130-131 | channel 2 sets the length to four times the number and nothing else |
| Measures.EditTempoChannel | parse.py:132-135 | channel 3 turns the tempo channel on with the content's two-character tokens, which put back together are the content, ceil(n/2) of them |
| Measures.EditLane | parse.py:139-162 | a note channel replaces exactly its own lane with the decoded content and leaves the other lanes and fields alone |
| Measures.EditOther | parse.py:126-163 | any other channel leaves the measure unchanged |
| Measures.RawMeasure.constructor | parse.py:117-124 | the new object holds the fresh record of its measure number |
| Measures.RawMeasure.EditChannel | parse.py:126-163 | the object becomes the edited record, or stays as it was and reports the error when the content cannot be read |
| Measures.EventMatch | parse.py:168-171 | a matched event line gives a measure number below 1000, a two-character channel of non-spaces and a content of non-spaces |
| Measures.ParseChannel | parse.py:178 | a readable channel is a number from -9 to 99 |
| Measures.BuildMeasures | parse.py:166-184 | the grouping loop, swapping measure objects, returns exactly `Group`: the records in order with the last one flushed, or the first error |
| Measures.NoEventsOneRecord | parse.py:172-184 | with no event line the result is the single fresh record of measure 0 |
| Measures.RecordNumbers | parse.py:174-184 | the records' numbers are the event lines' measure numbers with every run of equal numbers collapsed to one, after a leading 0 |
| Measures.RecordsAreRuns | parse.py:179-184 | the first record is measure 0 and neighbouring records never share a measure number |
| Measures.Runs | parse.py:172-183 | the lines cut into runs, the first of measure 0, a new run starting at each event line of another number |
| Measures.RunsCover | parse.py:172-183 | the runs' lines put back together are the input lines |
| Measures.RunsNumbered | parse.py:174-180 | every event line of a run carries the run's measure number |
| Measures.RecordsOfEach | parse.py:178-183 | the runs give records exactly when every run's lines apply to a fresh record of its number, and record k is run k's |
| Measures.GroupRecords | parse.py:166-184 | the grouper's result is the records of the runs of the input, each a fresh record of its number edited by its event lines in order, or the first error |
| Measures.GroupEach | parse.py:172-184 | grouping succeeds exactly when every run applies; then record k holds run k's edits, and the record flushed after the loop is the last run's |
| Text.DigitValue | parse.py:128 | a character has a base-36 value exactly when it is an ASCII digit or letter, and that value is below 36 |
| Text.ParseDigits | parse.py:128 | a string reads as a number in a base exactly when it is non-empty and all its characters are digits of that base, and the number is below base^length |
| Text.ParseTwoDigits | parse.py:87 | two digits read as base times the first plus the second |
| Text.Chunks | parse.py:133 | ceil(n/2) tokens, the k-th being `s[2k .. 2k + 2)` cut at the end |
| Text.ChunksConcat | parse.py:133 | chunking loses nothing: the tokens put back together give the content |
| Text.DecodeTokens | parse.py:128 | a token list decodes exactly when every token is base-36, to one slot per token, in order |
| Text.DecodeSlotsSpec | parse.py:128 | content of length n decodes exactly when every two-character piece is base-36, to ceil(n/2) slots, the k-th the value of piece k |
| Text.FirstField | parse.py:23 | the first field has no space and ends at the first space or the end of the line |
| Text.FirstFieldPrefix | parse.py:23 | the first field is a prefix of the line |
| Text.FirstFieldOf | parse.py:23 | a word followed by a space or the end is the first field |
| Text.LastField | parse.py:24 | the last field has no space and starts after the last space or at the start of the line |
| Text.LastFieldSuffix | parse.py:24 | the last field is a suffix of the line |
| Text.LastFieldOf | parse.py:24 | a word after a space or at the start is the last field |
| Text.WordRun | parse.py:52 | the longest prefix of word characters |
| Text.SpaceRun | parse.py:52 | the longest prefix of whitespace characters |
| Mixing.Offset | parse.py:222 | the sample index whose span contains the time: `off <= t * fs < off + 1` |
| Mixing.Overlay | parse.py:225-229 | the mixed buffer is as long as the buffer or the clip's end, whichever is more; inside the clip's window a sample is the old one plus the clip's, elsewhere the old one or silence |
| Mixing.Padded | parse.py:226-228 | padding keeps every sample and adds silence up to the requested length |
| Mixing.OverlayPadded | parse.py:225-229 | growing the buffer with zeros first does not change what the addition produces |
| Mixing.OverlayKeepsPrefix | parse.py:229 | the samples before the clip's start are untouched |
| Mixing.OverlayEmptyClip | parse.py:225-229 | an empty clip (an undeclared slot) adds nothing; the buffer is only padded to the offset |
| Mixing.OverlayCommutes | parse.py:229 | the order in which two clips are mixed does not matter |
| Mixing.AudioBuffer.constructor | parse.py:189 | the new buffer holds a copy of the given samples in a fresh array |
| Mixing.AudioBuffer.Mix | parse.py:225-229 | after the grow-then-add step, the buffer's samples are the overlay of the clip at the offset on the old samples |
| Mixing.AudioBuffer.Grow | parse.py:226-228 | the buffer is reallocated, keeping its samples and padding with silence to the new length |
| Mixing.AudioBuffer.AddAt | parse.py:229 | the in-place addition of the clip in a buffer long enough for it equals the overlay |
| Chart.NoNotes | parse.py:193 | eight lanes, all empty |
| Chart.InitialTempo | parse.py:191 | the starting tempo exists exactly when the `#BPM` field was set with a value `float` reads, and is that value |
| Chart.TokenTempo | parse.py:204-207 | with indexed tempos a token's tempo is the table entry its base-36 value names, failing exactly when it is unreadable or unset; otherwise it is the token read in hexadecimal |
| Chart.ResolveFrom | parse.py:201-208 | a resolved channel has one tempo per token after the earlier ones, and leaves the last token's tempo as the current one |
| Chart.ResolvedEntries | parse.py:202-208 | each resolved tempo is its token's own tempo, or, for a zero token when zeros are skipped, the tempo before it |
| Chart.ResolveTempos | parse.py:202-208 | the token loop returns exactly `ResolveFrom` from the first token |
| Chart.CorrectedZeroTokenKeepsTempo | parse.py:202-208 | when zeros are skipped, a zero token's tempo is the tempo of the token before it |
| Chart.ZeroTokenValue | parse.py:203-207 | a token of zeros reads as 0 in every base |
| Chart.BeatBounds | parse.py:215 | a slot's beat lies in `[0, beats]`, and below `beats` when the measure has length |
| Chart.BeatMonotone | parse.py:215 | later slots sit at later or equal beats |
| Chart.Points | parse.py:200 | N change points with the first at beat 0 |
| Chart.PointsSorted | parse.py:200 | the change points are sorted and none lies past the measure's length |
| Chart.Times | parse.py:209-212 | each change point's time is the previous one's plus the beats between them at the previous tempo, with the known times kept |
| Chart.TimesRecurrence | parse.py:209-212 | point 0 is at the measure's start and every later point follows the recurrence of `onset_beat_list` |
| Chart.TimesNonnegative | parse.py:209-212 | with sorted points and positive tempos no change point has a negative time |
| Chart.TempoPlan | parse.py:196-208 | the plan has at least one point at beat 0, one tempo per point, sorted points within the measure, and with a tempo channel N evenly spaced points for N tokens |
| Chart.ScheduleOf | parse.py:194-213 | a measure's schedule, when it exists, is well formed, has the measure's length and starts at the measure's start time |
| Chart.FromPlan | parse.py:209-213 | a schedule is built exactly when the length is not negative and every tempo is positive |
| Chart.Assemble | parse.py:209-213 | the assembled schedule is well formed, keeps the points and tempos, and its times follow the recurrence from the start |
| Chart.AssembledTimes | parse.py:209-213 | point times follow the recurrence, and the measure ends at the last point's time plus the remaining beats at the last tempo |
| Chart.ConstantTempoSchedule | parse.py:196-213 | without a tempo channel the schedule is one segment at the current tempo and the measure lasts `beats * 60 / bpm` seconds |
| Chart.VaryingTempoSchedule | parse.py:199-213 | with N tokens, point i is at beat `i * beats / N`, its time follows the recurrence, and the end extrapolates from the last point at the last tempo |
| Chart.SegmentBelow | parse.py:217-219 | the segment found is the last point strictly before the beat, or the first point |
| Chart.Segment | parse.py:217-219 | the segment index is a valid point |
| Chart.SegmentMonotone | parse.py:217-219 | a later beat never falls in an earlier segment |
| Chart.ConstantTempoTime | parse.py:220-221 | in a measure without tempo channel a beat sounds at `start + beat * 60 / bpm` |
| Chart.ChangePointTime | parse.py:218 | the time at a change point is the point's own time, so the strict comparison loses nothing |
| Chart.Advance | parse.py:217-219 | the cursor loop ends at the segment of the beat from any cursor not already past it |
| Chart.FillTimes | parse.py:209-212 | filling `onset_beat_list` in place gives exactly `Times` from the start time |
| Chart.PlanTempos | parse.py:196-208 | the change-point and tempo lists are exactly `TempoPlan` with zero tokens skipped |
| Chart.ComputeSchedule | parse.py:196-213 | the schedule loop gives exactly `ScheduleOf`, including its errors |
| Chart.MeasureStep | parse.py:194-239 | a measure is processed exactly when its schedule exists, and the next measure starts where this one's schedule ends |
| Chart.MixTrackInto | parse.py:214-229 | mixing one background track into the buffer in place gives exactly `MixSlots` on the old samples |
| Chart.MixTracksInto | parse.py:214-229 | mixing a measure's tracks in order gives exactly `MixTracks` on the old samples |
| Chart.LaneInto | parse.py:230-239 | the notes of one lane loop are exactly `LaneNotes` |
| Chart.LanesInto | parse.py:230-239 | the eight lanes of a measure loop are exactly `LanesFrom` |
| Chart.BuildChart | parse.py:187-239 | the measure loop over one shared buffer returns exactly `ChartOf`: the background mix and the lanes, or the first error |
| Chart.GenAudio | parse.py:241-251 | rendering into a copy of the buffer gives exactly `Rendered`: the notes, lane by lane, mixed onto the background |
| Chart.ConstantTempoNextStart | parse.py:213 | a measure without a tempo channel moves the next start `beats * 60 / bpm` later and keeps the tempo |
| Chart.FourBeatsAt120 | parse.py:213 | four beats at 120 beats per minute last two seconds |
| Chart.ZeroSlotsMixNothing | parse.py:223 | a track of zero slots leaves the buffer exactly as it was |
| Chart.LaneNotesShape | parse.py:238-239 | a lane keeps its earlier notes and gains one note per non-zero slot, none of them naming slot 0 |
| Chart.LaneNoteOfSlot | parse.py:238-239 | the first note a non-zero slot adds is at that slot's time and names that slot's clip |
| Chart.LanesRouted | parse.py:230-239 | lane l gains notes only from note channel l of the measure |
| Chart.MixNotesCovers | parse.py:243-251 | mixing notes never shortens the buffer and makes it long enough for each note's clip at its offset |
| Chart.RenderCoversNotes | parse.py:241-251 | the rendered audio is at least as long as the background mix and reaches the end of every note's clip |
| Chart.NoNotesRenderBackground | parse.py:242-251 | with no notes the rendered audio is the background mix unchanged |
| Chart.AsWrittenZeroTokenFails | parse.py:203-207 | as written, a zero token in a hexadecimal tempo channel sets tempo 0, so the measure cannot be timed |
| Chart.ZeroTokenExample | parse.py:203-208 | `#00103:7800` resolves to 120 then 0 as written, and to 120 then 120 with zeros skipped |
| Chart.SharedCursorTimes | parse.py:214-237 | the as-written times, one per slot in loop order, with one cursor shared by all tracks and lanes of a measure and moved at most one segment per slot |
| Chart.SharedCursorConstantTempo | parse.py:217-221 | with one tempo segment the shared cursor gives the schedule's own times |
| Chart.SharedCursorMisplacesNote | parse.py:217-237 | in a two-tempo measure the shared cursor places a later lane's beat-0 note at 0.5 s, while beat 0 is at 0 s |
| Chart.TwoTemposSchedule | parse.py:199-213 | the measure `#00103:78F0` of four beats at time 0 has change points 0 and 2 at 0 s and 1 s and ends at 1.5 s |

## Left out

- Reading the file (`read_bms_file`) is left out: the model starts from its list of lines. The encoding fallback is not modelled.
- `MediaObj` is left out: glob lookup and `librosa.load` are I/O. The decoded clips are an input table of 1296 clips, an undeclared slot holding the empty clip. The sample rate is an input.
- The `sf.write` call is left out, as is the script driving the pipeline. `GenAudio` returns the samples it would write.
- `random.randint` becomes a draw function parameter. `DrawsFit` states its promise that the k-th draw lies in `[1, n]`; `BranchBeyondRangeDropped` relies on it. The reducer itself is proved for any draw function.
- Python's `float()` becomes a `parseReal` parameter. The model does not define which strings it accepts.
- Floating point becomes exact real arithmetic, so rounding in the time computations is not modelled.
- `int(..., base=b)` is modelled on ASCII digits and letters only, which leaves out several forms `int()` accepts:
  - a sign, such as a slot token `-1`, which Python would use to index the last clip;
  - surrounding whitespace;
  - underscores;
  - non-ASCII digits.
- Measure numbers and channel numbers read ASCII digits only. `\d` in Python also matches other Unicode digits.
- `\w` and `\s` are the ASCII classes.
- The header's `re.IGNORECASE` is modelled where it matters, on `EXT` in the event pattern. The header command is kept as written.
- ControlFlow.ReduceLines: it builds a new sequence of the surviving lines. `list.remove` during iteration is not modelled: it removes the first equal line and skips the line after it.
- The nested-`#RANDOM` policy is only what the loop does: a later directive overwrites the active value.
- Chart.InitialTempo: the model has no Python exception types. An unset or unreadable `#BPM` is one `MissingTempo` or `BadTempo` error.
- An unset table entry (`np.empty` garbage) is the error `UnsetTempo`.
- An empty tempo channel is the error `EmptyTempoChannel`. The source fails at `bpm_change_onsets[-1]`.
- A non-positive tempo and a negative measure length are errors. The source divides by zero or computes a negative time.
- Clips are sequences of stereo frames. NumPy's broadcast of a mono clip onto both channels is not modelled.
- The image channel (4) is decoded and stored, but images are not rendered, as in the source.
- The header is a value returned by `ExtractHeader`. The attributes of the source's object become a map from fields to values.
- The measure list holds record values. The source keeps references to objects that are no longer edited once flushed.

## Findings

| source | as written | input that shows it | evidently intended | confidence | as-written member | corrected member |
|---|---|---|---|---|---|---|
| parse.py:25-34 | the random directive is compared with `#RAMDOM`, and the `#IF` operand string is compared with the drawn integer | `#RANDOM 3`, `#IF 1`, `one`, `#ENDIF`, `#IF 2`, `two`, `#ENDIF` with the draw 2: every line survives | keyword `#RANDOM`, numeric operands and the fields read without the newline, so only `two` survives | not executed | ControlFlow.AsWrittenKeepsEverything | ControlFlow.IntendedSelectsBranch |
| parse.py:23-39 | `line.split(' ')` keeps the newline `readlines` leaves on each line, so the command of `#ENDIF` plus newline is not `#ENDIF` and the operand of `#IF 2` plus newline is `2` plus newline | `#ENDIF` plus newline inside a block that is not live: the block stays open and the line is dropped as part of the block | the newline is stripped before the split, so `#ENDIF` closes the block | not executed | ControlFlow.UntrimmedEndIfLeavesBlockOpen | ControlFlow.TrimmedEndIfClosesBlock |
| parse.py:203-207 | `value != 0` compares a string token with the integer 0, so it always holds and a `00` token is looked up | measure `#00103:7800` in hexadecimal: the tempos become 120 then 0, and the measure cannot be timed | a zero token keeps the current tempo | not executed | Chart.AsWrittenZeroTokenFails | Chart.CorrectedZeroTokenKeepsTempo |
| parse.py:198-237 | one cursor `bpm_event_idx` serves every background track and lane of a measure. It is never reset and moves at most one segment per slot | measure `#00103:78F0` with `#00111:00000001` and `#00112:01`: lane 12's note at beat 0 is placed at 0.5 s. With `#00103:F03C` (tempos 240 then 60) the same lanes put it at 0.5 + (0 - 2) * 60 / 60 = -1.5 s, a negative time that the source then uses as a negative slice start | each track and lane finds the segment of each slot's beat, so beat 0 is at 0 s | not executed | Chart.SharedCursorMisplacesNote | Chart.Advance |
