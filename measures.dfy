/** Measure records and the event-line grouper (parse.py:116-184): each
    line `#mmmcc:content` edits the record of measure mmm on channel cc, and
    consecutive lines of one measure number share a record. */
module Measures {
  import opened Text

  /** The eight visible lanes of a measure. */
  type Lanes = l: seq<seq<Slot>> | |l| == 8 witness [[], [], [], [], [], [], [], []]

  const NoLanes: Lanes := [[], [], [], [], [], [], [], []]

  /** A measure record: its number, the background tracks (channel 1), the
      length in beats (channel 2), the tempo tokens (channel 3), the image
      track (channel 4) and the note lanes. */
  datatype MeasureRec = MeasureRec(number: nat, bgm: seq<seq<Slot>>, beats: real, varyBpm: bool,
                                   bpmChannel: seq<string>, bgaChannel: seq<Slot>, noteChannels: Lanes)

  /** `BMSRawMeasure(n)` before any channel is edited. */
  function Fresh(n: nat): (m: MeasureRec)
    ensures m.number == n && m.beats == 4.0 && !m.varyBpm && m.bpmChannel == []
    ensures m.bgm == [] && m.bgaChannel == [] && forall i :: 0 <= i < 8 ==> m.noteChannels[i] == []
  {
    MeasureRec(n, [], 4.0, false, [], [], NoLanes)
  }

  /** The lane a note channel feeds: 11-15 are lanes 0-4, 18 and 19 are
      lanes 5 and 6, and 16 is lane 7. */
  function LaneOf(channel: int): (r: Option<nat>)
    ensures r.Some? ==> r.value < 8
    ensures r.Some? <==> channel in {11, 12, 13, 14, 15, 16, 18, 19}
  {
    if 11 <= channel <= 15 then Some(channel - 11)
    else if channel == 18 then Some(5)
    else if channel == 19 then Some(6)
    else if channel == 16 then Some(7)
    else None
  }

  /** `int(content[i:i + 2], base=36)` or `float(content)` raised. */
  datatype MeasureError = BadContent(channel: int, content: string) | BadChannel(line: string)

  /** The channels whose content is decoded as base-36 slots. */
  predicate IsSlotChannel(channel: int) {
    channel == 1 || channel == 4 || LaneOf(channel).Some?
  }

  /** `edit_channel(channel, content)` on the value of a measure; `parseReal`
      stands for `float`. */
  function Edit(m: MeasureRec, channel: int, content: string, parseReal: string -> Option<real>): (r: Result<MeasureRec, MeasureError>)
    ensures r.Failure? <==>
      (IsSlotChannel(channel) && DecodeSlots(content).None?) || (channel == 2 && parseReal(content).None?)
    ensures r.Success? ==> r.value.number == m.number
  {
    if channel == 1 then
      match DecodeSlots(content)
      case None => Failure(BadContent(channel, content))
      case Some(slots) => Success(m.(bgm := m.bgm + [slots]))
    else if channel == 2 then
      match parseReal(content)
      case None => Failure(BadContent(channel, content))
      case Some(x) => Success(m.(beats := 4.0 * x))
    else if channel == 3 then
      Success(m.(varyBpm := true, bpmChannel := Chunks(content)))
    else if channel == 4 then
      match DecodeSlots(content)
      case None => Failure(BadContent(channel, content))
      case Some(slots) => Success(m.(bgaChannel := slots))
    else match LaneOf(channel)
      case None => Success(m)
      case Some(lane) =>
        match DecodeSlots(content)
        case None => Failure(BadContent(channel, content))
        case Some(slots) => Success(m.(noteChannels := m.noteChannels[lane := slots]))
  }

  /** Channel 1 appends exactly one background track, the decoded content,
      and keeps the earlier tracks and every other field. */
  lemma EditBackground(m: MeasureRec, content: string, parseReal: string -> Option<real>)
    requires DecodeSlots(content).Some?
    ensures var r := Edit(m, 1, content, parseReal);
      r.Success? && |r.value.bgm| == |m.bgm| + 1 && r.value.bgm[..|m.bgm|] == m.bgm &&
      r.value.bgm[|m.bgm|] == DecodeSlots(content).value &&
      r.value == m.(bgm := r.value.bgm)
  {
    var r := Edit(m, 1, content, parseReal).value;
    assert r.bgm == m.bgm + [DecodeSlots(content).value];
    assert r.bgm[..|m.bgm|] == m.bgm;
  }

  /** Channel 2 sets the length to four times the number, and nothing else. */
  lemma EditBeats(m: MeasureRec, content: string, parseReal: string -> Option<real>)
    requires parseReal(content).Some?
    ensures Edit(m, 2, content, parseReal) == Success(m.(beats := 4.0 * parseReal(content).value))
  {
  }

  /** Channel 3 turns the tempo channel on and replaces its tokens with the
      content's two-character pieces, which put together give the content
      back. */
  lemma EditTempoChannel(m: MeasureRec, content: string, parseReal: string -> Option<real>)
    ensures var r := Edit(m, 3, content, parseReal);
      r.Success? && r.value == m.(varyBpm := true, bpmChannel := r.value.bpmChannel) &&
      Concat(r.value.bpmChannel) == content &&
      |r.value.bpmChannel| == (|content| + 1) / 2
  {
    ChunksConcat(content);
  }

  /** A note channel replaces exactly its lane with the decoded content. */
  lemma EditLane(m: MeasureRec, channel: int, content: string, parseReal: string -> Option<real>)
    requires LaneOf(channel).Some? && DecodeSlots(content).Some?
    ensures var r := Edit(m, channel, content, parseReal);
      var lane := LaneOf(channel).value;
      r.Success? && r.value == m.(noteChannels := r.value.noteChannels) &&
      r.value.noteChannels[lane] == DecodeSlots(content).value &&
      forall i :: 0 <= i < 8 && i != lane ==> r.value.noteChannels[i] == m.noteChannels[i]
  {
  }

  /** Any other channel leaves the measure unchanged. */
  lemma EditOther(m: MeasureRec, channel: int, content: string, parseReal: string -> Option<real>)
    requires !(1 <= channel <= 4) && LaneOf(channel).None?
    ensures Edit(m, channel, content, parseReal) == Success(m)
  {
  }

  /** The measure object the grouper fills channel by channel. */
  class RawMeasure {
    var number: nat
    var bgm: seq<seq<Slot>>
    var beats: real
    var varyBpm: bool
    var bpmChannel: seq<string>
    var bgaChannel: seq<Slot>
    var noteChannels: Lanes

    function Value(): MeasureRec
      reads this
    {
      MeasureRec(number, bgm, beats, varyBpm, bpmChannel, bgaChannel, noteChannels)
    }

    constructor(n: nat)
      ensures Value() == Fresh(n)
    {
      number := n;
      bgm := [];
      beats := 4.0;
      varyBpm := false;
      bpmChannel := [];
      bgaChannel := [];
      noteChannels := NoLanes;
    }

    /** `edit_channel`: on success the record becomes `Edit` of the old one;
        when the content cannot be read the record is left as it was. */
    method EditChannel(channel: int, content: string, parseReal: string -> Option<real>) returns (err: Option<MeasureError>)
      modifies this
      ensures match Edit(old(Value()), channel, content, parseReal)
        case Success(m) => err.None? && Value() == m
        case Failure(e) => err == Some(e) && Value() == old(Value())
    {
      err := None;
      if channel == 1 {
        var slots := DecodeSlots(content);
        if slots.None? {
          return Some(BadContent(channel, content));
        }
        bgm := bgm + [slots.value];
      } else if channel == 2 {
        var x := parseReal(content);
        if x.None? {
          return Some(BadContent(channel, content));
        }
        beats := 4.0 * x.value;
      } else if channel == 3 {
        varyBpm := true;
        bpmChannel := Chunks(content);
      } else if channel == 4 {
        var slots := DecodeSlots(content);
        if slots.None? {
          return Some(BadContent(channel, content));
        }
        bgaChannel := slots.value;
      } else {
        var lane := LaneOf(channel);
        if lane.Some? {
          var slots := DecodeSlots(content);
          if slots.None? {
            return Some(BadContent(channel, content));
          }
          noteChannels := noteChannels[lane.value := slots.value];
        }
      }
    }
  }

  predicate IsDecimalDigit(c: char) { '0' <= c <= '9' }

  function CharDigit(c: char): nat
    requires IsDecimalDigit(c)
  {
    c as nat - '0' as nat
  }

  /** Whether `s` begins with `EXT` in any letter case. */
  predicate StartsWithExt(s: string) {
    |s| >= 3 && (s[0] == 'E' || s[0] == 'e') && (s[1] == 'X' || s[1] == 'x') && (s[2] == 'T' || s[2] == 't')
  }

  /** The pattern `^#(?:EXT\s+#)?(\d\d\d)(\S\S):(\S*)$`, ignoring case:
      the measure number, the two channel characters and the content. */
  function EventMatch(line: string): (r: Option<(nat, string, string)>)
    ensures r.Some? ==> r.value.0 < 1000 && |r.value.1| == 2 && !IsSpace(r.value.1[0]) && !IsSpace(r.value.1[1])
    ensures r.Some? ==> forall i :: 0 <= i < |r.value.2| ==> !IsSpace(r.value.2[i])
  {
    if |line| == 0 || line[0] != '#' then None
    else
      var afterHash := line[1..];
      var body :=
        if StartsWithExt(afterHash) then
          var gap := SpaceRun(afterHash[3..]);
          var after := afterHash[3 + |gap|..];
          if |gap| > 0 && |after| > 0 && after[0] == '#' then Some(after[1..]) else None
        else Some(afterHash);
      if body.None? then None
      else
        var b := body.value;
        if |b| < 6 || !IsDecimalDigit(b[0]) || !IsDecimalDigit(b[1]) || !IsDecimalDigit(b[2])
           || IsSpace(b[3]) || IsSpace(b[4]) || b[5] != ':' then None
        else
          var content := DropNewline(b[6..]);
          if exists i :: 0 <= i < |content| && IsSpace(content[i]) then None
          else
            var number: nat := 100 * CharDigit(b[0]) + 10 * CharDigit(b[1]) + CharDigit(b[2]);
            Some((number, b[3..5], content))
  }

  /** `int(channel)` on two non-space characters: two decimal digits, or a
      sign followed by one. */
  function ParseChannel(cc: string): (r: Option<int>)
    requires |cc| == 2
    ensures r.Some? ==> -9 <= r.value <= 99
  {
    if IsDecimalDigit(cc[0]) && IsDecimalDigit(cc[1]) then Some(10 * CharDigit(cc[0]) + CharDigit(cc[1]))
    else if cc[0] == '+' && IsDecimalDigit(cc[1]) then Some(CharDigit(cc[1]))
    else if cc[0] == '-' && IsDecimalDigit(cc[1]) then Some(-(CharDigit(cc[1]) as int))
    else None
  }

  /** The grouper's state: the records already appended and the current one. */
  datatype GroupState = GroupState(done: seq<MeasureRec>, cur: MeasureRec)

  const StartGroup: GroupState := GroupState([], Fresh(0))

  /** One event line applied to a record, whatever measure number the line
      carries: `edit_channel(int(channel), content)`. */
  function EditLine(m: MeasureRec, line: string, parseReal: string -> Option<real>): Result<MeasureRec, MeasureError> {
    match EventMatch(line)
    case None => Success(m)
    case Some(e) =>
      match ParseChannel(e.1)
      case None => Failure(BadChannel(line))
      case Some(channel) => Edit(m, channel, e.2, parseReal)
  }

  /** One line: an event line of another measure closes the current record
      and opens a fresh one, then the line edits the current record. */
  function GroupStep(st: GroupState, line: string, parseReal: string -> Option<real>): Result<GroupState, MeasureError> {
    match EventMatch(line)
    case None => Success(st)
    case Some(e) =>
      var st1 := if st.cur.number != e.0 then GroupState(st.done + [st.cur], Fresh(e.0)) else st;
      var cur :- EditLine(st1.cur, line, parseReal);
      Success(st1.(cur := cur))
  }

  function GroupFrom(st: GroupState, lines: seq<string>, parseReal: string -> Option<real>): Result<GroupState, MeasureError>
    decreases |lines|
  {
    if lines == [] then Success(st)
    else
      var next :- GroupStep(st, lines[0], parseReal);
      GroupFrom(next, lines[1..], parseReal)
  }

  /** `BMSChannels(lines).measure_list`: the records, the last one flushed. */
  function Group(lines: seq<string>, parseReal: string -> Option<real>): Result<seq<MeasureRec>, MeasureError> {
    var st :- GroupFrom(StartGroup, lines, parseReal);
    Success(st.done + [st.cur])
  }

  /** `BMSChannels.__init__`: the loop that swaps the current measure
      object and appends finished ones to the list. */
  method BuildMeasures(lines: seq<string>, parseReal: string -> Option<real>) returns (r: Result<seq<MeasureRec>, MeasureError>)
    ensures r == Group(lines, parseReal)
  {
    var measureList: seq<MeasureRec> := [];
    var cur := new RawMeasure(0);
    assert lines[0..] == lines;
    for i := 0 to |lines|
      invariant fresh(cur)
      invariant GroupFrom(GroupState(measureList, cur.Value()), lines[i..], parseReal) == GroupFrom(StartGroup, lines, parseReal)
    {
      ghost var st := GroupState(measureList, cur.Value());
      assert lines[i..][0] == lines[i] && lines[i..][1..] == lines[i + 1..];
      var line := lines[i];
      var matched := EventMatch(line);
      if matched.Some? {
        var (measureIdx, cc, content) := matched.value;
        var channel := ParseChannel(cc);
        if channel.None? {
          assert GroupStep(st, line, parseReal) == Failure(BadChannel(line));
          return Failure(BadChannel(line));
        }
        if cur.number != measureIdx {
          measureList := measureList + [cur.Value()];
          cur := new RawMeasure(measureIdx);
        }
        ghost var before := cur.Value();
        var err := cur.EditChannel(channel.value, content, parseReal);
        if err.Some? {
          assert GroupStep(st, line, parseReal) == Failure(err.value);
          return Failure(err.value);
        }
        assert Edit(before, channel.value, content, parseReal) == Success(cur.Value());
      }
      assert GroupStep(st, line, parseReal) == Success(GroupState(measureList, cur.Value()));
    }
    assert lines[|lines|..] == [];
    r := Success(measureList + [cur.Value()]);
  }

  /** With no event line the result is one fresh record of measure 0. */
  lemma NoEventsOneRecord(lines: seq<string>, parseReal: string -> Option<real>)
    requires forall i :: 0 <= i < |lines| ==> EventMatch(lines[i]).None?
    ensures Group(lines, parseReal) == Success([Fresh(0)])
  {
    NoEventsNoChange(StartGroup, lines, parseReal);
    var none: seq<MeasureRec> := [];
    assert none + [Fresh(0)] == [Fresh(0)];
  }

  lemma {:induction false} NoEventsNoChange(st: GroupState, lines: seq<string>, parseReal: string -> Option<real>)
    requires forall i :: 0 <= i < |lines| ==> EventMatch(lines[i]).None?
    ensures GroupFrom(st, lines, parseReal) == Success(st)
    decreases |lines|
  {
    if lines != [] {
      NoEventsNoChange(st, lines[1..], parseReal);
    }
  }

  /** The measure numbers of the event lines, in order. */
  function MatchedNumbers(lines: seq<string>): seq<nat>
    decreases |lines|
  {
    if lines == [] then []
    else match EventMatch(lines[0])
      case None => MatchedNumbers(lines[1..])
      case Some(e) => [e.0] + MatchedNumbers(lines[1..])
  }

  /** `acc` extended by `ns`, each number starting a new entry only when it
      differs from the last one: one entry per run of equal numbers. */
  function Collapse(acc: seq<nat>, ns: seq<nat>): seq<nat>
    requires acc != []
    decreases |ns|
  {
    if ns == [] then acc
    else Collapse(if acc[|acc| - 1] == ns[0] then acc else acc + [ns[0]], ns[1..])
  }

  function Numbers(ms: seq<MeasureRec>): (r: seq<nat>)
    ensures |r| == |ms| && forall i :: 0 <= i < |ms| ==> r[i] == ms[i].number
  {
    if ms == [] then [] else [ms[0].number] + Numbers(ms[1..])
  }

  lemma NumbersAppend(a: seq<MeasureRec>, b: seq<MeasureRec>)
    ensures Numbers(a + b) == Numbers(a) + Numbers(b)
  {
    assert forall i :: 0 <= i < |a + b| ==> Numbers(a + b)[i] == (Numbers(a) + Numbers(b))[i];
  }

  /** The records carry one number per run of equal measure numbers among
      the event lines, after a leading measure 0 that merges with the first
      run when that run is measure 0. */
  lemma RecordNumbers(lines: seq<string>, parseReal: string -> Option<real>)
    requires Group(lines, parseReal).Success?
    ensures Numbers(Group(lines, parseReal).value) == Collapse([0], MatchedNumbers(lines))
  {
    RecordNumbersFrom(StartGroup, lines, parseReal);
    var none: seq<MeasureRec> := [];
    assert Numbers(none + [Fresh(0)]) == [0];
  }

  lemma {:induction false} RecordNumbersFrom(st: GroupState, lines: seq<string>, parseReal: string -> Option<real>)
    requires GroupFrom(st, lines, parseReal).Success?
    ensures var fin := GroupFrom(st, lines, parseReal).value;
      Numbers(fin.done + [fin.cur]) == Collapse(Numbers(st.done + [st.cur]), MatchedNumbers(lines))
    decreases |lines|
  {
    if lines != [] {
      var next := GroupStep(st, lines[0], parseReal).value;
      RecordNumbersFrom(next, lines[1..], parseReal);
      StepNumbers(st, lines[0], parseReal);
      var ns := Numbers(st.done + [st.cur]);
      var ns' := Numbers(next.done + [next.cur]);
      match EventMatch(lines[0])
      case None =>
      case Some(e) =>
        assert MatchedNumbers(lines) == [e.0] + MatchedNumbers(lines[1..]);
        assert ns' == if ns[|ns| - 1] == e.0 then ns else ns + [e.0];
    }
  }

  /** One grouper step extends the record numbers as `Collapse` does. */
  lemma StepNumbers(st: GroupState, line: string, parseReal: string -> Option<real>)
    requires GroupStep(st, line, parseReal).Success?
    ensures var next := GroupStep(st, line, parseReal).value;
      var ns := Numbers(st.done + [st.cur]);
      |ns| > 0 &&
      Numbers(next.done + [next.cur]) ==
        match EventMatch(line)
        case None => ns
        case Some(e) => if ns[|ns| - 1] == e.0 then ns else ns + [e.0]
  {
    var next := GroupStep(st, line, parseReal).value;
    NumbersAppend(st.done, [st.cur]);
    NumbersAppend(next.done, [next.cur]);
    match EventMatch(line)
    case None =>
    case Some(e) =>
      if st.cur.number != e.0 {
        assert next.done == st.done + [st.cur] && next.cur.number == e.0;
        NumbersAppend(st.done + [st.cur], [next.cur]);
      } else {
        assert next.done == st.done && next.cur.number == st.cur.number;
      }
  }

  predicate NoRepeats(s: seq<nat>) {
    forall i :: 0 <= i < |s| - 1 ==> s[i] != s[i + 1]
  }

  /** Neighbouring entries of a collapse differ. */
  lemma {:induction false} CollapseNoRepeats(acc: seq<nat>, ns: seq<nat>)
    requires acc != [] && NoRepeats(acc)
    ensures NoRepeats(Collapse(acc, ns))
    decreases |ns|
  {
    if ns != [] {
      var acc' := if acc[|acc| - 1] == ns[0] then acc else acc + [ns[0]];
      forall i | 0 <= i < |acc'| - 1
        ensures acc'[i] != acc'[i + 1]
      {
        if i < |acc| - 1 {
          assert acc'[i] == acc[i] && acc'[i + 1] == acc[i + 1];
        }
      }
      CollapseNoRepeats(acc', ns[1..]);
    }
  }

  /** The records of a successful grouping never repeat a measure number in
      neighbouring places. */
  lemma RecordsAreRuns(lines: seq<string>, parseReal: string -> Option<real>)
    requires Group(lines, parseReal).Success?
    ensures var ms := Group(lines, parseReal).value;
      |ms| >= 1 && ms[0].number == 0 &&
      forall i :: 0 <= i < |ms| - 1 ==> ms[i].number != ms[i + 1].number
  {
    RecordNumbers(lines, parseReal);
    CollapseNoRepeats([0], MatchedNumbers(lines));
    assert NoRepeats(Numbers(Group(lines, parseReal).value));
    CollapseKeepsHead([0], MatchedNumbers(lines));
    var ms := Group(lines, parseReal).value;
    assert Numbers(ms)[0] == ms[0].number;
    forall i | 0 <= i < |ms| - 1
      ensures ms[i].number != ms[i + 1].number
    {
      assert Numbers(ms)[i] == ms[i].number && Numbers(ms)[i + 1] == ms[i + 1].number;
    }
  }

  lemma {:induction false} CollapseKeepsHead(acc: seq<nat>, ns: seq<nat>)
    requires acc != []
    ensures |Collapse(acc, ns)| >= |acc| && Collapse(acc, ns)[..|acc|] == acc
    decreases |ns|
  {
    if ns != [] {
      var acc' := if acc[|acc| - 1] == ns[0] then acc else acc + [ns[0]];
      CollapseKeepsHead(acc', ns[1..]);
      assert acc'[..|acc|] == acc;
    }
  }

  /** The record `m` after the event lines of `lines`, in order. */
  function EditsOf(m: MeasureRec, lines: seq<string>, parseReal: string -> Option<real>): Result<MeasureRec, MeasureError>
    decreases |lines|
  {
    if lines == [] then Success(m)
    else
      var next :- EditLine(m, lines[0], parseReal);
      EditsOf(next, lines[1..], parseReal)
  }

  /** The lines cut into runs: the first run belongs to measure `number`, and
      every event line of another number than the run's starts a new run of
      its own number. Each run is its measure number and its lines. */
  function Runs(number: nat, lines: seq<string>): (r: seq<(nat, seq<string>)>)
    ensures |r| >= 1 && r[0].0 == number
    decreases |lines|, if lines != [] && EventMatch(lines[0]).Some? && EventMatch(lines[0]).value.0 != number then 1 else 0
  {
    if lines == [] then [(number, [])]
    else if EventMatch(lines[0]).Some? && EventMatch(lines[0]).value.0 != number then
      [(number, [])] + Runs(EventMatch(lines[0]).value.0, lines)
    else
      var rest := Runs(number, lines[1..]);
      [(number, [lines[0]] + rest[0].1)] + rest[1..]
  }

  /** The records the runs give: each run's event lines applied to a fresh
      record of the run's number, stopping at the first error. */
  function RecordsOf(runs: seq<(nat, seq<string>)>, parseReal: string -> Option<real>): Result<seq<MeasureRec>, MeasureError>
    decreases |runs|
  {
    if runs == [] then Success([])
    else
      var m :- EditsOf(Fresh(runs[0].0), runs[0].1, parseReal);
      var ms :- RecordsOf(runs[1..], parseReal);
      Success([m] + ms)
  }

  /** The runs give records exactly when every run's lines apply, and then
      record k is run k's. */
  lemma {:induction false} RecordsOfEach(runs: seq<(nat, seq<string>)>, parseReal: string -> Option<real>)
    ensures RecordsOf(runs, parseReal).Success? <==>
      forall k :: 0 <= k < |runs| ==> EditsOf(Fresh(runs[k].0), runs[k].1, parseReal).Success?
    ensures RecordsOf(runs, parseReal).Success? ==>
      |RecordsOf(runs, parseReal).value| == |runs| &&
      forall k :: 0 <= k < |runs| ==> RecordsOf(runs, parseReal).value[k] == EditsOf(Fresh(runs[k].0), runs[k].1, parseReal).value
    decreases |runs|
  {
    if runs != [] {
      RecordsOfEach(runs[1..], parseReal);
      forall k | 1 <= k < |runs| ensures runs[k] == runs[1..][k - 1] { }
      if RecordsOf(runs, parseReal).Success? {
        var ms := RecordsOf(runs[1..], parseReal).value;
        assert RecordsOf(runs, parseReal).value == [EditsOf(Fresh(runs[0].0), runs[0].1, parseReal).value] + ms;
      }
    }
  }

  /** `measure_list` record by record: grouping succeeds exactly when every
      run's event lines apply to a fresh record of its number; then there is
      one record per run, record k holds run k's edits, and the record
      flushed after the last line is the last run's. */
  lemma GroupEach(lines: seq<string>, parseReal: string -> Option<real>)
    ensures var runs := Runs(0, lines);
      (Group(lines, parseReal).Success? <==>
        forall k :: 0 <= k < |runs| ==> EditsOf(Fresh(runs[k].0), runs[k].1, parseReal).Success?) &&
      (Group(lines, parseReal).Success? ==>
        var ms := Group(lines, parseReal).value;
        |ms| == |runs| &&
        (forall k :: 0 <= k < |runs| ==> ms[k] == EditsOf(Fresh(runs[k].0), runs[k].1, parseReal).value) &&
        ms[|ms| - 1] == EditsOf(Fresh(runs[|runs| - 1].0), runs[|runs| - 1].1, parseReal).value)
  {
    GroupRecords(lines, parseReal);
    RecordsOfEach(Runs(0, lines), parseReal);
  }

  /** The list the grouper leaves from state `done`, `cur`, when `runs` are
      still to come and the first of them continues `cur`. */
  function Completed(done: seq<MeasureRec>, cur: MeasureRec, runs: seq<(nat, seq<string>)>,
                     parseReal: string -> Option<real>): Result<seq<MeasureRec>, MeasureError>
    requires |runs| >= 1
  {
    var last :- EditsOf(cur, runs[0].1, parseReal);
    var ms :- RecordsOf(runs[1..], parseReal);
    Success(done + [last] + ms)
  }

  function Flushed(r: Result<GroupState, MeasureError>): Result<seq<MeasureRec>, MeasureError> {
    match r
    case Failure(e) => Failure(e)
    case Success(st) => Success(st.done + [st.cur])
  }

  /** Record k of `BMSChannels(lines).measure_list` is the fresh record of
      run k's measure number with run k's event lines applied, the last
      record included; grouping fails exactly at the first line any run
      fails on. */
  lemma GroupRecords(lines: seq<string>, parseReal: string -> Option<real>)
    ensures Group(lines, parseReal) == RecordsOf(Runs(0, lines), parseReal)
  {
    GroupRuns(StartGroup, lines, parseReal);
    var runs := Runs(0, lines);
    assert Completed([], Fresh(0), runs, parseReal) == RecordsOf(runs, parseReal) by {
      match EditsOf(Fresh(0), runs[0].1, parseReal)
      case Failure(e) =>
      case Success(m) =>
        match RecordsOf(runs[1..], parseReal)
        case Failure(e) =>
        case Success(ms) => assert [] + [m] + ms == [m] + ms;
    }
  }

  lemma {:induction false} GroupRuns(st: GroupState, lines: seq<string>, parseReal: string -> Option<real>)
    ensures Flushed(GroupFrom(st, lines, parseReal)) == Completed(st.done, st.cur, Runs(st.cur.number, lines), parseReal)
    decreases |lines|, if lines != [] && EventMatch(lines[0]).Some? && EventMatch(lines[0]).value.0 != st.cur.number then 1 else 0
  {
    var n := st.cur.number;
    if lines == [] {
      assert Runs(n, lines)[1..] == [];
      assert st.done + [st.cur] + [] == st.done + [st.cur];
    } else if EventMatch(lines[0]).Some? && EventMatch(lines[0]).value.0 != n {
      var e := EventMatch(lines[0]).value;
      var st' := GroupState(st.done + [st.cur], Fresh(e.0));
      NewRunSameStep(st, st', lines[0], parseReal);
      GroupRuns(st', lines, parseReal);
      var later := Runs(e.0, lines);
      assert Runs(n, lines) == [(n, [])] + later;
      assert ([(n, [])] + later)[1..] == later && ([(n, [])] + later)[0].1 == [];
      match EditsOf(Fresh(e.0), later[0].1, parseReal)
      case Failure(err) =>
      case Success(m) =>
        match RecordsOf(later[1..], parseReal)
        case Failure(err) =>
        case Success(ms) =>
          assert st.done + [st.cur] + ([m] + ms) == st.done + [st.cur] + [m] + ms;
    } else {
      var rest := Runs(n, lines[1..]);
      assert Runs(n, lines) == [(n, [lines[0]] + rest[0].1)] + rest[1..];
      assert ([lines[0]] + rest[0].1)[0] == lines[0] && ([lines[0]] + rest[0].1)[1..] == rest[0].1;
      match GroupStep(st, lines[0], parseReal)
      case Failure(err) =>
        assert EditLine(st.cur, lines[0], parseReal) == Failure(err);
      case Success(next) =>
        assert next.done == st.done && next.cur.number == n;
        assert EditLine(st.cur, lines[0], parseReal) == Success(next.cur);
        GroupRuns(next, lines[1..], parseReal);
    }
  }

  /** An event line of a new number steps the grouper as it steps the
      state that has already flushed the current record. */
  lemma NewRunSameStep(st: GroupState, st': GroupState, line: string, parseReal: string -> Option<real>)
    requires EventMatch(line).Some? && EventMatch(line).value.0 != st.cur.number
    requires st' == GroupState(st.done + [st.cur], Fresh(EventMatch(line).value.0))
    ensures GroupStep(st, line, parseReal) == GroupStep(st', line, parseReal)
  {
  }

  /** The lines of the runs, put back together, are the input. */
  lemma {:induction false} RunsCover(number: nat, lines: seq<string>)
    ensures RunLines(Runs(number, lines)) == lines
    decreases |lines|, if lines != [] && EventMatch(lines[0]).Some? && EventMatch(lines[0]).value.0 != number then 1 else 0
  {
    if lines == [] {
    } else if EventMatch(lines[0]).Some? && EventMatch(lines[0]).value.0 != number {
      var later := Runs(EventMatch(lines[0]).value.0, lines);
      assert Runs(number, lines) == [(number, [])] + later;
      RunsCover(EventMatch(lines[0]).value.0, lines);
      RunLinesCons((number, []), later);
    } else {
      var rest := Runs(number, lines[1..]);
      var first := (number, [lines[0]] + rest[0].1);
      assert Runs(number, lines) == [first] + rest[1..];
      RunsCover(number, lines[1..]);
      RunLinesCons(rest[0], rest[1..]);
      assert [rest[0]] + rest[1..] == rest;
      RunLinesCons(first, rest[1..]);
      assert [lines[0]] + lines[1..] == lines;
    }
  }

  lemma RunLinesCons(run: (nat, seq<string>), runs: seq<(nat, seq<string>)>)
    ensures RunLines([run] + runs) == run.1 + RunLines(runs)
  {
    assert ([run] + runs)[1..] == runs;
  }

  predicate RunNumbered(run: (nat, seq<string>)) {
    forall i :: 0 <= i < |run.1| && EventMatch(run.1[i]).Some? ==> EventMatch(run.1[i]).value.0 == run.0
  }

  /** Every event line of a run carries the run's measure number. */
  lemma {:induction false} RunsNumbered(number: nat, lines: seq<string>)
    ensures forall k :: 0 <= k < |Runs(number, lines)| ==> RunNumbered(Runs(number, lines)[k])
    decreases |lines|, if lines != [] && EventMatch(lines[0]).Some? && EventMatch(lines[0]).value.0 != number then 1 else 0
  {
    if lines == [] {
    } else if EventMatch(lines[0]).Some? && EventMatch(lines[0]).value.0 != number {
      var later := Runs(EventMatch(lines[0]).value.0, lines);
      RunsNumbered(EventMatch(lines[0]).value.0, lines);
      var r := [(number, [])] + later;
      forall k | 0 <= k < |r| ensures RunNumbered(r[k]) {
        if k > 0 { assert r[k] == later[k - 1]; }
      }
    } else {
      var rest := Runs(number, lines[1..]);
      RunsNumbered(number, lines[1..]);
      var first := [lines[0]] + rest[0].1;
      var r := [(number, first)] + rest[1..];
      assert RunNumbered(rest[0]) by { assert 0 < |rest|; }
      assert RunNumbered(r[0]) by {
        forall i | 0 <= i < |first| && EventMatch(first[i]).Some? ensures EventMatch(first[i]).value.0 == number {
          if i > 0 { assert first[i] == rest[0].1[i - 1]; }
        }
      }
      forall k | 0 <= k < |r| ensures RunNumbered(r[k]) {
        if k > 0 { assert r[k] == rest[k]; }
      }
    }
  }

  function RunLines(runs: seq<(nat, seq<string>)>): seq<string>
    decreases |runs|
  {
    if runs == [] then [] else runs[0].1 + RunLines(runs[1..])
  }
}
