/** The timeline (parse.py:187-239) and the renderer (parse.py:241-251). Each
    measure gets a piecewise-constant tempo schedule; its slots are placed at
    evenly spaced beats, turned into seconds through the schedule, and the
    background slots are mixed into one buffer while the lane slots become
    notes; rendering mixes the notes onto a copy of that buffer. */
module Chart {
  import opened Text
  import opened Header
  import opened Measures
  import opened Mixing

  /** A time in seconds from the start of the chart. */
  type Instant = t: real | t >= 0.0

  /** `BMSNotes`: when a visible note sounds and the slot of its clip. */
  datatype Note = Note(onset: Instant, audio: Slot)

  /** `self.lane`: the notes of the eight visible lanes. */
  type NoteLanes = l: seq<seq<Note>> | |l| == 8 witness NoNotes()

  function NoNotes(): (l: seq<seq<Note>>)
    ensures |l| == 8 && forall i :: 0 <= i < |l| ==> l[i] == []
  {
    seq(8, i => [])
  }

  /** What stops the timeline: no usable `#BPM` value (AttributeError,
      TypeError or ValueError in `float(bms_header.bpm)`), a tempo token that
      is not a number or names no table entry, a table entry never set, a
      tempo channel without tokens (`bpm_change_onsets[-1]` on an empty
      list), a tempo that is not positive, or a negative measure length. */
  datatype ChartError =
    | MissingTempo
    | BadTempo(value: string)
    | BadTempoToken(measure: nat, token: string)
    | UnsetTempo(measure: nat, slot: Slot)
    | EmptyTempoChannel(measure: nat)
    | NonPositiveTempo(measure: nat)
    | NegativeBeats(measure: nat)

  /** `cur_bpm = float(bms_header.bpm)` */
  function InitialTempo(h: HeaderInfo, parseReal: string -> Option<real>): (r: Result<real, ChartError>)
    ensures r.Success? <==> Bpm in h.fields && h.fields[Bpm].Some? && parseReal(h.fields[Bpm].value).Some?
    ensures r.Success? ==> Some(r.value) == parseReal(h.fields[Bpm].value)
  {
    if Bpm !in h.fields || h.fields[Bpm].None? then Failure(MissingTempo)
    else match parseReal(h.fields[Bpm].value)
      case None => Failure(BadTempo(h.fields[Bpm].value))
      case Some(t) => Success(t)
  }

  /** A tempo token that names no change: every character `0`. */
  predicate IsZeroToken(t: string) {
    |t| > 0 && forall i :: 0 <= i < |t| ==> t[i] == '0'
  }

  /** The tempo one token of channel 3 sets: with indexed tempos the table
      entry named by the token read in base 36, otherwise the token read in
      base 16. */
  function TokenTempo(h: HeaderInfo, number: nat, token: string): (r: Result<real, ChartError>)
    ensures h.useBpmList ==>
      (r.Success? <==> ParseDigits(token, 36).Some? && ParseDigits(token, 36).value < SlotCount &&
                       h.bpmTable[ParseDigits(token, 36).value].Some?)
    ensures h.useBpmList && r.Success? ==> h.bpmTable[ParseDigits(token, 36).value] == Some(r.value)
    ensures !h.useBpmList ==> (r.Success? <==> Hex(token).Some?)
    ensures !h.useBpmList && r.Success? ==> r.value == Hex(token).value as real
  {
    if h.useBpmList then
      match ParseDigits(token, 36)
      case None => Failure(BadTempoToken(number, token))
      case Some(i) =>
        if i >= SlotCount then Failure(BadTempoToken(number, token))
        else if h.bpmTable[i].None? then Failure(UnsetTempo(number, i))
        else Success(h.bpmTable[i].value)
    else
      match Hex(token)
      case None => Failure(BadTempoToken(number, token))
      case Some(v) => Success(v as real)
  }

  /** The tempo after each token of a tempo channel and the tempo the channel
      leaves behind, from token `i` on, `acc` holding the tempos before it.
      With `skipZero` a zero token keeps the current tempo; without it, as
      parse.py:203 behaves, every token is looked up. */
  function ResolveFrom(h: HeaderInfo, number: nat, tokens: seq<string>, i: nat, cur: real, acc: seq<real>, skipZero: bool)
    : (r: Result<(seq<real>, real), ChartError>)
    requires i <= |tokens|
    ensures r.Success? ==> |r.value.0| == |acc| + |tokens| - i && r.value.0[..|acc|] == acc
    ensures r.Success? ==> r.value.1 == if i == |tokens| then cur else r.value.0[|r.value.0| - 1]
    decreases |tokens| - i
  {
    if i == |tokens| then Success((acc, cur))
    else
      var next :- if skipZero && IsZeroToken(tokens[i]) then Success(cur) else TokenTempo(h, number, tokens[i]);
      ResolveFrom(h, number, tokens, i + 1, next, acc + [next], skipZero)
  }

  /** Each resolved tempo is the token's own tempo, or, for a zero token
      under `skipZero`, the tempo before it. */
  lemma {:induction false} ResolvedEntries(h: HeaderInfo, number: nat, tokens: seq<string>, i: nat, cur: real, acc: seq<real>, skipZero: bool)
    requires i <= |tokens|
    requires ResolveFrom(h, number, tokens, i, cur, acc, skipZero).Success?
    ensures var t := ResolveFrom(h, number, tokens, i, cur, acc, skipZero).value.0;
      forall k :: i <= k < |tokens| ==>
        if skipZero && IsZeroToken(tokens[k])
        then t[|acc| + k - i] == (if k == i then cur else t[|acc| + k - i - 1])
        else TokenTempo(h, number, tokens[k]) == Success(t[|acc| + k - i])
    decreases |tokens| - i
  {
    if i < |tokens| {
      var next := (if skipZero && IsZeroToken(tokens[i]) then Success(cur) else TokenTempo(h, number, tokens[i])).value;
      ResolvedEntries(h, number, tokens, i + 1, next, acc + [next], skipZero);
      var t := ResolveFrom(h, number, tokens, i, cur, acc, skipZero).value.0;
      assert t == ResolveFrom(h, number, tokens, i + 1, next, acc + [next], skipZero).value.0;
      assert t[..|acc| + 1] == acc + [next];
      assert t[|acc|] == next;
    }
  }

  /** Any token sequence resolves to one tempo per token when every token
      resolves on its own. */
  method ResolveTempos(h: HeaderInfo, number: nat, tokens: seq<string>, cur0: real, skipZero: bool)
    returns (r: Result<(seq<real>, real), ChartError>)
    ensures r == ResolveFrom(h, number, tokens, 0, cur0, [], skipZero)
  {
    var cur := cur0;
    var tempos: seq<real> := [];
    for i := 0 to |tokens|
      invariant ResolveFrom(h, number, tokens, i, cur, tempos, skipZero) == ResolveFrom(h, number, tokens, 0, cur0, [], skipZero)
    {
      if !(skipZero && IsZeroToken(tokens[i])) {
        var t := TokenTempo(h, number, tokens[i]);
        if t.Failure? {
          return Failure(t.error);
        }
        cur := t.value;
      }
      tempos := tempos + [cur];
    }
    return Success((tempos, cur));
  }

  /** Beat `i * beats / size` of slot `i` of a track of `size` slots. */
  function Beat(i: nat, size: nat, beats: real): real
    requires i < size
  {
    i as real * beats / size as real
  }

  /** A slot's beat lies in `[0, beats)` (it is 0 when the measure has no length). */
  lemma BeatBounds(i: nat, size: nat, beats: real)
    requires i < size && beats >= 0.0
    ensures 0.0 <= Beat(i, size, beats) <= beats
    ensures beats > 0.0 ==> Beat(i, size, beats) < beats
  {
    var q := beats / size as real;
    assert Beat(i, size, beats) == i as real * q;
    assert beats == size as real * q;
    assert q >= 0.0;
  }

  lemma BeatMonotone(i: nat, j: nat, size: nat, beats: real)
    requires i <= j < size && beats >= 0.0
    ensures Beat(i, size, beats) <= Beat(j, size, beats)
  {
    var q := beats / size as real;
    assert Beat(i, size, beats) == i as real * q;
    assert Beat(j, size, beats) == j as real * q;
    assert Beat(j, size, beats) - Beat(i, size, beats) == (j - i) as real * q;
  }

  predicate Sorted(p: seq<real>) {
    forall i, j :: 0 <= i <= j < |p| ==> p[i] <= p[j]
  }

  /** `bpm_change_onsets`: the beats of `n` evenly spaced tempo changes. */
  function Points(beats: real, n: nat): (p: seq<real>)
    requires n > 0
    ensures |p| == n && p[0] == 0.0
  {
    seq(n, i requires 0 <= i < n => Beat(i, n, beats))
  }

  lemma PointsSorted(beats: real, n: nat)
    requires n > 0
    ensures beats >= 0.0 ==> Sorted(Points(beats, n)) && Points(beats, n)[n - 1] <= beats
  {
    if beats >= 0.0 {
      var p := Points(beats, n);
      forall i, j | 0 <= i <= j < n ensures p[i] <= p[j] {
        BeatMonotone(i, j, n, beats);
      }
      BeatBounds(n - 1, n, beats);
    }
  }

  /** `onset_beat_list`: the time of every change point, each the time of
      the one before plus the beats between them at the tempo before;
      `acc` holds the times already known. */
  function Times(points: seq<real>, tempos: seq<real>, acc: seq<real>): (r: seq<real>)
    requires |tempos| == |points| && 1 <= |acc| <= |points|
    requires forall k :: 0 <= k < |tempos| ==> tempos[k] > 0.0
    ensures |r| == |points| && r[..|acc|] == acc
    ensures forall k :: |acc| <= k < |points| ==> r[k] == Advanced(r[k - 1], points[k - 1], points[k], tempos[k - 1])
    decreases |points| - |acc|
  {
    if |acc| == |points| then acc
    else
      var i := |acc|;
      Times(points, tempos, acc + [Advanced(acc[i - 1], points[i - 1], points[i], tempos[i - 1])])
  }

  /** The recurrence of `onset_beat_list`, from the first point on. */
  lemma TimesRecurrence(points: seq<real>, tempos: seq<real>, start: real)
    requires |tempos| == |points| >= 1
    requires forall k :: 0 <= k < |tempos| ==> tempos[k] > 0.0
    ensures var t := Times(points, tempos, [start]);
      t[0] == start &&
      forall i :: 1 <= i < |points| ==> t[i] == Advanced(t[i - 1], points[i - 1], points[i], tempos[i - 1])
  {
    var t := Times(points, tempos, [start]);
    assert t[..1] == [start];
  }

  /** The time at beat `to` of a stretch that is at beat `from` at `time` and
      plays `tempo` beats per minute: `(to - from) * 60 / tempo + time`. */
  function Advanced(time: real, from: real, to: real, tempo: real): real
    requires tempo > 0.0
  {
    (to - from) * 60.0 / tempo + time
  }

  lemma AdvancedForward(time: real, from: real, to: real, tempo: real)
    requires from <= to && tempo > 0.0
    ensures Advanced(time, from, to, tempo) >= time
  {
    var q := 60.0 / tempo;
    assert q > 0.0;
    assert (to - from) * 60.0 / tempo == (to - from) * q;
  }

  /** With sorted points and positive tempos no change point has a negative time. */
  lemma {:induction false} TimesNonnegative(points: seq<real>, tempos: seq<real>, acc: seq<real>)
    requires |tempos| == |points| && 1 <= |acc| <= |points|
    requires forall k :: 0 <= k < |tempos| ==> tempos[k] > 0.0
    requires Sorted(points) && forall k :: 0 <= k < |acc| ==> acc[k] >= 0.0
    ensures forall k :: 0 <= k < |points| ==> Times(points, tempos, acc)[k] >= 0.0
    decreases |points| - |acc|
  {
    if |acc| < |points| {
      var i := |acc|;
      var next := Advanced(acc[i - 1], points[i - 1], points[i], tempos[i - 1]);
      AdvancedForward(acc[i - 1], points[i - 1], points[i], tempos[i - 1]);
      var acc' := acc + [next];
      assert forall k :: 0 <= k < |acc'| ==> acc'[k] >= 0.0;
      TimesNonnegative(points, tempos, acc');
      assert Times(points, tempos, acc) == Times(points, tempos, acc');
    }
  }

  /** A measure's tempo schedule: its length in beats, the change points,
      the tempo from each point on, the time of each point and the time the
      measure ends (the next measure's `start_time`). */
  datatype Schedule = Schedule(beats: real, points: seq<real>, tempos: seq<real>, times: seq<real>, end: real)

  predicate WellFormed(s: Schedule) {
    s.beats >= 0.0 && |s.points| >= 1 && |s.tempos| == |s.points| && |s.times| == |s.points| &&
    s.points[0] == 0.0 && Sorted(s.points) && s.points[|s.points| - 1] <= s.beats &&
    (forall k :: 0 <= k < |s.tempos| ==> s.tempos[k] > 0.0) &&
    (forall k :: 0 <= k < |s.times| ==> s.times[k] >= 0.0) && s.end >= 0.0
  }

  /** The change points, the tempo after each and the tempo carried into the
      next measure: one point at beat 0 at the current tempo without a tempo
      channel, the resolved tokens at evenly spaced beats with one. */
  function TempoPlan(m: MeasureRec, h: HeaderInfo, cur: real, skipZero: bool): (r: Result<(seq<real>, seq<real>, real), ChartError>)
    ensures r.Success? ==> |r.value.0| >= 1 && |r.value.1| == |r.value.0| && r.value.0[0] == 0.0
    ensures r.Success? && m.beats >= 0.0 ==> Sorted(r.value.0) && r.value.0[|r.value.0| - 1] <= m.beats
    ensures r.Success? && m.varyBpm ==> |m.bpmChannel| > 0 && r.value.0 == Points(m.beats, |m.bpmChannel|)
  {
    if !m.varyBpm then Success(([0.0], [cur], cur))
    else if |m.bpmChannel| == 0 then Failure(EmptyTempoChannel(m.number))
    else
      var rt :- ResolveFrom(h, m.number, m.bpmChannel, 0, cur, [], skipZero);
      PointsSorted(m.beats, |m.bpmChannel|);
      Success((Points(m.beats, |m.bpmChannel|), rt.0, rt.1))
  }

  /** The schedule of measure `m` starting at `start` (parse.py:196-213) and
      the tempo it leaves for the next measure. */
  function ScheduleOf(m: MeasureRec, h: HeaderInfo, cur: real, start: real, skipZero: bool): (r: Result<(Schedule, real), ChartError>)
    requires start >= 0.0
    ensures r.Success? ==> WellFormed(r.value.0) && r.value.0.beats == m.beats && r.value.0.times[0] == start
  {
    var plan :- TempoPlan(m, h, cur, skipZero);
    FromPlan(m.number, m.beats, plan.0, plan.1, start, plan.2)
  }

  /** The schedule of one measure's change points and tempos, refusing a
      negative length or a tempo that is not positive. */
  function FromPlan(number: nat, beats: real, points: seq<real>, tempos: seq<real>, start: real, next: real)
    : (r: Result<(Schedule, real), ChartError>)
    requires start >= 0.0 && |points| >= 1 && |tempos| == |points| && points[0] == 0.0
    requires beats >= 0.0 ==> Sorted(points) && points[|points| - 1] <= beats
    ensures r.Success? <==> beats >= 0.0 && forall k :: 0 <= k < |tempos| ==> tempos[k] > 0.0
    ensures r.Success? ==> r.value == (Assemble(beats, points, tempos, start), next)
  {
    if beats < 0.0 then Failure(NegativeBeats(number))
    else if exists k :: 0 <= k < |tempos| && tempos[k] <= 0.0 then Failure(NonPositiveTempo(number))
    else Success((Assemble(beats, points, tempos, start), next))
  }

  /** The schedule of a measure of `beats` beats from its change points and
      tempos: the time of every point and the end of the measure. */
  function Assemble(beats: real, points: seq<real>, tempos: seq<real>, start: real): (s: Schedule)
    requires beats >= 0.0 && start >= 0.0 && |points| >= 1 && |tempos| == |points|
    requires points[0] == 0.0 && Sorted(points) && points[|points| - 1] <= beats
    requires forall k :: 0 <= k < |tempos| ==> tempos[k] > 0.0
    ensures WellFormed(s) && s.beats == beats && s.points == points && s.tempos == tempos
    ensures s.times == Times(points, tempos, [start]) && s.times[0] == start
  {
    var times := Times(points, tempos, [start]);
    var n := |points|;
    TimesNonnegative(points, tempos, [start]);
    AdvancedForward(times[n - 1], points[n - 1], beats, tempos[n - 1]);
    Schedule(beats, points, tempos, times, Advanced(times[n - 1], points[n - 1], beats, tempos[n - 1]))
  }

  /** The time of every change point is the time of the one before plus the
      beats between them at the tempo before, and the measure ends at the
      last point's time plus the remaining beats at the last tempo. */
  lemma AssembledTimes(beats: real, points: seq<real>, tempos: seq<real>, start: real)
    requires beats >= 0.0 && start >= 0.0 && |points| >= 1 && |tempos| == |points|
    requires points[0] == 0.0 && Sorted(points) && points[|points| - 1] <= beats
    requires forall k :: 0 <= k < |tempos| ==> tempos[k] > 0.0
    ensures var s := Assemble(beats, points, tempos, start);
      (forall i :: 1 <= i < |points| ==> s.times[i] == Advanced(s.times[i - 1], points[i - 1], points[i], tempos[i - 1])) &&
      s.end == Advanced(s.times[|points| - 1], points[|points| - 1], beats, tempos[|points| - 1])
  {
    TimesRecurrence(points, tempos, start);
  }

  /** Without a tempo channel the schedule is one segment at the current
      tempo, and the measure lasts `beats * 60 / bpm` seconds. */
  lemma ConstantTempoSchedule(m: MeasureRec, h: HeaderInfo, cur: real, start: real, skipZero: bool)
    requires !m.varyBpm && m.beats >= 0.0 && cur > 0.0 && start >= 0.0
    ensures ScheduleOf(m, h, cur, start, skipZero) ==
      Success((Schedule(m.beats, [0.0], [cur], [start], start + m.beats * 60.0 / cur), cur))
  {
    assert Times([0.0], [cur], [start]) == [start];
  }

  /** With N tempo tokens: point i sits at beat `i * beats / N`, its time is
      the time of point i - 1 plus the beats between them at tempo `i - 1`,
      and the measure ends at the last point's time plus the remaining beats
      at the last tempo. */
  lemma VaryingTempoSchedule(m: MeasureRec, h: HeaderInfo, cur: real, start: real, skipZero: bool, s: Schedule, next: real)
    requires m.varyBpm && start >= 0.0
    requires ScheduleOf(m, h, cur, start, skipZero) == Success((s, next))
    ensures |s.points| == |m.bpmChannel| && s.times[0] == start
    ensures forall i :: 0 <= i < |s.points| ==> s.points[i] == Beat(i, |s.points|, m.beats)
    ensures forall i :: 1 <= i < |s.points| ==> s.times[i] == Advanced(s.times[i - 1], s.points[i - 1], s.points[i], s.tempos[i - 1])
    ensures s.end == Advanced(s.times[|s.points| - 1], s.points[|s.points| - 1], m.beats, s.tempos[|s.points| - 1])
  {
    var plan := TempoPlan(m, h, cur, skipZero).value;
    assert s == Assemble(m.beats, plan.0, plan.1, start);
    AssembledTimes(m.beats, plan.0, plan.1, start);
    forall i | 0 <= i < |s.points| ensures s.points[i] == Beat(i, |s.points|, m.beats) {
      assert s.points[i] == Points(m.beats, |m.bpmChannel|)[i];
    }
  }

  /** The last change point at or before beat `b`, searching down from `k`;
      a point exactly at `b` counts for the segment before it, which gives
      the same time. */
  function SegmentBelow(points: seq<real>, b: real, k: nat): (r: nat)
    requires k < |points|
    ensures r <= k && (r == 0 || points[r] < b)
    ensures forall j :: r < j <= k ==> points[j] >= b
  {
    if k == 0 || points[k] < b then k else SegmentBelow(points, b, k - 1)
  }

  function Segment(points: seq<real>, b: real): (r: nat)
    requires |points| >= 1
    ensures r < |points|
  {
    SegmentBelow(points, b, |points| - 1)
  }

  lemma SegmentMonotone(points: seq<real>, b: real, b': real)
    requires |points| >= 1 && b <= b'
    ensures Segment(points, b) <= Segment(points, b')
  {
  }

  /** The time of beat `b`: the time of its segment's start plus the beats
      since then at that segment's tempo. */
  function TimeAt(s: Schedule, b: real): (t: Instant)
    requires WellFormed(s) && b >= 0.0
  {
    var k := Segment(s.points, b);
    AdvancedForward(s.times[k], s.points[k], b, s.tempos[k]);
    Advanced(s.times[k], s.points[k], b, s.tempos[k])
  }

  /** The time of slot `i` of a track of `size` slots. */
  function EventTime(s: Schedule, size: nat, i: nat): Instant
    requires WellFormed(s) && i < size
  {
    BeatBounds(i, size, s.beats);
    TimeAt(s, Beat(i, size, s.beats))
  }

  /** In a measure without a tempo channel a slot sounds at
      `start + beat * 60 / bpm`. */
  lemma ConstantTempoTime(m: MeasureRec, h: HeaderInfo, cur: real, start: real, b: real)
    requires !m.varyBpm && m.beats >= 0.0 && cur > 0.0 && start >= 0.0 && b >= 0.0
    ensures ScheduleOf(m, h, cur, start, true).Success?
    ensures TimeAt(ScheduleOf(m, h, cur, start, true).value.0, b) == start + b * 60.0 / cur
  {
    ConstantTempoSchedule(m, h, cur, start, true);
  }

  /** At a change point strictly after the one before it, the time of that
      beat is the point's own time: the schedule has no jumps, so resolving
      a beat that falls exactly on a point to the earlier segment, as the
      strict comparison of parse.py:218 does, changes nothing. */
  lemma ChangePointTime(s: Schedule, k: nat)
    requires WellFormed(s) && 0 < k < |s.points| && s.points[k - 1] < s.points[k]
    requires s.times[k] == Advanced(s.times[k - 1], s.points[k - 1], s.points[k], s.tempos[k - 1])
    ensures TimeAt(s, s.points[k]) == s.times[k]
  {
    var j := Segment(s.points, s.points[k]);
    assert j < k;
    assert j == k - 1;
  }

  /** The corrected cursor: from a segment not past the right one, step
      forward while the next change point lies before `b`. */
  method Advance(points: seq<real>, b: real, c: nat) returns (c': nat)
    requires |points| >= 1 && Sorted(points) && c <= Segment(points, b)
    ensures c' == Segment(points, b)
  {
    c' := c;
    while c' + 1 < |points| && points[c' + 1] < b
      invariant c' <= Segment(points, b)
      decreases |points| - c'
    {
      c' := c' + 1;
    }
    assert forall j :: c' < j < |points| ==> points[c' + 1] <= points[j];
  }

  /** The buffer after background slots `i..` of `track` are mixed: a slot
      that is not 0 adds its clip at the sample of its time. */
  function MixSlots(audio: seq<Frame>, s: Schedule, track: seq<Slot>, i: nat, media: MediaTable, fs: nat): seq<Frame>
    requires WellFormed(s) && i <= |track|
    decreases |track| - i
  {
    if i == |track| then audio
    else
      var next := if track[i] == 0 then audio else Overlay(audio, media[track[i]], Offset(EventTime(s, |track|, i), fs));
      MixSlots(next, s, track, i + 1, media, fs)
  }

  function MixTracks(audio: seq<Frame>, s: Schedule, tracks: seq<seq<Slot>>, t: nat, media: MediaTable, fs: nat): seq<Frame>
    requires WellFormed(s) && t <= |tracks|
    decreases |tracks| - t
  {
    if t == |tracks| then audio
    else MixTracks(MixSlots(audio, s, tracks[t], 0, media, fs), s, tracks, t + 1, media, fs)
  }

  /** The notes of lane slots `i..` appended to `notes`: one per slot that is not 0. */
  function LaneNotes(notes: seq<Note>, s: Schedule, lane: seq<Slot>, i: nat): seq<Note>
    requires WellFormed(s) && i <= |lane|
    decreases |lane| - i
  {
    if i == |lane| then notes
    else
      var next := if lane[i] == 0 then notes else notes + [Note(EventTime(s, |lane|, i), lane[i])];
      LaneNotes(next, s, lane, i + 1)
  }

  function LanesFrom(lanes: NoteLanes, s: Schedule, channels: Lanes, idx: nat): NoteLanes
    requires WellFormed(s) && idx <= 8
    decreases 8 - idx
  {
    if idx == 8 then lanes
    else LanesFrom(lanes[idx := LaneNotes(lanes[idx], s, channels[idx], 0)], s, channels, idx + 1)
  }

  /** What the timeline loop carries from one measure to the next. */
  datatype ChartState = ChartState(audio: seq<Frame>, lanes: NoteLanes, cur: real, start: Instant)

  /** One pass of the measure loop (parse.py:190-239). */
  function MeasureStep(st: ChartState, m: MeasureRec, h: HeaderInfo, media: MediaTable, fs: nat): (r: Result<ChartState, ChartError>)
    ensures r.Success? <==> ScheduleOf(m, h, st.cur, st.start, true).Success?
    ensures r.Success? ==> r.value.start == ScheduleOf(m, h, st.cur, st.start, true).value.0.end
  {
    var sc :- ScheduleOf(m, h, st.cur, st.start, true);
    var s := sc.0;
    Success(ChartState(MixTracks(st.audio, s, m.bgm, 0, media, fs), LanesFrom(st.lanes, s, m.noteChannels, 0), sc.1, s.end))
  }

  function ChartFrom(st: ChartState, h: HeaderInfo, ms: seq<MeasureRec>, j: nat, media: MediaTable, fs: nat): Result<ChartState, ChartError>
    requires j <= |ms|
    decreases |ms| - j
  {
    if j == |ms| then Success(st)
    else
      var st' :- MeasureStep(st, ms[j], h, media, fs);
      ChartFrom(st', h, ms, j + 1, media, fs)
  }

  /** `BMSOnsetChart`: the background mix and the lanes of notes. */
  datatype OnsetChart = OnsetChart(audio: seq<Frame>, lanes: NoteLanes)

  /** `BMSOnsetChart(header, channels, media)`: the background buffer starts as
      one silent frame and the first measure at time 0. */
  function ChartOf(h: HeaderInfo, ms: seq<MeasureRec>, media: MediaTable, fs: nat, parseReal: string -> Option<real>)
    : Result<OnsetChart, ChartError>
  {
    var cur :- InitialTempo(h, parseReal);
    var st :- ChartFrom(ChartState([Silence], NoNotes(), cur, 0.0), h, ms, 0, media, fs);
    Success(OnsetChart(st.audio, st.lanes))
  }

  /** The schedule loop of parse.py:196-213: the change points and tempos,
      then the time of every point and of the measure's end. */
  method ComputeSchedule(m: MeasureRec, h: HeaderInfo, cur: real, start: real) returns (r: Result<(Schedule, real), ChartError>)
    requires start >= 0.0
    ensures r == ScheduleOf(m, h, cur, start, true)
  {
    var plan := PlanTempos(m, h, cur);
    if plan.Failure? {
      return Failure(plan.error);
    }
    var (points, tempos, next) := plan.value;
    if m.beats < 0.0 {
      return Failure(NegativeBeats(m.number));
    }
    if exists k :: 0 <= k < |tempos| && tempos[k] <= 0.0 {
      return Failure(NonPositiveTempo(m.number));
    }
    var times := FillTimes(points, tempos, start);
    var n := |points|;
    var s := Schedule(m.beats, points, tempos, times, Advanced(times[n - 1], points[n - 1], m.beats, tempos[n - 1]));
    assert s == Assemble(m.beats, points, tempos, start);
    return Success((s, next));
  }

  /** `bpm_change_onsets` and `bpm_list` (parse.py:196-208). */
  method PlanTempos(m: MeasureRec, h: HeaderInfo, cur: real) returns (r: Result<(seq<real>, seq<real>, real), ChartError>)
    ensures r == TempoPlan(m, h, cur, true)
  {
    if !m.varyBpm {
      return Success(([0.0], [cur], cur));
    }
    if |m.bpmChannel| == 0 {
      return Failure(EmptyTempoChannel(m.number));
    }
    var rt := ResolveTempos(h, m.number, m.bpmChannel, cur, true);
    if rt.Failure? {
      return Failure(rt.error);
    }
    return Success((Points(m.beats, |m.bpmChannel|), rt.value.0, rt.value.1));
  }

  /** `onset_beat_list`, filled in place from its second entry on (parse.py:210-212). */
  method FillTimes(points: seq<real>, tempos: seq<real>, start: real) returns (times: seq<real>)
    requires |tempos| == |points| >= 1
    requires forall k :: 0 <= k < |tempos| ==> tempos[k] > 0.0
    ensures times == Times(points, tempos, [start])
  {
    var n := |points|;
    var a := new real[n](_ => start);
    assert a[..1] == [start];
    for idx := 1 to n
      invariant Times(points, tempos, a[..idx]) == Times(points, tempos, [start])
    {
      a[idx] := Advanced(a[idx - 1], points[idx - 1], points[idx], tempos[idx - 1]);
      assert a[..idx + 1] == a[..idx] + [Advanced(a[idx - 1], points[idx - 1], points[idx], tempos[idx - 1])];
    }
    assert a[..n] == a[..];
    times := a[..];
  }

  /** One background track (parse.py:215-229) with the corrected cursor: it
      starts at the first segment for the track and is moved forward to the
      segment of each slot's beat. */
  method MixTrackInto(buf: AudioBuffer, s: Schedule, track: seq<Slot>, media: MediaTable, fs: nat)
    requires WellFormed(s)
    modifies buf, buf.frames
    ensures buf.Samples() == MixSlots(old(buf.Samples()), s, track, 0, media, fs)
    ensures buf.frames == old(buf.frames) || fresh(buf.frames)
  {
    var c := 0;
    for i := 0 to |track|
      invariant buf.frames == old(buf.frames) || fresh(buf.frames)
      invariant c < |s.points|
      invariant i < |track| ==> c <= Segment(s.points, Beat(i, |track|, s.beats))
      invariant MixSlots(buf.Samples(), s, track, i, media, fs) == MixSlots(old(buf.Samples()), s, track, 0, media, fs)
    {
      var b := Beat(i, |track|, s.beats);
      BeatBounds(i, |track|, s.beats);
      c := Advance(s.points, b, c);
      AdvancedForward(s.times[c], s.points[c], b, s.tempos[c]);
      var t: Instant := Advanced(s.times[c], s.points[c], b, s.tempos[c]);
      assert t == EventTime(s, |track|, i);
      if track[i] != 0 {
        buf.Mix(media[track[i]], Offset(t, fs));
      }
      if i + 1 < |track| {
        BeatMonotone(i, i + 1, |track|, s.beats);
        SegmentMonotone(s.points, b, Beat(i + 1, |track|, s.beats));
      }
    }
  }

  /** One visible lane (parse.py:231-239) with the corrected cursor. */
  method LaneInto(notes: seq<Note>, s: Schedule, lane: seq<Slot>) returns (out: seq<Note>)
    requires WellFormed(s)
    ensures out == LaneNotes(notes, s, lane, 0)
  {
    out := notes;
    var c := 0;
    for i := 0 to |lane|
      invariant c < |s.points|
      invariant i < |lane| ==> c <= Segment(s.points, Beat(i, |lane|, s.beats))
      invariant LaneNotes(out, s, lane, i) == LaneNotes(notes, s, lane, 0)
    {
      var b := Beat(i, |lane|, s.beats);
      BeatBounds(i, |lane|, s.beats);
      c := Advance(s.points, b, c);
      AdvancedForward(s.times[c], s.points[c], b, s.tempos[c]);
      var t: Instant := Advanced(s.times[c], s.points[c], b, s.tempos[c]);
      assert t == EventTime(s, |lane|, i);
      if lane[i] != 0 {
        out := out + [Note(t, lane[i])];
      }
      if i + 1 < |lane| {
        BeatMonotone(i, i + 1, |lane|, s.beats);
        SegmentMonotone(s.points, b, Beat(i + 1, |lane|, s.beats));
      }
    }
  }

  /** The background tracks of one measure, in order (parse.py:215). */
  method MixTracksInto(buf: AudioBuffer, s: Schedule, tracks: seq<seq<Slot>>, media: MediaTable, fs: nat)
    requires WellFormed(s)
    modifies buf, buf.frames
    ensures buf.Samples() == MixTracks(old(buf.Samples()), s, tracks, 0, media, fs)
    ensures buf.frames == old(buf.frames) || fresh(buf.frames)
  {
    for t := 0 to |tracks|
      invariant buf.frames == old(buf.frames) || fresh(buf.frames)
      invariant MixTracks(buf.Samples(), s, tracks, t, media, fs) == MixTracks(old(buf.Samples()), s, tracks, 0, media, fs)
    {
      MixTrackInto(buf, s, tracks[t], media, fs);
    }
  }

  /** The eight lanes of one measure, in order (parse.py:231). */
  method LanesInto(lanes: NoteLanes, s: Schedule, channels: Lanes) returns (out: NoteLanes)
    requires WellFormed(s)
    ensures out == LanesFrom(lanes, s, channels, 0)
  {
    out := lanes;
    for idx := 0 to 8
      invariant LanesFrom(out, s, channels, idx) == LanesFrom(lanes, s, channels, 0)
    {
      var notes := LaneInto(out[idx], s, channels[idx]);
      out := out[idx := notes];
    }
  }

  /** `BMSOnsetChart.__init__`: the measure loop, mixing the background
      tracks into one buffer in place and collecting the lane notes. */
  method BuildChart(h: HeaderInfo, ms: seq<MeasureRec>, media: MediaTable, fs: nat, parseReal: string -> Option<real>)
    returns (r: Result<OnsetChart, ChartError>)
    ensures r == ChartOf(h, ms, media, fs, parseReal)
  {
    var tempo := InitialTempo(h, parseReal);
    if tempo.Failure? {
      return Failure(tempo.error);
    }
    var buf := new AudioBuffer([Silence]);
    var cur := tempo.value;
    var start: Instant := 0.0;
    var lanes: NoteLanes := NoNotes();
    for j := 0 to |ms|
      invariant fresh(buf) && fresh(buf.frames)
      invariant ChartFrom(ChartState(buf.Samples(), lanes, cur, start), h, ms, j, media, fs) ==
                ChartFrom(ChartState([Silence], NoNotes(), tempo.value, 0.0), h, ms, 0, media, fs)
    {
      var m := ms[j];
      var sr := ComputeSchedule(m, h, cur, start);
      if sr.Failure? {
        return Failure(sr.error);
      }
      var s := sr.value.0;
      MixTracksInto(buf, s, m.bgm, media, fs);
      lanes := LanesInto(lanes, s, m.noteChannels);
      cur := sr.value.1;
      start := s.end;
    }
    return Success(OnsetChart(buf.Samples(), lanes));
  }

  /** The mix after notes `i..` of one lane are added at the samples of their onsets. */
  function MixNotes(audio: seq<Frame>, notes: seq<Note>, i: nat, media: MediaTable, fs: nat): seq<Frame>
    requires i <= |notes|
    decreases |notes| - i
  {
    if i == |notes| then audio
    else MixNotes(Overlay(audio, media[notes[i].audio], Offset(notes[i].onset, fs)), notes, i + 1, media, fs)
  }

  function MixLanes(audio: seq<Frame>, lanes: seq<seq<Note>>, l: nat, media: MediaTable, fs: nat): seq<Frame>
    requires l <= |lanes|
    decreases |lanes| - l
  {
    if l == |lanes| then audio
    else MixLanes(MixNotes(audio, lanes[l], 0, media, fs), lanes, l + 1, media, fs)
  }

  /** What `gen_audio` writes: the lane notes, lane by lane, mixed onto the
      background mix. */
  function Rendered(chart: OnsetChart, media: MediaTable, fs: nat): seq<Frame> {
    MixLanes(chart.audio, chart.lanes, 0, media, fs)
  }

  /** `gen_audio` up to the file write: the notes are mixed into a copy of
      the background buffer, so the chart's own buffer stays as it was. */
  method GenAudio(chart: OnsetChart, media: MediaTable, fs: nat) returns (out: seq<Frame>)
    ensures out == Rendered(chart, media, fs)
  {
    var buf := new AudioBuffer(chart.audio);
    for l := 0 to 8
      invariant fresh(buf) && fresh(buf.frames)
      invariant MixLanes(buf.Samples(), chart.lanes, l, media, fs) == Rendered(chart, media, fs)
    {
      var lane := chart.lanes[l];
      for k := 0 to |lane|
        invariant fresh(buf) && fresh(buf.frames)
        invariant MixLanes(MixNotes(buf.Samples(), lane, k, media, fs), chart.lanes, l + 1, media, fs) == Rendered(chart, media, fs)
      {
        buf.Mix(media[lane[k].audio], Offset(lane[k].onset, fs));
      }
    }
    out := buf.Samples();
  }

  /** A measure without a tempo channel starts the next one `beats * 60 / bpm`
      seconds later and leaves the tempo as it was. */
  lemma ConstantTempoNextStart(st: ChartState, m: MeasureRec, h: HeaderInfo, media: MediaTable, fs: nat)
    requires !m.varyBpm && m.beats >= 0.0 && st.cur > 0.0
    ensures MeasureStep(st, m, h, media, fs).Success?
    ensures MeasureStep(st, m, h, media, fs).value.start == st.start + m.beats * 60.0 / st.cur
    ensures MeasureStep(st, m, h, media, fs).value.cur == st.cur
  {
    ConstantTempoSchedule(m, h, st.cur, st.start, true);
  }

  /** Four beats at 120 beats per minute last two seconds. */
  lemma FourBeatsAt120(m: MeasureRec, h: HeaderInfo, start: real)
    requires !m.varyBpm && m.beats == 4.0 && start >= 0.0
    ensures ScheduleOf(m, h, 120.0, start, true).Success?
    ensures ScheduleOf(m, h, 120.0, start, true).value.0.end == start + 2.0
  {
    ConstantTempoSchedule(m, h, 120.0, start, true);
  }

  /** A track whose slots from `i` on are all 0 mixes nothing. */
  lemma {:induction false} ZeroSlotsMixNothing(audio: seq<Frame>, s: Schedule, track: seq<Slot>, i: nat, media: MediaTable, fs: nat)
    requires WellFormed(s) && i <= |track|
    requires forall k :: i <= k < |track| ==> track[k] == 0
    ensures MixSlots(audio, s, track, i, media, fs) == audio
    decreases |track| - i
  {
    if i < |track| {
      ZeroSlotsMixNothing(audio, s, track, i + 1, media, fs);
    }
  }

  /** The number of slots from `i` on that are not 0. */
  function CountNotes(lane: seq<Slot>, i: nat): nat
    requires i <= |lane|
    decreases |lane| - i
  {
    if i == |lane| then 0 else (if lane[i] == 0 then 0 else 1) + CountNotes(lane, i + 1)
  }

  /** A lane keeps its earlier notes and gains exactly one note per slot that
      is not 0, none of them silent (`LaneNoteOfSlot` says which note a slot
      adds). */
  lemma {:induction false} LaneNotesShape(notes: seq<Note>, s: Schedule, lane: seq<Slot>, i: nat)
    requires WellFormed(s) && i <= |lane|
    ensures var r := LaneNotes(notes, s, lane, i);
      |r| == |notes| + CountNotes(lane, i) && r[..|notes|] == notes &&
      forall k :: |notes| <= k < |r| ==> r[k].audio != 0
    decreases |lane| - i
  {
    if i < |lane| {
      var next := if lane[i] == 0 then notes else notes + [Note(EventTime(s, |lane|, i), lane[i])];
      LaneNotesShape(next, s, lane, i + 1);
      var r := LaneNotes(next, s, lane, i + 1);
      assert r[..|next|] == next;
      assert r[..|notes|] == next[..|notes|];
    }
  }

  /** The first note a non-zero slot adds: at the front of what the lane gains. */
  lemma LaneNoteOfSlot(notes: seq<Note>, s: Schedule, lane: seq<Slot>, i: nat)
    requires WellFormed(s) && i < |lane| && lane[i] != 0
    ensures var r := LaneNotes(notes, s, lane, i);
      |r| > |notes| && r[|notes|] == Note(EventTime(s, |lane|, i), lane[i])
  {
    var next := notes + [Note(EventTime(s, |lane|, i), lane[i])];
    LaneNotesShape(next, s, lane, i + 1);
    var r := LaneNotes(next, s, lane, i + 1);
    assert r[..|next|] == next;
    assert r[|notes|] == next[|notes|];
  }

  /** Lane `l` of the chart gains notes only from note channel `l` of the measure. */
  lemma {:induction false} LanesRouted(lanes: NoteLanes, s: Schedule, channels: Lanes, idx: nat, l: nat)
    requires WellFormed(s) && idx <= 8 && l < 8
    ensures LanesFrom(lanes, s, channels, idx)[l] == if l < idx then lanes[l] else LaneNotes(lanes[l], s, channels[l], 0)
    decreases 8 - idx
  {
    if idx < 8 {
      LanesRouted(lanes[idx := LaneNotes(lanes[idx], s, channels[idx], 0)], s, channels, idx + 1, l);
    }
  }

  /** Mixing notes never shortens the buffer, and the buffer ends up long
      enough for every note's clip at its offset. */
  lemma {:induction false} MixNotesCovers(audio: seq<Frame>, notes: seq<Note>, i: nat, media: MediaTable, fs: nat)
    requires i <= |notes|
    ensures var r := MixNotes(audio, notes, i, media, fs);
      |r| >= |audio| &&
      forall k :: i <= k < |notes| ==> |r| >= Offset(notes[k].onset, fs) + |media[notes[k].audio]|
    decreases |notes| - i
  {
    if i < |notes| {
      MixNotesCovers(Overlay(audio, media[notes[i].audio], Offset(notes[i].onset, fs)), notes, i + 1, media, fs);
    }
  }

  lemma {:induction false} MixLanesCovers(audio: seq<Frame>, lanes: seq<seq<Note>>, l: nat, media: MediaTable, fs: nat)
    requires l <= |lanes|
    ensures var r := MixLanes(audio, lanes, l, media, fs);
      |r| >= |audio| &&
      forall j, k :: l <= j < |lanes| && 0 <= k < |lanes[j]| ==>
        |r| >= Offset(lanes[j][k].onset, fs) + |media[lanes[j][k].audio]|
    decreases |lanes| - l
  {
    if l < |lanes| {
      var mid := MixNotes(audio, lanes[l], 0, media, fs);
      MixNotesCovers(audio, lanes[l], 0, media, fs);
      MixLanesCovers(mid, lanes, l + 1, media, fs);
    }
  }

  /** The rendered audio is at least as long as the background mix and
      reaches the end of every note's clip. */
  lemma RenderCoversNotes(chart: OnsetChart, media: MediaTable, fs: nat)
    ensures |Rendered(chart, media, fs)| >= |chart.audio|
    ensures forall j, k :: 0 <= j < 8 && 0 <= k < |chart.lanes[j]| ==>
      |Rendered(chart, media, fs)| >= Offset(chart.lanes[j][k].onset, fs) + |media[chart.lanes[j][k].audio]|
  {
    MixLanesCovers(chart.audio, chart.lanes, 0, media, fs);
  }

  /** A chart without notes renders to its background mix unchanged. */
  lemma {:induction false} NoNotesRenderBackground(audio: seq<Frame>, lanes: seq<seq<Note>>, l: nat, media: MediaTable, fs: nat)
    requires l <= |lanes| && forall j :: l <= j < |lanes| ==> lanes[j] == []
    ensures MixLanes(audio, lanes, l, media, fs) == audio
    decreases |lanes| - l
  {
    if l < |lanes| {
      NoNotesRenderBackground(audio, lanes, l + 1, media, fs);
    }
  }

  /** Every token made only of zeros reads as the number 0 in any base. */
  lemma {:induction false} ZeroTokenValue(t: string, base: nat)
    requires 2 <= base <= 36 && IsZeroToken(t)
    ensures ParseDigits(t, base) == Some(0)
    decreases |t|
  {
    if |t| > 1 {
      ZeroTokenValue(t[..|t| - 1], base);
    }
  }

  /** As written, a zero token in a hexadecimal tempo channel sets the tempo
      to 0 and the measure cannot be timed. */
  lemma AsWrittenZeroTokenFails(m: MeasureRec, h: HeaderInfo, cur: real, start: real, k: nat)
    requires m.varyBpm && !h.useBpmList && start >= 0.0 && k < |m.bpmChannel| && IsZeroToken(m.bpmChannel[k])
    ensures ScheduleOf(m, h, cur, start, false).Failure?
  {
    ZeroTokenValue(m.bpmChannel[k], 16);
    var rt := ResolveFrom(h, m.number, m.bpmChannel, 0, cur, [], false);
    if rt.Success? {
      ResolvedEntries(h, m.number, m.bpmChannel, 0, cur, [], false);
      assert rt.value.0[k] == 0.0;
    }
  }

  /** Corrected, a zero token keeps the tempo before it. */
  lemma CorrectedZeroTokenKeepsTempo(m: MeasureRec, h: HeaderInfo, cur: real, k: nat)
    requires m.varyBpm && 0 < k < |m.bpmChannel| && IsZeroToken(m.bpmChannel[k])
    requires ResolveFrom(h, m.number, m.bpmChannel, 0, cur, [], true).Success?
    ensures var t := ResolveFrom(h, m.number, m.bpmChannel, 0, cur, [], true).value.0;
      t[k] == t[k - 1]
  {
    ResolvedEntries(h, m.number, m.bpmChannel, 0, cur, [], true);
  }

  /** parse.py:217-221 and 233-236 as written: the times of a measure's slots,
      taken in the order the loops visit them, with one cursor shared by every
      background track and every lane of the measure, never reset and moved
      forward at most one segment per slot. */
  function SharedCursorTimes(s: Schedule, beats: seq<real>, idx: nat): (r: seq<real>)
    requires WellFormed(s) && idx < |s.points|
    ensures |r| == |beats|
  {
    if beats == [] then []
    else
      var c := if idx + 1 < |s.points| && s.points[idx + 1] < beats[0] then idx + 1 else idx;
      [Advanced(s.times[c], s.points[c], beats[0], s.tempos[c])] + SharedCursorTimes(s, beats[1..], c)
  }

  /** With one tempo segment the shared cursor never moves and its times
      agree with the schedule. */
  lemma {:induction false} SharedCursorConstantTempo(s: Schedule, beats: seq<real>)
    requires WellFormed(s) && |s.points| == 1
    requires forall k :: 0 <= k < |beats| ==> beats[k] >= 0.0
    ensures forall k :: 0 <= k < |beats| ==> SharedCursorTimes(s, beats, 0)[k] == TimeAt(s, beats[k])
    decreases |beats|
  {
    if beats != [] {
      SharedCursorConstantTempo(s, beats[1..]);
      var r := SharedCursorTimes(s, beats, 0);
      assert r[1..] == SharedCursorTimes(s, beats[1..], 0);
      forall k | 0 <= k < |beats| ensures r[k] == TimeAt(s, beats[k]) {
        if k > 0 {
          assert r[k] == r[1..][k - 1] && beats[k] == beats[1..][k - 1];
        }
      }
    }
  }

  /** The tempo channel `78F0` in hexadecimal: 120 beats per minute for the
      first two beats of a four-beat measure, then 240. */
  const TwoTempos: Schedule := Schedule(4.0, [0.0, 2.0], [120.0, 240.0], [0.0, 1.0], 1.5)

  lemma TwoTemposTokens()
    ensures Hex("78") == Some(120) && Hex("F0") == Some(240)
  {
    ParseTwoDigits("78", 16);
    ParseTwoDigits("F0", 16);
  }

  /** The measure `#00103:78F0` of four beats at time 0 has that schedule. */
  lemma TwoTemposSchedule(m: MeasureRec, h: HeaderInfo, cur: real)
    requires m.varyBpm && m.bpmChannel == ["78", "F0"] && m.beats == 4.0 && !h.useBpmList
    ensures ScheduleOf(m, h, cur, 0.0, true) == Success((TwoTempos, 240.0))
  {
    var toks := m.bpmChannel;
    TwoTemposTokens();
    assert !IsZeroToken(toks[0]) && !IsZeroToken(toks[1]);
    assert TokenTempo(h, m.number, toks[0]) == Success(120.0);
    assert TokenTempo(h, m.number, toks[1]) == Success(240.0);
    assert [120.0] + [240.0] == [120.0, 240.0];
    assert ResolveFrom(h, m.number, toks, 2, 240.0, [120.0, 240.0], true) == Success(([120.0, 240.0], 240.0));
    assert ResolveFrom(h, m.number, toks, 1, 120.0, [120.0], true) == ResolveFrom(h, m.number, toks, 2, 240.0, [120.0] + [240.0], true);
    assert [] + [120.0] == [120.0];
    assert ResolveFrom(h, m.number, toks, 0, cur, [], true) == ResolveFrom(h, m.number, toks, 1, 120.0, [] + [120.0], true);
    assert Points(4.0, 2) == [0.0, 2.0];
    assert Times([0.0, 2.0], [120.0, 240.0], [0.0]) == [0.0, 1.0];
  }

  lemma TwoTemposWellFormed()
    ensures WellFormed(TwoTempos)
  {
  }

  /** Lane 11 holding `00000001` (slots at beats 0, 1, 2, 3) and lane 12 holding
      `01` (one slot at beat 0) in that measure: the shared cursor has moved to
      the second segment by the time lane 12 is read, so parse.py places
      lane 12's note at 0.5 s, although beat 0 of the measure is at 0 s. */
  lemma SharedCursorMisplacesNote()
    ensures WellFormed(TwoTempos)
    ensures Beat(0, 4, 4.0) == 0.0 && Beat(1, 4, 4.0) == 1.0 && Beat(2, 4, 4.0) == 2.0 && Beat(3, 4, 4.0) == 3.0 && Beat(0, 1, 4.0) == 0.0
    ensures SharedCursorTimes(TwoTempos, [0.0, 1.0, 2.0, 3.0, 0.0], 0)[4] == 0.5
    ensures TimeAt(TwoTempos, 0.0) == 0.0
  {
    TwoTemposWellFormed();
    FourSlotBeats();
    SharedCursorChain();
    TwoTemposAtZero();
  }

  lemma FourSlotBeats()
    ensures Beat(0, 4, 4.0) == 0.0 && Beat(1, 4, 4.0) == 1.0 && Beat(2, 4, 4.0) == 2.0 && Beat(3, 4, 4.0) == 3.0 && Beat(0, 1, 4.0) == 0.0
  {
  }

  lemma TwoTemposAtZero()
    ensures WellFormed(TwoTempos) && TimeAt(TwoTempos, 0.0) == 0.0
  {
    TwoTemposWellFormed();
    assert Segment(TwoTempos.points, 0.0) == 0;
  }

  lemma SharedCursorChain()
    ensures WellFormed(TwoTempos)
    ensures SharedCursorTimes(TwoTempos, [0.0, 1.0, 2.0, 3.0, 0.0], 0)[4] == 0.5
  {
    TwoTemposWellFormed();
    var s := TwoTempos;
    var b := [0.0, 1.0, 2.0, 3.0, 0.0];
    assert b[1..] == [1.0, 2.0, 3.0, 0.0] && b[2..] == [2.0, 3.0, 0.0] && b[3..] == [3.0, 0.0] && b[4..] == [0.0];
    var r4 := SharedCursorTimes(s, b[4..], 1);
    CursorStep(s, b[4..], 1, 0.5);
    assert r4[0] == 0.5;
    CursorStep(s, b[3..], 0, 1.25);
    assert SharedCursorTimes(s, b[3..], 0)[1] == 0.5;
    CursorStep(s, b[2..], 0, 1.0);
    assert SharedCursorTimes(s, b[2..], 0)[2] == 0.5;
    CursorStep(s, b[1..], 0, 0.5);
    assert SharedCursorTimes(s, b[1..], 0)[3] == 0.5;
    CursorStep(s, b, 0, 0.0);
  }

  lemma CursorStep(s: Schedule, beats: seq<real>, idx: nat, t: real)
    requires WellFormed(s) && idx < |s.points| && beats != []
    requires var c := if idx + 1 < |s.points| && s.points[idx + 1] < beats[0] then idx + 1 else idx;
      Advanced(s.times[c], s.points[c], beats[0], s.tempos[c]) == t
    ensures var c := if idx + 1 < |s.points| && s.points[idx + 1] < beats[0] then idx + 1 else idx;
      SharedCursorTimes(s, beats, idx) == [t] + SharedCursorTimes(s, beats[1..], c)
  {
  }

  /** As written, the measure `#00103:7800` in hexadecimal resolves to the
      tempos 120 and 0, and the measure cannot be timed; corrected, the zero
      token keeps 120. */
  lemma ZeroTokenExample(m: MeasureRec, h: HeaderInfo, cur: real)
    requires m.varyBpm && m.bpmChannel == ["78", "00"] && !h.useBpmList
    ensures ResolveFrom(h, m.number, m.bpmChannel, 0, cur, [], false) == Success(([120.0, 0.0], 0.0))
    ensures ResolveFrom(h, m.number, m.bpmChannel, 0, cur, [], true) == Success(([120.0, 120.0], 120.0))
  {
    var toks := m.bpmChannel;
    TwoTemposTokens();
    ZeroTokenValue(toks[1], 16);
    assert !IsZeroToken(toks[0]) && IsZeroToken(toks[1]);
    assert TokenTempo(h, m.number, toks[0]) == Success(120.0);
    assert TokenTempo(h, m.number, toks[1]) == Success(0.0);
    assert [] + [120.0] == [120.0] && [120.0] + [0.0] == [120.0, 0.0] && [120.0] + [120.0] == [120.0, 120.0];
    assert ResolveFrom(h, m.number, toks, 2, 0.0, [120.0, 0.0], false) == Success(([120.0, 0.0], 0.0));
    assert ResolveFrom(h, m.number, toks, 1, 120.0, [120.0], false) == ResolveFrom(h, m.number, toks, 2, 0.0, [120.0] + [0.0], false);
    assert ResolveFrom(h, m.number, toks, 0, cur, [], false) == ResolveFrom(h, m.number, toks, 1, 120.0, [] + [120.0], false);
    assert ResolveFrom(h, m.number, toks, 2, 120.0, [120.0, 120.0], true) == Success(([120.0, 120.0], 120.0));
    assert ResolveFrom(h, m.number, toks, 1, 120.0, [120.0], true) == ResolveFrom(h, m.number, toks, 2, 120.0, [120.0] + [120.0], true);
    assert ResolveFrom(h, m.number, toks, 0, cur, [], true) == ResolveFrom(h, m.number, toks, 1, 120.0, [] + [120.0], true);
  }
}
