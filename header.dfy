/** The header extractor (parse.py:49-88): every line of the form
    `#COMMAND value` is matched, the command picks a header field, and the
    indexed-tempo commands `#BPMxx` fill a table of 1296 tempos. */
module Header {
  import opened Text

  /** The named header fields, in the order the source tests them. */
  datatype HeaderKey = Player | Rank | Total | StageFile | PlayLevel | Difficulty
                     | Title | Subtitle | Artist | Subartist | Genre | Bpm

  /** The command string each field is compared against. The play level is
      compared against a name with a space in it. */
  function KeyName(k: HeaderKey): string {
    match k
    case Player => "PLAYER"
    case Rank => "RANK"
    case Total => "TOTAL"
    case StageFile => "STAGEFILE"
    case PlayLevel => "PLAY LEVEL"
    case Difficulty => "DIFFICULTY"
    case Title => "TITLE"
    case Subtitle => "SUBTITLE"
    case Artist => "ARTIST"
    case Subartist => "SUBARTIST"
    case Genre => "GENRE"
    case Bpm => "BPM"
  }

  /** The fields in the order the `elif` chain tests them. */
  const Keys: seq<HeaderKey> :=
    [Player, Rank, Total, StageFile, PlayLevel, Difficulty, Title, Subtitle, Artist, Subartist, Genre, Bpm]

  /** The field a command sets (compared case-sensitively): the first one
      of `keys` whose name is the command. */
  function FindKey(command: string, keys: seq<HeaderKey>): (r: Option<HeaderKey>)
    ensures r.Some? ==> r.value in keys && KeyName(r.value) == command
    ensures r.None? ==> forall i :: 0 <= i < |keys| ==> KeyName(keys[i]) != command
  {
    if keys == [] then None
    else if KeyName(keys[0]) == command then Some(keys[0])
    else FindKey(command, keys[1..])
  }

  function KeyOf(command: string): Option<HeaderKey> {
    FindKey(command, Keys)
  }

  /** No named field's command starts with `BPM` except `BPM` itself. */
  lemma TempoCommandIsNoKey(command: string)
    requires StartsWith(command, "BPM") && command != "BPM"
    ensures KeyOf(command).None?
  {
    assert command[..3] == "BPM";
    assert command[0] == 'B' && command[1] == 'P' && command[2] == 'M' && |command| > 3;
    forall i | 0 <= i < |Keys|
      ensures KeyName(Keys[i]) != command
    {
      var n := KeyName(Keys[i]);
      assert n == "BPM" || n[0] != 'B';
    }
    NotFound(command, Keys);
  }

  lemma {:induction false} NotFound(command: string, keys: seq<HeaderKey>)
    requires forall i :: 0 <= i < |keys| ==> KeyName(keys[i]) != command
    ensures FindKey(command, keys).None?
    decreases |keys|
  {
    if keys != [] {
      NotFound(command, keys[1..]);
    }
  }

  lemma BpmKey()
    ensures KeyOf("BPM") == Some(Bpm)
  {
    KeyOfName(Bpm);
    assert KeyName(Bpm) == "BPM";
  }

  /** The field names are distinct, so every field is found under its own name. */
  lemma KeyOfName(k: HeaderKey)
    ensures KeyOf(KeyName(k)) == Some(k)
  {
    var i := KeyIndex(k);
    forall j | 0 <= j < i
      ensures KeyName(Keys[j]) != KeyName(k)
    {
      NamesDiffer(Keys[j], k);
    }
    FoundAt(KeyName(k), Keys, i);
  }

  function KeyIndex(k: HeaderKey): (i: nat)
    ensures i < |Keys| && Keys[i] == k
  {
    match k
    case Player => 0 case Rank => 1 case Total => 2 case StageFile => 3
    case PlayLevel => 4 case Difficulty => 5 case Title => 6 case Subtitle => 7
    case Artist => 8 case Subartist => 9 case Genre => 10 case Bpm => 11
  }

  lemma NamesDiffer(a: HeaderKey, b: HeaderKey)
    requires a != b
    ensures KeyName(a) != KeyName(b)
  {
    var x, y := KeyName(a), KeyName(b);
    assert |x| >= 2 && |y| >= 2;
    if |x| == |y| {
      assert x[0] != y[0] || x[1] != y[1];
    }
  }

  lemma {:induction false} FoundAt(command: string, keys: seq<HeaderKey>, i: nat)
    requires i < |keys| && KeyName(keys[i]) == command
    requires forall j :: 0 <= j < i ==> KeyName(keys[j]) != command
    ensures FindKey(command, keys) == Some(keys[i])
    decreases i
  {
    if i > 0 {
      FoundAt(command, keys[1..], i - 1);
    }
  }

  /** The pattern `#(\w+)(?:\s+(\S.*))?$` anchored at the start of the line:
      the command, and the value when there is one. `.` stops at a newline
      and `$` also matches in front of one final newline. */
  function HeaderMatch(line: string): (r: Option<(string, Option<string>)>)
    ensures r.Some? ==> |r.value.0| > 0 && forall i :: 0 <= i < |r.value.0| ==> IsWordChar(r.value.0[i])
    ensures r.Some? && r.value.1.Some? ==>
      |r.value.1.value| > 0 && !IsSpace(r.value.1.value[0]) && '\n' !in r.value.1.value
  {
    if |line| == 0 || line[0] != '#' then None
    else
      var body := line[1..];
      var command := WordRun(body);
      if |command| == 0 then None
      else
        var rest := body[|command|..];
        var gap := SpaceRun(rest);
        var tail := rest[|gap|..];
        var value := DropNewline(tail);
        if |gap| > 0 && |tail| > 0 && '\n' !in value then
          assert value[0] == tail[0];
          Some((command, Some(value)))
        else if rest == "" || rest == "\n" then Some((command, None))
        else None
  }

  /** A header line written out as `#command value` with its newline matches
      back to the same command and value. */
  lemma {:induction false} HeaderLineRoundTrip(command: string, value: string)
    requires |command| > 0 && forall i :: 0 <= i < |command| ==> IsWordChar(command[i])
    requires |value| > 0 && !IsSpace(value[0]) && '\n' !in value
    ensures HeaderMatch("#" + command + " " + value + "\n") == Some((command, Some(value)))
  {
    var line := "#" + command + " " + value + "\n";
    var body := line[1..];
    assert body == command + (" " + value + "\n");
    WordRunOf(command, " " + value + "\n");
    var rest := body[|command|..];
    assert rest == " " + value + "\n";
    SpaceRunOf(" ", value + "\n");
    assert rest[1..] == value + "\n";
    assert DropNewline(value + "\n") == value;
  }

  /** A bare `#command` line matches with no value. */
  lemma BareCommand(command: string)
    requires |command| > 0 && forall i :: 0 <= i < |command| ==> IsWordChar(command[i])
    ensures HeaderMatch("#" + command + "\n") == Some((command, None))
  {
    var line := "#" + command + "\n";
    assert line[1..] == command + "\n";
    WordRunOf(command, "\n");
    assert (command + "\n")[|command|..] == "\n";
  }

  lemma {:induction false} WordRunOf(w: string, rest: string)
    requires forall i :: 0 <= i < |w| ==> IsWordChar(w[i])
    requires rest == [] || !IsWordChar(rest[0])
    ensures WordRun(w + rest) == w
    decreases |w|
  {
    if w == [] {
      assert w + rest == rest;
    } else {
      assert (w + rest)[1..] == w[1..] + rest;
      WordRunOf(w[1..], rest);
      assert [w[0]] + w[1..] == w;
    }
  }

  lemma {:induction false} SpaceRunOf(sp: string, rest: string)
    requires forall i :: 0 <= i < |sp| ==> IsSpace(sp[i])
    requires rest == [] || !IsSpace(rest[0])
    ensures SpaceRun(sp + rest) == sp
    decreases |sp|
  {
    if sp == [] {
      assert sp + rest == rest;
    } else {
      assert (sp + rest)[1..] == sp[1..] + rest;
      SpaceRunOf(sp[1..], rest);
      assert [sp[0]] + sp[1..] == sp;
    }
  }

  /** The header as the object's attributes stand: the named fields that
      have been set (an attribute never assigned is absent, one assigned
      from a line without a value maps to None), the indexed-tempo table of
      `np.empty(36 ** 2)` (None for an entry no line has written) and
      `use_bpm_list`. */
  datatype HeaderInfo = HeaderInfo(fields: map<HeaderKey, Option<string>>, bpmTable: TempoTable, useBpmList: bool)

  /** One tempo entry per slot. */
  type TempoTable = t: seq<Option<real>> | |t| == 1296 witness NoTempos()

  /** The table before any `#BPMxx` line: no entry written. */
  function NoTempos(): (t: seq<Option<real>>)
    ensures |t| == SlotCount && forall i :: 0 <= i < |t| ==> t[i].None?
  {
    seq(SlotCount, i => None)
  }

  const EmptyHeader: HeaderInfo := HeaderInfo(map[], NoTempos(), false)

  /** `float(value)` raised, or a `#BPMxx` command's last two characters are
      not a base-36 number. */
  datatype HeaderError = BadTempoValue(line: string) | BadTempoIndex(line: string)

  /** The slot a `#BPMxx` command writes: its last two characters in base 36. */
  function TempoIndex(command: string): Option<Slot>
    requires |command| >= 2
  {
    Base36Token(command[|command| - 2..])
  }

  /** One line's effect on the header. `parseReal` stands for `float`. An
      indexed-tempo line evaluates `float(value)` before the index, as the
      assignment does. */
  function ApplyLine(h: HeaderInfo, line: string, parseReal: string -> Option<real>): Result<HeaderInfo, HeaderError> {
    match HeaderMatch(line)
    case None => Success(h)
    case Some(m) => ApplyCommand(h, line, m.0, m.1, parseReal)
  }

  /** The dispatch on a matched command and its value. */
  function ApplyCommand(h: HeaderInfo, line: string, command: string, value: Option<string>,
                        parseReal: string -> Option<real>): Result<HeaderInfo, HeaderError> {
    match KeyOf(command)
    case Some(k) => Success(h.(fields := h.fields[k := value]))
    case None =>
      if !StartsWith(command, "BPM") then Success(h)
      else if value.None? || parseReal(value.value).None? then Failure(BadTempoValue(line))
      else match TempoIndex(command)
        case None => Failure(BadTempoIndex(line))
        case Some(i) => Success(h.(bpmTable := h.bpmTable[i := parseReal(value.value)], useBpmList := true))
  }

  /** The header after the lines `lines`, processed first to last from `h`. */
  function HeaderFrom(h: HeaderInfo, lines: seq<string>, parseReal: string -> Option<real>): Result<HeaderInfo, HeaderError>
    decreases |lines|
  {
    if lines == [] then Success(h)
    else
      var next :- ApplyLine(h, lines[0], parseReal);
      HeaderFrom(next, lines[1..], parseReal)
  }

  function HeaderOf(lines: seq<string>, parseReal: string -> Option<real>): Result<HeaderInfo, HeaderError> {
    HeaderFrom(EmptyHeader, lines, parseReal)
  }

  /** `BMSHeader.__init__`: one pass over the lines, setting fields and
      writing the tempo table in place. */
  method ExtractHeader(lines: seq<string>, parseReal: string -> Option<real>) returns (r: Result<HeaderInfo, HeaderError>)
    ensures r == HeaderOf(lines, parseReal)
  {
    var table := new Option<real>[SlotCount](_ => None);
    var fields: map<HeaderKey, Option<string>> := map[];
    var useBpmList := false;
    assert table[..] == EmptyHeader.bpmTable;
    assert lines[0..] == lines;
    for i := 0 to |lines|
      invariant HeaderFrom(HeaderInfo(fields, table[..], useBpmList), lines[i..], parseReal) == HeaderOf(lines, parseReal)
    {
      ghost var h := HeaderInfo(fields, table[..], useBpmList);
      assert lines[i..][0] == lines[i] && lines[i..][1..] == lines[i + 1..];
      var line := lines[i];
      var m := HeaderMatch(line);
      if m.Some? {
        var (command, value) := m.value;
        var k := KeyOf(command);
        if k.Some? {
          fields := fields[k.value := value];
        } else if StartsWith(command, "BPM") {
          if value.None? || parseReal(value.value).None? {
            assert ApplyLine(h, line, parseReal) == Failure(BadTempoValue(line));
            return Failure(BadTempoValue(line));
          }
          var tempo := parseReal(value.value);
          var index := TempoIndex(command);
          if index.None? {
            assert ApplyLine(h, line, parseReal) == Failure(BadTempoIndex(line));
            return Failure(BadTempoIndex(line));
          }
          table[index.value] := tempo;
          useBpmList := true;
        }
      }
      assert ApplyLine(h, line, parseReal) == Success(HeaderInfo(fields, table[..], useBpmList));
    }
    assert lines[|lines|..] == [];
    r := Success(HeaderInfo(fields, table[..], useBpmList));
  }

  /** A `#BPMxx v` line whose value `float` accepts stores that tempo at slot
      36 * x1 + x2 (always below 1296) and turns the table on; nothing else
      changes. */
  lemma IndexedTempoStores(h: HeaderInfo, line: string, parseReal: string -> Option<real>, command: string, value: string)
    requires HeaderMatch(line) == Some((command, Some(value)))
    requires StartsWith(command, "BPM") && command != "BPM"
    requires parseReal(value).Some?
    requires IsDigitIn(command[|command| - 2], 36) && IsDigitIn(command[|command| - 1], 36)
    ensures var i := 36 * DigitValue(command[|command| - 2]).value + DigitValue(command[|command| - 1]).value;
      i < SlotCount &&
      ApplyLine(h, line, parseReal) ==
        Success(HeaderInfo(h.fields, h.bpmTable[i := parseReal(value)], true))
  {
    TempoIndexDigits(command);
    var i := 36 * DigitValue(command[|command| - 2]).value + DigitValue(command[|command| - 1]).value;
    IndexedEntrySet(h, line, parseReal, command, value, i);
  }

  lemma TempoIndexDigits(command: string)
    requires |command| >= 2 && IsDigitIn(command[|command| - 2], 36) && IsDigitIn(command[|command| - 1], 36)
    ensures var i := 36 * DigitValue(command[|command| - 2]).value + DigitValue(command[|command| - 1]).value;
      i < SlotCount && TempoIndex(command) == Some(i)
  {
    var t := command[|command| - 2..];
    assert t[0] == command[|command| - 2] && t[1] == command[|command| - 1];
    ParseTwoDigits(t, 36);
  }

  /** A `#BPMxx` line without a value, or with one `float` rejects, is an error. */
  lemma IndexedTempoNeedsValue(h: HeaderInfo, line: string, parseReal: string -> Option<real>, command: string, value: Option<string>)
    requires HeaderMatch(line) == Some((command, value))
    requires StartsWith(command, "BPM") && command != "BPM"
    requires value.None? || parseReal(value.value).None?
    ensures ApplyLine(h, line, parseReal) == Failure(BadTempoValue(line))
  {
    TempoCommandIsNoKey(command);
  }

  /** An exact `#BPM v` line sets the base tempo field and leaves the table
      and its switch alone. */
  lemma ExactTempo(h: HeaderInfo, line: string, parseReal: string -> Option<real>, value: Option<string>)
    requires HeaderMatch(line) == Some(("BPM", value))
    ensures ApplyLine(h, line, parseReal) == Success(HeaderInfo(h.fields[Bpm := value], h.bpmTable, h.useBpmList))
  {
    BpmKey();
    NamedFieldSet(h, line, parseReal, "BPM", value, Bpm);
  }

  /** A line whose command names a field sets that field to the line's value. */
  lemma NamedFieldSet(h: HeaderInfo, line: string, parseReal: string -> Option<real>,
                      command: string, value: Option<string>, k: HeaderKey)
    requires HeaderMatch(line) == Some((command, value)) && KeyOf(command) == Some(k)
    ensures ApplyLine(h, line, parseReal) == Success(h.(fields := h.fields[k := value]))
  {
  }

  /** A `#BPMxx v` line with a readable value and index writes that entry. */
  lemma IndexedEntrySet(h: HeaderInfo, line: string, parseReal: string -> Option<real>, command: string, value: string, i: Slot)
    requires HeaderMatch(line) == Some((command, Some(value)))
    requires StartsWith(command, "BPM") && command != "BPM"
    requires parseReal(value).Some? && TempoIndex(command) == Some(i)
    ensures ApplyLine(h, line, parseReal) == Success(h.(bpmTable := h.bpmTable[i := parseReal(value)], useBpmList := true))
  {
    TempoCommandIsNoKey(command);
  }

  /** A line the pattern does not match changes nothing. */
  lemma NonMatchingIgnored(h: HeaderInfo, line: string, parseReal: string -> Option<real>)
    requires HeaderMatch(line).None?
    ensures ApplyLine(h, line, parseReal) == Success(h)
  {
  }

  /** Processing `a + b` is processing `a`, then `b` from where `a` left off. */
  lemma {:induction false} HeaderFromAppend(h: HeaderInfo, a: seq<string>, b: seq<string>, parseReal: string -> Option<real>)
    ensures HeaderFrom(h, a + b, parseReal) ==
      match HeaderFrom(h, a, parseReal)
      case Failure(e) => Failure(e)
      case Success(mid) => HeaderFrom(mid, b, parseReal)
    decreases |a|
  {
    if a == [] {
      assert a + b == b;
    } else {
      assert (a + b)[0] == a[0] && (a + b)[1..] == a[1..] + b;
      match ApplyLine(h, a[0], parseReal)
      case Failure(e) =>
      case Success(next) => HeaderFromAppend(next, a[1..], b, parseReal);
    }
  }

  /** Removing a line the pattern does not match leaves the header the same. */
  lemma NonMatchingLineRemovable(a: seq<string>, line: string, b: seq<string>, parseReal: string -> Option<real>)
    requires HeaderMatch(line).None?
    ensures HeaderOf(a + [line] + b, parseReal) == HeaderOf(a + b, parseReal)
  {
    assert a + [line] + b == a + ([line] + b);
    HeaderFromAppend(EmptyHeader, a, [line] + b, parseReal);
    HeaderFromAppend(EmptyHeader, a, b, parseReal);
    assert ([line] + b)[0] == line && ([line] + b)[1..] == b;
  }

  /** A line setting a named field overrides whatever an earlier line left
      in that field: the header after it does not depend on the old value. */
  lemma LastFieldWins(h: HeaderInfo, line: string, parseReal: string -> Option<real>,
                      command: string, value: Option<string>, k: HeaderKey, earlier: Option<string>)
    requires HeaderMatch(line) == Some((command, value)) && KeyOf(command) == Some(k)
    ensures ApplyLine(h.(fields := h.fields[k := earlier]), line, parseReal) == ApplyLine(h, line, parseReal)
  {
    var h1 := h.(fields := h.fields[k := earlier]);
    MatchedLine(h1, line, parseReal, command, value);
    MatchedLine(h, line, parseReal, command, value);
    CommandOverrides(h, line, parseReal, command, value, k, earlier);
  }

  lemma MatchedLine(h: HeaderInfo, line: string, parseReal: string -> Option<real>, command: string, value: Option<string>)
    requires HeaderMatch(line) == Some((command, value))
    ensures ApplyLine(h, line, parseReal) == ApplyCommand(h, line, command, value, parseReal)
  {
  }

  lemma CommandOverrides(h: HeaderInfo, line: string, parseReal: string -> Option<real>,
                         command: string, value: Option<string>, k: HeaderKey, earlier: Option<string>)
    requires KeyOf(command) == Some(k)
    ensures ApplyCommand(h.(fields := h.fields[k := earlier]), line, command, value, parseReal)
         == ApplyCommand(h, line, command, value, parseReal)
  {
    var h1 := h.(fields := h.fields[k := earlier]);
    assert h1.fields[k := value] == h.fields[k := value];
  }

  /** Of two `#BPMxx` lines writing the same slot, the later one wins. */
  lemma LastTempoWins(h: HeaderInfo, first: string, second: string, parseReal: string -> Option<real>,
                      c1: string, v1: string, c2: string, v2: string, i: Slot)
    requires HeaderMatch(first) == Some((c1, Some(v1))) && HeaderMatch(second) == Some((c2, Some(v2)))
    requires StartsWith(c1, "BPM") && c1 != "BPM" && StartsWith(c2, "BPM") && c2 != "BPM"
    requires parseReal(v1).Some? && parseReal(v2).Some?
    requires TempoIndex(c1) == Some(i) && TempoIndex(c2) == Some(i)
    ensures ApplyLine(h, first, parseReal).Success?
    ensures ApplyLine(ApplyLine(h, first, parseReal).value, second, parseReal) == ApplyLine(h, second, parseReal)
  {
    IndexedEntrySet(h, first, parseReal, c1, v1, i);
    var h1 := h.(bpmTable := h.bpmTable[i := parseReal(v1)], useBpmList := true);
    IndexedEntrySet(h1, second, parseReal, c2, v2, i);
    IndexedEntrySet(h, second, parseReal, c2, v2, i);
    assert h.bpmTable[i := parseReal(v1)][i := parseReal(v2)] == h.bpmTable[i := parseReal(v2)];
  }

  /** `line` is a `#BPMxx` line with a tempo that writes table slot `i`. */
  predicate WritesSlot(line: string, parseReal: string -> Option<real>, i: Slot) {
    match HeaderMatch(line)
    case None => false
    case Some(m) =>
      StartsWith(m.0, "BPM") && m.0 != "BPM" && m.1.Some? && parseReal(m.1.value).Some? && TempoIndex(m.0) == Some(i)
  }

  /** Two headers that differ at most in table slot `i` and in whether the
      tempo list is in use. */
  predicate AgreeOffSlot(h1: HeaderInfo, h2: HeaderInfo, i: Slot) {
    h1.fields == h2.fields && forall j :: 0 <= j < 1296 && j != i ==> h1.bpmTable[j] == h2.bpmTable[j]
  }

  /** A line fails on both such headers or on neither, with the same error;
      they still agree afterwards, and become equal once the line writes
      slot `i`. */
  lemma ApplyLineAgrees(h1: HeaderInfo, h2: HeaderInfo, line: string, parseReal: string -> Option<real>, i: Slot)
    requires AgreeOffSlot(h1, h2, i)
    ensures ApplyLine(h1, line, parseReal).Failure? <==> ApplyLine(h2, line, parseReal).Failure?
    ensures ApplyLine(h1, line, parseReal).Failure? ==> ApplyLine(h1, line, parseReal) == ApplyLine(h2, line, parseReal)
    ensures ApplyLine(h1, line, parseReal).Success? ==>
      AgreeOffSlot(ApplyLine(h1, line, parseReal).value, ApplyLine(h2, line, parseReal).value, i)
    ensures WritesSlot(line, parseReal, i) ==> ApplyLine(h1, line, parseReal) == ApplyLine(h2, line, parseReal)
  {
    match HeaderMatch(line)
    case None =>
    case Some(m) =>
      MatchedLine(h1, line, parseReal, m.0, m.1);
      MatchedLine(h2, line, parseReal, m.0, m.1);
      ApplyCommandAgrees(h1, h2, line, m.0, m.1, parseReal, i);
  }

  lemma ApplyCommandAgrees(h1: HeaderInfo, h2: HeaderInfo, line: string, command: string, value: Option<string>,
                           parseReal: string -> Option<real>, i: Slot)
    requires AgreeOffSlot(h1, h2, i)
    ensures var r1, r2 := ApplyCommand(h1, line, command, value, parseReal), ApplyCommand(h2, line, command, value, parseReal);
      (r1.Failure? <==> r2.Failure?) && (r1.Failure? ==> r1 == r2) && (r1.Success? ==> AgreeOffSlot(r1.value, r2.value, i)) &&
      (StartsWith(command, "BPM") && command != "BPM" && value.Some? && parseReal(value.value).Some? && TempoIndex(command) == Some(i) ==>
        r1 == r2)
  {
    var r1, r2 := ApplyCommand(h1, line, command, value, parseReal), ApplyCommand(h2, line, command, value, parseReal);
    match KeyOf(command)
    case Some(k) =>
      assert r1.value.bpmTable == h1.bpmTable && r2.value.bpmTable == h2.bpmTable;
      if StartsWith(command, "BPM") && command != "BPM" {
        TempoCommandIsNoKey(command);
      }
    case None =>
      if StartsWith(command, "BPM") && value.Some? && parseReal(value.value).Some? && TempoIndex(command).Some? {
        var v := parseReal(value.value);
        var j := TempoIndex(command).value;
        assert r1.value.bpmTable == h1.bpmTable[j := v] && r2.value.bpmTable == h2.bpmTable[j := v];
        if j == i {
          assert h1.bpmTable[i := v] == h2.bpmTable[i := v];
        }
      }
  }

  /** Once a later line writes slot `i`, headers that differ only there (and
      in the use flag) give the same result, errors included. */
  lemma {:induction false} LaterTempoWriteWins(h1: HeaderInfo, h2: HeaderInfo, a: seq<string>, second: string, b: seq<string>,
                                             parseReal: string -> Option<real>, i: Slot)
    requires AgreeOffSlot(h1, h2, i) && WritesSlot(second, parseReal, i)
    ensures HeaderFrom(h1, a + [second] + b, parseReal) == HeaderFrom(h2, a + [second] + b, parseReal)
    decreases |a|
  {
    var lines := a + [second] + b;
    ApplyLineAgrees(h1, h2, lines[0], parseReal, i);
    if a == [] {
      assert lines[0] == second && lines[1..] == b;
    } else {
      assert lines[0] == a[0] && lines[1..] == a[1..] + [second] + b;
      if ApplyLine(h1, a[0], parseReal).Success? {
        LaterTempoWriteWins(ApplyLine(h1, a[0], parseReal).value, ApplyLine(h2, a[0], parseReal).value,
                            a[1..], second, b, parseReal, i);
      }
    }
  }

  /** Of two `#BPMxx` lines writing the same slot, wherever they stand, the
      earlier one can be dropped without changing the header. */
  lemma EarlierTempoWriteIrrelevant(pre: seq<string>, first: string, mid: seq<string>, second: string, post: seq<string>,
                                    parseReal: string -> Option<real>, i: Slot)
    requires WritesSlot(first, parseReal, i) && WritesSlot(second, parseReal, i)
    ensures HeaderOf(pre + [first] + mid + [second] + post, parseReal) == HeaderOf(pre + mid + [second] + post, parseReal)
  {
    var rest := mid + [second] + post;
    Regroup(pre, first, mid, second, post);
    HeaderFromAppend(EmptyHeader, pre, [first] + rest, parseReal);
    HeaderFromAppend(EmptyHeader, pre, rest, parseReal);
    if HeaderFrom(EmptyHeader, pre, parseReal).Success? {
      DropEarlierWrite(HeaderFrom(EmptyHeader, pre, parseReal).value, first, mid, second, post, parseReal, i);
    }
  }

  lemma Regroup(pre: seq<string>, first: string, mid: seq<string>, second: string, post: seq<string>)
    ensures pre + [first] + mid + [second] + post == pre + ([first] + (mid + [second] + post))
    ensures pre + mid + [second] + post == pre + (mid + [second] + post)
  {
  }

  lemma DropEarlierWrite(h: HeaderInfo, first: string, mid: seq<string>, second: string, post: seq<string>,
                         parseReal: string -> Option<real>, i: Slot)
    requires WritesSlot(first, parseReal, i) && WritesSlot(second, parseReal, i)
    ensures HeaderFrom(h, [first] + (mid + [second] + post), parseReal) == HeaderFrom(h, mid + [second] + post, parseReal)
  {
    var rest := mid + [second] + post;
    var m := HeaderMatch(first).value;
    IndexedEntrySet(h, first, parseReal, m.0, m.1.value, i);
    var h1 := ApplyLine(h, first, parseReal).value;
    assert ([first] + rest)[0] == first && ([first] + rest)[1..] == rest;
    LaterTempoWriteWins(h1, h, mid, second, post, parseReal, i);
  }

  /** The play-level field is never set: its name has a space in it and a
      matched command is made of word characters only. */
  lemma PlayLevelNeverSet(lines: seq<string>, parseReal: string -> Option<real>)
    ensures HeaderOf(lines, parseReal).Success? ==> PlayLevel !in HeaderOf(lines, parseReal).value.fields
  {
    PlayLevelStaysUnset(EmptyHeader, lines, parseReal);
  }

  lemma {:induction false} PlayLevelStaysUnset(h: HeaderInfo, lines: seq<string>, parseReal: string -> Option<real>)
    requires PlayLevel !in h.fields
    ensures HeaderFrom(h, lines, parseReal).Success? ==> PlayLevel !in HeaderFrom(h, lines, parseReal).value.fields
    decreases |lines|
  {
    if lines != [] {
      LineKeepsPlayLevelUnset(h, lines[0], parseReal);
      match ApplyLine(h, lines[0], parseReal)
      case Failure(e) =>
      case Success(next) => PlayLevelStaysUnset(next, lines[1..], parseReal);
    }
  }

  lemma LineKeepsPlayLevelUnset(h: HeaderInfo, line: string, parseReal: string -> Option<real>)
    requires PlayLevel !in h.fields
    ensures ApplyLine(h, line, parseReal).Success? ==> PlayLevel !in ApplyLine(h, line, parseReal).value.fields
  {
    match HeaderMatch(line)
    case None =>
    case Some(m) =>
      WordCommandIsNotPlayLevel(m.0);
      MatchedLine(h, line, parseReal, m.0, m.1);
  }

  lemma WordCommandIsNotPlayLevel(command: string)
    requires forall i :: 0 <= i < |command| ==> IsWordChar(command[i])
    ensures KeyOf(command) != Some(PlayLevel)
  {
    assert !IsWordChar(KeyName(PlayLevel)[4]);
  }

  /** A concrete indexed-tempo line: `#BPM0A 150` puts 150 in slot 10. */
  lemma TempoLineExample(parseReal: string -> Option<real>)
    requires parseReal("150") == Some(150.0)
    ensures ApplyLine(EmptyHeader, "#BPM0A 150\n", parseReal) ==
      Success(HeaderInfo(map[], EmptyHeader.bpmTable[10 := Some(150.0)], true))
  {
    ExampleLineMatches();
    ExampleCommand();
    IndexedTempoStores(EmptyHeader, "#BPM0A 150\n", parseReal, "BPM0A", "150");
  }

  lemma ExampleLineMatches()
    ensures HeaderMatch("#BPM0A 150\n") == Some(("BPM0A", Some("150")))
  {
    assert "#BPM0A 150\n" == "#" + "BPM0A" + " " + "150" + "\n";
    HeaderLineRoundTrip("BPM0A", "150");
  }

  lemma ExampleCommand()
    ensures StartsWith("BPM0A", "BPM") && "BPM0A" != "BPM"
    ensures IsDigitIn('0', 36) && IsDigitIn('A', 36) && DigitValue('0') == Some(0) && DigitValue('A') == Some(10)
    ensures "BPM0A"[3] == '0' && "BPM0A"[4] == 'A'
  {
    assert "BPM0A"[..3] == "BPM";
  }
}
