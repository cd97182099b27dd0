/** The conditional-line reducer (parse.py:20-46): a random directive draws a
    value, `#IF v ... #ENDIF` blocks whose value differs from it are dropped,
    and the directive lines themselves disappear. The model is one forward
    pass that builds a new line sequence; the random draws are a parameter. */
module ControlFlow {
  import opened Text

  /** How the directive lines are read. `randomKeyword` is the command that
      starts a random block; with `numericOperands` the operands are read as
      decimal numbers (otherwise the operand stays a string, which
      `random.randint` rejects and which never equals the drawn integer);
      with `trimNewline` a line's trailing newline is dropped before the
      line is split, so it is part of neither the command nor the operand. */
  datatype Dialect = Dialect(randomKeyword: string, numericOperands: bool, trimNewline: bool)

  /** parse.py as written: keyword `#RAMDOM`, operands kept as strings, the
      newline that `readlines` leaves on each line kept in the fields. */
  const AsWritten: Dialect := Dialect("#RAMDOM", false, false)

  /** The evident intent: keyword `#RANDOM`, operands compared as numbers,
      and the fields read without the trailing newline (so that `#ENDIF` and
      a last operand are recognised on lines as `readlines` returns them). */
  const Intended: Dialect := Dialect("#RANDOM", true, true)

  /** The loop's flags: `have_random`, `random_value`, `in_if_block`,
      `if_val`, and how many values have been drawn so far. */
  datatype ReduceState = ReduceState(haveRandom: bool, randomValue: int, inIfBlock: bool, ifVal: bool, drawn: nat)

  const Initial: ReduceState := ReduceState(false, 0, false, false, 0)

  /** `random.randint(1, n)` or the `#IF` comparison could not use an operand. */
  datatype ReduceError = BadRandomOperand(line: string) | BadIfOperand(line: string)

  function Fields(d: Dialect, line: string): string {
    if d.trimNewline then DropNewline(line) else line
  }

  /** `line.split(' ')[0]` */
  function Command(d: Dialect, line: string): string { FirstField(Fields(d, line)) }

  /** `line.split(' ')[-1]` */
  function Operand(d: Dialect, line: string): string { LastField(Fields(d, line)) }

  predicate IsRandomLine(d: Dialect, line: string) { Command(d, line) == d.randomKeyword }

  /** A line that is none of the three directives. */
  predicate IsPlain(d: Dialect, line: string) {
    Command(d, line) != d.randomKeyword && Command(d, line) != "#IF" && Command(d, line) != "#ENDIF"
  }

  /** Whether an `#IF` operand selects the drawn value. */
  function IfMatches(d: Dialect, line: string, value: int): Result<bool, ReduceError> {
    if !d.numericOperands then Success(false)
    else match Decimal(Operand(d, line))
      case None => Failure(BadIfOperand(line))
      case Some(v) => Success(v == value)
  }

  /** A random directive draws the next value and leaves no block open;
      `random.randint(1, n)` fails unless the operand is a number n >= 1. */
  function Draw(d: Dialect, draw: nat -> int, st: ReduceState, line: string): Result<ReduceState, ReduceError> {
    if !IsRandomLine(d, line) then Success(st)
    else if !d.numericOperands then Failure(BadRandomOperand(line))
    else match Decimal(Operand(d, line))
      case None => Failure(BadRandomOperand(line))
      case Some(n) =>
        if n < 1 then Failure(BadRandomOperand(line))
        else Success(ReduceState(true, draw(st.drawn), false, false, st.drawn + 1))
  }

  /** Under an active random value: `#IF` opens a block, `#ENDIF` closes it
      (both lines go), and any other line goes when the open block does not
      match. The boolean says whether the line survives. */
  function Track(d: Dialect, st: ReduceState, line: string): Result<(ReduceState, bool), ReduceError> {
    var cmd := Command(d, line);
    if !st.haveRandom then Success((st, true))
    else if cmd == "#IF" then
      var live :- IfMatches(d, line, st.randomValue);
      Success((st.(inIfBlock := true, ifVal := live), false))
    else if cmd == "#ENDIF" then Success((st.(inIfBlock := false, ifVal := false), false))
    else Success((st, cmd != d.randomKeyword && !(st.inIfBlock && !st.ifVal)))
  }

  /** One iteration of the loop: the new flags, and whether the line survives. */
  function Step(d: Dialect, draw: nat -> int, st: ReduceState, line: string): Result<(ReduceState, bool), ReduceError> {
    var st1 :- Draw(d, draw, st, line);
    Track(d, st1, line)
  }

  /** The reducer run from state `st` over `lines`: the final flags and the
      surviving lines. */
  function Run(d: Dialect, draw: nat -> int, st: ReduceState, lines: seq<string>): Result<(ReduceState, seq<string>), ReduceError>
    decreases |lines|
  {
    if lines == [] then Success((st, []))
    else
      var s1 :- Step(d, draw, st, lines[0]);
      var s2 :- Run(d, draw, s1.0, lines[1..]);
      Success((s2.0, (if s1.1 then [lines[0]] else []) + s2.1))
  }

  /** Puts `kept` in front of the lines a run keeps. */
  function Then(kept: seq<string>, r: Result<(ReduceState, seq<string>), ReduceError>): Result<(ReduceState, seq<string>), ReduceError> {
    match r
    case Failure(e) => Failure(e)
    case Success(p) => Success((p.0, kept + p.1))
  }

  function Reduce(d: Dialect, draw: nat -> int, lines: seq<string>): Result<seq<string>, ReduceError> {
    var p :- Run(d, draw, Initial, lines);
    Success(p.1)
  }

  /** `random.randint(1, n)`'s promise: the k-th random directive whose
      operand is a positive number n draws a value in [1, n]. */
  predicate DrawsFit(d: Dialect, draw: nat -> int, lines: seq<string>, k: nat)
    decreases |lines|
  {
    if lines == [] then true
    else if !IsRandomLine(d, lines[0]) then DrawsFit(d, draw, lines[1..], k)
    else if d.numericOperands && Decimal(Operand(d, lines[0])).Some? && Decimal(Operand(d, lines[0])).value >= 1 then
      1 <= draw(k) <= Decimal(Operand(d, lines[0])).value && DrawsFit(d, draw, lines[1..], k + 1)
    else true
  }

  /** The reducer as the loop of parse.py:22-45, its flags the fields of `st`,
      building the surviving lines instead of removing lines from the list
      it iterates. */
  method ReduceLines(d: Dialect, draw: nat -> int, lines: seq<string>) returns (r: Result<seq<string>, ReduceError>)
    ensures r == Reduce(d, draw, lines)
  {
    var st := Initial;
    var out: seq<string> := [];
    assert lines[0..] == lines;
    ThenNothing(Run(d, draw, Initial, lines));
    for i := 0 to |lines|
      invariant Then(out, Run(d, draw, st, lines[i..])) == Run(d, draw, Initial, lines)
    {
      assert lines[i..][0] == lines[i] && lines[i..][1..] == lines[i + 1..];
      RunUnfold(d, draw, st, lines[i..]);
      var line := lines[i];
      var drawn := Success(st);
      if Command(d, line) == d.randomKeyword {
        drawn := DrawLine(d, draw, st, line);
        if drawn.Failure? {
          return Failure(drawn.error);
        }
      }
      assert drawn == Draw(d, draw, st, line);
      var tracked := TrackLine(d, drawn.value, line);
      assert tracked == Track(d, drawn.value, line);
      if tracked.Failure? {
        return Failure(tracked.error);
      }
      var keep := tracked.value.1;
      ThenThen(out, if keep then [line] else [], Run(d, draw, tracked.value.0, lines[i + 1..]));
      st := tracked.value.0;
      if keep {
        out := out + [line];
      } else {
        assert out + [] == out;
      }
    }
    assert lines[|lines|..] == [];
    r := Success(out);
  }

  /** The random-directive branch of the loop body: `random.randint(1, n)`
      on the line's operand. */
  method DrawLine(d: Dialect, draw: nat -> int, st: ReduceState, line: string) returns (r: Result<ReduceState, ReduceError>)
    requires IsRandomLine(d, line)
    ensures r.Success? <==> d.numericOperands && Decimal(Operand(d, line)).Some? && Decimal(Operand(d, line)).value >= 1
    ensures r.Success? ==> r.value == ReduceState(true, draw(st.drawn), false, false, st.drawn + 1)
    ensures r.Failure? ==> r.error == BadRandomOperand(line)
  {
    if !d.numericOperands {
      return Failure(BadRandomOperand(line));
    }
    var n := Decimal(Operand(d, line));
    if n.None? || n.value < 1 {
      return Failure(BadRandomOperand(line));
    }
    return Success(ReduceState(true, draw(st.drawn), false, false, st.drawn + 1));
  }

  /** The `#IF` / `#ENDIF` branches of the loop body and the removal of a
      line inside a block that does not match; the boolean says whether the
      line is kept. */
  method TrackLine(d: Dialect, st: ReduceState, line: string) returns (r: Result<(ReduceState, bool), ReduceError>)
    ensures !st.haveRandom ==> r == Success((st, true))
    ensures st.haveRandom && Command(d, line) == "#IF" ==>
      (r.Success? <==> IfMatches(d, line, st.randomValue).Success?) &&
      (r.Success? ==> r.value == (st.(inIfBlock := true, ifVal := IfMatches(d, line, st.randomValue).value), false)) &&
      (r.Failure? ==> r.error == BadIfOperand(line))
    ensures st.haveRandom && Command(d, line) == "#ENDIF" ==> r == Success((st.(inIfBlock := false, ifVal := false), false))
    ensures st.haveRandom && Command(d, line) != "#IF" && Command(d, line) != "#ENDIF" ==>
      r == Success((st, !IsRandomLine(d, line) && !(st.inIfBlock && !st.ifVal)))
  {
    var cmd := Command(d, line);
    var next, keep := st, cmd != d.randomKeyword;
    if st.haveRandom {
      if cmd == "#IF" {
        var live := IfMatches(d, line, st.randomValue);
        if live.Failure? {
          return Failure(live.error);
        }
        next, keep := st.(inIfBlock := true, ifVal := live.value), false;
      } else if cmd == "#ENDIF" {
        next, keep := st.(inIfBlock := false, ifVal := false), false;
      } else if st.inIfBlock && !st.ifVal {
        keep := false;
      }
    } else {
      keep := true;
    }
    r := Success((next, keep));
  }

  /** Run unfolded once. */
  lemma RunUnfold(d: Dialect, draw: nat -> int, st: ReduceState, lines: seq<string>)
    requires lines != []
    ensures Run(d, draw, st, lines) ==
      match Step(d, draw, st, lines[0])
      case Failure(e) => Failure(e)
      case Success(s1) => Then(if s1.1 then [lines[0]] else [], Run(d, draw, s1.0, lines[1..]))
  {
  }

  lemma ThenNothing(r: Result<(ReduceState, seq<string>), ReduceError>)
    ensures Then([], r) == r
  {
    if r.Success? {
      assert [] + r.value.1 == r.value.1;
    }
  }

  lemma ThenThen(a: seq<string>, b: seq<string>, r: Result<(ReduceState, seq<string>), ReduceError>)
    ensures Then(a, Then(b, r)) == Then(a + b, r)
  {
    if r.Success? {
      assert a + (b + r.value.1) == (a + b) + r.value.1;
    }
  }

  /** Running over `a + b` is running over `a`, then over `b` from where `a` left off. */
  lemma {:induction false} RunAppend(d: Dialect, draw: nat -> int, st: ReduceState, a: seq<string>, b: seq<string>)
    ensures Run(d, draw, st, a + b) ==
      match Run(d, draw, st, a)
      case Failure(e) => Failure(e)
      case Success(p) => Then(p.1, Run(d, draw, p.0, b))
    decreases |a|
  {
    if a == [] {
      assert a + b == b;
      match Run(d, draw, st, b)
      case Failure(e) =>
      case Success(p) => assert [] + p.1 == p.1;
    } else {
      assert (a + b)[0] == a[0] && (a + b)[1..] == a[1..] + b;
      match Step(d, draw, st, a[0])
      case Failure(e) =>
      case Success(s1) =>
        RunAppend(d, draw, s1.0, a[1..], b);
        var head := if s1.1 then [a[0]] else [];
        match Run(d, draw, s1.0, a[1..])
        case Failure(e) =>
        case Success(p) =>
          match Run(d, draw, p.0, b)
          case Failure(e) =>
          case Success(q) => assert head + (p.1 + q.1) == (head + p.1) + q.1;
    }
  }

  predicate IsSubsequence(xs: seq<string>, ys: seq<string>)
    decreases |ys|
  {
    if xs == [] then true
    else if ys == [] then false
    else (xs[0] == ys[0] && IsSubsequence(xs[1..], ys[1..])) || IsSubsequence(xs, ys[1..])
  }

  /** The reducer only ever drops lines: what it returns is a subsequence of its input. */
  lemma {:induction false} OutputIsSubsequence(d: Dialect, draw: nat -> int, st: ReduceState, lines: seq<string>)
    requires Run(d, draw, st, lines).Success?
    ensures IsSubsequence(Run(d, draw, st, lines).value.1, lines)
    decreases |lines|
  {
    if lines != [] {
      var s1 := Step(d, draw, st, lines[0]).value;
      OutputIsSubsequence(d, draw, s1.0, lines[1..]);
      var rest := Run(d, draw, s1.0, lines[1..]).value.1;
      if s1.1 {
        assert ([lines[0]] + rest)[1..] == rest;
      } else {
        assert [] + rest == rest;
      }
    }
  }

  /** Before any random directive nothing is removed and no flag changes. */
  lemma {:induction false} NothingRemovedBeforeRandom(d: Dialect, draw: nat -> int, st: ReduceState, lines: seq<string>)
    requires !st.haveRandom
    requires forall i :: 0 <= i < |lines| ==> !IsRandomLine(d, lines[i])
    ensures Run(d, draw, st, lines) == Success((st, lines))
    decreases |lines|
  {
    if lines != [] {
      NothingRemovedBeforeRandom(d, draw, st, lines[1..]);
      assert [lines[0]] + lines[1..] == lines;
    }
  }

  /** The lines in front of the first random directive come through untouched. */
  lemma PrefixBeforeRandomKept(d: Dialect, draw: nat -> int, prefix: seq<string>, rest: seq<string>)
    requires forall i :: 0 <= i < |prefix| ==> !IsRandomLine(d, prefix[i])
    ensures Run(d, draw, Initial, prefix + rest) == Then(prefix, Run(d, draw, Initial, rest))
  {
    RunAppend(d, draw, Initial, prefix, rest);
    NothingRemovedBeforeRandom(d, draw, Initial, prefix);
  }

  /** A random directive line is never kept; once a random value is active
      neither is any `#IF` or `#ENDIF` line, and the value stays active. */
  lemma {:induction false} DirectivesRemoved(d: Dialect, draw: nat -> int, st: ReduceState, lines: seq<string>)
    requires Run(d, draw, st, lines).Success?
    ensures var p := Run(d, draw, st, lines).value;
      (st.haveRandom ==> p.0.haveRandom) &&
      forall i :: 0 <= i < |p.1| ==>
        !IsRandomLine(d, p.1[i]) &&
        (st.haveRandom ==> Command(d, p.1[i]) != "#IF" && Command(d, p.1[i]) != "#ENDIF")
    decreases |lines|
  {
    if lines != [] {
      var s1 := Step(d, draw, st, lines[0]).value;
      DirectivesRemoved(d, draw, s1.0, lines[1..]);
    }
  }

  /** Lines that are not directives are all kept or all dropped: dropped
      exactly when a random value is active and the current `#IF` block does
      not match it. The flags do not change. */
  lemma {:induction false} PlainLines(d: Dialect, draw: nat -> int, st: ReduceState, body: seq<string>)
    requires forall i :: 0 <= i < |body| ==> IsPlain(d, body[i])
    ensures Run(d, draw, st, body) ==
      Success((st, if st.haveRandom && st.inIfBlock && !st.ifVal then [] else body))
    decreases |body|
  {
    if body != [] {
      var keep := !(st.haveRandom && st.inIfBlock && !st.ifVal);
      assert Step(d, draw, st, body[0]) == Success((st, keep));
      PlainLines(d, draw, st, body[1..]);
      if keep {
        assert [body[0]] + body[1..] == body;
      } else {
        var none: seq<string> := [];
        assert none + none == none;
      }
    }
  }

  /** A whole `#IF v ... #ENDIF` block under an active random value: its body
      survives exactly when `v` selects the drawn value, the two directive
      lines are removed, and `#ENDIF` leaves no block open. */
  lemma Block(d: Dialect, draw: nat -> int, st: ReduceState, ifLine: string, body: seq<string>, endLine: string)
    requires st.haveRandom
    requires d.randomKeyword != "#IF" && d.randomKeyword != "#ENDIF"
    requires Command(d, ifLine) == "#IF" && Command(d, endLine) == "#ENDIF"
    requires IfMatches(d, ifLine, st.randomValue).Success?
    requires forall i :: 0 <= i < |body| ==> IsPlain(d, body[i])
    ensures Run(d, draw, st, [ifLine] + body + [endLine]) ==
      Success((st.(inIfBlock := false, ifVal := false),
               if IfMatches(d, ifLine, st.randomValue).value then body else []))
  {
    var live := IfMatches(d, ifLine, st.randomValue).value;
    var inBlock := st.(inIfBlock := true, ifVal := live);
    var closed := st.(inIfBlock := false, ifVal := false);
    assert Draw(d, draw, st, ifLine) == Success(st);
    assert Step(d, draw, st, ifLine) == Success((inBlock, false));
    assert Draw(d, draw, inBlock, endLine) == Success(inBlock);
    assert Step(d, draw, inBlock, endLine) == Success((closed, false));
    var kept := if live then body else [];
    calc {
      Run(d, draw, st, [ifLine] + body + [endLine]);
      { assert [ifLine] + body + [endLine] == [ifLine] + (body + [endLine]);
        RunUnfold(d, draw, st, [ifLine] + (body + [endLine]));
        assert ([ifLine] + (body + [endLine]))[1..] == body + [endLine]; }
      Then([], Run(d, draw, inBlock, body + [endLine]));
      { ThenNothing(Run(d, draw, inBlock, body + [endLine])); }
      Run(d, draw, inBlock, body + [endLine]);
      { RunAppend(d, draw, inBlock, body, [endLine]); PlainLines(d, draw, inBlock, body); }
      Then(kept, Run(d, draw, inBlock, [endLine]));
      { RunUnfold(d, draw, inBlock, [endLine]); }
      Then(kept, Then([], Run(d, draw, closed, [])));
      { assert kept + ([] + []) == kept; }
      Success((closed, kept));
    }
  }

  /** A chart with a random block of three branches, two of them written
      out; the draw is forced to 2. */
  const RandomLine := "#RANDOM 3\n"
  const IfOne := "#IF 1\n"
  const One := "one\n"
  const IfTwo := "#IF 2\n"
  const Two := "two\n"
  const EndIf := "#ENDIF\n"

  const ThreeWayChart: seq<string> :=
    [RandomLine, IfOne, One, EndIf, IfTwo, Two, EndIf]

  /** The fields of a directive line `cmd arg` as `readlines` returns it. */
  lemma DirectiveFields(d: Dialect, cmd: string, arg: string)
    requires forall i :: 0 <= i < |cmd| ==> cmd[i] != ' '
    requires forall i :: 0 <= i < |arg| ==> arg[i] != ' '
    ensures Command(d, cmd + " " + arg + "\n") == cmd
    ensures d.trimNewline ==> Operand(d, cmd + " " + arg + "\n") == arg
    ensures !d.trimNewline ==> Operand(d, cmd + " " + arg + "\n") == arg + "\n"
  {
    var line := cmd + " " + arg + "\n";
    if d.trimNewline {
      assert DropNewline(line) == cmd + " " + arg;
      FirstFieldOf(cmd, " " + arg);
      assert cmd + " " + arg == cmd + (" " + arg);
      LastFieldOf(cmd + " ", arg);
    } else {
      FirstFieldOf(cmd, " " + arg + "\n");
      assert line == cmd + (" " + arg + "\n");
      assert line == (cmd + " ") + (arg + "\n");
      LastFieldOf(cmd + " ", arg + "\n");
    }
  }

  /** The first field of a one-word line `w` as `readlines` returns it. */
  lemma WordFields(d: Dialect, w: string)
    requires forall i :: 0 <= i < |w| ==> w[i] != ' '
    ensures Command(d, w + "\n") == if d.trimNewline then w else w + "\n"
  {
    if d.trimNewline {
      assert DropNewline(w + "\n") == w;
      FirstFieldOf(w, "");
      assert w + "" == w;
    } else {
      FirstFieldOf(w + "\n", "");
      assert w + "\n" + "" == w + "\n";
    }
  }

  lemma ChartRandomLine(d: Dialect)
    ensures Command(d, RandomLine) == "#RANDOM"
    ensures d.trimNewline ==> Operand(d, RandomLine) == "3"
  {
    assert RandomLine == "#RANDOM" + " " + "3" + "\n";
    DirectiveFields(d, "#RANDOM", "3");
  }

  lemma ChartIfLines(d: Dialect)
    ensures Command(d, IfOne) == "#IF" && Command(d, IfTwo) == "#IF"
    ensures d.trimNewline ==> Operand(d, IfOne) == "1" && Operand(d, IfTwo) == "2"
  {
    assert IfOne == "#IF" + " " + "1" + "\n";
    DirectiveFields(d, "#IF", "1");
    assert IfTwo == "#IF" + " " + "2" + "\n";
    DirectiveFields(d, "#IF", "2");
  }

  lemma ChartBodyLines(d: Dialect)
    ensures Command(d, One) == if d.trimNewline then "one" else One
    ensures Command(d, Two) == if d.trimNewline then "two" else Two
  {
    ChartWordLine(d, "one");
    ChartWordLine(d, "two");
    assert "one" + "\n" == One && "two" + "\n" == Two;
  }

  lemma ChartEndLine(d: Dialect)
    ensures Command(d, EndIf) == if d.trimNewline then "#ENDIF" else EndIf
  {
    ChartWordLine(d, "#ENDIF");
    assert "#ENDIF" + "\n" == EndIf;
  }

  lemma ChartWordLine(d: Dialect, w: string)
    requires w == "one" || w == "two" || w == "#ENDIF"
    ensures Command(d, w + "\n") == if d.trimNewline then w else w + "\n"
  {
    assert forall i :: 0 <= i < |w| ==> w[i] != ' ';
    WordFields(d, w);
  }

  /** Without trimming, `readlines`' newline stays in the last field: an
      `#ENDIF` line is not the `#ENDIF` command, so under an active random
      value it is read as an ordinary line. It is not removed as a directive
      and does not close the block; it is dropped only as part of a block
      that is not live. The operand string of `#IF 2` carries the newline,
      so compared as a string it never equals the draw. Compared as a number
      it is rejected too, which rests on `Decimal` not skipping whitespace
      as Python's `int()` does. */
  lemma UntrimmedEndIfLeavesBlockOpen(d: Dialect, st: ReduceState)
    requires !d.trimNewline && st.haveRandom && d.randomKeyword != EndIf
    ensures Command(d, EndIf) != "#ENDIF"
    ensures Track(d, st, EndIf) == Success((st, !(st.inIfBlock && !st.ifVal)))
    ensures Operand(d, IfTwo) == "2\n"
    ensures !d.numericOperands ==> IfMatches(d, IfTwo, 2) == Success(false)
    ensures IfMatches(d, IfTwo, 2) != Success(true)
  {
    ChartEndLine(d);
    assert |EndIf| == 7;
    assert IfTwo == "#IF" + " " + "2" + "\n";
    DirectiveFields(d, "#IF", "2");
    assert !IsDigitIn("2\n"[1], 10);
  }

  /** Trimmed, an `#ENDIF` line closes the block and is removed. */
  lemma TrimmedEndIfClosesBlock(d: Dialect, st: ReduceState)
    requires d.trimNewline && st.haveRandom && d.randomKeyword != "#ENDIF"
    ensures Track(d, st, EndIf) == Success((st.(inIfBlock := false, ifVal := false), false))
  {
    ChartEndLine(d);
  }

  /** `random.randint(1, n)`'s promise at work: after `#RANDOM n`, an
      `#IF v` block with `v` outside `[1, n]` is never live, so the random
      line and the whole block are dropped. */
  lemma BranchBeyondRangeDropped(d: Dialect, draw: nat -> int, st: ReduceState,
                                 random: string, ifLine: string, body: seq<string>, endLine: string)
    requires d.randomKeyword != "#IF" && d.randomKeyword != "#ENDIF"
    requires IsRandomLine(d, random) && Draw(d, draw, st, random).Success?
    requires DrawsFit(d, draw, [random] + ([ifLine] + body + [endLine]), st.drawn)
    requires Command(d, ifLine) == "#IF" && Command(d, endLine) == "#ENDIF"
    requires Decimal(Operand(d, ifLine)).Some?
    requires Decimal(Operand(d, ifLine)).value < 1 || Decimal(Operand(d, ifLine)).value > Decimal(Operand(d, random)).value
    requires forall i :: 0 <= i < |body| ==> IsPlain(d, body[i])
    ensures Run(d, draw, st, [random] + ([ifLine] + body + [endLine])).Success?
    ensures Run(d, draw, st, [random] + ([ifLine] + body + [endLine])).value.1 == []
  {
    var block := [ifLine] + body + [endLine];
    var lines := [random] + block;
    assert lines[0] == random && lines[1..] == block;
    DrawInRange(d, draw, st, random, block);
    var active := Draw(d, draw, st, random).value;
    assert IfMatches(d, ifLine, active.randomValue) == Success(false);
    assert Step(d, draw, st, random) == Success((active, false));
    Block(d, draw, active, ifLine, body, endLine);
    RunUnfold(d, draw, st, lines);
  }

  /** A random directive the draws fit activates a value in `[1, n]`. */
  lemma DrawInRange(d: Dialect, draw: nat -> int, st: ReduceState, random: string, rest: seq<string>)
    requires IsRandomLine(d, random) && Draw(d, draw, st, random).Success?
    requires DrawsFit(d, draw, [random] + rest, st.drawn)
    ensures d.numericOperands && Decimal(Operand(d, random)).Some?
    ensures var active := Draw(d, draw, st, random).value;
      active.haveRandom && 1 <= active.randomValue <= Decimal(Operand(d, random)).value
  {
    assert ([random] + rest)[0] == random;
  }

  /** As written no line of the chart is a random directive. */
  lemma AsWrittenNoDirective()
    ensures forall i :: 0 <= i < |ThreeWayChart| ==> !IsRandomLine(AsWritten, ThreeWayChart[i])
  {
    AsWrittenLines();
    SevenPlain(AsWritten, ThreeWayChart, RandomLine, IfOne, One, EndIf, IfTwo, Two);
  }

  lemma SevenPlain(d: Dialect, lines: seq<string>, a: string, b: string, c: string, e: string, f: string, g: string)
    requires lines == [a, b, c, e, f, g, e]
    requires !IsRandomLine(d, a) && !IsRandomLine(d, b) && !IsRandomLine(d, c)
    requires !IsRandomLine(d, e) && !IsRandomLine(d, f) && !IsRandomLine(d, g)
    ensures forall i :: 0 <= i < |lines| ==> !IsRandomLine(d, lines[i])
  {
  }

  lemma AsWrittenLines()
    ensures !IsRandomLine(AsWritten, RandomLine) && !IsRandomLine(AsWritten, IfOne) && !IsRandomLine(AsWritten, IfTwo)
    ensures !IsRandomLine(AsWritten, One) && !IsRandomLine(AsWritten, Two) && !IsRandomLine(AsWritten, EndIf)
  {
    ChartRandomLine(AsWritten);
    ChartIfLines(AsWritten);
    ChartBodyLines(AsWritten);
    ChartEndLine(AsWritten);
    NotMisspelledKeyword();
  }

  lemma NotMisspelledKeyword()
    ensures "#RANDOM" != "#RAMDOM" && "#IF" != "#RAMDOM" && EndIf != "#RAMDOM"
    ensures One != "#RAMDOM" && Two != "#RAMDOM"
  {
    assert "#RANDOM"[3] != "#RAMDOM"[3] && EndIf[1] != "#RAMDOM"[1];
  }

  /** The forced draw of the scenario. */
  function DrawTwo(k: nat): int { 2 }

  /** As written, `#RANDOM` is not recognised (the code looks for `#RAMDOM`),
      so every line of every branch survives, directives included. */
  lemma AsWrittenKeepsEverything()
    ensures Reduce(AsWritten, DrawTwo, ThreeWayChart) == Success(ThreeWayChart)
  {
    AsWrittenNoDirective();
    NothingRemovedBeforeRandom(AsWritten, DrawTwo, Initial, ThreeWayChart);
  }

  lemma IntendedDrawsTwo()
    ensures Step(Intended, DrawTwo, Initial, RandomLine) == Success((ReduceState(true, 2, false, false, 1), false))
  {
    ChartRandomLine(Intended);
    assert Decimal("3") == Some(3);
  }

  lemma IntendedIfOperands()
    ensures IfMatches(Intended, IfOne, 2) == Success(false)
    ensures IfMatches(Intended, IfTwo, 2) == Success(true)
  {
    ChartIfLines(Intended);
    assert Decimal("1") == Some(1);
    assert Decimal("2") == Some(2);
  }

  lemma IntendedBlockLines()
    ensures Command(Intended, IfOne) == "#IF" && Command(Intended, IfTwo) == "#IF"
    ensures Command(Intended, EndIf) == "#ENDIF"
    ensures IsPlain(Intended, One) && IsPlain(Intended, Two)
  {
    ChartIfLines(Intended);
    ChartBodyLines(Intended);
    ChartEndLine(Intended);
  }

  lemma SevenLines(a: string, b: string, c: string, d: string, e: string, f: string, g: string)
    ensures [a, b, c, d, e, f, g] == [a] + (([b] + [c] + [d]) + ([e] + [f] + [g]))
  {
    var l := [a, b, c, d, e, f, g];
    var r := [a] + (([b] + [c] + [d]) + ([e] + [f] + [g]));
    assert |l| == |r|;
    assert forall i :: 0 <= i < 7 ==> l[i] == r[i];
  }

  /** Two one-line `#IF` blocks under an active random value: each body
      survives exactly when its block matches the drawn value. */
  lemma BlockPair(d: Dialect, draw: nat -> int, st: ReduceState,
                  if1: string, body1: string, end1: string, if2: string, body2: string, end2: string)
    requires st.haveRandom && !st.inIfBlock && !st.ifVal
    requires d.randomKeyword != "#IF" && d.randomKeyword != "#ENDIF"
    requires Command(d, if1) == "#IF" && Command(d, if2) == "#IF"
    requires Command(d, end1) == "#ENDIF" && Command(d, end2) == "#ENDIF"
    requires IsPlain(d, body1) && IsPlain(d, body2)
    requires IfMatches(d, if1, st.randomValue).Success? && IfMatches(d, if2, st.randomValue).Success?
    ensures Run(d, draw, st, ([if1] + [body1] + [end1]) + ([if2] + [body2] + [end2])) ==
      Success((st, (if IfMatches(d, if1, st.randomValue).value then [body1] else []) +
                   (if IfMatches(d, if2, st.randomValue).value then [body2] else [])))
  {
    var k1 := if IfMatches(d, if1, st.randomValue).value then [body1] else [];
    var k2 := if IfMatches(d, if2, st.randomValue).value then [body2] else [];
    var first := [if1] + [body1] + [end1];
    var second := [if2] + [body2] + [end2];
    Block(d, draw, st, if1, [body1], end1);
    assert Run(d, draw, st, first) == Success((st, k1));
    Block(d, draw, st, if2, [body2], end2);
    assert Run(d, draw, st, second) == Success((st, k2));
    RunAppend(d, draw, st, first, second);
  }

  lemma KeptPair(body1: string, body2: string, live1: bool, live2: bool)
    ensures (if live1 then [body1] else []) + (if live2 then [body2] else []) ==
      if live1 && live2 then [body1, body2] else if live1 then [body1] else if live2 then [body2] else []
  {
    var none: seq<string> := [];
    assert [body1] + [body2] == [body1, body2];
    assert [body1] + none == [body1] && none + [body2] == [body2] && none + none == none;
  }

  /** A random directive followed by two one-line `#IF` blocks. */
  lemma TwoBlocks(d: Dialect, draw: nat -> int, random: string,
                  if1: string, body1: string, end1: string, if2: string, body2: string, end2: string,
                  live1: bool, live2: bool)
    requires d.randomKeyword != "#IF" && d.randomKeyword != "#ENDIF"
    requires Step(d, draw, Initial, random) == Success((ReduceState(true, draw(0), false, false, 1), false))
    requires Command(d, if1) == "#IF" && Command(d, if2) == "#IF"
    requires Command(d, end1) == "#ENDIF" && Command(d, end2) == "#ENDIF"
    requires IsPlain(d, body1) && IsPlain(d, body2)
    requires IfMatches(d, if1, draw(0)) == Success(live1) && IfMatches(d, if2, draw(0)) == Success(live2)
    ensures Reduce(d, draw, [random, if1, body1, end1, if2, body2, end2]) ==
      Success(if live1 && live2 then [body1, body2] else if live1 then [body1] else if live2 then [body2] else [])
  {
    var active := ReduceState(true, draw(0), false, false, 1);
    var rest := ([if1] + [body1] + [end1]) + ([if2] + [body2] + [end2]);
    BlockPair(d, draw, active, if1, body1, end1, if2, body2, end2);
    assert ([random] + rest)[0] == random && ([random] + rest)[1..] == rest;
    RunUnfold(d, draw, Initial, [random] + rest);
    ThenNothing(Run(d, draw, active, rest));
    SevenLines(random, if1, body1, end1, if2, body2, end2);
    KeptPair(body1, body2, live1, live2);
  }

  /** The chart satisfies what `TwoBlocks` needs under the intended reading. */
  lemma IntendedChartShape()
    ensures Step(Intended, DrawTwo, Initial, RandomLine) == Success((ReduceState(true, DrawTwo(0), false, false, 1), false))
    ensures Command(Intended, IfOne) == "#IF" && Command(Intended, IfTwo) == "#IF"
    ensures Command(Intended, EndIf) == "#ENDIF"
    ensures IsPlain(Intended, One) && IsPlain(Intended, Two)
    ensures IfMatches(Intended, IfOne, DrawTwo(0)) == Success(false)
    ensures IfMatches(Intended, IfTwo, DrawTwo(0)) == Success(true)
  {
    IntendedDrawsTwo();
    IntendedIfOperands();
    IntendedBlockLines();
  }

  /** With the intended reading only the lines of the `#IF 2` branch survive. */
  lemma IntendedSelectsBranch()
    ensures Reduce(Intended, DrawTwo, ThreeWayChart) == Success([Two])
  {
    IntendedChartShape();
    TwoBlocks(Intended, DrawTwo, RandomLine, IfOne, One, EndIf, IfTwo, Two, EndIf, false, true);
  }
}
