/** Characters, digit strings and the two-character chunking shared by every
    parser of the chart format. */
module Text {

  datatype Option<+T> = None | Some(value: T)

  /** The error-carrying result of a parser; `:-` propagates a Failure. */
  datatype Result<+R, +E> = Success(value: R) | Failure(error: E) {
    predicate IsFailure() { Failure? }
    function PropagateFailure<U>(): Result<U, E>
      requires Failure?
    {
      Failure(error)
    }
    function Extract(): R
      requires Success?
    {
      value
    }
  }

  /** A slot index: two base-36 digits, so one of 36 * 36 = 1296 values. */
  const SlotCount: nat := 1296
  type Slot = n: nat | n < 1296

  /** The ASCII characters the regular expressions call `\w`. */
  predicate IsWordChar(c: char) {
    ('a' <= c <= 'z') || ('A' <= c <= 'Z') || ('0' <= c <= '9') || c == '_'
  }

  /** The ASCII characters the regular expressions call `\s`. */
  predicate IsSpace(c: char) {
    c == ' ' || c == '\t' || c == '\n' || c == '\r' || c == '\U{B}' || c == '\U{C}'
  }

  /** The value of one character read as a base-36 digit (either case). */
  function DigitValue(c: char): (d: Option<nat>)
    ensures d.Some? ==> d.value < 36
    ensures d.Some? <==> ('0' <= c <= '9') || ('a' <= c <= 'z') || ('A' <= c <= 'Z')
  {
    if '0' <= c <= '9' then Some(c as nat - '0' as nat)
    else if 'a' <= c <= 'z' then Some(c as nat - 'a' as nat + 10)
    else if 'A' <= c <= 'Z' then Some(c as nat - 'A' as nat + 10)
    else None
  }

  predicate IsDigitIn(c: char, base: nat) {
    DigitValue(c).Some? && DigitValue(c).value < base
  }

  function Pow(b: nat, e: nat): (r: nat)
    ensures b > 0 ==> r > 0
  {
    if e == 0 then 1 else b * Pow(b, e - 1)
  }

  /** `int(s, base)` on a non-empty string of ASCII digits of that base; None
      for anything else (the empty string included). */
  function ParseDigits(s: string, base: nat): (r: Option<nat>)
    requires 2 <= base <= 36
    ensures r.Some? <==> |s| > 0 && forall i :: 0 <= i < |s| ==> IsDigitIn(s[i], base)
    ensures r.Some? ==> r.value < Pow(base, |s|)
    decreases |s|
  {
    if |s| == 0 then None
    else if !IsDigitIn(s[|s| - 1], base) then None
    else if |s| == 1 then Some(DigitValue(s[0]).value)
    else match ParseDigits(s[..|s| - 1], base)
      case None => None
      case Some(high) =>
        assert forall i :: 0 <= i < |s| - 1 ==> s[..|s| - 1][i] == s[i];
        PlaceValueBound(high, DigitValue(s[|s| - 1]).value, base, |s| - 1);
        Some(high * base + DigitValue(s[|s| - 1]).value)
  }

  lemma PlaceValueBound(high: nat, d: nat, base: nat, e: nat)
    requires high < Pow(base, e) && d < base
    ensures high * base + d < Pow(base, e + 1)
  {
    calc {
      high * base + d;
    <  high * base + base;
    == (high + 1) * base;
    <= { assert high + 1 <= Pow(base, e); }
       Pow(base, e) * base;
    == Pow(base, e + 1);
    }
  }

  /** The value of a one- or two-character base-36 token; it always names a slot. */
  function Base36Token(t: string): (r: Option<Slot>)
    requires |t| <= 2
  {
    match ParseDigits(t, 36)
    case None => None
    case Some(v) => assert Pow(36, |t|) <= 1296; Some(v)
  }

  lemma {:induction false} ParseTwoDigits(s: string, base: nat)
    requires 2 <= base <= 36 && |s| == 2 && IsDigitIn(s[0], base) && IsDigitIn(s[1], base)
    ensures ParseDigits(s, base) == Some(base * DigitValue(s[0]).value + DigitValue(s[1]).value)
  {
    var front := s[..1];
    assert front == [s[0]] && s[|s| - 1] == s[1];
    assert ParseDigits(front, base) == Some(DigitValue(s[0]).value);
  }

  function Decimal(s: string): (r: Option<nat>) { ParseDigits(s, 10) }

  function Hex(s: string): (r: Option<nat>) { ParseDigits(s, 16) }

  function Min(a: int, b: int): int { if a <= b then a else b }

  function Max(a: int, b: int): int { if a >= b then a else b }

  /** `[s[i:i + 2] for i in range(0, len(s), 2)]`: consecutive two-character
      tokens, the last one a single character when |s| is odd. */
  function Chunks(s: string): (r: seq<string>)
    ensures |r| == (|s| + 1) / 2
    ensures forall k :: 0 <= k < |r| ==> 1 <= |r[k]| <= 2
    ensures forall k :: 0 <= k < |r| ==> 2 * k < |s| && r[k] == s[2 * k .. Min(2 * k + 2, |s|)]
    decreases |s|
  {
    if |s| == 0 then []
    else if |s| <= 2 then [s]
    else
      var rest := Chunks(s[2..]);
      ChunksShift(s, rest);
      [s[..2]] + rest
  }

  lemma ChunksShift(s: string, rest: seq<string>)
    requires |s| > 2 && |rest| == (|s| - 1) / 2
    requires forall k :: 0 <= k < |rest| ==> 2 * k < |s| - 2 && rest[k] == s[2..][2 * k .. Min(2 * k + 2, |s| - 2)]
    ensures forall k :: 1 <= k < |rest| + 1 ==> 2 * k < |s| && rest[k - 1] == s[2 * k .. Min(2 * k + 2, |s|)]
  {
    forall k | 1 <= k < |rest| + 1
      ensures 2 * k < |s| && rest[k - 1] == s[2 * k .. Min(2 * k + 2, |s|)]
    {
      assert s[2..][2 * (k - 1) .. Min(2 * (k - 1) + 2, |s| - 2)] == s[2 * k .. Min(2 * k + 2, |s|)];
    }
  }

  function Concat(ts: seq<string>): string {
    if ts == [] then [] else ts[0] + Concat(ts[1..])
  }

  /** Chunking loses nothing: the tokens put back together give the content. */
  lemma {:induction false} ChunksConcat(s: string)
    ensures Concat(Chunks(s)) == s
    decreases |s|
  {
    if |s| > 2 {
      ChunksConcat(s[2..]);
      assert Chunks(s)[1..] == Chunks(s[2..]);
      assert s == s[..2] + s[2..];
    }
  }

  /** Decodes every token of `s` as a base-36 slot; None when a token is not one. */
  function DecodeSlots(s: string): Option<seq<Slot>> {
    DecodeTokens(Chunks(s))
  }

  /** Content of length n decodes to ceil(n / 2) slots in order, the k-th the
      base-36 value of `s[2k .. 2k + 2)` (one character for the last token of
      an odd-length content); decoding fails exactly when some token is not
      made of base-36 digits. */
  lemma DecodeSlotsSpec(s: string)
    ensures DecodeSlots(s).Some? <==>
      forall k :: 0 <= k < (|s| + 1) / 2 ==> Base36Token(s[2 * k .. Min(2 * k + 2, |s|)]).Some?
    ensures DecodeSlots(s).Some? ==>
      var r := DecodeSlots(s).value;
      |r| == (|s| + 1) / 2 &&
      forall k :: 0 <= k < |r| ==> Some(r[k]) == Base36Token(s[2 * k .. Min(2 * k + 2, |s|)])
  {
    var ts := Chunks(s);
    assert forall k :: 0 <= k < |ts| ==> ts[k] == s[2 * k .. Min(2 * k + 2, |s|)];
  }

  function DecodeTokens(ts: seq<string>): (r: Option<seq<Slot>>)
    requires forall k :: 0 <= k < |ts| ==> |ts[k]| <= 2
    ensures r.Some? <==> forall k :: 0 <= k < |ts| ==> Base36Token(ts[k]).Some?
    ensures r.Some? ==> |r.value| == |ts|
    ensures r.Some? ==> forall k :: 0 <= k < |ts| ==> Some(r.value[k]) == Base36Token(ts[k])
  {
    if ts == [] then Some([])
    else match Base36Token(ts[0])
      case None => None
      case Some(v) =>
        match DecodeTokens(ts[1..])
        case None => None
        case Some(vs) => Some([v] + vs)
  }

  /** The text before the first space, as `line.split(' ')[0]`. */
  function FirstField(s: string): (r: string)
    ensures |r| <= |s|
    ensures forall i :: 0 <= i < |r| ==> r[i] != ' '
    ensures |r| < |s| ==> s[|r|] == ' '
  {
    if |s| == 0 || s[0] == ' ' then [] else [s[0]] + FirstField(s[1..])
  }

  /** The first field is a prefix of the line (kept out of the function's own
      contract for the same reason as for `LastField`). */
  lemma {:induction false} FirstFieldPrefix(s: string)
    ensures FirstField(s) == s[..|FirstField(s)|]
    decreases |s|
  {
    if |s| > 0 && s[0] != ' ' {
      FirstFieldPrefix(s[1..]);
      assert [s[0]] + s[1..][..|FirstField(s[1..])|] == s[..|FirstField(s)|];
    }
  }

  lemma {:induction false} FirstFieldOf(w: string, rest: string)
    requires forall i :: 0 <= i < |w| ==> w[i] != ' '
    requires rest == [] || rest[0] == ' '
    ensures FirstField(w + rest) == w
    decreases |w|
  {
    if w != [] {
      assert (w + rest)[1..] == w[1..] + rest;
      FirstFieldOf(w[1..], rest);
      assert [w[0]] + w[1..] == w;
    } else {
      assert w + rest == rest;
    }
  }

  /** The text after the last space, as `line.split(' ')[-1]`. */
  function LastField(s: string): (r: string)
    ensures |r| <= |s|
    ensures forall i :: 0 <= i < |r| ==> r[i] != ' '
    ensures |r| < |s| ==> s[|s| - |r| - 1] == ' '
  {
    if |s| == 0 || s[|s| - 1] == ' ' then [] else LastField(s[..|s| - 1]) + [s[|s| - 1]]
  }

  lemma {:induction false} LastFieldOf(front: string, w: string)
    requires forall i :: 0 <= i < |w| ==> w[i] != ' '
    requires front == [] || front[|front| - 1] == ' '
    ensures LastField(front + w) == w
    decreases |w|
  {
    if w != [] {
      var w' := w[..|w| - 1];
      LastFieldStep(front + w);
      assert (front + w)[..|front + w| - 1] == front + w';
      LastFieldOf(front, w');
      assert w' + [w[|w| - 1]] == w;
    } else {
      assert front + w == front;
    }
  }

  /** The last field is a suffix of the line (kept out of the function's own
      contract, where the slice it mentions makes every proof about lines
      more expensive). */
  lemma {:induction false} LastFieldSuffix(s: string)
    ensures LastField(s) == s[|s| - |LastField(s)|..]
    decreases |s|
  {
    if |s| > 0 && s[|s| - 1] != ' ' {
      LastFieldSuffix(s[..|s| - 1]);
      var init := s[..|s| - 1];
      assert init[|init| - |LastField(init)|..] + [s[|s| - 1]] == s[|s| - |LastField(s)|..];
    }
  }

  lemma LastFieldStep(s: string)
    requires |s| > 0 && s[|s| - 1] != ' '
    ensures LastField(s) == LastField(s[..|s| - 1]) + [s[|s| - 1]]
  {
  }

  /** The longest prefix of `s` made of `\w` characters. */
  function WordRun(s: string): (r: string)
    ensures |r| <= |s| && r == s[..|r|]
    ensures forall i :: 0 <= i < |r| ==> IsWordChar(r[i])
    ensures |r| < |s| ==> !IsWordChar(s[|r|])
  {
    if |s| == 0 || !IsWordChar(s[0]) then [] else [s[0]] + WordRun(s[1..])
  }

  /** The longest prefix of `s` made of `\s` characters. */
  function SpaceRun(s: string): (r: string)
    ensures |r| <= |s| && r == s[..|r|]
    ensures forall i :: 0 <= i < |r| ==> IsSpace(r[i])
    ensures |r| < |s| ==> !IsSpace(s[|r|])
  {
    if |s| == 0 || !IsSpace(s[0]) then [] else [s[0]] + SpaceRun(s[1..])
  }

  /** `line` without one trailing newline, the way `$` lets a match end before it. */
  function DropNewline(line: string): (r: string)
    ensures r == line || (line == r + "\n")
  {
    if |line| > 0 && line[|line| - 1] == '\n' then line[..|line| - 1] else line
  }

  predicate StartsWith(s: string, p: string) {
    |p| <= |s| && s[..|p|] == p
  }
}
