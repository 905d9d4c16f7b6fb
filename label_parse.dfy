/** Reading a YOLO label file the way `_load_dataset` does: the file is cut
    into lines (Python text mode, universal newlines), each line into
    whitespace-separated fields (`str.split()`), the first field goes through
    `int()` and the others through `float()`. Any failure aborts the load. */
module LabelParse {
  import opened Wrappers
  import opened Text

  /** The characters for which Python's str.isspace() holds. */
  predicate IsSpace(c: char) {
    c == ' ' || '\t' <= c <= '\r' || '\U{1c}' <= c <= '\U{1f}' || c == '\U{85}' || c == '\U{a0}' ||
    c == '\U{1680}' || '\U{2000}' <= c <= '\U{200a}' || c == '\U{2028}' || c == '\U{2029}' ||
    c == '\U{202f}' || c == '\U{205f}' || c == '\U{3000}'
  }

  predicate NoSpace(s: string) {
    forall i :: 0 <= i < |s| ==> !IsSpace(s[i])
  }

  /** End of the run of non-space characters that starts at i. */
  function WordEnd(s: string, i: nat): (k: nat)
    requires i <= |s|
    ensures i <= k <= |s| && NoSpace(s[i..k])
    ensures k == |s| || IsSpace(s[k])
    ensures i < |s| && !IsSpace(s[i]) ==> i < k
    decreases |s| - i
  {
    if i == |s| || IsSpace(s[i]) then i
    else
      var k := WordEnd(s, i + 1);
      assert s[i..k] == [s[i]] + s[i + 1..k];
      k
  }

  /** Python's s.split() with no separator: the maximal runs of non-space characters. */
  function Fields(s: string): (r: seq<string>)
    ensures forall i :: 0 <= i < |r| ==> r[i] != [] && NoSpace(r[i])
    decreases |s|
  {
    if s == [] then []
    else if IsSpace(s[0]) then Fields(s[1..])
    else
      var k := WordEnd(s, 0);
      [s[..k]] + Fields(s[k..])
  }

  lemma {:induction false} WordEndOfWord(w: string, t: string, i: nat)
    requires NoSpace(w) && i <= |w|
    requires t == [] || IsSpace(t[0])
    ensures WordEnd(w + t, i) == |w|
    decreases |w| - i
  {
    if i < |w| {
      WordEndOfWord(w, t, i + 1);
    }
  }

  /** Splitting fields that were joined with single spaces gives them back. */
  lemma {:induction false} FieldsOfJoin(ws: seq<string>)
    requires forall i :: 0 <= i < |ws| ==> ws[i] != [] && NoSpace(ws[i])
    ensures Fields(Join(ws, " ")) == ws
  {
    if |ws| == 1 {
      WordEndOfWord(ws[0], [], 0);
      assert ws[0] + [] == ws[0];
      assert ws[0][|ws[0]|..] == [];
    } else if |ws| > 1 {
      var w, rest := ws[0], Join(ws[1..], " ");
      var s := w + " " + rest;
      assert s == w + (" " + rest);
      WordEndOfWord(w, " " + rest, 0);
      assert s[..|w|] == w;
      assert s[|w|..] == " " + rest;
      assert (" " + rest)[1..] == rest;
      FieldsOfJoin(ws[1..]);
    }
  }

  predicate IsLineBreak(c: char) {
    c == '\n' || c == '\r'
  }

  predicate NoLineBreak(s: string) {
    forall i :: 0 <= i < |s| ==> !IsLineBreak(s[i])
  }

  function LineEnd(s: string, i: nat): (k: nat)
    requires i <= |s|
    ensures i <= k <= |s| && NoLineBreak(s[i..k])
    ensures k == |s| || IsLineBreak(s[k])
    decreases |s| - i
  {
    if i == |s| || IsLineBreak(s[i]) then i
    else
      var k := LineEnd(s, i + 1);
      assert s[i..k] == [s[i]] + s[i + 1..k];
      k
  }

  /** The lines of a file as Python's readlines() yields them in text mode, where
      "\n", "\r" and "\r\n" each end a line, without their terminators (the
      loader strips them before splitting). A final terminator does not start
      another line, so the empty file has no lines. */
  function Lines(s: string): (r: seq<string>)
    ensures forall i :: 0 <= i < |r| ==> NoLineBreak(r[i])
    decreases |s|
  {
    if s == [] then []
    else
      var k := LineEnd(s, 0);
      if k == |s| then [s]
      else
        var next := if s[k] == '\r' && k + 1 < |s| && s[k + 1] == '\n' then k + 2 else k + 1;
        [s[..k]] + Lines(s[next..])
  }

  lemma {:induction false} LineEndOfLine(l: string, t: string, i: nat)
    requires NoLineBreak(l) && i <= |l|
    requires t == [] || IsLineBreak(t[0])
    ensures LineEnd(l + t, i) == |l|
    decreases |l| - i
  {
    if i < |l| {
      LineEndOfLine(l, t, i + 1);
    }
  }

  /** Reading back a file written as "\n".join(lines) gives the lines again,
      when no line holds a line break and the last one is not empty. */
  lemma {:induction false} LinesOfJoin(ls: seq<string>)
    requires forall i :: 0 <= i < |ls| ==> NoLineBreak(ls[i])
    requires ls != [] ==> ls[|ls| - 1] != []
    ensures Lines(Join(ls, "\n")) == ls
  {
    if |ls| == 1 {
      LineEndOfLine(ls[0], [], 0);
      assert ls[0] + [] == ls[0];
    } else if |ls| > 1 {
      var l, rest := ls[0], Join(ls[1..], "\n");
      var s := l + "\n" + rest;
      assert s == l + ("\n" + rest);
      LineEndOfLine(l, "\n" + rest, 0);
      assert s[..|l|] == l;
      JoinNotEmpty(ls[1..]);
      assert s[|l| + 1..] == rest;
      LinesOfJoin(ls[1..]);
    }
  }

  lemma {:induction false} JoinNotEmpty(ls: seq<string>)
    requires ls != [] && ls[|ls| - 1] != []
    ensures Join(ls, "\n") != []
  {
    if |ls| > 1 {
      JoinNotEmpty(ls[1..]);
    }
  }

  // ---------------------------------------------------------------------------
  // Python's int() and float() on one field

  /** Digits with single underscores between them (PEP 515), as int() and
      float() accept them. */
  predicate DigitGroups(s: string) {
    |s| >= 1 && IsDigit(s[0]) && IsDigit(s[|s| - 1]) &&
    (forall i :: 0 <= i < |s| ==> IsDigit(s[i]) || s[i] == '_') &&
    (forall i :: 0 <= i < |s| - 1 ==> !DoubleUnderscore(s, i))
  }

  /** Two underscores in a row at positions i and i + 1. */
  predicate DoubleUnderscore(s: string, i: nat)
    requires i + 1 < |s|
  {
    s[i] == '_' && s[i + 1] == '_'
  }

  function RemoveUnderscores(s: string): (r: string)
    requires forall i :: 0 <= i < |s| ==> IsDigit(s[i]) || s[i] == '_'
    ensures AllDigits(r) && |r| <= |s|
    ensures AllDigits(s) ==> r == s
  {
    if s == [] then []
    else (if s[0] == '_' then [] else [s[0]]) + RemoveUnderscores(s[1..])
  }

  function GroupsValue(s: string): nat
    requires DigitGroups(s)
  {
    DigitsValue(RemoveUnderscores(s))
  }

  /** An optional leading '+' or '-', and what follows it. */
  function SplitSign(s: string): (bool, string) {
    if s != [] && (s[0] == '+' || s[0] == '-') then (s[0] == '-', s[1..]) else (false, s)
  }

  /** int(field): None where Python raises ValueError. */
  function PyInt(field: string): Option<int> {
    var (negative, body) := SplitSign(field);
    if DigitGroups(body) then Some(Signed(negative, GroupsValue(body))) else None
  }

  function Signed(negative: bool, n: nat): int {
    var m: int := n;
    if negative then -m else m
  }

  datatype PyFloat = Finite(value: real) | Infinity(negative: bool) | NaN

  function LowerAscii(s: string): string {
    if s == [] then []
    else [if 'A' <= s[0] <= 'Z' then (s[0] as int + 32) as char else s[0]] + LowerAscii(s[1..])
  }

  function IndexOf(s: string, c: char, d: char): (k: nat)
    ensures k <= |s|
    ensures forall i :: 0 <= i < k ==> s[i] != c && s[i] != d
    ensures k < |s| ==> s[k] == c || s[k] == d
  {
    if s == [] || s[0] == c || s[0] == d then 0 else 1 + IndexOf(s[1..], c, d)
  }

  function Pow10(n: nat): (p: nat)
    ensures p >= 1
  {
    if n == 0 then 1 else 10 * Pow10(n - 1)
  }

  /** m times 10 to the power e, as an exact rational. */
  function Scaled(m: nat, e: int): real {
    if e >= 0 then (m * Pow10(e)) as real else m as real / (Pow10(-e) as real)
  }

  /** The exponent after 'e' or 'E': an optional sign and digit groups. */
  function Exponent(s: string): Option<int> {
    var (negative, body) := SplitSign(s);
    if DigitGroups(body) then Some(Signed(negative, GroupsValue(body))) else None
  }

  /** An unsigned decimal literal: a mantissa and an optional exponent. */
  function Decimal(body: string): Option<real> {
    var e := IndexOf(body, 'e', 'E');
    var exponent := if e == |body| then Some(0) else Exponent(body[e + 1..]);
    var mantissa := Mantissa(body[..e]);
    if exponent.Some? && mantissa.Some? then
      Some(Scaled(mantissa.value.0, exponent.value - mantissa.value.1))
    else None
  }

  /** Digits with an optional fraction, at least one digit before or after the
      point: the number all the digits spell and how many follow the point. */
  function Mantissa(m: string): Option<(nat, nat)> {
    var d := IndexOf(m, '.', '.');
    var whole := m[..d];
    var fraction := if d < |m| then m[d + 1..] else [];
    if (whole != [] || fraction != []) &&
       (whole == [] || DigitGroups(whole)) && (fraction == [] || DigitGroups(fraction))
    then
      var w := if whole == [] then [] else RemoveUnderscores(whole);
      var f := if fraction == [] then [] else RemoveUnderscores(fraction);
      Some((DigitsValue(w + f), |f|))
    else None
  }

  /** float(field): "inf", "infinity" and "nan" in any case, or a decimal
      literal, each with an optional sign; None where Python raises ValueError. */
  function PyFloatOf(field: string): Option<PyFloat> {
    var (negative, body) := SplitSign(field);
    var lower := LowerAscii(body);
    if lower == "inf" || lower == "infinity" then Some(Infinity(negative))
    else if lower == "nan" then Some(NaN)
    else match Decimal(body)
      case None => None
      case Some(v) => Some(Finite(if negative then -v else v))
  }

  /** int() reads back what str() writes. */
  lemma PyIntOfIntToString(n: int)
    ensures PyInt(IntToString(n)) == Some(n)
  {
    var m: nat := if n < 0 then -n else n;
    var digits := NatToString(m);
    DigitsAreGroups(digits);
    if n < 0 {
      assert IntToString(n) == "-" + digits;
      assert SplitSign("-" + digits) == (true, digits);
    } else {
      assert IntToString(n) == digits;
      assert SplitSign(digits) == (false, digits);
    }
  }

  /** A plain digit string is a single digit group with the value of its digits. */
  lemma DigitsAreGroups(digits: string)
    requires |digits| >= 1 && AllDigits(digits)
    ensures DigitGroups(digits) && GroupsValue(digits) == DigitsValue(digits)
  {
    assert RemoveUnderscores(digits) == digits;
  }

  lemma LowerAsciiLength(s: string)
    ensures |LowerAscii(s)| == |s|
    ensures s != [] && IsDigit(s[0]) ==> LowerAscii(s)[0] == s[0]
  {
  }

  /** A field that starts with a digit is none of float()'s special names. */
  lemma NotSpecial(body: string)
    requires body != [] && IsDigit(body[0])
    ensures LowerAscii(body) != "inf" && LowerAscii(body) != "infinity" && LowerAscii(body) != "nan"
  {
    LowerAsciiLength(body);
    var lower := LowerAscii(body);
    assert lower[0] == body[0];
    assert "inf"[0] == 'i' && "infinity"[0] == 'i' && "nan"[0] == 'n';
  }

  // ---------------------------------------------------------------------------
  // Label lines and label files

  /** One parsed label line: the class id and the remaining fields as floats
      (normally x_center, y_center, width, height, but int() and float() are all
      the loader checks). */
  datatype LabelRow = LabelRow(classId: int, values: seq<PyFloat>)

  /** Why a line is refused: an empty line has no l[0] (IndexError), a class id
      or a value that does not parse raises ValueError. */
  datatype LineError = MissingClassId | BadClassId | BadValue(field: nat)

  datatype FileError = FileError(line: nat, reason: LineError)

  /** float() over the fields in order; the index of the first refused field. */
  function ParseValues(fields: seq<string>): (r: Result<seq<PyFloat>, nat>)
    ensures r.Ok? ==> (|r.value| == |fields| &&
      forall i :: 0 <= i < |fields| ==> PyFloatOf(fields[i]) == Some(r.value[i]))
    ensures r.Err? ==> (r.error < |fields| && PyFloatOf(fields[r.error]).None? &&
      forall i :: 0 <= i < r.error ==> PyFloatOf(fields[i]).Some?)
  {
    if fields == [] then Ok([])
    else
      var first, rest := PyFloatOf(fields[0]), fields[1..];
      assert forall i :: 1 <= i < |fields| ==> fields[i] == rest[i - 1];
      if first.None? then Err(0)
      else
        var tail := ParseValues(rest);
        if tail.Err? then Err(tail.error + 1)
        else Ok([first.value] + tail.value)
  }

  function ParseLabelLine(line: string): Result<LabelRow, LineError> {
    var fields := Fields(line);
    if fields == [] then Err(MissingClassId)
    else match PyInt(fields[0])
      case None => Err(BadClassId)
      case Some(c) =>
        match ParseValues(fields[1..])
        case Err(k) => Err(BadValue(k + 1))
        case Ok(vs) => Ok(LabelRow(c, vs))
  }

  /** Every line through the line parser, in order. */
  function ParseEach(lines: seq<string>): (r: seq<Result<LabelRow, LineError>>)
    ensures |r| == |lines| && forall i :: 0 <= i < |lines| ==> r[i] == ParseLabelLine(lines[i])
  {
    seq(|lines|, i requires 0 <= i < |lines| => ParseLabelLine(lines[i]))
  }

  /** The rows of all lines in order, or the first refused line: the list
      comprehension raises at the first line it cannot convert. */
  function Collect(rs: seq<Result<LabelRow, LineError>>): (r: Result<seq<LabelRow>, FileError>)
    ensures r.Ok? ==> |r.value| == |rs| && forall i :: 0 <= i < |rs| ==> rs[i] == Ok(r.value[i])
    ensures r.Err? ==> (r.error.line < |rs| && rs[r.error.line] == Err(r.error.reason) &&
      forall i :: 0 <= i < r.error.line ==> rs[i].Ok?)
  {
    if rs == [] then Ok([])
    else
      var rest := rs[1..];
      assert forall i :: 1 <= i < |rs| ==> rs[i] == rest[i - 1];
      if rs[0].Err? then Err(FileError(0, rs[0].error))
      else
        var tail := Collect(rest);
        if tail.Err? then Err(FileError(tail.error.line + 1, tail.error.reason))
        else Ok([rs[0].value] + tail.value)
  }

  /** Every line in order; the first refused line fails the whole file. */
  function ParseLines(lines: seq<string>): (r: Result<seq<LabelRow>, FileError>)
    ensures r.Ok? ==> (|r.value| == |lines| &&
      forall i :: 0 <= i < |lines| ==> ParseLabelLine(lines[i]) == Ok(r.value[i]))
    ensures r.Err? ==> (r.error.line < |lines| &&
      ParseLabelLine(lines[r.error.line]) == Err(r.error.reason) &&
      forall i :: 0 <= i < r.error.line ==> ParseLabelLine(lines[i]).Ok?)
  {
    Collect(ParseEach(lines))
  }

  function ParseLabelFile(content: string): Result<seq<LabelRow>, FileError> {
    ParseLines(Lines(content))
  }

  /** An empty label file is accepted and yields no rows. */
  lemma EmptyFileHasNoRows()
    ensures ParseLabelFile("") == Ok([])
  {
  }

  /** A blank line anywhere, a trailing one included, fails the load. */
  lemma BlankLineFails(lines: seq<string>, k: nat)
    requires k < |lines| && Fields(lines[k]) == []
    requires forall i :: 0 <= i < k ==> ParseLabelLine(lines[i]).Ok?
    ensures ParseLines(lines) == Err(FileError(k, MissingClassId))
  {
    assert ParseLabelLine(lines[k]) == Err(MissingClassId);
    FirstRefusedLine(lines, k);
  }

  /** The first refused line decides the error of the whole file. */
  lemma FirstRefusedLine(lines: seq<string>, k: nat)
    requires k < |lines| && ParseLabelLine(lines[k]).Err?
    requires forall i :: 0 <= i < k ==> ParseLabelLine(lines[i]).Ok?
    ensures ParseLines(lines) == Err(FileError(k, ParseLabelLine(lines[k]).error))
  {
    FirstError(ParseEach(lines), k);
  }

  lemma {:induction false} FirstError(rs: seq<Result<LabelRow, LineError>>, k: nat)
    requires k < |rs| && rs[k].Err? && forall i :: 0 <= i < k ==> rs[i].Ok?
    ensures Collect(rs) == Err(FileError(k, rs[k].error))
    decreases k
  {
    if k > 0 {
      var rest := rs[1..];
      assert forall i :: 0 <= i < k - 1 ==> rest[i] == rs[i + 1];
      FirstError(rest, k - 1);
    }
  }

  /** A field that starts with a digit is neither signed nor a special value. */
  lemma DigitLedField(body: string)
    requires body != [] && IsDigit(body[0])
    ensures PyFloatOf(body) == if Decimal(body).Some? then Some(Finite(Decimal(body).value)) else None
  {
    assert SplitSign(body) == (false, body);
    NotSpecial(body);
  }

  /** A fixed-point field "digits.digits", the form the label writer emits,
      parses to the integer its digits spell divided by 10 per fraction digit. */
  lemma FixedPointField(a: string, b: string)
    requires a != [] && AllDigits(a) && b != [] && AllDigits(b)
    ensures AllDigits(a + b)
    ensures PyFloatOf(a + "." + b) ==
      Some(Finite(DigitsValue(a + b) as real / Pow10(|b|) as real))
  {
    var body := a + "." + b;
    DigitLedField(body);
    FixedPointDecimal(a, b);
  }

  lemma FixedPointDecimal(a: string, b: string)
    requires a != [] && AllDigits(a) && b != [] && AllDigits(b)
    ensures AllDigits(a + b)
    ensures Decimal(a + "." + b) == Some(DigitsValue(a + b) as real / Pow10(|b|) as real)
  {
    var body := a + "." + b;
    NoMarkBefore(body, 'e', 'E', |body|);
    assert body[..|body|] == body;
    FixedPointMantissa(a, b);
    WithoutExponent(body);
    var n := DigitsValue(a + b);
    assert Decimal(body) == Some(Scaled(n, 0 - |b|));
  }

  /** Without an exponent mark the decimal is the mantissa scaled down by its fraction digits. */
  lemma WithoutExponent(body: string)
    requires IndexOf(body, 'e', 'E') == |body|
    ensures Decimal(body) ==
      if Mantissa(body).Some? then Some(Scaled(Mantissa(body).value.0, 0 - Mantissa(body).value.1))
      else None
  {
    assert body[..|body|] == body;
  }

  lemma FixedPointMantissa(a: string, b: string)
    requires a != [] && AllDigits(a) && b != [] && AllDigits(b)
    ensures AllDigits(a + b)
    ensures Mantissa(a + "." + b) == Some((DigitsValue(a + b), |b|))
  {
    var body := a + "." + b;
    NoMarkBefore(body, '.', '.', |a|);
    assert body[..|a|] == a;
    assert body[|a| + 1..] == b;
    assert DigitGroups(a) && DigitGroups(b);
  }

  /** IndexOf finds the first mark at k when none comes earlier. */
  lemma NoMarkBefore(s: string, c: char, d: char, k: nat)
    requires k <= |s|
    requires forall i :: 0 <= i < k ==> s[i] != c && s[i] != d
    requires k < |s| ==> s[k] == c || s[k] == d
    ensures IndexOf(s, c, d) == k
  {
  }

  /** The fixed-point fields "a.b" of the given digit strings, and their values. */
  predicate DigitPairs(parts: seq<(string, string)>) {
    forall i :: 0 <= i < |parts| ==>
      parts[i].0 != [] && AllDigits(parts[i].0) && parts[i].1 != [] && AllDigits(parts[i].1)
  }

  function FixedFields(parts: seq<(string, string)>): (r: seq<string>)
    ensures |r| == |parts|
  {
    if parts == [] then [] else [parts[0].0 + "." + parts[0].1] + FixedFields(parts[1..])
  }

  function FixedValues(parts: seq<(string, string)>): seq<PyFloat>
    requires DigitPairs(parts)
  {
    if parts == [] then []
    else
      var (a, b) := parts[0];
      assert AllDigits(a + b);
      [Finite(DigitsValue(a + b) as real / Pow10(|b|) as real)] + FixedValues(parts[1..])
  }

  lemma {:induction false} FixedFieldsParse(parts: seq<(string, string)>)
    requires DigitPairs(parts)
    ensures ParseValues(FixedFields(parts)) == Ok(FixedValues(parts))
  {
    if parts != [] {
      FixedPointField(parts[0].0, parts[0].1);
      FixedFieldsParse(parts[1..]);
      assert FixedFields(parts)[1..] == FixedFields(parts[1..]);
    }
  }

  lemma {:induction false} FixedFieldsWellFormed(parts: seq<(string, string)>)
    requires DigitPairs(parts)
    ensures forall i :: 0 <= i < |parts| ==> FixedFields(parts)[i] != [] && NoSpace(FixedFields(parts)[i])
  {
    if parts != [] {
      FixedFieldsWellFormed(parts[1..]);
      var f := parts[0].0 + "." + parts[0].1;
      assert forall j :: 0 <= j < |f| ==> IsDigit(f[j]) || f[j] == '.';
      assert FixedFields(parts)[0] == f;
      assert forall i :: 1 <= i < |parts| ==> FixedFields(parts)[i] == FixedFields(parts[1..])[i - 1];
    }
  }

  /** A label line in the form the generator writes (a class id, then
      fixed-point values, separated by single spaces) reads back as that class
      id and those values. */
  lemma WrittenLineReadsBack(classId: int, parts: seq<(string, string)>)
    requires DigitPairs(parts)
    ensures ParseLabelLine(Join([IntToString(classId)] + FixedFields(parts), " ")) ==
      Ok(LabelRow(classId, FixedValues(parts)))
  {
    var head := IntToString(classId);
    var fields := [head] + FixedFields(parts);
    assert Fields(Join(fields, " ")) == fields by {
      assert forall j :: 0 <= j < |head| ==> IsDigit(head[j]) || head[j] == '-';
      FixedFieldsWellFormed(parts);
      assert forall i :: 1 <= i < |fields| ==> fields[i] == FixedFields(parts)[i - 1];
      FieldsOfJoin(fields);
    }
    assert PyInt(fields[0]) == Some(classId) by {
      PyIntOfIntToString(classId);
    }
    assert ParseValues(fields[1..]) == Ok(FixedValues(parts)) by {
      assert fields[1..] == FixedFields(parts);
      FixedFieldsParse(parts);
    }
  }
}
