/// src/toolbox/obj_loader.rs: the line loop of `load_obj`, which reads the
/// `v` (vertex) and `f` (face) records of a Wavefront OBJ text and ignores
/// every other record.
module ObjLoader {
  import opened Results
  import opened Decimal

  /** `[f32; 3]`, with the components kept as exact numbers. */
  type Vertex = (real, real, real)

  const U32_MODULUS: nat := 0x1_0000_0000
  const USIZE_MAX: nat := 0xFFFF_FFFF_FFFF_FFFF

  /** `[u32; 3]`: the three vertex indices of a face. */
  type TriIndexes = (nat, nat, nat)

  datatype Mesh = Mesh(vertices: seq<Vertex>, indices: seq<TriIndexes>)

  // ---- str::lines ----

  /** Index of the first `c` in `s`, or |s| when there is none. */
  function Find(s: string, c: char): (i: nat)
    ensures i <= |s|
    ensures forall j :: 0 <= j < i ==> s[j] != c
    ensures i < |s| ==> s[i] == c
    decreases |s|
  {
    if s == [] then 0 else if s[0] == c then 0 else 1 + Find(s[1..], c)
  }

  /** A line ended by "\r\n" loses the carriage return too. */
  function StripCarriageReturn(line: string): string
  {
    if |line| > 0 && line[|line| - 1] == '\r' then line[..|line| - 1] else line
  }

  /** `str::lines`: split after each '\n', dropping the "\n" or "\r\n"
      terminator; a final line needs no terminator, and an empty text or a
      text ending in '\n' yields no trailing empty line. */
  function Lines(s: string): (r: seq<string>)
    ensures forall i :: 0 <= i < |r| ==> '\n' !in r[i]
    decreases |s|
  {
    if s == [] then []
    else
      var i := Find(s, '\n');
      if i == |s| then [s]
      else [StripCarriageReturn(s[..i])] + Lines(s[i + 1..])
  }

  // ---- str::split_whitespace ----

  /** The Unicode White_Space characters. */
  predicate IsWhitespace(c: char)
  {
    || c == ' ' || c == '\t' || c == '\n' || c == '\r' || c == '\U{000B}' || c == '\U{000C}'
    || c == '\U{0085}' || c == '\U{00A0}' || c == '\U{1680}'
    || ('\U{2000}' <= c <= '\U{200A}')
    || c == '\U{2028}' || c == '\U{2029}' || c == '\U{202F}' || c == '\U{205F}' || c == '\U{3000}'
  }

  /** Length of the run of non-whitespace characters that starts `s`. */
  function TokenLength(s: string): (n: nat)
    ensures n <= |s|
    ensures forall j :: 0 <= j < n ==> !IsWhitespace(s[j])
    ensures n < |s| ==> IsWhitespace(s[n])
    decreases |s|
  {
    if s == [] || IsWhitespace(s[0]) then 0 else 1 + TokenLength(s[1..])
  }

  /** `str::split_whitespace`: the maximal runs of non-whitespace characters. */
  function SplitWhitespace(s: string): (r: seq<string>)
    ensures forall i :: 0 <= i < |r| ==> |r[i]| > 0
    ensures forall i, j :: 0 <= i < |r| && 0 <= j < |r[i]| ==> !IsWhitespace(r[i][j])
    decreases |s|
  {
    if s == [] then []
    else if IsWhitespace(s[0]) then SplitWhitespace(s[1..])
    else
      var n := TokenLength(s);
      [s[..n]] + SplitWhitespace(s[n..])
  }

  // ---- number parsing ----

  /** `str::parse::<usize>`: an optional '+', then one or more decimal
      digits, of value at most `usize::MAX`. */
  function ParseUsize(s: string): (r: Option<nat>)
    ensures r.Some? ==> r.value <= USIZE_MAX
  {
    var digits := if |s| > 0 && s[0] == '+' then s[1..] else s;
    if digits == [] || exists i :: 0 <= i < |digits| && !IsDigit(digits[i]) then None
    else if DigitsValue(digits) > USIZE_MAX then None
    else Some(DigitsValue(digits))
  }

  /** Parsing reads back what the decimal text of an index says. */
  lemma {:induction false} ParseUsizeDecimal(n: nat)
    requires n <= USIZE_MAX
    ensures ParseUsize(DecimalText(n)) == Some(n)
    ensures ParseUsize("+" + DecimalText(n)) == Some(n)
  {
    DecimalTextValue(n);
    assert ("+" + DecimalText(n))[1..] == DecimalText(n);
  }

  /** A face index: the text before the first '/' of the token, parsed as a
      `usize` and truncated to 32 bits (`as u32`). */
  function ParseIndex(token: string): (r: Option<nat>)
    ensures r.Some? ==> r.value < U32_MODULUS
  {
    var field := token[..Find(token, '/')];
    match ParseUsize(field)
    case None => None
    case Some(n) => Some(n % U32_MODULUS)
  }

  // ---- the line loop ----

  /** A `v` line: the vertex of tokens 1 to 3, or an error when one is
      missing or is not a number (`parseFloat` is `str::parse::<f32>`). */
  function VertexLine(parts: seq<string>, parseFloat: string -> Option<real>): Result<Vertex>
  {
    if |parts| < 4 then Err("index out of bounds")
    else
      var x := parseFloat(parts[1]);
      var y := parseFloat(parts[2]);
      var z := parseFloat(parts[3]);
      if x.None? || y.None? || z.None? then Err("called `Result::unwrap()` on an `Err` value")
      else Ok((x.value, y.value, z.value))
  }

  /** An `f` line: the indices of tokens 1 to 3, as written (no shift from
      the format's 1-based numbering), or an error. */
  function FaceLine(parts: seq<string>): Result<TriIndexes>
  {
    if |parts| < 4 then Err("index out of bounds")
    else
      var a := ParseIndex(parts[1]);
      var b := ParseIndex(parts[2]);
      var c := ParseIndex(parts[3]);
      if a.None? || b.None? || c.None? then Err("called `Result::unwrap()` on an `Err` value")
      else Ok((a.value, b.value, c.value))
  }

  /** One turn of the loop. */
  function Step(m: Mesh, line: string, parseFloat: string -> Option<real>): Result<Mesh>
  {
    var parts := SplitWhitespace(line);
    if parts == [] then Ok(m)
    else if parts[0] == "v" then
      match VertexLine(parts, parseFloat)
      case Err(e) => Err(e)
      case Ok(v) => Ok(m.(vertices := m.vertices + [v]))
    else if parts[0] == "f" then
      match FaceLine(parts)
      case Err(e) => Err(e)
      case Ok(t) => Ok(m.(indices := m.indices + [t]))
    else Ok(m)
  }

  /** The loop over `lines`, from an empty mesh; the first failing line aborts. */
  function LoadLines(lines: seq<string>, parseFloat: string -> Option<real>): Result<Mesh>
    decreases |lines|
  {
    if lines == [] then Ok(Mesh([], []))
    else
      match LoadLines(lines[..|lines| - 1], parseFloat)
      case Err(e) => Err(e)
      case Ok(m) => Step(m, lines[|lines| - 1], parseFloat)
  }

  /** `load_obj` over the contents of the file. */
  method LoadObj(contents: string, parseFloat: string -> Option<real>) returns (r: Result<Mesh>)
    ensures r == LoadLines(Lines(contents), parseFloat)
  {
    var lines := Lines(contents);
    var vertices: seq<Vertex> := [];
    var indices: seq<TriIndexes> := [];
    for k := 0 to |lines|
      invariant LoadLines(lines[..k], parseFloat) == Ok(Mesh(vertices, indices))
    {
      assert lines[..k + 1][..k] == lines[..k];
      var parts := SplitWhitespace(lines[k]);
      if parts == [] {
        continue;
      }
      if parts[0] == "v" {
        var v := VertexLine(parts, parseFloat);
        if v.Err? {
          assert LoadLines(lines[..k + 1], parseFloat).Err?;
          LoadLinesAbort(lines, k + 1, parseFloat);
          return Err(v.error);
        }
        vertices := vertices + [v.value];
      } else if parts[0] == "f" {
        var t := FaceLine(parts);
        if t.Err? {
          assert LoadLines(lines[..k + 1], parseFloat).Err?;
          LoadLinesAbort(lines, k + 1, parseFloat);
          return Err(t.error);
        }
        indices := indices + [t.value];
      }
    }
    assert lines[..|lines|] == lines;
    r := Ok(Mesh(vertices, indices));
  }

  /** Once a prefix fails, the whole load fails with the same error. */
  lemma {:induction false} LoadLinesAbort(lines: seq<string>, k: nat, parseFloat: string -> Option<real>)
    requires k <= |lines| && LoadLines(lines[..k], parseFloat).Err?
    ensures LoadLines(lines, parseFloat) == LoadLines(lines[..k], parseFloat)
    decreases |lines| - k
  {
    if k < |lines| {
      assert lines[..k + 1][..k] == lines[..k];
      LoadLinesAbort(lines, k + 1, parseFloat);
    } else {
      assert lines[..k] == lines;
    }
  }

  // ---- what the loop computes ----

  /** The first token of a line, or "" for a blank line. */
  function Leading(line: string): string
  {
    var parts := SplitWhitespace(line);
    if parts == [] then "" else parts[0]
  }

  /** A `v` or `f` line the loop would abort on. */
  predicate Malformed(line: string, parseFloat: string -> Option<real>)
  {
    var parts := SplitWhitespace(line);
    || (Leading(line) == "v" && VertexLine(parts, parseFloat).Err?)
    || (Leading(line) == "f" && FaceLine(parts).Err?)
  }

  /** The vertices of the `v` lines, in line order. */
  function VertexRecords(lines: seq<string>, parseFloat: string -> Option<real>): seq<Vertex>
    requires WellFormedLines(lines, parseFloat)
    decreases |lines|
  {
    if lines == [] then []
    else
      var line := lines[|lines| - 1];
      assert !Malformed(line, parseFloat);
      VertexRecords(lines[..|lines| - 1], parseFloat)
        + (if Leading(line) == "v" then [VertexLine(SplitWhitespace(line), parseFloat).value] else [])
  }

  /** The index triples of the `f` lines, in line order. */
  function FaceRecords(lines: seq<string>, parseFloat: string -> Option<real>): seq<TriIndexes>
    requires WellFormedLines(lines, parseFloat)
    decreases |lines|
  {
    if lines == [] then []
    else
      var line := lines[|lines| - 1];
      assert !Malformed(line, parseFloat);
      FaceRecords(lines[..|lines| - 1], parseFloat)
        + (if Leading(line) == "f" then [FaceLine(SplitWhitespace(line)).value] else [])
  }

  /** Number of lines whose first token is `tag`. */
  function CountTagged(lines: seq<string>, tag: string): nat
    decreases |lines|
  {
    if lines == [] then 0
    else CountTagged(lines[..|lines| - 1], tag) + (if Leading(lines[|lines| - 1]) == tag then 1 else 0)
  }

  /** One turn of the loop succeeds exactly when the line is well formed, and
      then appends the line's record, if any. */
  lemma StepResult(m: Mesh, line: string, parseFloat: string -> Option<real>)
    ensures Step(m, line, parseFloat).Ok? <==> !Malformed(line, parseFloat)
    ensures Step(m, line, parseFloat).Ok? ==>
      Step(m, line, parseFloat).value ==
        Mesh(m.vertices + (if Leading(line) == "v" then [VertexLine(SplitWhitespace(line), parseFloat).value] else []),
             m.indices + (if Leading(line) == "f" then [FaceLine(SplitWhitespace(line)).value] else []))
  {
  }

  /** The load succeeds exactly when no `v` or `f` line is malformed, and then
      yields the `v` records and the `f` records, each in line order. */
  lemma {:induction false} LoadLinesResult(lines: seq<string>, parseFloat: string -> Option<real>)
    ensures LoadLines(lines, parseFloat).Ok? <==> WellFormedLines(lines, parseFloat)
    ensures LoadLines(lines, parseFloat).Ok? ==>
      LoadLines(lines, parseFloat).value == Mesh(VertexRecords(lines, parseFloat), FaceRecords(lines, parseFloat))
    decreases |lines|
  {
    if lines != [] {
      var init := lines[..|lines| - 1];
      var last := lines[|lines| - 1];
      LoadLinesResult(init, parseFloat);
      WellFormedSnoc(lines, parseFloat);
      var prefix := LoadLines(init, parseFloat);
      if prefix.Ok? {
        StepResult(prefix.value, last, parseFloat);
        if !Malformed(last, parseFloat) {
          RecordsSnoc(lines, parseFloat);
        }
      }
    }
  }

  /** Lines without a malformed `v` or `f` line. */
  ghost predicate WellFormedLines(lines: seq<string>, parseFloat: string -> Option<real>)
  {
    forall i :: 0 <= i < |lines| ==> !Malformed(lines[i], parseFloat)
  }

  lemma WellFormedSnoc(lines: seq<string>, parseFloat: string -> Option<real>)
    requires lines != []
    ensures WellFormedLines(lines, parseFloat) <==>
      WellFormedLines(lines[..|lines| - 1], parseFloat) && !Malformed(lines[|lines| - 1], parseFloat)
  {
    var init := lines[..|lines| - 1];
    assert forall i :: 0 <= i < |init| ==> init[i] == lines[i];
  }

  lemma RecordsSnoc(lines: seq<string>, parseFloat: string -> Option<real>)
    requires lines != [] && WellFormedLines(lines, parseFloat)
    ensures var init, line := lines[..|lines| - 1], lines[|lines| - 1];
      && VertexRecords(lines, parseFloat) == VertexRecords(init, parseFloat)
           + (if Leading(line) == "v" then [VertexLine(SplitWhitespace(line), parseFloat).value] else [])
      && FaceRecords(lines, parseFloat) == FaceRecords(init, parseFloat)
           + (if Leading(line) == "f" then [FaceLine(SplitWhitespace(line)).value] else [])
  {
  }

  /** A successful load has one vertex per `v` line and one triple per `f` line. */
  lemma {:induction false} RecordCounts(lines: seq<string>, parseFloat: string -> Option<real>)
    requires WellFormedLines(lines, parseFloat)
    ensures |VertexRecords(lines, parseFloat)| == CountTagged(lines, "v")
    ensures |FaceRecords(lines, parseFloat)| == CountTagged(lines, "f")
    decreases |lines|
  {
    if lines != [] {
      RecordCounts(lines[..|lines| - 1], parseFloat);
    }
  }

  /** The index of a face corner is the number before its first '/', kept
      1-based as the format writes it. */
  lemma FaceIndexAsWritten(n: nat, rest: string)
    requires n < U32_MODULUS
    ensures ParseIndex(DecimalText(n) + "/" + rest) == Some(n)
  {
    var text := DecimalText(n);
    var token := text + "/" + rest;
    assert token == text + ("/" + rest);
    FindAfterDigits(text, "/" + rest);
    var field := token[..Find(token, '/')];
    assert field == text;
    ParseUsizeDecimal(n);
    assert ParseUsize(field) == Some(n);
    SmallRemainder(n, U32_MODULUS);
  }

  lemma SmallRemainder(n: nat, m: nat)
    requires n < m
    ensures n % m == n
  {
  }

  lemma {:induction false} FindAfterDigits(digits: string, rest: string)
    requires forall i :: 0 <= i < |digits| ==> IsDigit(digits[i])
    requires |rest| > 0 && rest[0] == '/'
    ensures Find(digits + rest, '/') == |digits|
    decreases |digits|
  {
    if digits != [] {
      assert (digits + rest)[1..] == digits[1..] + rest;
      FindAfterDigits(digits[1..], rest);
    }
  }
}
