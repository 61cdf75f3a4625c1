/** load_questions: the comprehension questions read from a worksheet.
    From the second sheet row on, each row holds a label, the position
    (1 to 4) of the right answer, and four answers; blank rows are skipped,
    columns after the fourth answer are ignored, and a malformed row fails
    the whole load. The model tags every row error with its sheet row; of
    the source's messages only the invalid-row and invalid-position ones
    name it. The workbook itself is an input: a sheet is a sequence of rows
    of cells. */
module QuestionReader {
  import opened Base

  /** A cell's value: the text and integer cells a question sheet holds. */
  datatype Value = Text(s: string) | Int(i: int)
  /** An empty cell is None. */
  type Cell = Option<Value>
  type Row = seq<Cell>

  /** A QuestionSpec: the label, the choices [[1, a1], ..., [4, a4]] and the
      position of the right answer. */
  datatype Question = Question(prompt: string, choices: seq<(int, string)>, correct: int)

  /** The ValueErrors load_questions raises, each tagged with the sheet row
      it is about. The source's own messages name the row only for an
      invalid row and an invalid position; the unpack and int() errors come
      from Python and carry no row. */
  datatype ReadError =
    | ShortRow(row: int)                // fewer than two values to unpack
    | InvalidRow(row: int)              // a missing label, position or answer
    | NotAnInteger(row: int)            // int() of a position that is not a number
    | InvalidCorrectPosition(row: int)  // a position outside 1..4
    | NoQuestions                       // no question rows at all

  /** The first sheet row holding a question (row 1 is the header). */
  const FirstRow: int := 2
  /** Exactly four answers are used. */
  const OptionCount: int := 4

  /** str() of a cell value. */
  function Str(v: Value): (s: string)
    ensures v.Text? ==> s == v.s
  {
    match v
    case Text(s) => s
    case Int(i) => IntStr(i)
  }

  predicate IsDigit(c: char) {
    '0' <= c <= '9'
  }

  /** The number a non-empty run of decimal digits spells. */
  function DigitsValue(s: string): (n: nat)
    requires forall i :: 0 <= i < |s| ==> IsDigit(s[i])
    decreases |s|
  {
    if |s| == 0 then 0
    else
      assert IsDigit(s[|s| - 1]);
      DigitsValue(s[..|s| - 1]) * 10 + (s[|s| - 1] as int - '0' as int)
  }

  /** int() of a string: an optional sign and at least one decimal digit. */
  function ParseInt(s: string): (r: Option<int>)
    ensures r.Some? ==> |s| >= 1
    ensures r.Some? && IsDigit(s[0]) ==> r.value >= 0
  {
    if |s| >= 2 && (s[0] == '+' || s[0] == '-') && forall i :: 1 <= i < |s| ==> IsDigit(s[i]) then
      var n: int := DigitsValue(s[1..]);
      Some(if s[0] == '-' then -n else n)
    else if |s| >= 1 && forall i :: 0 <= i < |s| ==> IsDigit(s[i]) then
      Some(DigitsValue(s))
    else None
  }

  /** int() of a cell value. */
  function ToInt(v: Value): (r: Option<int>)
    ensures v.Int? ==> r == Some(v.i)
    ensures v.Text? ==> r == ParseInt(v.s)
  {
    match v
    case Int(i) => Some(i)
    case Text(s) => ParseInt(s)
  }

  /** Reading back the decimal digits of n gives n. */
  lemma {:induction false} DigitsValueNatStr(n: nat)
    ensures DigitsValue(NatStr(n)) == n
    decreases n
  {
    if n >= 10 {
      var s := NatStr(n);
      var prefix := NatStr(n / 10);
      assert s == prefix + [DigitChar(n % 10)];
      assert s[..|s| - 1] == prefix;
      DigitsValueNatStr(n / 10);
    }
  }

  lemma ParseNatStr(n: nat)
    ensures ParseInt(NatStr(n)) == Some(n)
  {
    var s := NatStr(n);
    assert IsDigit(s[0]);
    DigitsValueNatStr(n);
  }

  lemma ParseNegatedNatStr(n: nat)
    ensures ParseInt("-" + NatStr(n)) == Some(0 - n as int)
  {
    var s := "-" + NatStr(n);
    assert s[0] == '-' && s[1..] == NatStr(n);
    DigitsValueNatStr(n);
  }

  /** int(str(i)) == i: a number written into a cell as text reads back unchanged. */
  lemma ParseIntStr(i: int)
    ensures ParseInt(IntStr(i)) == Some(i)
    ensures ToInt(Text(Str(Int(i)))) == ToInt(Int(i))
  {
    if i < 0 {
      ParseNegatedNatStr(-i);
    } else {
      ParseNatStr(i);
    }
  }

  /** `not row or all(v is None for v in row)`. */
  predicate Blank(row: Row) {
    forall k :: 0 <= k < |row| ==> row[k].None?
  }

  /** A question as load_questions builds it: four choices numbered 1 to 4
      and a right answer that is one of those numbers. */
  ghost predicate WellFormed(q: Question) {
    && |q.choices| == OptionCount
    && (forall k :: 0 <= k < OptionCount ==> q.choices[k].0 == k + 1)
    && 1 <= q.correct <= OptionCount
    && exists k :: 0 <= k < OptionCount && q.choices[k].0 == q.correct
  }

  /** opts[:4] for `label, correct_pos, *opts = row`: at most four answers. */
  function Answers(row: Row): (opts: seq<Cell>)
    requires |row| >= 2
    ensures |opts| == if |row| >= 2 + OptionCount then OptionCount else |row| - 2
    ensures forall k :: 0 <= k < |opts| ==> opts[k] == row[2 + k]
  {
    var rest := row[2..];
    if |rest| <= OptionCount then rest else rest[..OptionCount]
  }

  /** A row that passes the basic validation: a label, a position and four
      answers, all present. */
  predicate Complete(row: Row) {
    && |row| >= 2 + OptionCount
    && row[0].Some? && row[1].Some?
    && forall k :: 2 <= k < 2 + OptionCount ==> row[k].Some?
  }

  /** One row, at sheet row `idx`: None when blank, else its question or the
      error it raises, checked in the order the source checks. */
  function ReadRow(row: Row, idx: int): (r: Result<Option<Question>, ReadError>)
    ensures Blank(row) <==> r == Success(None)
    ensures !Blank(row) && |row| < 2 ==> r == Failure(ShortRow(idx))
    ensures !Blank(row) && |row| >= 2 ==>
      (r.Failure? && r.error == InvalidRow(idx) <==>
        row[0].None? || row[1].None? || |row| < 2 + OptionCount
        || exists k :: 2 <= k < 2 + OptionCount && row[k].None?)
    ensures r.Success? && r.value.Some? ==>
      var q := r.value.value;
      && |row| >= 2 + OptionCount
      && row[0].Some? && q.prompt == Str(row[0].value)
      && row[1].Some? && ToInt(row[1].value) == Some(q.correct)
      && WellFormed(q)
      && (forall k :: 0 <= k < OptionCount ==> row[2 + k].Some? && q.choices[k].1 == Str(row[2 + k].value))
    ensures r.Failure? ==> !r.error.NoQuestions? && r.error.row == idx
    // a complete row is decided by its position alone
    ensures Complete(row) ==>
      && (r == Failure(NotAnInteger(idx)) <==> ToInt(row[1].value).None?)
      && (r == Failure(InvalidCorrectPosition(idx)) <==> ToInt(row[1].value).Some? && !(1 <= ToInt(row[1].value).value <= OptionCount))
      && (r.Success? <==> ToInt(row[1].value).Some? && 1 <= ToInt(row[1].value).value <= OptionCount)
    ensures Complete(row) && r.Success? ==> r.value.Some?
  {
    if Blank(row) then Success(None)
    else if |row| < 2 then Failure(ShortRow(idx))
    else
      var prompt := row[0];
      var pos := row[1];
      var opts := Answers(row);
      if prompt.None? || pos.None? || |opts| != OptionCount || exists k :: 0 <= k < |opts| && opts[k].None? then
        assert |opts| == OptionCount ==> forall k :: 2 <= k < 2 + OptionCount ==> row[k] == opts[k - 2];
        Failure(InvalidRow(idx))
      else
        match ToInt(pos.value)
        case None => Failure(NotAnInteger(idx))
        case Some(c) =>
          if !(1 <= c <= OptionCount) then Failure(InvalidCorrectPosition(idx))
          else
            var choices := seq(OptionCount, i requires 0 <= i < OptionCount => (i + 1, Str(opts[i].value)));
            assert choices[c - 1].0 == c;
            Success(Some(Question(Str(prompt.value), choices, c)))
  }

  /** One row's outcome in front of the outcome of the rows after it: the
      first error in sheet order wins, and a row's question goes first. */
  function Prepend(head: Result<Option<Question>, ReadError>, rest: Result<seq<Question>, ReadError>)
    : (r: Result<seq<Question>, ReadError>)
  {
    match head
    case Failure(e) => Failure(e)
    case Success(h) =>
      match rest
      case Failure(e) => Failure(e)
      case Success(tail) => Success(if h.Some? then [h.value] + tail else tail)
  }

  /** The outcome of two consecutive stretches of rows: the first error, or
      the questions of both in order. */
  function Join(first: Result<seq<Question>, ReadError>, second: Result<seq<Question>, ReadError>)
    : (r: Result<seq<Question>, ReadError>)
  {
    match first
    case Failure(e) => Failure(e)
    case Success(qa) =>
      match second
      case Failure(e) => Failure(e)
      case Success(qb) => Success(qa + qb)
  }

  /** The rows of the sheet from row `idx` on: the questions of the
      non-blank rows in order, or the first row's error. */
  function ReadRows(rows: seq<Row>, idx: int): (r: Result<seq<Question>, ReadError>)
    ensures r.Success? ==> forall i :: 0 <= i < |r.value| ==> WellFormed(r.value[i])
    ensures r.Success? ==> |r.value| <= |rows|
    ensures r.Failure? ==> !r.error.NoQuestions? && idx <= r.error.row < idx + |rows|
    decreases |rows|
  {
    if rows == [] then Success([])
    else Prepend(ReadRow(rows[0], idx), ReadRows(rows[1..], idx + 1))
  }

  /** load_questions over a whole sheet: the header row is skipped, and a
      sheet with no question rows fails. */
  function LoadQuestions(sheet: seq<Row>): (r: Result<seq<Question>, ReadError>)
    ensures r.Success? ==> |r.value| >= 1 && forall i :: 0 <= i < |r.value| ==> WellFormed(r.value[i])
    ensures var rows := if |sheet| == 0 then [] else sheet[1..];
      ReadRows(rows, FirstRow) == Success([]) ==> r == Failure(NoQuestions)
    // the first bad row's error is raised; otherwise the questions of the rows are returned
    ensures var rows := if |sheet| == 0 then [] else sheet[1..];
      ReadRows(rows, FirstRow).Failure? ==> r == ReadRows(rows, FirstRow)
    ensures var rows := if |sheet| == 0 then [] else sheet[1..];
      r.Success? <==> ReadRows(rows, FirstRow).Success? && ReadRows(rows, FirstRow).value != []
    ensures var rows := if |sheet| == 0 then [] else sheet[1..];
      r.Success? ==> ReadRows(rows, FirstRow) == Success(r.value)
  {
    var rows := if |sheet| == 0 then [] else sheet[1..];
    match ReadRows(rows, FirstRow)
    case Failure(e) => Failure(e)
    case Success(qs) => if qs == [] then Failure(NoQuestions) else Success(qs)
  }

  lemma PrependJoin(head: Result<Option<Question>, ReadError>, ra: Result<seq<Question>, ReadError>,
                    rb: Result<seq<Question>, ReadError>)
    ensures Join(Prepend(head, ra), rb) == Prepend(head, Join(ra, rb))
  {
    if head.Success? && head.value.Some? && ra.Success? && rb.Success? {
      assert ([head.value.value] + ra.value) + rb.value == [head.value.value] + (ra.value + rb.value);
    }
  }

  /** Reading rows is compositional: reading a + b is reading a and then b
      (from the row number after a), so the questions keep the sheet's
      order, and the first bad row decides the error. */
  lemma {:induction false} ReadRowsAppend(a: seq<Row>, b: seq<Row>, idx: int)
    ensures ReadRows(a + b, idx) == Join(ReadRows(a, idx), ReadRows(b, idx + |a|))
    decreases |a|
  {
    if a == [] {
      assert a + b == b;
      if ReadRows(b, idx).Success? {
        assert [] + ReadRows(b, idx).value == ReadRows(b, idx).value;
      }
    } else {
      assert (a + b)[0] == a[0];
      assert (a + b)[1..] == a[1..] + b;
      ReadRowsAppend(a[1..], b, idx + 1);
      PrependJoin(ReadRow(a[0], idx), ReadRows(a[1..], idx + 1), ReadRows(b, idx + |a|));
    }
  }

  /** A blank row in front changes nothing: the sheet reads exactly as the
      rows after it, numbered from the next row, so the same questions come
      back and the same error is raised. */
  lemma BlankRowSkipped(blank: Row, rows: seq<Row>, idx: int)
    requires Blank(blank)
    ensures ReadRows([blank] + rows, idx) == ReadRows(rows, idx + 1)
  {
    assert ([blank] + rows)[0] == blank;
    assert ([blank] + rows)[1..] == rows;
  }

  /** Columns after the fourth answer are ignored. */
  lemma ExtraColumnsIgnored(row: Row, extra: seq<Cell>, idx: int)
    requires |row| >= 2 + OptionCount && !Blank(row)
    ensures ReadRow(row + extra, idx) == ReadRow(row, idx)
  {
    assert (row + extra)[0] == row[0] && (row + extra)[1] == row[1];
    assert Answers(row + extra) == Answers(row);
    assert !Blank(row + extra) by {
      var k :| 0 <= k < |row| && row[k].Some?;
      assert (row + extra)[k] == row[k];
    }
  }
}
