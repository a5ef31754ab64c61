/**
 * The submissions export (`DownloadExcelButton`): one spreadsheet row per
 * submission, holding the submission date and one cell per form field under
 * the field's label, plus one column width per field.
 *
 * A row is the JavaScript object `formatted`: an ordered list of keyed
 * cells, where assigning an existing key replaces its value in place and
 * a new key goes last.
 */
module DownloadExcel {
  import opened Wrappers
  import opened Elements

  /** The key of the date column. */
  const DateColumn: string := "Fecha de envío"

  /** `Math.max(..., 15)`: the narrowest column. */
  const MinColumnWidth: real := 15.0

  /** A submission's `content`: JSON text still to parse, or an already parsed object. */
  datatype Content = JsonText(text: string) | Parsed(fields: map<string, string>)

  datatype Submission = Submission(createdAt: string, content: Content)

  /** `JSON.parse` to an object; None when it throws. */
  type JsonParser = string -> Option<map<string, string>>

  /** `new Date(createdAt).toLocaleString()`. */
  type DateFormatter = string -> string

  datatype Cell = Cell(key: string, value: string)

  type Row = seq<Cell>

  function Keys(row: Row): set<string> {
    set c | c in row :: c.key
  }

  predicate DistinctKeys(row: Row) {
    forall i, j :: 0 <= i < j < |row| ==> row[i].key != row[j].key
  }

  /** `row[key]`: the value of the first cell with that key. */
  function Lookup(row: Row, key: string): (r: Option<string>)
    ensures r.None? <==> key !in Keys(row)
  {
    if row == [] then None
    else if row[0].key == key then Some(row[0].value)
    else Lookup(row[1..], key)
  }

  /**
   * `row[key] = value`: an existing key keeps its place and takes the new
   * value; a new key is appended.
   */
  function Put(row: Row, key: string, value: string): (r: Row)
    ensures |r| == if key in Keys(row) then |row| else |row| + 1
    ensures forall i :: 0 <= i < |row| ==> r[i].key == row[i].key
    ensures key !in Keys(row) ==> r[|row|] == Cell(key, value)
    decreases |row|
  {
    if row == [] then [Cell(key, value)]
    else if row[0].key == key then [Cell(key, value)] + row[1..]
    else [row[0]] + Put(row[1..], key, value)
  }

  lemma KeysCons(c: Cell, row: Row)
    ensures Keys([c] + row) == {c.key} + Keys(row)
  {
    assert forall x :: x in [c] + row <==> x == c || x in row;
  }

  /** Assigning a key adds it to the row's keys and adds no other. */
  lemma {:induction false} PutKeys(row: Row, key: string, value: string)
    ensures Keys(Put(row, key, value)) == Keys(row) + {key}
    decreases |row|
  {
    if row != [] {
      assert row == [row[0]] + row[1..];
      KeysCons(row[0], row[1..]);
      if row[0].key == key {
        KeysCons(Cell(key, value), row[1..]);
      } else {
        PutKeys(row[1..], key, value);
        KeysCons(row[0], Put(row[1..], key, value));
      }
    }
  }

  /** After assigning a key, reading it gives the new value and reading any other key is unchanged. */
  lemma {:induction false} PutLookup(row: Row, key: string, value: string, other: string)
    ensures Lookup(Put(row, key, value), key) == Some(value)
    ensures other != key ==> Lookup(Put(row, key, value), other) == Lookup(row, other)
    decreases |row|
  {
    if row != [] && row[0].key != key {
      PutLookup(row[1..], key, value, other);
      assert Put(row, key, value)[1..] == Put(row[1..], key, value);
    }
  }

  /** Assigning a key never creates a second cell with the same key. */
  lemma {:induction false} PutDistinct(row: Row, key: string, value: string)
    requires DistinctKeys(row)
    ensures DistinctKeys(Put(row, key, value))
  {
    var r := Put(row, key, value);
    if key !in Keys(row) {
      forall i | 0 <= i < |row| ensures r[i].key != key {
        assert row[i] in row;
      }
    }
  }

  /** `field.extraAttributes?.label || field.id`. */
  function ColumnKey(field: Instance): (k: string)
    ensures field.extraAttributes.Some? && StringAttr(field.extraAttributes.value, "label").Some?
            && StringAttr(field.extraAttributes.value, "label").value != ""
            ==> k == StringAttr(field.extraAttributes.value, "label").value
    ensures (field.extraAttributes.None? || StringAttr(field.extraAttributes.value, "label").GetOr("") == "")
            ==> k == field.id
  {
    match field.extraAttributes
    case None => field.id
    case Some(attrs) =>
      var labelText := StringAttr(attrs, "label").GetOr("");
      if labelText != "" then labelText else field.id
  }

  /** `content[field.id] || ""`. */
  function CellValue(content: map<string, string>, id: string): (v: string)
    ensures id in content ==> v == content[id]
    ensures id !in content ==> v == ""
  {
    if id in content then content[id] else ""
  }

  /** The row `formatted` once the `forEach` has visited every field of `fields`, in order. */
  function RowSpec(date: string, fields: seq<Instance>, content: map<string, string>): Row
    decreases |fields|
  {
    if fields == [] then [Cell(DateColumn, date)]
    else
      var last := fields[|fields| - 1];
      Put(RowSpec(date, fields[..|fields| - 1], content), ColumnKey(last), CellValue(content, last.id))
  }

  /** One submission's row: the date cell, then each field's cell assigned in form order. */
  method FormatRow(date: string, formContent: seq<Instance>, content: map<string, string>) returns (formatted: Row)
    ensures formatted == RowSpec(date, formContent, content)
  {
    formatted := [Cell(DateColumn, date)];
    var i := 0;
    while i < |formContent|
      invariant 0 <= i <= |formContent|
      invariant formatted == RowSpec(date, formContent[..i], content)
    {
      assert formContent[..i + 1][..i] == formContent[..i];
      var field := formContent[i];
      formatted := Put(formatted, ColumnKey(field), CellValue(content, field.id));
      i := i + 1;
    }
    assert formContent[..i] == formContent;
  }

  /** Every row starts with the date column and has no key twice. */
  lemma {:induction false} RowShape(date: string, fields: seq<Instance>, content: map<string, string>)
    ensures |RowSpec(date, fields, content)| >= 1
    ensures RowSpec(date, fields, content)[0].key == DateColumn
    ensures DistinctKeys(RowSpec(date, fields, content))
    decreases |fields|
  {
    if fields != [] {
      var prefix := fields[..|fields| - 1];
      var last := fields[|fields| - 1];
      RowShape(date, prefix, content);
      PutDistinct(RowSpec(date, prefix, content), ColumnKey(last), CellValue(content, last.id));
    }
  }

  /** A row's keys are exactly the date column and the fields' column keys. */
  lemma {:induction false} RowKeys(date: string, fields: seq<Instance>, content: map<string, string>)
    ensures Keys(RowSpec(date, fields, content)) == {DateColumn} + set f | f in fields :: ColumnKey(f)
    decreases |fields|
  {
    if fields == [] {
      assert Keys([Cell(DateColumn, date)]) == {DateColumn} by {
        assert forall c :: c in [Cell(DateColumn, date)] <==> c == Cell(DateColumn, date);
      }
    } else {
      var prefix := fields[..|fields| - 1];
      var last := fields[|fields| - 1];
      RowKeys(date, prefix, content);
      PutKeys(RowSpec(date, prefix, content), ColumnKey(last), CellValue(content, last.id));
      ColumnKeysSnoc(fields);
    }
  }

  lemma ColumnKeysSnoc(fields: seq<Instance>)
    requires fields != []
    ensures (set f | f in fields :: ColumnKey(f))
         == (set f | f in fields[..|fields| - 1] :: ColumnKey(f)) + {ColumnKey(fields[|fields| - 1])}
  {
    assert fields == fields[..|fields| - 1] + [fields[|fields| - 1]];
  }

  /**
   * A field's cell holds its own value unless a later field has the same
   * column key: of several fields sharing a label, the last one wins.
   */
  lemma {:induction false} LastFieldWins(date: string, fields: seq<Instance>, content: map<string, string>, i: nat)
    requires i < |fields|
    requires forall j :: i < j < |fields| ==> ColumnKey(fields[j]) != ColumnKey(fields[i])
    ensures Lookup(RowSpec(date, fields, content), ColumnKey(fields[i])) == Some(CellValue(content, fields[i].id))
    decreases |fields|
  {
    var prefix := fields[..|fields| - 1];
    var last := fields[|fields| - 1];
    PutLookup(RowSpec(date, prefix, content), ColumnKey(last), CellValue(content, last.id), ColumnKey(fields[i]));
    if i < |fields| - 1 {
      assert prefix[i] == fields[i];
      forall j | i < j < |prefix| ensures ColumnKey(prefix[j]) != ColumnKey(prefix[i]) {
        assert prefix[j] == fields[j];
      }
      LastFieldWins(date, prefix, content, i);
    }
  }

  /** The date cell keeps the formatted date unless some field's column key is the date column's. */
  lemma {:induction false} DateCellKept(date: string, fields: seq<Instance>, content: map<string, string>)
    requires forall f :: f in fields ==> ColumnKey(f) != DateColumn
    ensures RowSpec(date, fields, content)[0] == Cell(DateColumn, date)
    decreases |fields|
  {
    RowShape(date, fields, content);
    if fields != [] {
      var prefix := fields[..|fields| - 1];
      forall f | f in prefix ensures ColumnKey(f) != DateColumn {
        assert f in fields;
      }
      DateCellKept(date, prefix, content);
      RowShape(date, prefix, content);
      var row := RowSpec(date, prefix, content);
      assert Lookup(row, DateColumn) == Some(date);
      assert Lookup(RowSpec(date, fields, content), DateColumn) == Some(date);
    }
  }

  /** `{ wch: Math.max(key.length * 1.5, 15) }` for one field. */
  function ColWidth(field: Instance): (w: real)
    ensures w >= MinColumnWidth && w >= |ColumnKey(field)| as real * 1.5
    ensures w == MinColumnWidth || w == |ColumnKey(field)| as real * 1.5
  {
    var scaled := |ColumnKey(field)| as real * 1.5;
    if scaled > MinColumnWidth then scaled else MinColumnWidth
  }

  /** `colWidths`: one width per field, in form order, whether or not labels repeat. */
  function ColWidths(fields: seq<Instance>): (ws: seq<real>)
    ensures |ws| == |fields|
    ensures forall i :: 0 <= i < |ws| ==> ws[i] == ColWidth(fields[i]) && ws[i] >= MinColumnWidth
  {
    seq(|fields|, i requires 0 <= i < |fields| => ColWidth(fields[i]))
  }

  /** A key of 10 characters or fewer gets the minimum width; a longer one gets 1.5 per character. */
  lemma ColWidthThreshold(field: Instance)
    ensures |ColumnKey(field)| <= 10 ==> ColWidth(field) == MinColumnWidth
    ensures |ColumnKey(field)| > 10 ==> ColWidth(field) == |ColumnKey(field)| as real * 1.5
  {
  }

  /** What a click produces: the "no data" alert, the error alert, or the workbook's rows and widths. */
  datatype Export = NoData | Failed | Workbook(rows: seq<Row>, colWidths: seq<real>)

  /** `typeof content === 'string' ? JSON.parse(content) : content`. */
  function ContentOf(s: Submission, parse: JsonParser): (r: Option<map<string, string>>)
    ensures s.content.Parsed? ==> r == Some(s.content.fields)
    ensures s.content.JsonText? ==> r == parse(s.content.text)
  {
    match s.content
    case JsonText(text) => parse(text)
    case Parsed(fields) => Some(fields)
  }

  /** Every submission's content can be read. */
  ghost predicate AllReadable(data: seq<Submission>, parse: JsonParser) {
    forall i :: 0 <= i < |data| ==> ContentOf(data[i], parse).Some?
  }

  /**
   * `downloadExcel`: no workbook for missing or empty data; an error when
   * some submission's content cannot be parsed; otherwise one row per
   * submission in order, and one width per field.
   */
  method DownloadExcel(data: Option<seq<Submission>>, formContent: seq<Instance>, parse: JsonParser,
                       formatDate: DateFormatter)
    returns (r: Export)
    ensures (data.None? || data.value == []) <==> r == NoData
    ensures r == Failed <==> data.Some? && data.value != [] && !AllReadable(data.value, parse)
    ensures r.Workbook? ==>
      |r.rows| == |data.value| && r.colWidths == ColWidths(formContent)
      && forall i :: 0 <= i < |r.rows| ==>
           r.rows[i] == RowSpec(formatDate(data.value[i].createdAt), formContent,
                                ContentOf(data.value[i], parse).value)
  {
    if data.None? || |data.value| == 0 {
      return NoData;
    }
    var submissions := data.value;
    var formattedData: seq<Row> := [];
    var i := 0;
    while i < |submissions|
      invariant 0 <= i <= |submissions|
      invariant |formattedData| == i
      invariant forall k :: 0 <= k < i ==> ContentOf(submissions[k], parse).Some?
      invariant forall k :: 0 <= k < i ==>
        formattedData[k] == RowSpec(formatDate(submissions[k].createdAt), formContent,
                                    ContentOf(submissions[k], parse).value)
    {
      var submission := submissions[i];
      var content := ContentOf(submission, parse);
      if content.None? {
        return Failed;
      }
      var formatted := FormatRow(formatDate(submission.createdAt), formContent, content.value);
      formattedData := formattedData + [formatted];
      i := i + 1;
    }
    r := Workbook(formattedData, ColWidths(formContent));
  }
}
