/** The stream of a bulk load: rows are turned into tokens, which become the message. */
module BulkLoad {
  import opened Wrappers
  import opened Bytes

  const ROW: byte := 0xD1
  const DONE: byte := 0xFD

  /** A null value is `None`. What a data type does is its own affair: it may refuse a value, change it, and encode it. */
  datatype Column<!V> = Column(
    hasTextPointer: bool, validate: Option<V> -> Option<Option<V>>,
    lengthOf: Option<V> -> seq<byte>, dataOf: Option<V> -> seq<seq<byte>>)

  /** A text pointer of sixteen bytes with a timestamp of eight, or none at all. */
  const TEXT_POINTER: seq<byte> := [0x10] + Zeros(16) + Zeros(8)
  const NO_TEXT_POINTER: seq<byte> := [0x00]

  function Value<V>(row: seq<Option<V>>, i: nat): Option<V> {
    if i < |row| then row[i] else None
  }

  /** What is pushed for one value that is valid. */
  function Field<V>(c: Column<V>, value: Option<V>): seq<seq<byte>> {
    if c.hasTextPointer && value == None then [NO_TEXT_POINTER]
    else (if c.hasTextPointer then [TEXT_POINTER] else []) + [c.lengthOf(value)] + c.dataOf(value)
  }

  /** The number of columns up to the first one that refuses its value. */
  function ValidColumns<V(!new)>(columns: seq<Column<V>>, row: seq<Option<V>>): (k: nat)
    ensures k <= |columns|
    ensures forall i | 0 <= i < k :: columns[i].validate(Value(row, i)).Some?
    ensures k < |columns| ==> columns[k].validate(Value(row, k)).None?
  {
    ValidFrom(columns, row, 0)
  }

  function ValidFrom<V(!new)>(columns: seq<Column<V>>, row: seq<Option<V>>, i: nat): (k: nat)
    requires i <= |columns|
    ensures i <= k <= |columns|
    ensures forall j | i <= j < k :: columns[j].validate(Value(row, j)).Some?
    ensures k < |columns| ==> columns[k].validate(Value(row, k)).None?
    decreases |columns| - i
  {
    if i == |columns| || columns[i].validate(Value(row, i)).None? then i else ValidFrom(columns, row, i + 1)
  }

  predicate ValidUpTo<V(!new)>(columns: seq<Column<V>>, row: seq<Option<V>>, k: nat)
    requires k <= |columns|
  {
    forall i | 0 <= i < k :: columns[i].validate(Value(row, i)).Some?
  }

  /** The fields of the first `k` columns, in the order in which they were declared. */
  function Fields<V(!new)>(columns: seq<Column<V>>, row: seq<Option<V>>, k: nat): seq<seq<byte>>
    requires k <= |columns| && ValidUpTo(columns, row, k)
  {
    if k == 0 then []
    else Fields(columns, row, k - 1) + Field(columns[k - 1], columns[k - 1].validate(Value(row, k - 1)).value)
  }

  lemma {:induction false} OneMoreField<V(!new)>(columns: seq<Column<V>>, row: seq<Option<V>>, i: nat, before: seq<seq<byte>>)
    requires i < |columns| && ValidUpTo(columns, row, i)
    ensures
      var checked := columns[i].validate(Value(row, i));
      if checked.Some? then
        ValidUpTo(columns, row, i + 1)
        && before + ([[ROW]] + Fields(columns, row, i)) + Field(columns[i], checked.value) == before + ([[ROW]] + Fields(columns, row, i + 1))
      else ValidColumns(columns, row) == i
  {
    hide Field;
  }

  lemma {:induction false} AllOrNone<V(!new)>(columns: seq<Column<V>>, row: seq<Option<V>>)
    ensures ValidUpTo(columns, row, 0) && Fields(columns, row, 0) == []
    ensures ValidUpTo(columns, row, |columns|) ==> ValidColumns(columns, row) == |columns|
  {
  }

  /** A row that is not valid stops in the middle of its token. */
  function RowToken<V(!new)>(columns: seq<Column<V>>, row: seq<Option<V>>): seq<seq<byte>> {
    [[ROW]] + Fields(columns, row, ValidColumns(columns, row))
  }

  predicate ValidRow<V(!new)>(columns: seq<Column<V>>, row: seq<Option<V>>) {
    ValidColumns(columns, row) == |columns|
  }

  function RowTokens<V(!new)>(columns: seq<Column<V>>, rows: seq<seq<Option<V>>>): seq<seq<byte>> {
    if rows == [] then [] else RowTokens(columns, rows[..|rows| - 1]) + RowToken(columns, rows[|rows| - 1])
  }

  function DoneToken(old72: bool): (s: seq<byte>)
    ensures |s| == (if old72 then 9 else 13) && s[0] == 0xFD && forall i | 1 <= i < |s| :: s[i] == 0
  {
    [DONE] + Zeros(if old72 then 8 else 12)
  }

  /** The rows up to the first that is not valid, which is among them. */
  function Taken<V(!new)>(columns: seq<Column<V>>, rows: seq<seq<Option<V>>>): (k: nat)
    ensures k <= |rows|
    ensures forall i | 0 <= i < k - 1 :: ValidRow(columns, rows[i])
    ensures k < |rows| ==> k > 0 && !ValidRow(columns, rows[k - 1])
  {
    TakenFrom(columns, rows, 0)
  }

  function TakenFrom<V(!new)>(columns: seq<Column<V>>, rows: seq<seq<Option<V>>>, i: nat): (k: nat)
    requires i <= |rows|
    ensures i <= k <= |rows|
    ensures forall j | i <= j < k - 1 :: ValidRow(columns, rows[j])
    ensures k < |rows| ==> k > i && !ValidRow(columns, rows[k - 1])
    decreases |rows| - i
  {
    if i == |rows| then i else if !ValidRow(columns, rows[i]) then i + 1 else TakenFrom(columns, rows, i + 1)
  }

  class RowTransform<V(!new)> {
    const columns: seq<Column<V>>
    const metadata: seq<byte>
    const old72: bool
    var columnMetadataWritten: bool
    var output: seq<seq<byte>>

    constructor (columns: seq<Column<V>>, metadata: seq<byte>, old72: bool)
      ensures this.columns == columns && this.metadata == metadata && this.old72 == old72
      ensures !columnMetadataWritten && output == []
    {
      this.columns, this.metadata, this.old72 := columns, metadata, old72;
      columnMetadataWritten, output := false, [];
    }

    /** Calls back with an error if and only if a column refuses its value; what was pushed before that stays pushed. */
    method Transform(row: seq<Option<V>>) returns (ok: bool)
      modifies this
      ensures columnMetadataWritten
      ensures output == old(output) + (if old(columnMetadataWritten) then [] else [metadata]) + RowToken(columns, row)
      ensures ok <==> ValidRow(columns, row)
    {
      if !columnMetadataWritten {
        output := output + [metadata];
        columnMetadataWritten := true;
      }
      hide Field, Fields, ValidUpTo, ValidColumns;
      AllOrNone(columns, row);
      ghost var before := output;
      output := output + [[ROW]];
      for i := 0 to |columns|
        invariant columnMetadataWritten
        invariant ValidUpTo(columns, row, i)
        invariant output == before + ([[ROW]] + Fields(columns, row, i))
      {
        var c := columns[i];
        var checked := c.validate(Value(row, i));
        OneMoreField(columns, row, i, before);
        if checked.None? {
          return false;
        }
        PushField(c, checked.value);
      }
      return true;
    }

    method PushField(c: Column<V>, value: Option<V>)
      modifies this`output
      ensures output == old(output) + Field(c, value)
    {
      if c.hasTextPointer && value == None {
        output := output + [NO_TEXT_POINTER];
      } else {
        if c.hasTextPointer {
          output := output + [TEXT_POINTER];
        }
        output := output + [c.lengthOf(value)];
        output := output + c.dataOf(value);
      }
    }

    method Flush()
      modifies this
      ensures output == old(output) + [DoneToken(old72)] && columnMetadataWritten == old(columnMetadataWritten)
    {
      output := output + [DoneToken(old72)];
    }
  }

  lemma {:induction false} NoRows<V(!new)>(columns: seq<Column<V>>, rows: seq<seq<Option<V>>>)
    ensures rows == [] ==> RowTokens(columns, rows) == []
  {
  }

  lemma {:induction false} OneMoreRow<V(!new)>(columns: seq<Column<V>>, rows: seq<seq<Option<V>>>, i: nat)
    requires i < |rows| && forall j | 0 <= j < i :: ValidRow(columns, rows[j])
    ensures RowTokens(columns, rows[..i + 1]) == RowTokens(columns, rows[..i]) + RowToken(columns, rows[i])
    ensures !ValidRow(columns, rows[i]) ==> Taken(columns, rows) == i + 1
  {
    hide ValidRow, RowToken;
    var some := rows[..i + 1];
    assert some[..|some| - 1] == rows[..i] && some[|some| - 1] == rows[i];
  }

  // Reading the stream back.

  /** Reads a value from the front: the value, and how many bytes it takes. */
  type Reader<!V> = seq<byte> -> Option<(Option<V>, nat)>

  /** The type's own reader takes what its length and its data say, for each value that validating can give. */
  ghost predicate ReadsBack<V(!new)>(c: Column<V>, read: Reader<V>, value: Option<V>) {
    var encoded := c.lengthOf(value) + Concat(c.dataOf(value));
    forall rest: seq<byte> :: read(encoded + rest) == Some((value, |encoded|))
  }

  ghost predicate Lawful<V(!new)>(c: Column<V>, read: Reader<V>) {
    forall x :: c.validate(x).Some? && !(c.hasTextPointer && c.validate(x).value.None?) ==> ReadsBack(c, read, c.validate(x).value)
  }

  ghost predicate AllLawful<V(!new)>(columns: seq<Column<V>>, readers: seq<Reader<V>>) {
    |readers| == |columns| && forall i | 0 <= i < |columns| :: Lawful(columns[i], readers[i])
  }

  /** A text pointer has its own length ahead of it, and a timestamp behind it; one without any length stands for null. */
  function ReadField<V>(textPointer: bool, read: Reader<V>, s: seq<byte>): Option<(Option<V>, seq<byte>)> {
    if textPointer && s == [] then None
    else if textPointer && s[0] == 0 then Some((None, s[1..]))
    else
      var skip := if textPointer then 1 + s[0] as int + 8 else 0;
      if skip > |s| then None
      else
        var r :- read(s[skip..]);
        if skip + r.1 > |s| then None else Some((r.0, s[skip + r.1..]))
  }

  /** The values of the first `k` columns. */
  function ReadFields<V>(columns: seq<Column<V>>, readers: seq<Reader<V>>, k: nat, s: seq<byte>): Option<(seq<Option<V>>, seq<byte>)>
    requires k <= |columns| == |readers|
  {
    if k == 0 then Some(([], s))
    else
      var front :- ReadFields(columns, readers, k - 1, s);
      var field :- ReadField(columns[k - 1].hasTextPointer, readers[k - 1], front.1);
      Some((front.0 + [field.0], field.1))
  }

  /** The rows, each of them announced by 0xD1, and what is left. */
  function ReadRows<V>(columns: seq<Column<V>>, readers: seq<Reader<V>>, s: seq<byte>): Option<(seq<seq<Option<V>>>, seq<byte>)>
    requires |columns| == |readers|
    decreases |s|
  {
    if s == [] || s[0] != 0xD1 then Some(([], s))
    else
      var row :- ReadFields(columns, readers, |columns|, s[1..]);
      if |row.1| >= |s| then None
      else
        var others :- ReadRows(columns, readers, row.1);
        Some(([row.0] + others.0, others.1))
  }

  /** What validating makes of a row, column by column. */
  function Validated<V(!new)>(columns: seq<Column<V>>, row: seq<Option<V>>, k: nat): (values: seq<Option<V>>)
    requires k <= |columns| && forall i | 0 <= i < k :: columns[i].validate(Value(row, i)).Some?
    ensures |values| == k
  {
    seq(k, i requires 0 <= i < k => columns[i].validate(Value(row, i)).value)
  }

  lemma {:induction false} FieldRead<V(!new)>(c: Column<V>, read: Reader<V>, x: Option<V>, rest: seq<byte>)
    requires Lawful(c, read) && c.validate(x).Some?
    ensures ReadField(c.hasTextPointer, read, Concat(Field(c, c.validate(x).value)) + rest) == Some((c.validate(x).value, rest))
  {
    var value := c.validate(x).value;
    var s := Concat(Field(c, value)) + rest;
    if c.hasTextPointer && value == None {
      assert Concat([NO_TEXT_POINTER]) == NO_TEXT_POINTER + Concat([NO_TEXT_POINTER][1..]);
      assert s == [0] + rest && s[1..] == rest;
    } else {
      var pointer: seq<byte> := if c.hasTextPointer then TEXT_POINTER else [];
      var encoded := c.lengthOf(value) + Concat(c.dataOf(value));
      FieldBytes(c, value);
      assert s == pointer + (encoded + rest) && s[|pointer|..] == encoded + rest;
      assert ReadsBack(c, read, value);
      assert s[|pointer| + |encoded|..] == rest;
    }
  }

  lemma {:induction false} FieldBytes<V>(c: Column<V>, value: Option<V>)
    requires !(c.hasTextPointer && value == None)
    ensures Concat(Field(c, value)) == (if c.hasTextPointer then TEXT_POINTER else []) + (c.lengthOf(value) + Concat(c.dataOf(value)))
  {
    var length, data := c.lengthOf(value), c.dataOf(value);
    assert Concat([length] + data) == length + Concat(data) by {
      assert ([length] + data)[1..] == data;
    }
    if c.hasTextPointer {
      var all := [TEXT_POINTER] + ([length] + data);
      assert all[1..] == [length] + data;
      assert Field(c, value) == all;
    }
  }

  lemma {:induction false} FieldsRead<V(!new)>(columns: seq<Column<V>>, readers: seq<Reader<V>>, row: seq<Option<V>>, k: nat, rest: seq<byte>)
    requires k <= |columns| && AllLawful(columns, readers) && ValidUpTo(columns, row, k)
    ensures ReadFields(columns, readers, k, Concat(Fields(columns, row, k)) + rest) == Some((Validated(columns, row, k), rest))
    decreases k
  {
    hide Field, ReadField, Lawful;
    if k == 0 {
      assert Concat(Fields(columns, row, k)) + rest == rest && Validated(columns, row, k) == [];
    } else {
      var c, x := columns[k - 1], Value(row, k - 1);
      var front, field := Fields(columns, row, k - 1), Field(c, c.validate(x).value);
      var s, later := Concat(Fields(columns, row, k)) + rest, Concat(field) + rest;
      ConcatAppend(front, field);
      assert s == Concat(front) + later;
      FieldsRead(columns, readers, row, k - 1, later);
      assert Lawful(c, readers[k - 1]);
      FieldRead(c, readers[k - 1], x, rest);
      hide Fields, ValidUpTo, AllLawful;
      assert Validated(columns, row, k) == Validated(columns, row, k - 1) + [c.validate(x).value];
    }
  }

  lemma {:induction false} RowTokensFront<V(!new)>(columns: seq<Column<V>>, rows: seq<seq<Option<V>>>)
    requires rows != []
    ensures RowTokens(columns, rows) == RowToken(columns, rows[0]) + RowTokens(columns, rows[1..])
    decreases |rows|
  {
    hide RowToken;
    var n := |rows| - 1;
    if n > 0 {
      RowTokensFront(columns, rows[..n]);
      assert rows[..n][1..] == rows[1..][..n - 1];
    } else {
      assert rows[..0] == [] && rows[1..] == [];
    }
  }

  lemma {:induction false} RowRead<V(!new)>(columns: seq<Column<V>>, readers: seq<Reader<V>>, row: seq<Option<V>>, rest: seq<byte>)
    requires AllLawful(columns, readers) && ValidRow(columns, row)
    ensures
      var s := Concat(RowToken(columns, row)) + rest;
      && |s| > |rest| && s[0] == 0xD1
      && ReadFields(columns, readers, |columns|, s[1..]) == Some((Validated(columns, row, |columns|), rest))
  {
    hide Fields, Field, ReadFields, AllLawful;
    var fields := Fields(columns, row, |columns|);
    var s := Concat(RowToken(columns, row)) + rest;
    assert ([[ROW]] + fields)[1..] == fields;
    assert s[1..] == Concat(fields) + rest;
    FieldsRead(columns, readers, row, |columns|, rest);
  }

  lemma {:induction false} ReadNext<V>(columns: seq<Column<V>>, readers: seq<Reader<V>>, s: seq<byte>, row: seq<Option<V>>, later: seq<byte>,
                                       others: seq<seq<Option<V>>>, rest: seq<byte>)
    requires |columns| == |readers| && |s| > |later| && s[0] == 0xD1
    requires ReadFields(columns, readers, |columns|, s[1..]) == Some((row, later)) && ReadRows(columns, readers, later) == Some((others, rest))
    ensures ReadRows(columns, readers, s) == Some(([row] + others, rest))
  {
    hide ReadFields;
  }

  predicate AllRowsValid<V(!new)>(columns: seq<Column<V>>, rows: seq<seq<Option<V>>>) {
    forall i | 0 <= i < |rows| :: ValidRow(columns, rows[i])
  }

  lemma {:induction false} RowsRead<V(!new)>(columns: seq<Column<V>>, readers: seq<Reader<V>>, rows: seq<seq<Option<V>>>, rest: seq<byte>)
    requires AllLawful(columns, readers) && AllRowsValid(columns, rows) && rest != [] && rest[0] != 0xD1
    ensures ReadRows(columns, readers, Concat(RowTokens(columns, rows)) + rest) == Some((AllValidated(columns, rows), rest))
    decreases |rows|
  {
    hide RowToken, ReadFields, Lawful, ValidRow, Validated;
    if rows == [] {
      assert Concat(RowTokens(columns, rows)) + rest == rest;
    } else {
      assert ValidRow(columns, rows[0]);
      var later := Concat(RowTokens(columns, rows[1..])) + rest;
      RowTokensFront(columns, rows);
      ConcatAppend(RowToken(columns, rows[0]), RowTokens(columns, rows[1..]));
      var s := Concat(RowTokens(columns, rows)) + rest;
      assert s == Concat(RowToken(columns, rows[0])) + later;
      RowRead(columns, readers, rows[0], later);
      RowsRead(columns, readers, rows[1..], rest);
      hide RowTokens, AllLawful;
      ReadNext(columns, readers, s, RowValues(columns, rows[0]), later, AllValidated(columns, rows[1..]), rest);
      assert AllValidated(columns, rows) == [RowValues(columns, rows[0])] + AllValidated(columns, rows[1..]);
    }
  }

  function AllValidated<V(!new)>(columns: seq<Column<V>>, rows: seq<seq<Option<V>>>): (values: seq<seq<Option<V>>>)
    requires AllRowsValid(columns, rows)
    ensures |values| == |rows|
  {
    seq(|rows|, i requires 0 <= i < |rows| => RowValues(columns, rows[i]))
  }

  function RowValues<V(!new)>(columns: seq<Column<V>>, row: seq<Option<V>>): seq<Option<V>>
    requires ValidRow(columns, row)
  {
    Validated(columns, row, |columns|)
  }

  /** The bytes of a stream of valid rows: the metadata, the rows as they can be read back, and the done token. */
  ghost predicate Readable<V(!new)>(columns: seq<Column<V>>, metadata: seq<byte>, old72: bool, rows: seq<seq<Option<V>>>, s: seq<byte>)
    requires AllRowsValid(columns, rows)
  {
    var front := if rows == [] then [] else metadata;
    var done: seq<byte> := [0xFD, 0, 0, 0, 0, 0, 0, 0, 0] + if old72 then [] else [0, 0, 0, 0];
    && front <= s
    && forall readers | AllLawful(columns, readers) :: ReadRows(columns, readers, s[|front|..]) == Some((AllValidated(columns, rows), done))
  }

  lemma {:induction false} StreamRead<V(!new)>(columns: seq<Column<V>>, metadata: seq<byte>, old72: bool, rows: seq<seq<Option<V>>>, output: seq<seq<byte>>)
    requires AllRowsValid(columns, rows)
    requires output == (if rows == [] then [] else [metadata]) + RowTokens(columns, rows) + [DoneToken(old72)]
    ensures Readable(columns, metadata, old72, rows, Concat(output))
  {
    hide RowTokens, Lawful, AllValidated, DoneToken;
    var front, tokens, done := if rows == [] then [] else [metadata], RowTokens(columns, rows), DoneToken(old72);
    ConcatOne(front + tokens, done);
    ConcatAppend(front, tokens);
    ConcatOne([], metadata);
    var s := Concat(output);
    assert s == Concat(front) + (Concat(tokens) + done);
    assert s[|Concat(front)|..] == Concat(tokens) + done;
    assert done == [0xFD, 0, 0, 0, 0, 0, 0, 0, 0] + if old72 then [] else [0, 0, 0, 0];
    forall readers | AllLawful(columns, readers)
      ensures ReadRows(columns, readers, Concat(tokens) + done) == Some((AllValidated(columns, rows), done))
    {
      RowsRead(columns, readers, rows, done);
    }
  }

  /**
   For every sequence of rows: the column metadata once and first, if there is a row at
   all; then a token for each row, with its columns in the declared order; and at the
   end one done token. A row that is not valid ends the stream in the middle of its
   token, and there is no done token then. A reader gets the rows back, as validated.
   */
  method Stream<V(!new)>(columns: seq<Column<V>>, metadata: seq<byte>, old72: bool, rows: seq<seq<Option<V>>>) returns (output: seq<seq<byte>>, ok: bool)
    ensures ok <==> forall i | 0 <= i < |rows| :: ValidRow(columns, rows[i])
    ensures output ==
      (if rows == [] then [] else [metadata]) + RowTokens(columns, rows[..Taken(columns, rows)]) + (if ok then [DoneToken(old72)] else [])
    ensures ok ==> AllRowsValid(columns, rows) && Readable(columns, metadata, old72, rows, Concat(output))
  {
    hide RowToken, RowTokens, Taken, ValidRow, Readable;
    var transform := new RowTransform(columns, metadata, old72);
    NoRows(columns, rows[..0]);
    for i := 0 to |rows|
      invariant fresh(transform) && transform.columns == columns && transform.metadata == metadata && transform.old72 == old72
      invariant transform.columnMetadataWritten <==> i > 0
      invariant forall j | 0 <= j < i :: ValidRow(columns, rows[j])
      invariant transform.output == (if i == 0 then [] else [metadata]) + RowTokens(columns, rows[..i])
    {
      var valid := transform.Transform(rows[i]);
      OneMoreRow(columns, rows, i);
      if !valid {
        return transform.output, false;
      }
    }
    assert Taken(columns, rows) == |rows| && rows[..|rows|] == rows;
    transform.Flush();
    StreamRead(columns, metadata, old72, rows, transform.output);
    return transform.output, true;
  }

  // Two types, one with a text pointer and one without.

  datatype Cell = Number(n: int) | Binary(s: seq<byte>)

  /** 'int': a length of 0 or 4 in one byte, and the two's complement. */
  function IntColumn(): Column<Cell> {
    Column(false, IntValidate, IntLength, IntData)
  }

  function IntValidate(x: Option<Cell>): Option<Option<Cell>> {
    if x.None? || (x.value.Number? && -0x8000_0000 <= x.value.n < 0x8000_0000) then Some(x) else None
  }

  function IntLength(x: Option<Cell>): seq<byte> {
    if x.None? then [0x00] else [0x04]
  }

  function IntData(x: Option<Cell>): seq<seq<byte>> {
    if x.None? || x.value.Binary? then [] else [UInt32LE(x.value.n % 0x1_0000_0000)]
  }

  function ReadInt(s: seq<byte>): Option<(Option<Cell>, nat)> {
    if s == [] then None
    else if s[0] == 0 then Some((None, 1))
    else if s[0] != 4 || |s| < 5 then None
    else
      var n := s[1] as int + 0x100 * s[2] as int + 0x1_0000 * s[3] as int + 0x100_0000 * s[4] as int;
      Some((Some(Number(if n < 0x8000_0000 then n else n - 0x1_0000_0000)), 5))
  }

  lemma {:induction false} IntLawful()
    ensures Lawful(IntColumn(), ReadInt)
  {
    forall x | IntValidate(x).Some? ensures ReadsBack(IntColumn(), ReadInt, x) {
      var encoded := IntLength(x) + Concat(IntData(x));
      forall rest: seq<byte> ensures ReadInt(encoded + rest) == Some((x, |encoded|)) {
        if x.Some? {
          var n := x.value.n % 0x1_0000_0000;
          var data := UInt32LE(n);
          assert Concat([data]) == data + Concat([data][1..]) == data;
          var s := encoded + rest;
          assert s[0] == 4 && s[1] == data[0] && s[2] == data[1] && s[3] == data[2] && s[4] == data[3];
          assert ReadUInt32LE(data, 0) == n;
        } else {
          assert encoded == [0];
        }
      }
    }
  }

  /** 'image': a length in four bytes, and the bytes themselves. */
  function ImageColumn(): Column<Cell> {
    Column(true, ImageValidate, ImageLength, ImageData)
  }

  function ImageValidate(x: Option<Cell>): Option<Option<Cell>> {
    if x.None? || (x.value.Binary? && |x.value.s| < 0x8000_0000) then Some(x) else None
  }

  function ImageLength(x: Option<Cell>): seq<byte> {
    if x.Some? && x.value.Binary? && |x.value.s| < 0x8000_0000 then UInt32LE(|x.value.s|) else [0xFF, 0xFF, 0xFF, 0xFF]
  }

  function ImageData(x: Option<Cell>): seq<seq<byte>> {
    if x.Some? && x.value.Binary? then [x.value.s] else []
  }

  function ReadImage(s: seq<byte>): Option<(Option<Cell>, nat)> {
    if |s| < 4 then None
    else
      var n := s[0] as int + 0x100 * s[1] as int + 0x1_0000 * s[2] as int + 0x100_0000 * s[3] as int;
      if |s| < 4 + n then None else Some((Some(Binary(s[4..4 + n])), 4 + n))
  }

  lemma {:induction false} ImageLawful()
    ensures Lawful(ImageColumn(), ReadImage)
  {
    forall x: Option<Cell> | ImageValidate(x).Some? && x.Some? ensures ReadsBack(ImageColumn(), ReadImage, x) {
      var data, length := x.value.s, UInt32LE(|x.value.s|);
      var encoded := ImageLength(x) + Concat(ImageData(x));
      assert Concat([data]) == data + Concat([data][1..]) == data;
      forall rest: seq<byte> ensures ReadImage(encoded + rest) == Some((x, |encoded|)) {
        var s := encoded + rest;
        assert s[0] == length[0] && s[1] == length[1] && s[2] == length[2] && s[3] == length[3];
        assert ReadUInt32LE(length, 0) == |data|;
        assert s[4..4 + |data|] == data;
      }
    }
  }
}
