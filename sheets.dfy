/** The worksheet as the sending engine sees it: data rows read once as
    header-to-text maps, a cell map written back one cell at a time, the
    header lookups done once per stream, and the flush schedule. */
module Sheets {
  import opened JsText

  /** A column position as `Array.prototype.indexOf` returns it: `-1` when
      the header is absent. */
  type ColIndex = c: int | c >= -1

  /** What the engine writes into a cell: a text marker or a `new Date()`,
      modelled as an opaque time token. */
  datatype CellValue = Text(text: string) | Timestamp(time: int)

  /** The worksheet's cells addressed by (column, sheet row); sheet row 0 is
      the header row, so data row `i` lives at sheet row `i + 1`. */
  type Cells = map<(nat, nat), CellValue>

  /** One data row as `sheet_to_json` returns it: header name to cell text. */
  type Row = map<string, string>

  /** `rowData[h]`: the raw value, absent when the row has no such key. */
  function RawCell(row: Row, h: string): Option<string> {
    if h in row then Some(row[h]) else None
  }

  /** `String(rowData[h] || '')`: the cell's text, `""` for a missing key. */
  function CellText(row: Row, h: string): (r: string)
    ensures RawCell(row, h).Some? ==> r == RawCell(row, h).value
    ensures RawCell(row, h).None? ==> r == ""
  {
    if h in row then row[h] else ""
  }

  /** `headers.indexOf(name)`: the first position holding `name`, or `-1`. */
  function IndexOf(headers: seq<string>, name: string): (r: ColIndex)
    ensures r == -1 <==> name !in headers
    ensures r != -1 ==> r < |headers| && headers[r] == name && name !in headers[..r]
  {
    if headers == [] then -1
    else if headers[0] == name then 0
    else
      var k := IndexOf(headers[1..], name);
      assert headers[1..][..(if k == -1 then 0 else k)] == headers[1..(if k == -1 then 1 else k + 1)];
      if k == -1 then -1 else k + 1
  }

  /** The header test of `find(h => String(h).trim().toLowerCase() === name)`. */
  predicate HeaderMatches(h: string, name: string) {
    ToLower(Trim(h)) == name
  }

  /** The position of the first header matching `name`, or `-1`. */
  function FindIndex(headers: seq<string>, name: string): (r: ColIndex)
    ensures r == -1 <==> forall j :: 0 <= j < |headers| ==> !HeaderMatches(headers[j], name)
    ensures r != -1 ==> r < |headers| && HeaderMatches(headers[r], name)
    ensures r != -1 ==> forall j :: 0 <= j < r ==> !HeaderMatches(headers[j], name)
  {
    if headers == [] then -1
    else if HeaderMatches(headers[0], name) then 0
    else
      var k := FindIndex(headers[1..], name);
      if k == -1 then
        assert forall j :: 0 <= j < |headers| ==> !HeaderMatches(headers[j], name) by {
          forall j | 0 <= j < |headers|
            ensures !HeaderMatches(headers[j], name)
          {
            if j > 0 { assert headers[j] == headers[1..][j - 1]; }
          }
        }
        -1
      else
        assert forall j :: 0 <= j < k + 1 ==> !HeaderMatches(headers[j], name) by {
          forall j | 0 <= j < k + 1
            ensures !HeaderMatches(headers[j], name)
          {
            if j > 0 { assert headers[j] == headers[1..][j - 1]; }
          }
        }
        k + 1
  }

  /** `headers.find(h => String(h).trim().toLowerCase() === name)`: the
      first header, in list order, that equals `name` once trimmed and
      lower-cased. */
  function FindHeader(headers: seq<string>, name: string): (r: Option<string>)
    ensures r.None? <==> forall j :: 0 <= j < |headers| ==> !HeaderMatches(headers[j], name)
    ensures r.Some? ==> r.value in headers && HeaderMatches(r.value, name)
    ensures r.Some? ==> r.value == headers[FindIndex(headers, name)]
  {
    var k := FindIndex(headers, name);
    if k == -1 then None else Some(headers[k])
  }

  /** `sheet_add_aoa(ws, [[v]], {origin: {c: col, r: row}})` behind the
      source's `col !== -1` guard: overwrites one cell, or nothing. */
  function WriteCell(cells: Cells, col: ColIndex, row: nat, v: CellValue): (r: Cells)
    ensures col != -1 ==> (col, row) in r && r[(col, row)] == v
    ensures forall key :: key != (col, row) ==> (key in r <==> key in cells)
    ensures forall key :: key != (col, row) && key in cells ==> key in r && r[key] == cells[key]
    ensures col == -1 ==> r == cells
  {
    if col == -1 then cells else cells[(col, row) := v]
  }

  /** The flush batch size. */
  const SaveBatchSize: nat := 20

  /** After data row `i` of `n`, the whole sheet is written back when a
      batch of twenty is complete or the row is the last one. */
  predicate ShouldFlush(i: nat, n: nat)
    ensures i + 1 == n ==> ShouldFlush(i, n)
    ensures i + 1 < n ==> (ShouldFlush(i, n) <==> (i + 1) % SaveBatchSize == 0)
  {
    (i + 1) % SaveBatchSize == 0 || i + 1 == n
  }

  /** The number of flushing rows among the first `k` of `n`. */
  function FlushesBefore(k: nat, n: nat): nat {
    if k == 0 then 0 else FlushesBefore(k - 1, n) + (if ShouldFlush(k - 1, n) then 1 else 0)
  }

  /** Before the last row only complete batches flush. */
  lemma {:induction false} FlushesBeforeLast(k: nat, n: nat)
    requires k < n
    ensures FlushesBefore(k, n) == k / SaveBatchSize
  {
    if k > 0 {
      FlushesBeforeLast(k - 1, n);
      assert (k - 1) / 20 + (if k % 20 == 0 then 1 else 0) == k / 20;
    }
  }

  /** `n` rows, none skipped, are flushed `ceil(n / 20)` times. */
  lemma FlushCount(n: nat)
    requires n > 0
    ensures FlushesBefore(n, n) == (n + SaveBatchSize - 1) / SaveBatchSize
  {
    FlushesBeforeLast(n - 1, n);
    assert (n - 1) / 20 + 1 == (n + 19) / 20;
  }

  /** No stretch of twenty consecutive rows ends without a flush: every row
      `i` is followed, within the same batch, by a flushing row. */
  lemma FlushWithinBatch(i: nat, n: nat)
    requires i < n
    ensures exists j :: i <= j < n && j < i + SaveBatchSize && ShouldFlush(j, n)
  {
    var j := i + (19 - i % 20);
    if j < n {
      assert (j + 1) % 20 == 0;
      assert ShouldFlush(j, n);
    } else {
      assert ShouldFlush(n - 1, n);
    }
  }
}
