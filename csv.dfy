/**
 * The rows the logger writes: the header of `n` labels (`_write_header`),
 * the padding of a data row to the current width, and the shape of the rows
 * one capture session appends to its file.
 */
module Csv {
  import opened Text

  /** One CSV record, as the list of fields handed to `writer.writerow`. */
  type Row = seq<string>

  const LabelStem := "value"

  /** The label of column `n` (counted from 1): `f"value{n}"`. */
  function Label(n: nat): (r: string)
    ensures |r| > |LabelStem| && r[..|LabelStem|] == LabelStem && IsDigits(r[|LabelStem|..])
  {
    LabelStem + DecimalString(n)
  }

  /** The header of `n` columns: `[f"value{i+1}" for i in range(n)]`. */
  function Header(n: nat): (r: Row)
    ensures |r| == n
    ensures forall i :: 0 <= i < n ==> r[i] == Label(i + 1)
    decreases n
  {
    if n == 0 then [] else Header(n - 1) + [Label(n)]
  }

  /** The label in column `i` carries the number `i + 1`, so the labels
      count up from 1 in column order. */
  lemma HeaderNumbered(n: nat, i: nat)
    requires i < n
    ensures |Header(n)[i]| > |LabelStem| && Header(n)[i][..|LabelStem|] == LabelStem
    ensures IsDigits(Header(n)[i][|LabelStem|..]) && ParseDecimal(Header(n)[i][|LabelStem|..]) == i + 1
  {
    var h := Header(n)[i];
    assert h == LabelStem + DecimalString(i + 1);
    assert h[|LabelStem|..] == DecimalString(i + 1);
    DecimalRoundTrip(i + 1);
  }

  /** No label occurs twice in a header. */
  lemma HeaderDistinct(n: nat, i: nat, j: nat)
    requires i < n && j < n && i != j
    ensures Header(n)[i] != Header(n)[j]
  {
    HeaderNumbered(n, i);
    HeaderNumbered(n, j);
  }

  /** A wider header re-emitted later begins with the narrower one. */
  lemma HeaderExtends(m: nat, n: nat)
    requires m <= n
    ensures Header(m) == Header(n)[..m]
  {
  }

  /** Python's `[""] * k`: empty for `k <= 0`. */
  function Blanks(k: int): (r: Row)
    ensures |r| == if k <= 0 then 0 else k
    ensures forall i :: 0 <= i < |r| ==> r[i] == ""
    decreases k
  {
    if k <= 0 then [] else [""] + Blanks(k - 1)
  }

  /** `values + [""] * (width - len(values))`: the fields, then empty
      fields up to `width`; never truncates. */
  function Pad(values: Row, width: int): (r: Row)
    ensures |r| == if width <= |values| then |values| else width
    ensures r[..|values|] == values
    ensures forall i :: |values| <= i < |r| ==> r[i] == ""
  {
    values + Blanks(width - |values|)
  }

  /** The width a file has reached: the length of its last row. */
  function Width(rows: seq<Row>): nat {
    if rows == [] then 0 else |rows[|rows| - 1]|
  }

  /**
   * The rows one session has appended: blocks, each a header of `k` labels
   * followed by one or more rows of exactly `k` fields, with `k` growing
   * strictly from block to block.  Read from the end: the last row either
   * has the current width, or it is the first row after a new, wider header.
   */
  ghost predicate Session(rows: seq<Row>)
    decreases |rows|
  {
    var n := |rows|;
    n == 0
    || (n >= 2 && Session(rows[..n - 2]) && Width(rows[..n - 2]) < |rows[n - 1]|
        && rows[n - 2] == Header(|rows[n - 1]|))
    || (n >= 2 && Session(rows[..n - 1]) && |rows[n - 1]| == Width(rows[..n - 1]))
  }

  /** Appending a wider header and a row of its width keeps the shape. */
  lemma SessionGrow(rows: seq<Row>, row: Row)
    requires Session(rows) && Width(rows) < |row|
    ensures Session(rows + [Header(|row|), row]) && Width(rows + [Header(|row|), row]) == |row|
  {
    var r := rows + [Header(|row|), row];
    assert r[..|r| - 2] == rows;
  }

  /** Appending a row of the current width keeps the shape. */
  lemma SessionSameWidth(rows: seq<Row>, row: Row)
    requires Session(rows) && rows != [] && |row| == Width(rows)
    ensures Session(rows + [row]) && Width(rows + [row]) == |row|
  {
    var r := rows + [row];
    assert r[..|r| - 1] == rows;
  }

  /** The first row of every session is a header. */
  lemma {:induction false} SessionStartsWithHeader(rows: seq<Row>)
    requires Session(rows) && rows != []
    ensures rows[0] == Header(|rows[0]|)
    decreases |rows|
  {
    var n := |rows|;
    if n >= 2 && Session(rows[..n - 2]) && Width(rows[..n - 2]) < |rows[n - 1]|
       && rows[n - 2] == Header(|rows[n - 1]|) {
      if n > 2 {
        SessionStartsWithHeader(rows[..n - 2]);
      }
    } else {
      SessionStartsWithHeader(rows[..n - 1]);
    }
  }

  /** Widths never shrink within a session, none exceeds the current width,
      and every row has at least one field. */
  lemma {:induction false} SessionWidthsMonotone(rows: seq<Row>, i: nat, j: nat)
    requires Session(rows) && i <= j < |rows|
    ensures 0 < |rows[i]| <= |rows[j]| <= Width(rows)
    decreases |rows|
  {
    var n := |rows|;
    if n >= 2 && Session(rows[..n - 2]) && Width(rows[..n - 2]) < |rows[n - 1]|
       && rows[n - 2] == Header(|rows[n - 1]|) {
      var pre := rows[..n - 2];
      if j < n - 2 {
        SessionWidthsMonotone(pre, i, j);
        SessionWidthsMonotone(pre, j, n - 3);
      } else if i < n - 2 {
        SessionWidthsMonotone(pre, i, n - 3);
      }
    } else {
      var pre := rows[..n - 1];
      if j < n - 1 {
        SessionWidthsMonotone(pre, i, j);
        SessionWidthsMonotone(pre, j, n - 2);
      } else if i < n - 1 {
        SessionWidthsMonotone(pre, i, n - 2);
      } else {
        SessionWidthsMonotone(pre, n - 2, n - 2);
      }
    }
  }
}
