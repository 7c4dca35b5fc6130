/**
 * The per-line capture loop of `read_serial_and_log`: marker lines open and
 * close sessions, data lines are split on tabs, a header is (re)written when
 * the width grows, and every row is padded to the current width.
 *
 * `Step` and `RunSpec` are the pure meaning of one line and of a sequence of
 * lines; the class `Logger` keeps the four variables of the loop as fields
 * and updates them in place, proved against `Step`.
 */
module PowerLog {
  import opened Wrappers
  import opened Text
  import opened Paths
  import opened Csv

  /** The file system as the logger sees it: the rows of every file. */
  type Disk = map<FilePath, seq<Row>>

  /** The loop's variables: the files, the open session's path
      (`current_f`/`writer`), `header_written` and `max_fields`. */
  datatype LoggerState = LoggerState(files: Disk, cur: Option<FilePath>, headerWritten: bool, maxFields: nat)

  /** One line read from the serial port, with the wall-clock timestamp
      (already formatted as `YYYY-MM-DD_HH-MM-SS.mmm`) taken if it starts a session. */
  datatype Reading = Reading(text: string, stamp: string)

  const StartMarker := "#START"
  const StopMarker := "#STOP"
  const Tab := '\t'

  /** The rows of `p`, or none if the file does not exist. */
  function RowsOf(files: Disk, p: FilePath): seq<Row> {
    if p in files then files[p] else []
  }

  /** A line that is neither blank nor a marker. */
  predicate IsDataLine(raw: string) {
    var line := RStrip(raw);
    line != "" && line != StartMarker && line != StopMarker
  }

  /** With no session open, `csv_path.open("a")`: the base file is created
      if absent and kept as it is otherwise (power_log.py:144-148). */
  function OpenFallback(base: FilePath, s: LoggerState): LoggerState {
    if s.cur.Some? then s
    else
      var existing := RowsOf(s.files, base);
      LoggerState(s.files[base := existing], Some(base), existing != [], 0)
  }

  /** Write one data line to the open session (power_log.py:150-163). */
  function AppendData(s: LoggerState, line: string): LoggerState
    requires s.cur.Some?
  {
    var p := s.cur.value;
    var values := Split(line, Tab);
    var emit := !s.headerWritten || |values| > s.maxFields;
    var width := if emit then |values| else s.maxFields;
    var out := (if emit then [Header(width)] else []) + [Pad(values, width)];
    LoggerState(s.files[p := RowsOf(s.files, p) + out], s.cur, true, width)
  }

  /** What one line read from the port does to the loop's state. */
  function Step(base: FilePath, s: LoggerState, raw: string, stamp: string): LoggerState {
    var line := RStrip(raw);
    if line == "" then s
    else if line == StartMarker then
      var p := StampedPath(base, stamp);
      LoggerState(s.files[p := []], Some(p), false, 0)
    else if line == StopMarker then
      if s.cur.Some? then s.(cur := None) else s
    else
      AppendData(OpenFallback(base, s), line)
  }

  /** The state after handling `rs` in order. */
  function RunSpec(base: FilePath, s: LoggerState, rs: seq<Reading>): LoggerState
    decreases |rs|
  {
    if rs == [] then s
    else
      var last := rs[|rs| - 1];
      Step(base, RunSpec(base, s, rs[..|rs| - 1]), last.text, last.stamp)
  }

  /** Writing a data line only appends: the session's file keeps its rows
      and ends with a row of the new width, which fits the line. */
  lemma AppendDataOnlyAppends(s: LoggerState, line: string)
    requires s.cur.Some?
    ensures var r, p := AppendData(s, line), s.cur.value;
            && r.cur == s.cur && r.headerWritten && r.maxFields >= |Split(line, Tab)|
            && p in r.files && RowsOf(s.files, p) < r.files[p]
            && Width(r.files[p]) == r.maxFields
  {
  }

  /** No line removes a file, and only the file open after the line can
      have changed. */
  lemma StepFramesFiles(base: FilePath, s: LoggerState, raw: string, stamp: string)
    ensures var r := Step(base, s, raw, stamp);
            && s.files.Keys <= r.files.Keys
            && (RStrip(raw) != "" && r.cur.Some? ==> r.cur.value in r.files)
            && forall q :: q in s.files && Some(q) != r.cur ==> r.files[q] == s.files[q]
  {
  }

  /** No sequence of lines removes a file. */
  lemma {:induction false} RunKeepsFiles(base: FilePath, s: LoggerState, rs: seq<Reading>)
    ensures s.files.Keys <= RunSpec(base, s, rs).files.Keys
    decreases |rs|
  {
    if rs != [] {
      var pre := rs[..|rs| - 1];
      RunKeepsFiles(base, s, pre);
      StepFramesFiles(base, RunSpec(base, s, pre), rs[|rs| - 1].text, rs[|rs| - 1].stamp);
    }
  }

  /** One more line after a run is one more step. */
  lemma RunSnoc(base: FilePath, s: LoggerState, rs: seq<Reading>, x: Reading)
    ensures RunSpec(base, s, rs + [x]) == Step(base, RunSpec(base, s, rs), x.text, x.stamp)
  {
    assert (rs + [x])[..|rs|] == rs;
  }

  // ---------------------------------------------------------------------
  // The session invariant.  `origin` is the index in the open file at which
  // the current session began writing: 0 for a `#START` file, the old length
  // for a base file opened for appending.

  ghost predicate SessionInv(s: LoggerState, origin: nat) {
    && (!s.headerWritten ==> s.maxFields == 0)
    && (s.cur.Some? ==>
          && s.cur.value in s.files
          && origin <= |s.files[s.cur.value]|
          && var body := s.files[s.cur.value][origin..];
             Session(body) && Width(body) == s.maxFields && (!s.headerWritten ==> body == []))
  }

  /** Where the session open after the line begins. */
  ghost function NextOrigin(base: FilePath, s: LoggerState, origin: nat, raw: string): nat {
    var line := RStrip(raw);
    if line == "" || line == StopMarker then origin
    else if line == StartMarker then 0
    else if s.cur.None? then |RowsOf(s.files, base)|
    else origin
  }

  ghost function RunOrigin(base: FilePath, s: LoggerState, origin: nat, rs: seq<Reading>): nat
    decreases |rs|
  {
    if rs == [] then origin
    else
      NextOrigin(base, RunSpec(base, s, rs[..|rs| - 1]), RunOrigin(base, s, origin, rs[..|rs| - 1]),
                 rs[|rs| - 1].text)
  }

  /** The initial state: nothing open, no header, width 0. */
  lemma InitialInv(files: Disk, origin: nat)
    ensures SessionInv(LoggerState(files, None, false, 0), origin)
  {
  }

  /** Every line keeps the session invariant. */
  lemma StepKeepsInv(base: FilePath, s: LoggerState, origin: nat, raw: string, stamp: string)
    requires SessionInv(s, origin)
    ensures SessionInv(Step(base, s, raw, stamp), NextOrigin(base, s, origin, raw))
  {
    var line := RStrip(raw);
    if IsDataLine(raw) {
      var o := OpenFallback(base, s);
      var o' := NextOrigin(base, s, origin, raw);
      var p := o.cur.value;
      var body := o.files[p][o'..];
      assert Session(body) && Width(body) == o.maxFields && (!o.headerWritten ==> body == []);
      var values := Split(line, Tab);
      var emit := !o.headerWritten || |values| > o.maxFields;
      var width := if emit then |values| else o.maxFields;
      var row := Pad(values, width);
      var r := Step(base, s, raw, stamp);
      assert |row| == width;
      if emit {
        SessionGrow(body, row);
        assert r.files[p][o'..] == body + [Header(|row|), row];
      } else {
        SessionSameWidth(body, row);
        assert r.files[p][o'..] == body + [row];
      }
    }
  }

  /** Any sequence of lines keeps the session invariant. */
  lemma {:induction false} RunKeepsInv(base: FilePath, s: LoggerState, origin: nat, rs: seq<Reading>)
    requires SessionInv(s, origin)
    ensures SessionInv(RunSpec(base, s, rs), RunOrigin(base, s, origin, rs))
    decreases |rs|
  {
    if rs != [] {
      var pre := rs[..|rs| - 1];
      RunKeepsInv(base, s, origin, pre);
      StepKeepsInv(base, RunSpec(base, s, pre), RunOrigin(base, s, origin, pre), rs[|rs| - 1].text, rs[|rs| - 1].stamp);
    }
  }

  /** The rows of the open session: the first is a header, widths never
      shrink, and none is wider than `max_fields`. */
  lemma SessionRowsShape(s: LoggerState, origin: nat, i: nat, j: nat)
    requires SessionInv(s, origin) && s.cur.Some?
    requires origin <= i <= j < |s.files[s.cur.value]|
    ensures var rows := s.files[s.cur.value];
            rows[origin] == Header(|rows[origin]|) && 0 < |rows[i]| <= |rows[j]| <= s.maxFields
  {
    var rows := s.files[s.cur.value];
    var body := rows[origin..];
    SessionStartsWithHeader(body);
    SessionWidthsMonotone(body, i - origin, j - origin);
  }

  // ---------------------------------------------------------------------
  // One line at a time.

  /** An empty read, or a line that is blank after `rstrip`, changes nothing. */
  lemma BlankLineIgnored(base: FilePath, s: LoggerState, raw: string, stamp: string)
    requires forall i :: 0 <= i < |raw| ==> IsSpace(raw[i])
    ensures Step(base, s, raw, stamp) == s
  {
    RStripAllSpace(raw);
  }

  /** `#START` opens a fresh, empty, timestamped file, resets the header flag
      and the width and writes no row; every other file, including one a
      still-open session was writing, keeps its rows. */
  lemma StartOpensFreshFile(base: FilePath, s: LoggerState, raw: string, stamp: string)
    requires RStrip(raw) == StartMarker
    ensures var r := Step(base, s, raw, stamp);
            var p := StampedPath(base, stamp);
            && p.dir == base.dir && p.name == Stem(base.name) + "_" + stamp + Suffix(base.name)
            && r.cur == Some(p) && p in r.files && r.files[p] == []
            && !r.headerWritten && r.maxFields == 0
            && r.files.Keys == s.files.Keys + {p}
            && forall q :: q in s.files && q != p ==> r.files[q] == s.files[q]
  {
  }

  /** A `#START` while a session started at another timestamp is still open
      leaves that session's file with every row it already had. */
  lemma RestartKeepsEarlierRows(base: FilePath, s: LoggerState, raw: string, stamp: string, earlier: string)
    requires RStrip(raw) == StartMarker && earlier != stamp
    requires s.cur == Some(StampedPath(base, earlier)) && StampedPath(base, earlier) in s.files
    ensures var r := Step(base, s, raw, stamp);
            && StampedPath(base, earlier) in r.files
            && r.files[StampedPath(base, earlier)] == s.files[StampedPath(base, earlier)]
            && r.cur != s.cur
  {
    if StampedPath(base, earlier) == StampedPath(base, stamp) {
      StampedPathInjective(base, earlier, stamp);
    }
  }

  /** `#STOP` never touches a file; with a session open it ends it, with
      none open it does nothing at all. */
  lemma StopClosesSession(base: FilePath, s: LoggerState, raw: string, stamp: string)
    requires RStrip(raw) == StopMarker
    ensures var r := Step(base, s, raw, stamp);
            && r.files == s.files && r.cur.None?
            && r.headerWritten == s.headerWritten && r.maxFields == s.maxFields
            && (s.cur.None? ==> r == s)
  {
  }

  /** Repeated `#STOP`s are idempotent. */
  lemma StopIdempotent(base: FilePath, s: LoggerState, raw: string, stamp: string, raw': string, stamp': string)
    requires RStrip(raw) == StopMarker && RStrip(raw') == StopMarker
    ensures Step(base, Step(base, s, raw, stamp), raw', stamp') == Step(base, s, raw, stamp)
  {
  }

  /** With no session open the base file is opened for appending: existing
      rows are kept, `header_written` says whether there were any, and the
      width starts again from 0 (power_log.py:144-148). */
  lemma FallbackOpensBase(base: FilePath, s: LoggerState)
    requires s.cur.None?
    ensures var o := OpenFallback(base, s);
            && o.cur == Some(base) && base in o.files && o.files[base] == RowsOf(s.files, base)
            && (o.headerWritten <==> RowsOf(s.files, base) != []) && o.maxFields == 0
            && forall q :: q in s.files ==> q in o.files && o.files[q] == s.files[q]
  {
  }

  /** A data line with no session open, even after a `#STOP`, goes to the
      base file, under a fresh header: since the width restarts at 0, one is
      written even when the file already had rows. */
  lemma DataWithoutSessionGoesToBase(base: FilePath, s: LoggerState, raw: string, stamp: string)
    requires IsDataLine(raw) && s.cur.None?
    ensures var r := Step(base, s, raw, stamp);
            var values := Split(RStrip(raw), Tab);
            && r.cur == Some(base) && r.headerWritten && r.maxFields == |values|
            && base in r.files
            && r.files[base] == RowsOf(s.files, base) + [Header(|values|), values]
            && r.files.Keys == s.files.Keys + {base}
            && forall q :: q in s.files && q != base ==> r.files[q] == s.files[q]
  {
    var values := Split(RStrip(raw), Tab);
    assert Pad(values, |values|) == values;
  }

  /** A data line in an open session: the width becomes the larger of the
      old width and the field count; a header of that width is appended
      exactly when none was written yet or the line is wider than before;
      then the fields, padded with "" to the width. */
  lemma DataLineRow(base: FilePath, s: LoggerState, raw: string, stamp: string)
    requires IsDataLine(raw) && s.cur.Some?
    requires !s.headerWritten ==> s.maxFields == 0
    ensures var r := Step(base, s, raw, stamp);
            var p := s.cur.value;
            var values := Split(RStrip(raw), Tab);
            var width := if s.maxFields < |values| then |values| else s.maxFields;
            var emit := !s.headerWritten || |values| > s.maxFields;
            && r.cur == s.cur && r.headerWritten && r.maxFields == width >= s.maxFields
            && p in r.files
            && r.files[p] == RowsOf(s.files, p) + (if emit then [Header(width)] else []) + [Pad(values, width)]
            && |Pad(values, width)| == width
            && r.files.Keys == s.files.Keys + {p}
            && forall q :: q in s.files && q != p ==> r.files[q] == s.files[q]
  {
  }

  /** The fields of a data line are its pieces between tabs: at least one,
      and joined again with tabs they give back the stripped line. */
  lemma DataLineFields(raw: string)
    requires IsDataLine(raw)
    ensures var values := Split(RStrip(raw), Tab);
            |values| >= 1 && JoinWith(values, [Tab]) == RStrip(raw)
  {
    JoinSplit(RStrip(raw), Tab);
  }

  // ---------------------------------------------------------------------
  // The loop, in place.

  class Logger {
    /** `csv_path`. */
    const base: FilePath
    var files: Disk
    var cur: Option<FilePath>
    var headerWritten: bool
    var maxFields: nat
    ghost var origin: nat

    function State(): LoggerState
      reads this
    {
      LoggerState(files, cur, headerWritten, maxFields)
    }

    ghost predicate Valid()
      reads this
    {
      SessionInv(State(), origin)
    }

    /** The loop's variables before the first line: no session, no header. */
    constructor (base: FilePath, disk: Disk)
      ensures Valid()
      ensures this.base == base && State() == LoggerState(disk, None, false, 0)
    {
      this.base := base;
      files := disk;
      cur := None;
      headerWritten := false;
      maxFields := 0;
      origin := 0;
    }

    /** One iteration of the read loop (power_log.py:113-166). */
    method ProcessLine(raw: string, stamp: string)
      requires Valid()
      modifies this
      ensures Valid()
      ensures State() == Step(base, old(State()), raw, stamp)
    {
      ghost var s0, o0 := State(), origin;
      var line := RStrip(raw);
      if line == "" {
      } else if line == StartMarker {
        var p := StampedPath(base, stamp);
        files := files[p := []];
        cur := Some(p);
        headerWritten := false;
        maxFields := 0;
      } else if line == StopMarker {
        if cur.Some? {
          cur := None;
        }
      } else {
        if cur.None? {
          OpenBase();
        }
        WriteData(line);
      }
      StepKeepsInv(base, s0, o0, raw, stamp);
      origin := NextOrigin(base, s0, o0, raw);
    }

    /** The fallback open of the base file in append mode (power_log.py:144-148).
        It neither needs nor keeps `Valid()`: it is called only from
        `ProcessLine`, which re-establishes `Valid()` and `origin` afterwards. */
    method OpenBase()
      requires cur.None?
      modifies this`files, this`cur, this`headerWritten, this`maxFields
      ensures State() == OpenFallback(base, old(State()))
    {
      var existing := RowsOf(files, base);
      files := files[base := existing];
      cur := Some(base);
      headerWritten := existing != [];
      maxFields := 0;
    }

    /** Header emission, padding and the row write (power_log.py:150-163).
        Like `OpenBase`, it neither needs nor keeps `Valid()`; `ProcessLine`
        re-establishes `Valid()` and `origin` after it. */
    method WriteData(line: string)
      requires cur.Some?
      modifies this`files, this`headerWritten, this`maxFields
      ensures State() == AppendData(old(State()), line)
    {
      var p := cur.value;
      var values := Split(line, Tab);
      var fieldCount := |values|;
      var rows := RowsOf(files, p);
      if !headerWritten {
        maxFields := fieldCount;
        rows := rows + [Header(maxFields)];
        headerWritten := true;
      } else if fieldCount > maxFields {
        maxFields := fieldCount;
        rows := rows + [Header(maxFields)];
      }
      rows := rows + [Pad(values, maxFields)];
      files := files[p := rows];
      ghost var emit := !old(headerWritten) || fieldCount > old(maxFields);
      assert rows == RowsOf(old(files), p) + ((if emit then [Header(maxFields)] else []) + [Pad(values, maxFields)]);
    }

    /** The read loop over the lines that arrive, in order. */
    method Run(readings: seq<Reading>)
      requires Valid()
      modifies this
      ensures Valid()
      ensures State() == RunSpec(base, old(State()), readings)
    {
      var i := 0;
      while i < |readings|
        invariant 0 <= i <= |readings|
        invariant Valid()
        invariant State() == RunSpec(base, old(State()), readings[..i])
      {
        ProcessLine(readings[i].text, readings[i].stamp);
        assert readings[..i + 1][..i] == readings[..i];
        i := i + 1;
      }
      assert readings[..|readings|] == readings;
    }
  }
}
