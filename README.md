# power-logger capture loop, modelled in Dafny

A model of the logging core of `power_log.py`: a serial line reader that
turns tab-separated telemetry lines into CSV rows, segmented into capture
sessions by `#START` / `#STOP` marker lines, and the `autodetect_port` helper
that chooses the serial port.

- `wrappers.dfy` (`Wrappers`): `Option` and `Result`.
- `text.dfy` (`Text`): `str.rstrip()`, `str.split("\t")` and `sep.join`,
  the substring test `needle in hay`, and `str(n)` for a natural number.
- `ports.dfy` (`Ports`): `autodetect_port` as a first-match search over
  the port enumeration, with the two errors it raises and their messages.
- `paths.dfy` (`Paths`): the `pathlib` `stem`, `suffix` and `with_name`
  used to name the file of a `#START` session.
- `csv.dfy` (`Csv`): the header written by `_write_header`, row padding,
  and `Session`, the shape of the rows one session appends.
- `power_log.dfy` (`PowerLog`): `Step`, the meaning of one line read from
  the port, over the loop's state (`files`, the open path, `header_written`,
  `max_fields`); lemmas about every kind of line; the session invariant; and
  the class `Logger`, whose fields are the loop's variables and whose methods
  `ProcessLine` and `Run` update them in place, proved equal to `Step` and to
  its iteration `RunSpec`.
- `scenarios.dfy` (`Scenarios`): two example runs worked out on the model.

The file system is a map from paths to the rows written to each file, so
a file is non-empty exactly when it holds a row. The timestamp of a
`#START` travels with each line read, already formatted.

The model follows the code as written, including four behaviours a reader might not expect:
- The logger has no trigger-mode flag. A data line that arrives with no
  session open always opens the base file in append mode. This includes a
  line before the first `#START` and a line after a `#STOP`
  (power_log.py:144-148; `DataWithoutSessionGoesToBase`). No data line is
  ever dropped.
- A `#START` while a session is open does not close it. The earlier file
  keeps every row it had (`StartOpensFreshFile`, `RestartKeepsEarlierRows`).
- `#STOP` leaves `header_written` and `max_fields` as they were. Only the
  open path is cleared.
- Appending to a non-empty base file sets `header_written` to true. It also
  resets `max_fields` to 0, so the first data line always writes a new
  header anyway (`DataWithoutSessionGoesToBase`).

## Model

| member | source | states |
|---|---|---|
| `Text.RStrip` | power_log.py:117 | the result is the longest prefix of the line that does not end in whitespace; everything stripped is whitespace |
| `Text.IsSpace` | power_log.py:117 | no contract of its own: the set of characters Python's `str.isspace()` accepts, in whose terms `RStrip`'s contract is stated |
| `Text.RStripIdempotent` | power_log.py:117 | stripping twice gives the same line as stripping once |
| `Text.RStripAllSpace` | power_log.py:117-119 | a line made only of whitespace strips to the empty line |
| `Text.Split` | power_log.py:150-151 | splitting on the tab gives at least one field, and no field contains a tab |
| `Text.JoinWith` | power_log.py:52 | no contract of its own: Python's `sep.join(parts)`; `JoinSplit`, `JoinHasPiece` and `JoinOffsetsOrdered` state its properties |
| `Text.JoinSplit` | power_log.py:150 | joining the fields of a split with the separator gives the line back |
| `Text.SplitJoin` | power_log.py:150 | splitting a join of separator-free pieces gives the pieces back |
| `Text.JoinHasPiece` | power_log.py:52 | each piece of a join occurs in the joined text at its offset |
| `Text.JoinOffsetsOrdered` | power_log.py:52 | with a non-empty separator, the pieces occur in order and do not overlap |
| `Text.Contains` | power_log.py:41 | the substring test is true exactly when the needle occurs at some index of the haystack |
| `Text.DecimalString` | power_log.py:87 | `str(n)` is a non-empty string of decimal digits with no leading zero: it starts with `0` only when `n` is 0 |
| `Text.DecimalRoundTrip` | power_log.py:87 | reading the decimal string of `n` back gives `n` |
| `Text.DecimalInjective` | power_log.py:87 | different numbers have different decimal strings |
| `Ports.FirstArduino` | power_log.py:40-45 | returns the index of a port that mentions Arduino in its manufacturer or description (a missing field counts as ""), and no earlier port does; returns nothing only when no port does |
| `Ports.OrEmpty` | power_log.py:41 | `field or ""`: a non-empty value is kept, and the result is empty exactly when the field is `None` or empty |
| `Ports.MentionsArduino` | power_log.py:41 | true exactly when "Arduino" occurs in the manufacturer or in the description (a missing field counts as ""); a port with neither field never matches |
| `Ports.AutodetectPort` | power_log.py:36-55 | succeeds exactly when some port mentions Arduino, and returns the device of the first such port; an empty list fails with "no ports"; any other failure carries the whole port list |
| `Ports.Shown` | power_log.py:52 | no contract of its own: how an f-string renders the description, "None" when it is missing; it is part of the entry that `MessageListsPort` finds in the message |
| `Ports.Entry` | power_log.py:52 | no contract of its own: the `f"{p.device}: {p.description}"` entry; `MessageListsPort` states that it occurs in the message |
| `Ports.Entries` | power_log.py:52 | no contract of its own: one `device: description` entry per port; `MessageListsPort` and `MessageInPortOrder` state that each entry occurs in the message, in enumeration order |
| `Ports.Message` | power_log.py:47-55 | no contract of its own: the text of each `RuntimeError`; `MessageFramed`, `MessageListsPort`, `MessageInPortOrder` and `MessagesDiffer` state its properties |
| `Ports.MessageFramed` | power_log.py:50-53 | the no-match message opens with the two fixed lines and ends by asking for `--port` |
| `Ports.MessageListsPort` | power_log.py:50-53 | the no-match message contains each port's `device: description` entry |
| `Ports.MessageInPortOrder` | power_log.py:52 | the entries appear in the message in enumeration order |
| `Ports.MessagesDiffer` | power_log.py:47-55 | the two failures have different messages |
| `Paths.RFind` | power_log.py:95-96 | the last index of the character, or -1 when it is absent |
| `Paths.HasSuffix` | power_log.py:96 | no contract of its own: a last dot that is neither the first nor the last character of the name starts a suffix, as `pathlib` decides; `Suffix` and `Stem` are stated in its terms |
| `Paths.Suffix` | power_log.py:96 | the suffix is non-empty exactly when the name has one (`HasSuffix`); a non-empty suffix is a dot followed by at least one character and no other dot |
| `Paths.Stem` | power_log.py:95-96 | stem followed by suffix is the file name; with a suffix, the stem is non-empty and shorter than the name |
| `Paths.StampedPath` | power_log.py:123-124 | a session file sits in the base file's directory and is never the base file itself |
| `Paths.StampedPathInjective` | power_log.py:123-124 | sessions started at different timestamps write to different files |
| `Csv.Label` | power_log.py:87 | a label is "value" followed by a non-empty string of digits |
| `Csv.Header` | power_log.py:86-87 | the header of width `n` has exactly `n` labels, and the i-th is `"value" + str(i+1)` |
| `Csv.HeaderNumbered` | power_log.py:87 | the label in column i is "value" followed by the digits of i+1, so the labels count up from 1 |
| `Csv.HeaderDistinct` | power_log.py:87 | no label appears twice in a header |
| `Csv.HeaderExtends` | power_log.py:153-159 | a wider header written later begins with the narrower one |
| `Csv.Blanks` | power_log.py:161 | `[""] * k` holds max(k, 0) empty fields |
| `Csv.Pad` | power_log.py:161 | the padded row starts with the original fields, the rest are "", and its length is the larger of the width and the field count |
| `Csv.SessionGrow` | power_log.py:153-162 | adding a wider header and a row of that width to a well-formed session keeps it well-formed, at the new width |
| `Csv.SessionSameWidth` | power_log.py:161-162 | adding a row of the current width to a non-empty session keeps it well-formed |
| `Csv.SessionStartsWithHeader` | power_log.py:153-156 | the first row a session writes is a header |
| `Csv.SessionWidthsMonotone` | power_log.py:157-162 | within a session row widths never shrink, every row has a field, and no row is wider than the current width |
| `PowerLog.Step` | power_log.py:113-162 | no contract of its own: one iteration of the read loop on the state; `StepFramesFiles`, `StepKeepsInv` and the per-line lemmas below state what it does |
| `PowerLog.RunSpec` | power_log.py:107-166 | no contract of its own: the read loop as steps over a sequence of lines; `RunSnoc`, `RunKeepsFiles` and `RunKeepsInv` state its properties |
| `PowerLog.OpenFallback` | power_log.py:144-148 | no contract of its own: the append-mode open of the base file; `FallbackOpensBase` states what it does |
| `PowerLog.AppendData` | power_log.py:150-163 | no contract of its own: header emission, padding and the row write; `AppendDataOnlyAppends` and `DataLineRow` state what it does |
| `PowerLog.AppendDataOnlyAppends` | power_log.py:150-163 | writing a data line keeps the session, marks the header written, keeps the file's earlier rows as a proper prefix, and its last row has the new width, which is at least the field count |
| `PowerLog.StepFramesFiles` | power_log.py:113-162 | no line removes a file; after a non-blank line the open file exists; every file other than the one open afterwards is unchanged |
| `PowerLog.RunKeepsFiles` | power_log.py:107-166 | no sequence of lines removes a file |
| `PowerLog.RunSnoc` | power_log.py:107-113 | reading one more line applies one more step |
| `PowerLog.InitialInv` | power_log.py:98-101 | the initial state (no session, no header, width 0) satisfies the session invariant |
| `PowerLog.StepKeepsInv` | power_log.py:113-162 | every kind of line preserves the session invariant: no header means width 0, and the rows of the open session are well-formed at width `max_fields` |
| `PowerLog.RunKeepsInv` | power_log.py:107-166 | any sequence of lines preserves the session invariant |
| `PowerLog.SessionRowsShape` | power_log.py:150-162 | in the open file, the session's first row is a header, widths never shrink, and no row is wider than `max_fields` |
| `PowerLog.BlankLineIgnored` | power_log.py:113-119 | an empty read or a whitespace-only line changes no state and no file |
| `PowerLog.StartOpensFreshFile` | power_log.py:122-131 | `#START` opens `stem_<timestamp>suffix` in the base directory, with zero rows; it resets `header_written` and `max_fields`; every other file keeps its rows |
| `PowerLog.RestartKeepsEarlierRows` | power_log.py:122-125 | a `#START` while an earlier session is open leaves the earlier file's rows intact and switches to a new file |
| `PowerLog.StopClosesSession` | power_log.py:133-140 | `#STOP` touches no file and leaves no session open; with none open it changes nothing |
| `PowerLog.StopIdempotent` | power_log.py:133-140 | a second `#STOP` changes nothing more than the first |
| `PowerLog.FallbackOpensBase` | power_log.py:143-148 | with no session open the base file is opened with its rows kept, `header_written` is true exactly when it had rows, and the width is 0 |
| `PowerLog.DataWithoutSessionGoesToBase` | power_log.py:143-162 | a data line with no session open goes to the base file, after a new header of its own width, even when the file already had rows; the set of files gains at most the base file, and every other file is unchanged |
| `PowerLog.DataLineRow` | power_log.py:150-162 | in an open session the width becomes max(old width, field count) and never shrinks; a header of that width is added exactly when none was written or the line is wider; then the fields padded with "" to exactly that width; the set of files gains at most the open file, and every other file is unchanged |
| `PowerLog.DataLineFields` | power_log.py:150-151 | a data line has at least one field, and the fields joined with tabs give back the stripped line |
| `PowerLog.Logger.constructor` | power_log.py:95-101 | the loop starts with no session, no header and width 0 over the given files |
| `PowerLog.Logger.ProcessLine` | power_log.py:113-166 | one loop iteration updates the fields in place exactly as `Step` says, and keeps the session invariant |
| `PowerLog.Logger.OpenBase` | power_log.py:144-148 | the append-mode fallback open, as `OpenFallback` says |
| `PowerLog.Logger.WriteData` | power_log.py:150-163 | header emission, padding and the row write, as `AppendData` says |
| `PowerLog.Logger.Run` | power_log.py:107-166 | the read loop over a sequence of lines updates the fields as `RunSpec` says, and keeps the session invariant |
| `Scenarios.SmallHeaders` | power_log.py:86-87 | the headers of width 2 and 3, spelled out |
| `Scenarios.SmallSplits` | power_log.py:150 | the splits of the scenario lines, spelled out |
| `Scenarios.StartedSessionScenario` | power_log.py:113-166 | `#START`, `1\t2`, `1\t2\t3`, `#STOP` give one file `out_<ts>.csv` holding a two-column header, `1,2`, a three-column header and `1,2,3`; the base file is never created |
| `Scenarios.FreeRunningScenario` | power_log.py:143-162 | with no markers, `5\t6` then `7` create `out.csv` holding the header `value1,value2`, the row `5,6` and the padded row `7,` |

## Left out

- Serial I/O is not modelled: opening the port at 2,000,000 baud, the two-second settle delay and `readline`. Lines arrive as already-decoded strings, so the byte decoding with replacement characters is not modelled either.
- The clock is not modelled. `datetime.now().strftime(...)[:-3]` is replaced by a timestamp string given with each line.
- The port enumeration `list(list_ports.comports())` is not modelled. `AutodetectPort` takes the list of ports as a parameter and holds for any list.
- CSV text is not modelled. The quoting and escaping done by Python's `csv` module live in a foreign library, so files hold rows (lists of fields), not characters.
- With rows instead of bytes, "the file was non-empty when opened" becomes "the file held at least one row". A pre-existing base file whose bytes are not whole rows is not captured.
- `flush`, `close`, the `finally` clause, `KeyboardInterrupt` and the spinner and verbose output are not modelled. They change nothing in the row model, because every row is on the file as soon as it is written.
- Not closing the old handle on a repeated `#START` is not visible in the model. The model shows only that the earlier file's rows stay as written.
- Directory creation (`mkdir(parents=True)`) is not modelled. Neither are the errors from opening or writing a file, nor `with_name` rejecting a base path whose name is empty.
- `Paths.Suffix` follows the `pathlib` rule of Python 3.13 and earlier: a last dot only starts a suffix when it is neither the first nor the last character of the name.
- `compile_sketch` and `upload_sketch` are not part of this model. They are thin wrappers that run `arduino-cli` as a subprocess.
- `main` is not part of this model. It is argument parsing and path plumbing, and it calls `.exists()` on a `str`, so that path fails as written. This also leaves out choosing between `--port` and `autodetect_port`.
- The firmware, `src/INA226.cpp` and `src/INA226.h`, is not part of this model. It drives I2C through the `Wire` library, computes the power reading in floating point, and chooses the mux through compile-time board macros.
