/**
 * Two example runs of the logger, worked out on the model one line at a
 * time.
 */
module Scenarios {
  import opened Wrappers
  import opened Text
  import opened Paths
  import opened Csv
  import opened PowerLog

  const Base := FilePath("logs", "out.csv")
  const Empty := LoggerState(map[], None, false, 0)

  /** The first headers, spelled out. */
  lemma SmallHeaders()
    ensures Header(2) == ["value1", "value2"]
    ensures Header(3) == ["value1", "value2", "value3"]
  {
    assert DecimalString(1) == "1" && DecimalString(2) == "2" && DecimalString(3) == "3";
    assert Label(1) == "value1" && Label(2) == "value2" && Label(3) == "value3";
    assert Header(1) == ["value1"];
  }

  lemma SmallSplits()
    ensures Split("1\t2", Tab) == ["1", "2"]
    ensures Split("1\t2\t3", Tab) == ["1", "2", "3"]
    ensures Split("5\t6", Tab) == ["5", "6"]
    ensures Split("7", Tab) == ["7"]
  {
    SplitWithoutSeparator("2", Tab);
    SplitWithoutSeparator("3", Tab);
    SplitWithoutSeparator("6", Tab);
    SplitWithoutSeparator("7", Tab);
    SplitAfterPiece("1", "2", Tab);
    SplitAfterPiece("2", "3", Tab);
    SplitAfterPiece("5", "6", Tab);
    assert "1" + [Tab] + "2" == "1\t2" && "2" + [Tab] + "3" == "2\t3" && "5" + [Tab] + "6" == "5\t6";
    SplitAfterPiece("1", "2\t3", Tab);
    assert "1" + [Tab] + "2\t3" == "1\t2\t3";
  }

  /** The file the `#START` of the scenario below opens. */
  function SessionFile(ts: string): FilePath {
    FilePath("logs", "out_" + ts + ".csv")
  }

  /** The states after each line of the scenario below. */
  function AfterStart(ts: string): LoggerState {
    LoggerState(map[SessionFile(ts) := []], Some(SessionFile(ts)), false, 0)
  }

  function AfterFirstRow(ts: string): LoggerState {
    LoggerState(map[SessionFile(ts) := [["value1", "value2"], ["1", "2"]]], Some(SessionFile(ts)), true, 2)
  }

  function AfterWiderRow(ts: string): LoggerState {
    LoggerState(map[SessionFile(ts) := [["value1", "value2"], ["1", "2"], ["value1", "value2", "value3"], ["1", "2", "3"]]],
                Some(SessionFile(ts)), true, 3)
  }

  lemma StartStep(ts: string)
    ensures Step(Base, Empty, "#START", ts) == AfterStart(ts)
  {
    assert Stem(Base.name) == "out" && Suffix(Base.name) == ".csv";
    assert "out" + "_" + ts + ".csv" == "out_" + ts + ".csv";
    assert StampedPath(Base, ts) == SessionFile(ts);
    assert RStrip("#START") == "#START";
    StartOpensFreshFile(Base, Empty, "#START", ts);
    assert Step(Base, Empty, "#START", ts).files.Keys == {SessionFile(ts)};
  }

  lemma FirstRowStep(ts: string)
    ensures Step(Base, AfterStart(ts), "1\t2", "") == AfterFirstRow(ts)
  {
    var p := SessionFile(ts);
    var s := AfterStart(ts);
    SmallHeaders();
    SmallSplits();
    assert RStrip("1\t2") == "1\t2";
    DataLineRow(Base, s, "1\t2", "");
    var r := Step(Base, s, "1\t2", "");
    assert Pad(["1", "2"], 2) == ["1", "2"];
    assert r.files[p] == [["value1", "value2"], ["1", "2"]];
    assert r.files.Keys == {p};
  }

  lemma WiderRowStep(ts: string)
    ensures Step(Base, AfterFirstRow(ts), "1\t2\t3", "") == AfterWiderRow(ts)
  {
    var p := SessionFile(ts);
    var s := AfterFirstRow(ts);
    SmallHeaders();
    SmallSplits();
    assert RStrip("1\t2\t3") == "1\t2\t3";
    DataLineRow(Base, s, "1\t2\t3", "");
    var r := Step(Base, s, "1\t2\t3", "");
    assert Pad(["1", "2", "3"], 3) == ["1", "2", "3"];
    assert r.files[p] == [["value1", "value2"], ["1", "2"], ["value1", "value2", "value3"], ["1", "2", "3"]];
    assert r.files.Keys == {p};
  }

  lemma StartedPrefix(ts: string)
    ensures RunSpec(Base, Empty, [Reading("#START", ts), Reading("1\t2", ""), Reading("1\t2\t3", "")]) == AfterWiderRow(ts)
  {
    var a, b, c := Reading("#START", ts), Reading("1\t2", ""), Reading("1\t2\t3", "");
    assert RunSpec(Base, Empty, [a]) == AfterStart(ts) by {
      RunSnoc(Base, Empty, [], a);
      assert [] + [a] == [a];
      StartStep(ts);
    }
    assert RunSpec(Base, Empty, [a, b]) == AfterFirstRow(ts) by {
      RunSnoc(Base, Empty, [a], b);
      assert [a] + [b] == [a, b];
      FirstRowStep(ts);
    }
    RunSnoc(Base, Empty, [a, b], c);
    assert [a, b] + [c] == [a, b, c];
    WiderRowStep(ts);
  }

  /** `#START`, "1\t2", "1\t2\t3", `#STOP` writes one timestamped file:
      a header of two, the row, a wider header of three, the row; the base
      file is never created and no session is left open. */
  lemma StartedSessionScenario(ts: string)
    ensures var r := RunSpec(Base, Empty, [Reading("#START", ts), Reading("1\t2", ""),
                                          Reading("1\t2\t3", ""), Reading("#STOP", "")]);
            && r.cur.None?
            && r.files == map[SessionFile(ts) := [["value1", "value2"], ["1", "2"],
                                                  ["value1", "value2", "value3"], ["1", "2", "3"]]]
  {
    var a, b, c, d := Reading("#START", ts), Reading("1\t2", ""), Reading("1\t2\t3", ""), Reading("#STOP", "");
    StartedPrefix(ts);
    RunSnoc(Base, Empty, [a, b, c], d);
    assert [a, b, c] + [d] == [a, b, c, d];
    assert RStrip("#STOP") == "#STOP";
    StopClosesSession(Base, AfterWiderRow(ts), "#STOP", "");
  }

  lemma FreeFirstStep()
    ensures Step(Base, Empty, "5\t6", "") == LoggerState(map[Base := [["value1", "value2"], ["5", "6"]]], Some(Base), true, 2)
  {
    SmallHeaders();
    SmallSplits();
    assert RStrip("5\t6") == "5\t6";
    DataWithoutSessionGoesToBase(Base, Empty, "5\t6", "");
    var r := Step(Base, Empty, "5\t6", "");
    assert RowsOf(Empty.files, Base) == [];
    assert r.files[Base] == [["value1", "value2"], ["5", "6"]];
    assert r.files.Keys == {Base};
  }

  lemma FreeSecondStep()
    ensures Step(Base, LoggerState(map[Base := [["value1", "value2"], ["5", "6"]]], Some(Base), true, 2), "7", "")
         == LoggerState(map[Base := [["value1", "value2"], ["5", "6"], ["7", ""]]], Some(Base), true, 2)
  {
    var s := LoggerState(map[Base := [["value1", "value2"], ["5", "6"]]], Some(Base), true, 2);
    SmallSplits();
    assert RStrip("7") == "7";
    DataLineRow(Base, s, "7", "");
    var r := Step(Base, s, "7", "");
    assert Pad(["7"], 2) == ["7", ""];
    assert r.files[Base] == [["value1", "value2"], ["5", "6"], ["7", ""]];
    assert r.files.Keys == {Base};
  }

  /** With no marker at all, "5\t6" then "7" create the base file: the
      header of two, the row, and the short row padded with "". */
  lemma FreeRunningScenario()
    ensures var r := RunSpec(Base, Empty, [Reading("5\t6", ""), Reading("7", "")]);
            && r.cur == Some(Base)
            && r.files == map[Base := [["value1", "value2"], ["5", "6"], ["7", ""]]]
  {
    var a, b := Reading("5\t6", ""), Reading("7", "");
    RunSnoc(Base, Empty, [], a);
    RunSnoc(Base, Empty, [a], b);
    assert [] + [a] == [a] && [a] + [b] == [a, b];
    FreeFirstStep();
    FreeSecondStep();
  }
}
