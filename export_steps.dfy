/**
 * The decisions of `export_cann_profiling` that do not depend on the
 * filesystem: the `msprof` argument lists, the iteration id already present
 * in a step-trace file's name, and which `--iteration-id` exports the loop
 * over the step-trace rows issues before it stops.
 */
module ExportSteps {
  import opened Text

  /** The argument list of one `subprocess.run`. */
  type Args = seq<string>

  const COMMAND_SUCCESS: int := 0

  const EXPORT_FAILED_HINT: string :=
    "Export CANN Profiling data failed, please verify that the ascend-toolkit is installed and set-env.sh " +
    "is sourced. or you can execute the command to confirm the CANN Profiling export result: " +
    "msprof --export=on --output="

  /** The message raised when the first export fails; it ends with the command to rerun. */
  function ExportFailedMessage(cannPath: string): string {
    EXPORT_FAILED_HINT + cannPath
  }

  /** The message raised when an iteration export fails. */
  const ITERATION_EXPORT_FAILED: string :=
    "Export CANN Profiling data failed, please verify that the " +
    "ascend-toolkit is installed and set-env.sh is sourced."

  function ExportArgs(cannPath: string): Args {
    ["msprof", "--export=on", "--output=" + cannPath]
  }

  function AnalyzeArgs(cannPath: string): Args {
    ["msprof", "--analyze=on", "--output=" + cannPath]
  }

  function IterationArgs(cannPath: string, stepId: string): Args {
    ["msprof", "--export=on", "--output=" + cannPath, "--iteration-id=" + stepId]
  }

  /** `os.path.basename(step_file).split(".")[0].split("_")[-1]` */
  function ParsedStep(stepFile: string): (r: string)
    ensures '_' !in r && '.' !in r && '/' !in r
  {
    AfterLast(BeforeFirst(Basename(stepFile), '.'), '_')
  }

  /** A row asks for an export unless its step id is the invalid marker or the one already exported. */
  predicate Qualifies(stepId: string, parsedStep: string, invalid: string) {
    stepId != invalid && stepId != parsedStep
  }

  /** The step ids of the qualifying rows, in row order, duplicates kept. */
  function Qualifying(rows: seq<string>, parsedStep: string, invalid: string): seq<string>
    decreases |rows|
  {
    if rows == [] then []
    else
      var before := Qualifying(rows[..|rows| - 1], parsedStep, invalid);
      var stepId := rows[|rows| - 1];
      if Qualifies(stepId, parsedStep, invalid) then before + [stepId] else before
  }

  /** One iteration export per step id. */
  function IterationArgsList(cannPath: string, stepIds: seq<string>): (r: seq<Args>)
    ensures |r| == |stepIds|
  {
    seq(|stepIds|, i requires 0 <= i < |stepIds| => IterationArgs(cannPath, stepIds[i]))
  }

  /**
   * The loop over the step-trace rows: the iteration exports it issues, and
   * whether it finished (false when an export returned a non-zero code, which
   * raises and ends the loop). `run` gives the exit code of a command.
   */
  function IterationCalls(cannPath: string, rows: seq<string>, parsedStep: string, invalid: string,
                          run: Args -> int): (r: (seq<Args>, bool))
    ensures !r.1 ==> r.0 != []
    ensures forall i :: 0 <= i < |r.0| ==> (run(r.0[i]) == COMMAND_SUCCESS <==> r.1 || i < |r.0| - 1)
    decreases |rows|
  {
    if rows == [] then ([], true)
    else
      var (calls, ok) := IterationCalls(cannPath, rows[..|rows| - 1], parsedStep, invalid, run);
      var stepId := rows[|rows| - 1];
      if !ok || !Qualifies(stepId, parsedStep, invalid) then (calls, ok)
      else
        var args := IterationArgs(cannPath, stepId);
        (calls + [args], run(args) == COMMAND_SUCCESS)
  }

  /**
   * The loop over the step-trace rows of `export_cann_profiling`: the
   * iteration exports it issues, and false when one of them failed (which
   * raises and ends the loop).
   */
  method IssueIterationExports(cannPath: string, stepTraceData: seq<string>, parsedStep: string, invalid: string,
                               run: Args -> int)
    returns (calls: seq<Args>, ok: bool)
    ensures (calls, ok) == IterationCalls(cannPath, stepTraceData, parsedStep, invalid, run)
  {
    calls, ok := [], true;
    var i := 0;
    while i < |stepTraceData|
      invariant 0 <= i <= |stepTraceData|
      invariant IterationCalls(cannPath, stepTraceData[..i], parsedStep, invalid, run) == (calls, true)
    {
      var stepId := stepTraceData[i];
      assert stepTraceData[..i + 1][..i] == stepTraceData[..i];
      if stepId != invalid && stepId != parsedStep {
        var iterationArgs := ["msprof", "--export=on", "--output=" + cannPath, "--iteration-id=" + stepId];
        calls := calls + [iterationArgs];
        if run(iterationArgs) != COMMAND_SUCCESS {
          ok := false;
          FailureStops(cannPath, stepTraceData, parsedStep, invalid, run, i + 1);
          return;
        }
      }
      i := i + 1;
    }
    assert stepTraceData[..i] == stepTraceData;
  }

  /** Once an iteration export has failed, later rows issue nothing. */
  lemma {:induction false} FailureStops(cannPath: string, rows: seq<string>, parsedStep: string, invalid: string,
                                        run: Args -> int, i: nat)
    requires i <= |rows|
    requires !IterationCalls(cannPath, rows[..i], parsedStep, invalid, run).1
    ensures IterationCalls(cannPath, rows, parsedStep, invalid, run) == IterationCalls(cannPath, rows[..i], parsedStep, invalid, run)
    decreases |rows| - i
  {
    if i < |rows| {
      assert rows[..i + 1][..i] == rows[..i];
      FailureStops(cannPath, rows, parsedStep, invalid, run, i + 1);
    } else {
      assert rows[..i] == rows;
    }
  }

  /**
   * The calls issued are the exports of the qualifying rows, in row order, up
   * to and including the first one that fails; every call before the last
   * succeeded, the last failed exactly when the loop did not finish, and a
   * loop that finished issued one export per qualifying row.
   */
  lemma {:induction false} IterationCallsSpec(cannPath: string, rows: seq<string>, parsedStep: string, invalid: string,
                                              run: Args -> int)
    ensures var (calls, ok) := IterationCalls(cannPath, rows, parsedStep, invalid, run);
            var all := IterationArgsList(cannPath, Qualifying(rows, parsedStep, invalid));
            |calls| <= |all| && calls == all[..|calls|] &&
            (ok ==> calls == all) &&
            (!ok ==> calls != []) &&
            (forall i :: 0 <= i < |calls| ==> (run(calls[i]) == COMMAND_SUCCESS <==> ok || i < |calls| - 1))
    decreases |rows|
  {
    if rows != [] {
      var init := rows[..|rows| - 1];
      IterationCallsSpec(cannPath, init, parsedStep, invalid, run);
      var (calls, ok) := IterationCalls(cannPath, init, parsedStep, invalid, run);
      var all := IterationArgsList(cannPath, Qualifying(init, parsedStep, invalid));
      var stepId := rows[|rows| - 1];
      if Qualifies(stepId, parsedStep, invalid) {
        assert IterationArgsList(cannPath, Qualifying(rows, parsedStep, invalid)) == all + [IterationArgs(cannPath, stepId)];
      }
    }
  }

  /** When every export succeeds, exactly one call per qualifying row is issued, in row order. */
  lemma AllSucceed(cannPath: string, rows: seq<string>, parsedStep: string, invalid: string, run: Args -> int)
    requires forall stepId :: stepId in rows ==> run(IterationArgs(cannPath, stepId)) == COMMAND_SUCCESS
    ensures IterationCalls(cannPath, rows, parsedStep, invalid, run) ==
            (IterationArgsList(cannPath, Qualifying(rows, parsedStep, invalid)), true)
  {
    IterationCallsSpec(cannPath, rows, parsedStep, invalid, run);
    var (calls, ok) := IterationCalls(cannPath, rows, parsedStep, invalid, run);
    if calls != [] {
      QualifyingFromRows(rows, parsedStep, invalid);
      var all := IterationArgsList(cannPath, Qualifying(rows, parsedStep, invalid));
      var k := |calls| - 1;
      assert calls[k] == all[k];
      assert Qualifying(rows, parsedStep, invalid)[k] in rows;
      assert run(calls[k]) == COMMAND_SUCCESS;
    }
  }

  /** Every qualifying step id is a row that qualifies. */
  lemma {:induction false} QualifyingFromRows(rows: seq<string>, parsedStep: string, invalid: string)
    ensures forall s :: s in Qualifying(rows, parsedStep, invalid) ==> s in rows && Qualifies(s, parsedStep, invalid)
    decreases |rows|
  {
    if rows != [] {
      var init := rows[..|rows| - 1];
      QualifyingFromRows(init, parsedStep, invalid);
      assert forall s :: s in init ==> s in rows;
    }
  }

  /** The iteration id is read back from the file name `<dir>/<stem>_<step>.<ext>`. */
  lemma ParsedStepOfName(dir: string, stem: string, step: string, ext: string)
    requires '/' !in stem && '/' !in step && '/' !in ext
    requires '.' !in stem && '.' !in step && '_' !in step
    ensures ParsedStep(dir + "/" + stem + "_" + step + "." + ext) == step
  {
    var name := stem + "_" + step + "." + ext;
    assert '/' !in name;
    assert dir + "/" + name == dir + "/" + stem + "_" + step + "." + ext;
    AfterLastAppend(dir, name, '/');
    assert '.' !in stem + "_" + step;
    BeforeFirstPrepend(stem + "_" + step, ext, '.');
    AfterLastAppend(stem, step, '_');
  }

  /**
   * Rows 1, 2, 3 read from a file for iteration 1: two exports are issued,
   * for 2 and then for 3, when both succeed.
   */
  lemma ThreeRowsExample(cannPath: string, invalid: string, run: Args -> int)
    requires invalid != "2" && invalid != "3"
    requires run(IterationArgs(cannPath, "2")) == COMMAND_SUCCESS && run(IterationArgs(cannPath, "3")) == COMMAND_SUCCESS
    ensures IterationCalls(cannPath, ["1", "2", "3"], "1", invalid, run) ==
            ([IterationArgs(cannPath, "2"), IterationArgs(cannPath, "3")], true)
  {
    var r1 := ["1"];
    var r2 := r1 + ["2"];
    var rows := r2 + ["3"];
    assert "2"[0] != "1"[0] && "3"[0] != "1"[0];
    assert Qualifies("2", "1", invalid) && Qualifies("3", "1", invalid) && !Qualifies("1", "1", invalid);
    assert rows == ["1", "2", "3"];
    assert rows[..2] == r2 && r2[..1] == r1 && r1[..0] == [];
    assert IterationCalls(cannPath, [], "1", invalid, run) == ([], true);
    assert IterationCalls(cannPath, r1, "1", invalid, run) == ([], true);
    assert [] + [IterationArgs(cannPath, "2")] == [IterationArgs(cannPath, "2")];
    assert IterationCalls(cannPath, r2, "1", invalid, run) == ([IterationArgs(cannPath, "2")], true);
    assert [IterationArgs(cannPath, "2")] + [IterationArgs(cannPath, "3")] == [IterationArgs(cannPath, "2"), IterationArgs(cannPath, "3")];
    assert IterationCalls(cannPath, rows, "1", invalid, run) == ([IterationArgs(cannPath, "2"), IterationArgs(cannPath, "3")], true);
  }

  /** Repeated step ids are not merged: each row asks for its own export. */
  lemma DuplicateRowsExample(cannPath: string, invalid: string, run: Args -> int)
    requires invalid != "2"
    requires run(IterationArgs(cannPath, "2")) == COMMAND_SUCCESS
    ensures IterationCalls(cannPath, ["2", "2"], "1", invalid, run) ==
            ([IterationArgs(cannPath, "2"), IterationArgs(cannPath, "2")], true)
  {
    var r1 := ["2"];
    var rows := r1 + ["2"];
    assert "2"[0] != "1"[0];
    assert Qualifies("2", "1", invalid);
    assert rows == ["2", "2"];
    assert rows[..1] == r1 && r1[..0] == [];
    assert IterationCalls(cannPath, [], "1", invalid, run) == ([], true);
    assert [] + [IterationArgs(cannPath, "2")] == [IterationArgs(cannPath, "2")];
    assert IterationCalls(cannPath, r1, "1", invalid, run) == ([IterationArgs(cannPath, "2")], true);
    assert [IterationArgs(cannPath, "2")] + [IterationArgs(cannPath, "2")] == [IterationArgs(cannPath, "2"), IterationArgs(cannPath, "2")];
    assert IterationCalls(cannPath, rows, "1", invalid, run) == ([IterationArgs(cannPath, "2"), IterationArgs(cannPath, "2")], true);
  }
}
