/** The repository handle `Dolt`: every command checks its flags, grows its argument
    vector one piece at a time and hands it to the tool through the shell; the commands
    that report something parse the tool's output. A command that raises before running
    anything leaves the shell's log and files as they were. */
module Repo {
  import opened Base
  import opened Text
  import opened DoltTypes
  import opened Argv
  import opened Convert
  import opened Commands
  import opened Process
  import opened StatusParser
  import opened Listing

  const PrintToFileError: Error := ValueError("Cannot print output and send it to a file")

  /** The outcome of a command that returns nothing: its run's exception, if any. */
  function OutcomeOf(r: Result<string>): Outcome {
    if r.Success? then Pass else Fail(r.error)
  }

  /** What running `args` in `dir` after the calls `h` answers, stdout kept in memory. */
  function Ask(tool: (seq<Call>, Call) -> Exit, dir: string, h: seq<Call>, args: seq<string>): Result<string> {
    Answer(tool, h, args, dir, None)
  }

  // ---------------------------------------------------------------------------
  // The commands that `merge` and the import pipeline chain, each as one step from a
  // log to the log after it and what the step gave.

  /** `status` run after the calls `h`. */
  function StatusAt(tool: (seq<Call>, Call) -> Exit, dir: string, h: seq<Call>): (seq<Call>, Result<Status>) {
    var a := Ask(tool, dir, h, ["status"]);
    (h + [Call(["status"], dir)], if a.Success? then StatusOf(a.value) else Failure(a.error))
  }

  /** `add` of one table run after the calls `h`: the add, then the status it reports. */
  function AddAt(tool: (seq<Call>, Call) -> Exit, dir: string, h: seq<Call>, table: string): (seq<Call>, Result<Status>) {
    var a := Ask(tool, dir, h, ["add", table]);
    if a.Failure? then (h + [Call(["add", table], dir)], Failure(a.error))
    else StatusAt(tool, dir, h + [Call(["add", table], dir)])
  }

  /** A command run once per table, from the log it starts at: the log after it and
      whether it raised. */
  type TableStep = (seq<Call>, string) -> (seq<Call>, Outcome)

  /** `step` for each of the first `n` tables in turn, stopping at the first that raises. */
  function StepsUpTo(step: TableStep, h: seq<Call>, tables: seq<string>, n: nat): (seq<Call>, Outcome)
    requires n <= |tables|
  {
    if n == 0 then (h, Pass)
    else
      var p := StepsUpTo(step, h, tables, n - 1);
      if p.1.Fail? then p else step(p.0, tables[n - 1])
  }

  /** `add` of one table as such a step. */
  function AddStep(tool: (seq<Call>, Call) -> Exit, dir: string): TableStep {
    (h: seq<Call>, t: string) =>
      var q := AddAt(tool, dir, h, t);
      (q.0, if q.1.Failure? then Fail(q.1.error) else Pass)
  }

  lemma StepsNext(step: TableStep, h: seq<Call>, tables: seq<string>, n: nat)
    requires n < |tables|
    requires StepsUpTo(step, h, tables, n).1 == Pass
    ensures StepsUpTo(step, h, tables, n + 1) == step(StepsUpTo(step, h, tables, n).0, tables[n])
  {
  }

  lemma AddStepIs(tool: (seq<Call>, Call) -> Exit, dir: string, h: seq<Call>, t: string)
    ensures AddStep(tool, dir)(h, t) ==
      (AddAt(tool, dir, h, t).0, if AddAt(tool, dir, h, t).1.Failure? then Fail(AddAt(tool, dir, h, t).1.error) else Pass)
  {
  }

  /** `add` of each table in turn, stopping at the first that raises. */
  function AddsAt(tool: (seq<Call>, Call) -> Exit, dir: string, h: seq<Call>, tables: seq<string>): (seq<Call>, Outcome) {
    StepsUpTo(AddStep(tool, dir), h, tables, |tables|)
  }

  /** The calls of adding each table in turn: the add, then its status. */
  function AddCalls(dir: string, tables: seq<string>): (calls: seq<Call>)
    ensures |calls| == 2 * |tables|
  {
    if tables == [] then []
    else AddCalls(dir, tables[..|tables| - 1]) + [Call(["add", tables[|tables| - 1]], dir), Call(["status"], dir)]
  }

  lemma AddCallsAppend(dir: string, tables: seq<string>, t: string)
    ensures AddCalls(dir, tables + [t]) == AddCalls(dir, tables) + [Call(["add", t], dir), Call(["status"], dir)]
  {
    assert (tables + [t])[..|tables|] == tables;
  }

  /** One add issues the add and, when it succeeds, one status. */
  lemma AddAtCalls(tool: (seq<Call>, Call) -> Exit, dir: string, h: seq<Call>, table: string)
    ensures AddAt(tool, dir, h, table).1.Success? ==>
      AddAt(tool, dir, h, table).0 == h + [Call(["add", table], dir), Call(["status"], dir)]
  {
    assert h + [Call(["add", table], dir)] + [Call(["status"], dir)] == h + [Call(["add", table], dir), Call(["status"], dir)];
  }

  /** When every add succeeds, the adds issue exactly one add and one status per table,
      in the order of the tables. */
  lemma AddsAllPass(tool: (seq<Call>, Call) -> Exit, dir: string, h: seq<Call>, tables: seq<string>)
    requires AddsAt(tool, dir, h, tables).1 == Pass
    ensures AddsAt(tool, dir, h, tables).0 == h + AddCalls(dir, tables)
  {
    var step := AddStep(tool, dir);
    forall g: seq<Call>, t: string | step(g, t).1 == Pass
      ensures step(g, t).0 == g + [Call(["add", t], dir), Call(["status"], dir)]
    {
      AddAtCalls(tool, dir, g, t);
    }
    StepsAllPass(step, dir, h, tables, |tables|);
    assert tables[..|tables|] == tables;
  }

  /** A step that, when it succeeds, has run one add and one status. */
  ghost predicate AddsOnce(step: TableStep, dir: string) {
    forall g: seq<Call>, t: string :: step(g, t).1 == Pass ==> step(g, t).0 == g + [Call(["add", t], dir), Call(["status"], dir)]
  }

  lemma {:induction false} StepsAllPass(step: TableStep, dir: string, h: seq<Call>, tables: seq<string>, n: nat)
    requires n <= |tables|
    requires AddsOnce(step, dir)
    requires StepsUpTo(step, h, tables, n).1 == Pass
    ensures StepsUpTo(step, h, tables, n).0 == h + AddCalls(dir, tables[..n])
  {
    if n == 0 {
      assert tables[..0] == [];
    } else {
      var p := StepsUpTo(step, h, tables, n - 1);
      assert p.1 == Pass;
      StepsAllPass(step, dir, h, tables, n - 1);
      AddCallsAppend(dir, tables[..n - 1], tables[n - 1]);
      assert tables[..n - 1] + [tables[n - 1]] == tables[..n];
    }
  }

  /** A table whose step raises ends the sequence: the steps before it stay, nothing runs
      after it. */
  lemma AddsStopAtFailure(tool: (seq<Call>, Call) -> Exit, dir: string, h: seq<Call>, tables: seq<string>, k: nat)
    requires k < |tables|
    requires StepsUpTo(AddStep(tool, dir), h, tables, k).1 == Pass
    requires AddStep(tool, dir)(StepsUpTo(AddStep(tool, dir), h, tables, k).0, tables[k]).1.Fail?
    ensures AddsAt(tool, dir, h, tables) == AddStep(tool, dir)(StepsUpTo(AddStep(tool, dir), h, tables, k).0, tables[k])
  {
    StepsStuck(AddStep(tool, dir), h, tables, k, |tables|);
  }

  lemma {:induction false} StepsStuck(step: TableStep, h: seq<Call>, tables: seq<string>, k: nat, n: nat)
    requires k < n <= |tables|
    requires StepsUpTo(step, h, tables, k + 1).1.Fail?
    ensures StepsUpTo(step, h, tables, n) == StepsUpTo(step, h, tables, k + 1)
  {
    if n > k + 1 {
      StepsStuck(step, h, tables, k, n - 1);
    }
  }



  // ---------------------------------------------------------------------------
  // merge

  /** The keyword arguments a `Branch` record accepts. */
  const BranchFields: set<string> :=
    {"name", "hash", "latest_committer", "latest_committer_email", "latest_commit_date", "latest_commit_message"}

  function Field(row: Row, k: string): Option<string> {
    if k in row then Some(row[k]) else None
  }

  /** `Branch(**row)`: every column must be a field of the record, and the name and the
      hash must be there; the other fields default to `None`. */
  function BranchOfRow(row: Row): (r: Result<Branch>)
    ensures r.Success? <==> row.Keys <= BranchFields && "name" in row && "hash" in row
    ensures r.Failure? ==> r.error == TypeError
    ensures r.Success? ==> r.value.name == row["name"] && r.value.hash == row["hash"]
    ensures r.Success? ==> r.value.latestCommitMessage == Field(row, "latest_commit_message")
  {
    if !(row.Keys <= BranchFields && "name" in row && "hash" in row) then Failure(TypeError)
    else Success(Branch(row["name"], row["hash"], Field(row, "latest_committer"), Field(row, "latest_committer_email"),
                        Field(row, "latest_commit_date"), Field(row, "latest_commit_message")))
  }

  /** One record per row, in row order, or the first row's `TypeError`. */
  function BranchesOf(rows: seq<Row>): (r: Result<seq<Branch>>)
    ensures r.Success? <==> forall i :: 0 <= i < |rows| ==> BranchOfRow(rows[i]).Success?
    ensures r.Success? ==> |r.value| == |rows| && forall i :: 0 <= i < |rows| ==> Success(r.value[i]) == BranchOfRow(rows[i])
    ensures r.Failure? ==> r.error == TypeError
  {
    if rows == [] then Success([])
    else
      match BranchesOf(rows[..|rows| - 1])
      case Failure(e) => Failure(e)
      case Success(bs) =>
        match BranchOfRow(rows[|rows| - 1])
        case Failure(e) => Failure(e)
        case Success(b) => Success(bs + [b])
  }

  const ActiveBranchError: Error :=
    ValueError("Ensure you have the latest version of Dolt installed, this is fixed as of 0.24.2")

  /** `_get_branches` once the two queries have answered: every branch row becomes a
      record, then exactly one row must describe the active branch. */
  function GetBranches(branchRows: seq<Row>, activeRows: seq<Row>): (r: Result<(Branch, seq<Branch>)>)
    ensures r.Success? <==> BranchesOf(branchRows).Success? && |activeRows| == 1 && BranchOfRow(activeRows[0]).Success?
    ensures BranchesOf(branchRows).Success? && |activeRows| != 1 ==> r == Failure(ActiveBranchError)
    ensures r.Success? ==> Success(r.value.0) == BranchOfRow(activeRows[0]) && Success(r.value.1) == BranchesOf(branchRows)
  {
    match BranchesOf(branchRows)
    case Failure(e) => Failure(e)
    case Success(branches) =>
      if |activeRows| != 1 then Failure(ActiveBranchError)
      else
        match BranchOfRow(activeRows[0])
        case Failure(e) => Failure(e)
        case Success(active) => Success((active, branches))
  }

  function NamesOf(branches: seq<Branch>): (names: seq<string>)
    ensures |names| == |branches| && forall i :: 0 <= i < |branches| ==> names[i] == branches[i].name
  {
    if branches == [] then [] else NamesOf(branches[..|branches| - 1]) + [branches[|branches| - 1].name]
  }

  /** The vector of the commit that concludes a merge. */
  function MergeCommitArgs(message: Option<string>, current: string, branch: string): seq<string> {
    Render(CommitArgs(Some(MergeMessage(message, current, branch)), false, None))
  }

  /** `merge` after the branches are known, from the log `h`: the status must be clean and
      the branch one of `names`, and only then does the merge run. */
  function MergeAt(tool: (seq<Call>, Call) -> Exit, dir: string, h: seq<Call>, branch: string,
                   message: Option<string>, squash: bool, current: string, names: seq<string>): (seq<Call>, Outcome)
  {
    var s := StatusAt(tool, dir, h);
    if s.1.Failure? then (s.0, Fail(s.1.error))
    else if !s.1.value.isClean then (s.0, Fail(MergeDirtyError(branch, current)))
    else if branch !in names then (s.0, Fail(MergeUnknownError(branch, current)))
    else MergeRunAt(tool, dir, s.0, branch, message, squash, current)
  }

  /** The merge run itself; its answer, split into lines, decides what follows. */
  function MergeRunAt(tool: (seq<Call>, Call) -> Exit, dir: string, h: seq<Call>, branch: string,
                      message: Option<string>, squash: bool, current: string): (seq<Call>, Outcome)
  {
    var args := Render(MergeArgs(branch, squash));
    var a := Ask(tool, dir, h, args);
    if a.Failure? then (h + [Call(args, dir)], Fail(a.error))
    else MergeFinishAt(tool, dir, h + [Call(args, dir)], MergeOutcomeOf(a.value), message, current, branch)
  }

  /** After the merge run: a fast forward stops, a conflict aborts, anything else stages
      every added, then every modified table and commits once. */
  function MergeFinishAt(tool: (seq<Call>, Call) -> Exit, dir: string, h: seq<Call>, outcome: MergeOutcome,
                         message: Option<string>, current: string, branch: string): (seq<Call>, Outcome)
  {
    match outcome
    case FastForward => (h, Pass)
    case Conflict =>
      var abort := Render(MergeAbortArgs);
      (h + [Call(abort, dir)], OutcomeOf(Ask(tool, dir, h, abort)))
    case Merged =>
      var s := StatusAt(tool, dir, h);
      if s.1.Failure? then (s.0, Fail(s.1.error))
      else
        var adds := AddsAt(tool, dir, s.0, StagedOrder(s.1.value));
        if adds.1.Fail? then adds
        else
          var c := MergeCommitArgs(message, current, branch);
          (adds.0 + [Call(c, dir)], OutcomeOf(Ask(tool, dir, adds.0, c)))
  }

  /** The tables a merge stages: the added ones, then the modified ones, each in the
      order the status listed them. */
  function StagedOrder(st: Status): seq<string> {
    st.addedTables.keys + st.modifiedTables.keys
  }

  /** A merge refused for a dirty working set or an unknown branch has run only `status`:
      no merge was attempted. */
  lemma MergeRefused(tool: (seq<Call>, Call) -> Exit, dir: string, h: seq<Call>, branch: string,
                     message: Option<string>, squash: bool, current: string, names: seq<string>)
    requires StatusAt(tool, dir, h).1.Success?
    requires !StatusAt(tool, dir, h).1.value.isClean || branch !in names
    ensures MergeAt(tool, dir, h, branch, message, squash, current, names).0 == h + [Call(["status"], dir)]
    ensures MergeAt(tool, dir, h, branch, message, squash, current, names).1 ==
      Fail(if !StatusAt(tool, dir, h).1.value.isClean then MergeDirtyError(branch, current)
           else MergeUnknownError(branch, current))
  {
  }

  /** The log once a merge was accepted and has run. */
  function MergedLog(dir: string, h: seq<Call>, branch: string, squash: bool): seq<Call> {
    h + [Call(["status"], dir), Call(Render(MergeArgs(branch, squash)), dir)]
  }

  /** The merge from `h` was accepted and its run answered `output`. */
  predicate MergeAnswered(tool: (seq<Call>, Call) -> Exit, dir: string, h: seq<Call>, branch: string, squash: bool,
                          names: seq<string>, output: string)
  {
    var s := StatusAt(tool, dir, h);
    && s.1.Success? && s.1.value.isClean && branch in names
    && Ask(tool, dir, s.0, Render(MergeArgs(branch, squash))) == Success(output)
  }

  lemma MergeAnsweredRuns(tool: (seq<Call>, Call) -> Exit, dir: string, h: seq<Call>, branch: string,
                          message: Option<string>, squash: bool, current: string, names: seq<string>, output: string)
    requires MergeAnswered(tool, dir, h, branch, squash, names, output)
    ensures MergeAt(tool, dir, h, branch, message, squash, current, names) ==
      MergeFinishAt(tool, dir, MergedLog(dir, h, branch, squash), MergeOutcomeOf(output), message, current, branch)
  {
    assert StatusAt(tool, dir, h).0 + [Call(Render(MergeArgs(branch, squash)), dir)] == MergedLog(dir, h, branch, squash);
  }

  /** A fast-forward answer ends the merge: nothing runs after the merge itself. */
  lemma MergeFastForward(tool: (seq<Call>, Call) -> Exit, dir: string, h: seq<Call>, branch: string,
                         message: Option<string>, squash: bool, current: string, names: seq<string>, output: string)
    requires MergeAnswered(tool, dir, h, branch, squash, names, output)
    requires MergeOutcomeOf(output) == FastForward
    ensures MergeAt(tool, dir, h, branch, message, squash, current, names) == (MergedLog(dir, h, branch, squash), Pass)
  {
    MergeAnsweredRuns(tool, dir, h, branch, message, squash, current, names, output);
  }

  /** A conflict answer is followed by exactly one run, `merge --abort`. */
  lemma MergeConflictAborts(tool: (seq<Call>, Call) -> Exit, dir: string, h: seq<Call>, branch: string,
                            message: Option<string>, squash: bool, current: string, names: seq<string>, output: string)
    requires MergeAnswered(tool, dir, h, branch, squash, names, output)
    requires MergeOutcomeOf(output) == Conflict
    ensures MergeAt(tool, dir, h, branch, message, squash, current, names).0 ==
      MergedLog(dir, h, branch, squash) + [Call(["merge", "--abort"], dir)]
  {
    MergeAnsweredRuns(tool, dir, h, branch, message, squash, current, names, output);
    assert Render(MergeAbortArgs) == ["merge", "--abort"];
  }

  /** Any other answer stages every added table and then every modified table, one add
      and status each, and ends with one commit carrying the merge message. */
  lemma MergeStagesThenCommits(tool: (seq<Call>, Call) -> Exit, dir: string, h: seq<Call>, branch: string,
                               message: Option<string>, squash: bool, current: string, names: seq<string>, output: string)
    requires MergeAnswered(tool, dir, h, branch, squash, names, output)
    requires MergeOutcomeOf(output) == Merged
    requires var s := StatusAt(tool, dir, MergedLog(dir, h, branch, squash));
      s.1.Success? && AddsAt(tool, dir, s.0, StagedOrder(s.1.value)).1 == Pass
    ensures var s := StatusAt(tool, dir, MergedLog(dir, h, branch, squash));
      MergeAt(tool, dir, h, branch, message, squash, current, names).0 ==
        s.0 + AddCalls(dir, StagedOrder(s.1.value)) + [Call(MergeCommitArgs(message, current, branch), dir)]
  {
    MergeAnsweredRuns(tool, dir, h, branch, message, squash, current, names, output);
    var s := StatusAt(tool, dir, MergedLog(dir, h, branch, squash));
    AddsAllPass(tool, dir, s.0, StagedOrder(s.1.value));
  }

  // ---------------------------------------------------------------------------
  // sql

  /** What `sql` gives back: nothing, what `execute` returned for a result file (its path,
      or stdout when the path is empty), or the text of the temporary result file that the
      caller's parser or the CSV/JSON reader is handed. */
  datatype SqlValue = Nothing | Returned(value: string) | FileText(text: string)

  /** The temporary result file `tmpfile` in the fresh directory `tempDir`. */
  function ScratchFile(tempDir: string): (f: string)
    ensures f != ""
  {
    PathJoin(tempDir, "tmpfile")
  }

  /** Where the main run's stdout goes: the caller's file, no file, or the temporary one. */
  function OutfileOf(sink: Sink, scratch: string): Option<string> {
    match sink
    case ToFile(p) => Some(p)
    case Discarded => None
    case _ => Some(scratch)
  }

  /** The main run of `sql` after the calls `h` with the files `fs`: the log, the files and
      the value after it. A run through the temporary file removes that file afterwards,
      whether or not the run raised. */
  function SqlMainAt(tool: (seq<Call>, Call) -> Exit, dir: string, tempDir: string, h: seq<Call>,
                     fs: map<string, string>, main: Result<(seq<Arg>, Sink)>): (seq<Call>, map<string, string>, Result<SqlValue>)
  {
    if main.Failure? then (h, fs, Failure(main.error))
    else
      var args := Render(main.value.0);
      var sink := main.value.1;
      var scratch := ScratchFile(tempDir);
      var out := OutfileOf(sink, scratch);
      var a := Answer(tool, h, args, dir, out);
      var written := Redirected(fs, tool, h, args, dir, out);
      var h' := h + [Call(args, dir)];
      if sink.ToFile? || sink.Discarded? then
        (h', written, if a.Failure? then Failure(a.error) else if sink.ToFile? then Success(Returned(a.value)) else Success(Nothing))
      else
        (h', written - {scratch}, if a.Failure? then Failure(a.error) else Success(FileText(written[scratch])))
  }

  const ListSavedArgs: seq<string> := ["sql", "--list-saved"]

  /** `sql` after the calls `h` with the files `fs`, as `plan` lays it out: the listing of
      saved queries first when asked, whose exception ends the command, then the main run. */
  function SqlAt(tool: (seq<Call>, Call) -> Exit, dir: string, tempDir: string, h: seq<Call>,
                 fs: map<string, string>, plan: SqlPlan): (seq<Call>, map<string, string>, Result<SqlValue>)
  {
    if plan.listFirst then
      var a := Ask(tool, dir, h, ListSavedArgs);
      if a.Failure? then (h + [Call(ListSavedArgs, dir)], fs, Failure(a.error))
      else SqlMainAt(tool, dir, tempDir, h + [Call(ListSavedArgs, dir)], fs, plan.main)
    else SqlMainAt(tool, dir, tempDir, h, fs, plan.main)
  }

  /** A refused main run still leaves the listing run before it, and nothing else. */
  lemma SqlRefusedRunsOnlyListing(tool: (seq<Call>, Call) -> Exit, dir: string, tempDir: string, h: seq<Call>,
                                  fs: map<string, string>, plan: SqlPlan)
    requires plan.main.Failure?
    ensures var q := SqlAt(tool, dir, tempDir, h, fs, plan);
      && q.0 == (if plan.listFirst then h + [Call(ListSavedArgs, dir)] else h)
      && q.1 == fs
      && q.2.Failure?
      && (plan.listFirst && Ask(tool, dir, h, ListSavedArgs).Success? ==> q.2.error == plan.main.error)
  {
  }

  /** The temporary result file does not outlive the command: if it did not exist before,
      it does not exist after, unless the caller named it as the result file. Every other
      file keeps its contents except the caller's result file. */
  lemma SqlLeavesNoScratch(tool: (seq<Call>, Call) -> Exit, dir: string, tempDir: string, h: seq<Call>,
                           fs: map<string, string>, plan: SqlPlan)
    requires ScratchFile(tempDir) !in fs
    requires !(plan.main.Success? && plan.main.value.1 == ToFile(ScratchFile(tempDir)))
    ensures ScratchFile(tempDir) !in SqlAt(tool, dir, tempDir, h, fs, plan).1
    ensures forall p :: p in fs && p != ScratchFile(tempDir) && !(plan.main.Success? && plan.main.value.1 == ToFile(p)) ==>
      p in SqlAt(tool, dir, tempDir, h, fs, plan).1 && SqlAt(tool, dir, tempDir, h, fs, plan).1[p] == fs[p]
  {
  }

  /** A run through the temporary file hands over exactly the stdout of the main run. */
  lemma SqlReadsMainStdout(tool: (seq<Call>, Call) -> Exit, dir: string, tempDir: string, h: seq<Call>,
                           fs: map<string, string>, plan: SqlPlan)
    requires plan.main.Success? && (plan.main.value.1.ToParser? || plan.main.value.1.Decoded?)
    requires var h1 := if plan.listFirst then h + [Call(ListSavedArgs, dir)] else h;
      !plan.listFirst || Ask(tool, dir, h, ListSavedArgs).Success?
    ensures var h1 := if plan.listFirst then h + [Call(ListSavedArgs, dir)] else h;
      var e := tool(h1, Call(Render(plan.main.value.0), dir));
      SqlAt(tool, dir, tempDir, h, fs, plan).2 == (if e.code == 0 then Success(FileText(e.stdout)) else Failure(SqlAt(tool, dir, tempDir, h, fs, plan).2.error))
  {
  }

  // ---------------------------------------------------------------------------
  // config

  /** The settings that `dolt config` printed, or the exception of its run. */
  function ConfigRead(a: Result<string>): Result<map<string, string>> {
    if a.Failure? then Failure(a.error) else ConfigOf(Split(a.value, "\n"))
  }

  /** `Dolt._config_helper`, a class method: it runs in `cwd` rather than in a repository.
      The checks come in the order of the source, and a refused combination runs nothing. */
  method ConfigHelper(shell: Shell, global: bool, local: bool, cwd: string, name: Option<string>, value: Option<string>,
                      add: bool, list: bool, get: bool, unset: bool) returns (r: Result<map<string, string>>)
    modifies shell
    ensures var plan := ConfigArgs(global, local, name, value, add, list, get, unset);
      && (plan.Failure? ==> r == Failure(plan.error) && shell.issued == old(shell.issued))
      && (plan.Success? ==> shell.issued == old(shell.issued) + [Call(Render(plan.value), cwd)]
                            && r == ConfigRead(Answer(shell.tool, old(shell.issued), Render(plan.value), cwd, None)))
    ensures shell.files == old(shell.files)
  {
    if CountOf(add, list, get, unset) != 1 {
      assert ConfigArgs(global, local, name, value, add, list, get, unset) == Failure(ConfigOneError);
      return Failure(ConfigOneError);
    }
    var scope: string;
    if global {
      scope := "--global";
    } else if local {
      scope := "--local";
    } else {
      assert ConfigArgs(global, local, name, value, add, list, get, unset) == Failure(ConfigScopeError);
      return Failure(ConfigScopeError);
    }
    var action: string;
    var operands: seq<string>;
    if add {
      if !(Given(name) && Given(value)) {
        assert ConfigArgs(global, local, name, value, add, list, get, unset) == Failure(ConfigAddError);
        return Failure(ConfigAddError);
      }
      action, operands := "--add", [name.value, value.value];
    } else if list {
      if Given(name) || Given(value) {
        assert ConfigArgs(global, local, name, value, add, list, get, unset) == Failure(ConfigListError);
        return Failure(ConfigListError);
      }
      action, operands := "--list", [];
    } else if get {
      if !Given(name) || Given(value) {
        assert ConfigArgs(global, local, name, value, add, list, get, unset) == Failure(ConfigGetError);
        return Failure(ConfigGetError);
      }
      action, operands := "--get", [name.value];
    } else {
      if !Given(name) || Given(value) {
        assert ConfigArgs(global, local, name, value, add, list, get, unset) == Failure(ConfigGetError);
        return Failure(ConfigGetError);
      }
      action, operands := "--unset", [name.value];
    }
    var toks := [Word("config"), Switch(scope), Switch(action)] + Words(operands);
    ConfigTokens(scope, action, operands);
    assert ConfigArgs(global, local, name, value, add, list, get, unset) == Success(toks);
    var out := shell.Run(Render(toks), cwd, None);
    if out.Failure? {
      return Failure(out.error);
    }
    r := ParseConfig(Split(out.value, "\n"));
  }

  class Dolt {
    /** The repository directory every command runs in. */
    const repoDir: string
    const shell: Shell
    constructor (repoDir: string, shell: Shell)
      ensures this.repoDir == repoDir && this.shell == shell
    {
      this.repoDir := repoDir;
      this.shell := shell;
    }

    /** Nothing was run and no file changed since the log was `h` and the files `fs`. */
    ghost predicate Untouched(h: seq<Call>, fs: map<string, string>)
      reads shell
    {
      shell.issued == h && shell.files == fs
    }

    /** Since the log was `h` and the files `fs`, exactly `args` was run in the repository
        and no file changed. */
    ghost predicate RanOnce(h: seq<Call>, fs: map<string, string>, args: seq<string>)
      reads shell
    {
      shell.issued == h + [Call(args, repoDir)] && shell.files == fs
    }

    /** Since the log was `h` and the files `fs`, the vector `toks` ran once and `r` is its
        outcome. */
    ghost predicate RanVector(h: seq<Call>, fs: map<string, string>, toks: seq<Arg>, r: Outcome)
      reads shell
    {
      RanOnce(h, fs, Render(toks)) && r == OutcomeOf(Reply(h, Render(toks)))
    }

    /** A command whose vector may be refused: a refusal runs nothing, an accepted vector
        runs once. */
    ghost predicate Settled(h: seq<Call>, fs: map<string, string>, plan: Result<seq<Arg>>, r: Outcome)
      reads shell
    {
      && (plan.Failure? ==> r == Fail(plan.error) && Untouched(h, fs))
      && (plan.Success? ==> RanVector(h, fs, plan.value, r))
    }

    /** What running `args` in the repository after the calls `h` answers. */
    function Reply(h: seq<Call>, args: seq<string>): Result<string> {
      Ask(shell.tool, repoDir, h, args)
    }

    /** `Dolt.execute` (raising on a non-zero exit): printing the output and sending it to
        a file exclude each other; otherwise the tool runs once in the repository. */
    method Execute(args: seq<string>, printOutput: bool, stdoutToFile: Option<string>) returns (r: Result<string>)
      modifies shell
      ensures printOutput && stdoutToFile.Some? ==> r == Failure(PrintToFileError) && Untouched(old(shell.issued), old(shell.files))
      ensures !(printOutput && stdoutToFile.Some?) ==>
        && shell.issued == old(shell.issued) + [Call(args, repoDir)]
        && shell.files == Redirected(old(shell.files), shell.tool, old(shell.issued), args, repoDir, stdoutToFile)
        && r == Answer(shell.tool, old(shell.issued), args, repoDir, stdoutToFile)
    {
      if printOutput && stdoutToFile.Some? {
        return Failure(PrintToFileError);
      }
      r := shell.Run(args, repoDir, stdoutToFile);
    }

    /** Run a finished vector, printing nothing and keeping stdout in no file. */
    method RunVector(toks: seq<Arg>) returns (r: Result<string>)
      modifies shell
      ensures RanOnce(old(shell.issued), old(shell.files), Render(toks)) && r == Reply(old(shell.issued), Render(toks))
    {
      r := Execute(Render(toks), false, None);
    }

    // -------------------------------------------------------------------------
    // status and add

    /** `status`: run `status` and parse its output. */
    method Status() returns (r: Result<Status>)
      modifies shell
      ensures RanOnce(old(shell.issued), old(shell.files), ["status"])
      ensures var a := Reply(old(shell.issued), ["status"]);
        r == (if a.Success? then StatusOf(a.value) else Failure(a.error))
      ensures (shell.issued, r) == StatusAt(shell.tool, repoDir, old(shell.issued))
    {
      var out := RunVector([Word("status")]);
      assert Render([Word("status")]) == ["status"];
      if out.Failure? {
        return Failure(out.error);
      }
      r := ParseStatus(out.value);
    }

    /** `add`: stage the table or tables, then report the status. */
    method Add(tables: Names) returns (r: Result<Status>)
      requires !tables.NoNames?
      modifies shell
      ensures var args := ["add"] + ToList(tables).value;
        var a := Reply(old(shell.issued), args);
        && (a.Failure? ==> r == Failure(a.error) && RanOnce(old(shell.issued), old(shell.files), args))
        && (a.Success? ==>
              var h := old(shell.issued) + [Call(args, repoDir)];
              var st := Reply(h, ["status"]);
              && RanOnce(h, old(shell.files), ["status"])
              && r == (if st.Success? then StatusOf(st.value) else Failure(st.error)))
      ensures tables.One? ==> (shell.issued, r) == AddAt(shell.tool, repoDir, old(shell.issued), tables.name)
    {
      if tables.One? {
        assert ["add"] + ToList(tables).value == ["add", tables.name];
      }
      var toks := [Word("add")] + Words(ToList(tables).value);
      assert Render(toks) == ["add"] + ToList(tables).value by {
        RenderAppend([Word("add")], Words(ToList(tables).value));
        WordsRender(ToList(tables).value);
      }
      var out := RunVector(toks);
      if out.Failure? {
        return Failure(out.error);
      }
      r := Status();
    }

    // -------------------------------------------------------------------------
    // reset, commit

    /** `reset`, built as `ResetArgs` says. */
    method Reset(tables: Names, hard: bool, soft: bool) returns (r: Outcome)
      modifies shell
      ensures Settled(old(shell.issued), old(shell.files), ResetArgs(tables, hard, soft), r)
    {
      if tables.NoNames? {
        return Fail(ResetTablesError);
      }
      var toReset := ToList(tables).value;
      var toks := [Word("reset")];
      if hard && soft {
        return Fail(ResetBothError);
      }
      if (hard || soft) && toReset != [] {
        return Fail(ResetMixedError);
      }
      if hard {
        toks := toks + [Switch("--hard")];
      } else if soft {
        toks := toks + [Switch("--soft")];
      } else if !NamesGiven(tables) {
        toks := toks + [Switch("--soft")];
      } else {
        toks := toks + Words(toReset);
      }
      r := RunOutcome(toks);
    }

    /** Run a finished vector whose output is not used. */
    method RunOutcome(toks: seq<Arg>) returns (r: Outcome)
      modifies shell
      ensures RanVector(old(shell.issued), old(shell.files), toks, r)
    {
      var out := RunVector(toks);
      r := OutcomeOf(out);
    }

    /** `commit`, built as `CommitArgs` says. */
    method Commit(message: Option<string>, allowEmpty: bool, date: Option<string>) returns (r: Outcome)
      modifies shell
      ensures RanVector(old(shell.issued), old(shell.files), CommitArgs(message, allowEmpty, date), r)
    {
      var m := if message.None? then "" else message.value;
      var toks := [Word("commit"), Valued("-m", m)];
      if allowEmpty {
        toks := toks + [Switch("--allow-empty")];
      }
      if date.Some? {
        toks := toks + [Valued("--date", date.value)];
      }
      assert toks == CommitArgs(message, allowEmpty, date);
      r := RunOutcome(toks);
    }

    // -------------------------------------------------------------------------
    // diff, blame

    /** `diff`, built as `DiffArgs` says. */
    method Diff(commit: Option<string>, otherCommit: Option<string>, tables: Names, data: bool, schema: bool,
                summary: bool, sql: bool, where: Option<string>, limit: Option<int>) returns (r: Outcome)
      modifies shell
      ensures Settled(old(shell.issued), old(shell.files),
                      DiffArgs(commit, otherCommit, tables, data, schema, summary, sql, where, limit), r)
    {
      ghost var plan := DiffArgs(commit, otherCommit, tables, data, schema, summary, sql, where, limit);
      if (data && schema) || (data && summary) || (schema && summary) {
        return Fail(AtMostOneError);
      }
      var toks := [Word("diff")];
      if data {
        toks := toks + ValuedIf(where, "--where");
        toks := toks + LimitArg(limit);
      }
      assert toks == [Word("diff")] + DataOptions(data, where, limit);
      toks := toks + SwitchIf(summary, "--summary");
      toks := toks + SchemaChars(schema);
      toks := toks + SwitchIf(sql, "--sql");
      toks := toks + WordIf(commit);
      toks := toks + WordIf(otherCommit);
      toks := toks + TablesArg(tables);
      assert toks == plan.value;
      r := RunOutcome(toks);
    }

    /** `blame`, built as `BlameArgs` says. */
    method Blame(table: string, rev: Option<string>) returns (r: Outcome)
      modifies shell
      ensures RanVector(old(shell.issued), old(shell.files), BlameArgs(table, rev), r)
    {
      var toks := [Word("blame")];
      if Given(rev) {
        toks := toks + [Word(rev.value)];
      }
      toks := toks + [Word(table)];
      assert toks == BlameArgs(table, rev);
      r := RunOutcome(toks);
    }

    // -------------------------------------------------------------------------
    // branch, checkout

    /** `branch`, planned as `BranchArgs` says. Listing the branches afterwards is a query
        whose rows are not part of this model, so the outcome is that of the run. */
    method Branch(name: Option<string>, start: Option<string>, newBranch: Option<string>,
                  force: bool, delete: bool, copy: bool, move: bool) returns (r: Outcome)
      modifies shell
      ensures var plan := BranchArgs(name, start, newBranch, force, delete, copy, move);
        && (plan.Failure? ==> r == Fail(plan.error) && Untouched(old(shell.issued), old(shell.files)))
        && (plan == Success(ListOnly) ==> r == Pass && Untouched(old(shell.issued), old(shell.files)))
        && (plan.Success? && plan.value.RunThenList? ==> RanVector(old(shell.issued), old(shell.files), plan.value.toks, r))
    {
      if (delete && copy) || (delete && move) || (copy && move) {
        return Fail(AtMostOneError);
      }
      if !(Given(name) || delete || copy || move) {
        if force {
          return Fail(BranchForceError);
        }
        return Pass;
      }
      var toks := [Word("branch")];
      if force {
        toks := toks + [Switch("--force")];
      }
      var base := toks;
      assert base == [Word("branch")] + SwitchIf(force, "--force");
      if Given(name) && !(delete || copy || move) {
        toks := toks + [Word(name.value)];
        if Given(start) {
          toks := toks + [Word(start.value)];
        }
        assert toks == Creation(base, name.value, start);
        assert BranchArgs(name, start, newBranch, force, delete, copy, move) == Success(RunThenList(toks));
        r := RunOutcome(toks);
        return;
      }
      if copy {
        if !Given(newBranch) {
          return Fail(CopyNeedsNewError);
        }
        toks := toks + [Switch("--copy")];
        if Given(name) {
          toks := toks + [Word(name.value)];
        }
        toks := toks + [Word(newBranch.value)];
        assert toks == Relocation(base, "--copy", name, newBranch.value);
        assert BranchArgs(name, start, newBranch, force, delete, copy, move) == Success(RunThenList(toks));
        r := RunOutcome(toks);
        return;
      }
      if delete {
        if !Given(name) {
          return Fail(DeleteNeedsNameError);
        }
        toks := toks + [Switch("--delete"), Word(name.value)];
        assert toks == base + [Switch("--delete"), Word(name.value)];
        assert BranchArgs(name, start, newBranch, force, delete, copy, move) == Success(RunThenList(toks));
        r := RunOutcome(toks);
        return;
      }
      if !Given(newBranch) {
        return Fail(MoveNeedsNewError);
      }
      toks := toks + [Switch("--move")];
      if Given(name) {
        toks := toks + [Word(name.value)];
      }
      toks := toks + [Word(newBranch.value)];
      assert toks == Relocation(base, "--move", name, newBranch.value);
      assert BranchArgs(name, start, newBranch, force, delete, copy, move) == Success(RunThenList(toks));
      r := RunOutcome(toks);
    }

    /** `checkout`, built as `CheckoutArgs` says. */
    method Checkout(branch: Option<string>, tables: Names, create: bool, start: Option<string>,
                    track: Option<string>) returns (r: Outcome)
      modifies shell
      ensures Settled(old(shell.issued), old(shell.files), CheckoutArgs(branch, tables, create, start, track), r)
    {
      if NamesGiven(tables) && Given(branch) {
        return Fail(CheckoutTablesError);
      }
      var toks := [Word("checkout")];
      if Given(branch) {
        if create {
          toks := toks + [Valued("-b", branch.value)];
        } else {
          toks := toks + [Word(branch.value)];
        }
        if Given(start) {
          toks := toks + [Word(start.value)];
        }
      }
      assert toks == [Word("checkout")] + BranchTarget(branch, create, start);
      var named: seq<Arg> := [];
      if NamesGiven(tables) {
        named := [Word(Join(" ", ToList(tables).value))];
      }
      assert named == TablesArg(tables);
      var tracked: seq<Arg> := [];
      if track.Some? {
        tracked := [Valued("--track", track.value)];
      }
      assert tracked == ValuedOpt(track, "--track");
      toks := toks + named + tracked;
      assert CheckoutArgs(branch, tables, create, start, track) == Success(toks);
      r := RunOutcome(toks);
    }

    // -------------------------------------------------------------------------
    // remotes

    /** `remote`, planned as `RemoteArgs` says: the listing returns the remotes parsed as
        `RemotesOf` says, a change returns nothing (`None`). */
    method Remote(add: bool, name: Option<string>, url: Option<string>, remove: bool) returns (r: Result<Option<seq<Remote>>>)
      modifies shell
      ensures var plan := RemoteArgs(add, name, url, remove);
        && (plan.Failure? ==> r == Failure(plan.error) && Untouched(old(shell.issued), old(shell.files)))
        && (plan.Success? ==> RanOnce(old(shell.issued), old(shell.files), Render(plan.value.toks)))
        && (plan.Success? && plan.value.ListRemotes? ==>
              var a := Reply(old(shell.issued), ["remote", "--verbose"]);
              r == (if a.Failure? then Failure(a.error)
                    else if RemotesOf(Split(a.value, "\n")).Failure? then Failure(RemotesOf(Split(a.value, "\n")).error)
                    else Success(Some(RemotesOf(Split(a.value, "\n")).value))))
        && (plan.Success? && plan.value.ChangeRemotes? ==>
              var a := Reply(old(shell.issued), Render(plan.value.toks));
              r == (if a.Failure? then Failure(a.error) else Success(None)))
    {
      var toks := [Word("remote"), Switch("--verbose")];
      if !(add || remove) {
        var out := RunVector(toks);
        assert Render(toks) == ["remote", "--verbose"];
        if out.Failure? {
          return Failure(out.error);
        }
        var remotes := ParseRemotes(Split(out.value, "\n"));
        if remotes.Failure? {
          return Failure(remotes.error);
        }
        return Success(Some(remotes.value));
      }
      if remove {
        if add {
          return Failure(RemoteBothError);
        }
        if !Given(name) {
          return Failure(RemoteRemoveNameError);
        }
        toks := toks + [Word("remove"), Word(name.value)];
      }
      if add {
        if !(Given(name) && Given(url)) {
          return Failure(RemoteAddError);
        }
        toks := toks + [Word("add"), Word(name.value), Word(url.value)];
      }
      var out := RunVector(toks);
      if out.Failure? {
        return Failure(out.error);
      }
      r := Success(None);
    }

    /** `push`, built as `PushArgs` says. */
    method Push(remote: string, refspec: Option<string>, setUpstream: bool, force: bool) returns (r: Outcome)
      modifies shell
      ensures RanVector(old(shell.issued), old(shell.files), PushArgs(remote, refspec, setUpstream, force), r)
    {
      var toks := [Word("push")];
      if setUpstream {
        toks := toks + [Switch("--set-upstream")];
      }
      if force {
        toks := toks + [Switch("--force")];
      }
      toks := toks + [Word(remote)];
      if Given(refspec) {
        toks := toks + [Word(refspec.value)];
      }
      assert toks == PushArgs(remote, refspec, setUpstream, force);
      r := RunOutcome(toks);
    }

    /** `pull`, built as `PullArgs` says. */
    method Pull(remote: string, branch: Option<string>) returns (r: Outcome)
      modifies shell
      ensures RanVector(old(shell.issued), old(shell.files), PullArgs(remote, branch), r)
    {
      var toks := [Word("pull"), Word(remote)];
      if branch.Some? {
        toks := toks + [Word(branch.value)];
      }
      assert toks == PullArgs(remote, branch);
      r := RunOutcome(toks);
    }

    /** `fetch`, built as `FetchArgs` says. */
    method Fetch(remote: string, refspecs: Names, force: bool) returns (r: Outcome)
      modifies shell
      ensures RanVector(old(shell.issued), old(shell.files), FetchArgs(remote, refspecs, force), r)
    {
      var toks := [Word("fetch")];
      if force {
        toks := toks + [Switch("--force")];
      }
      assert toks == [Word("fetch")] + SwitchIf(force, "--force");
      ghost var front := toks;
      if remote != "" {
        toks := toks + [Word(remote)];
      }
      assert toks == front + WordIf(Some(remote));
      front := toks;
      if NamesGiven(refspecs) {
        toks := toks + Words(ToList(refspecs).value);
      }
      assert toks == front + Refspecs(refspecs);
      r := RunOutcome(toks);
    }

    // -------------------------------------------------------------------------
    // ls

    /** `ls`, built as `LsArgs` says, its output parsed as `LsOf` says. */
    method Ls(system: bool, all: bool) returns (r: Result<seq<Table>>)
      modifies shell
      ensures var args := Render(LsArgs(system, all));
        var a := Reply(old(shell.issued), args);
        && RanOnce(old(shell.issued), old(shell.files), args)
        && r == (if a.Success? then LsOf(Split(a.value, "\n")) else Failure(a.error))
    {
      var toks := [Word("ls"), Switch("--verbose")];
      if all {
        toks := toks + [Switch("--all")];
      }
      if system {
        toks := toks + [Switch("--system")];
      }
      assert toks == LsArgs(system, all);
      var out := RunVector(toks);
      if out.Failure? {
        return Failure(out.error);
      }
      r := ParseLs(Split(out.value, "\n"));
    }

    // -------------------------------------------------------------------------
    // tables

    /** `table mv`, built as `TableMvArgs` says. */
    method TableMv(oldTable: string, newTable: string, force: bool) returns (r: Outcome)
      modifies shell
      ensures RanVector(old(shell.issued), old(shell.files), TableMvArgs(oldTable, newTable, force), r)
    {
      var toks := [Word("table"), Word("mv")];
      if force {
        toks := toks + [Switch("--force")];
      }
      toks := toks + [Word(oldTable), Word(newTable)];
      TableMvTokens(oldTable, newTable, force);
      assert toks == TableMvArgs(oldTable, newTable, force);
      r := RunOutcome(toks);
    }

    /** `table cp`, built as `TableCpArgs` says. */
    method TableCp(oldTable: string, newTable: string, commit: Option<string>, force: bool) returns (r: Outcome)
      modifies shell
      ensures RanVector(old(shell.issued), old(shell.files), TableCpArgs(oldTable, newTable, commit, force), r)
    {
      var toks := [Word("table"), Word("cp")];
      if force {
        toks := toks + [Switch("--force")];
      }
      assert toks == [Word("table"), Word("cp")] + SwitchIf(force, "--force");
      ghost var front := toks;
      if Given(commit) {
        toks := toks + [Word(commit.value)];
      }
      assert toks == front + WordIf(commit);
      toks := toks + [Word(oldTable), Word(newTable)];
      TableCpTokens(oldTable, newTable, commit, force);
      assert toks == TableCpArgs(oldTable, newTable, commit, force);
      r := RunOutcome(toks);
    }
  
    // -------------------------------------------------------------------------
    // merge

    /** `merge`, given the rows the two `dolt_branches` queries of `_get_branches`
        answer: with the branches known it behaves as `MergeAt` says and changes no file. */
    method Merge(branch: string, message: Option<string>, squash: bool, branchRows: seq<Row>, activeRows: seq<Row>)
      returns (r: Outcome)
      modifies shell
      ensures var gb := GetBranches(branchRows, activeRows);
        && (gb.Failure? ==> r == Fail(gb.error) && Untouched(old(shell.issued), old(shell.files)))
        && (gb.Success? ==>
              && (shell.issued, r) == MergeAt(shell.tool, repoDir, old(shell.issued), branch, message, squash,
                                              gb.value.0.name, NamesOf(gb.value.1))
              && shell.files == old(shell.files))
    {
      var gb := GetBranches(branchRows, activeRows);
      if gb.Failure? {
        return Fail(gb.error);
      }
      var current := gb.value.0.name;
      var names := NamesOf(gb.value.1);
      var st := Status();
      if st.Failure? {
        return Fail(st.error);
      }
      if !st.value.isClean {
        return Fail(MergeDirtyError(branch, current));
      }
      if branch !in names {
        return Fail(MergeUnknownError(branch, current));
      }
      r := MergeRun(branch, message, squash, current);
    }

    /** The merge run of an accepted `merge`, and what follows it. */
    method MergeRun(branch: string, message: Option<string>, squash: bool, current: string) returns (r: Outcome)
      modifies shell
      ensures (shell.issued, r) == MergeRunAt(shell.tool, repoDir, old(shell.issued), branch, message, squash, current)
      ensures shell.files == old(shell.files)
    {
      var toks := [Word("merge")];
      if squash {
        toks := toks + [Switch("--squash")];
      }
      toks := toks + [Word(branch)];
      assert toks == MergeArgs(branch, squash);
      var out := RunVector(toks);
      if out.Failure? {
        return Fail(out.error);
      }
      r := MergeFinish(MergeOutcomeOf(out.value), message, current, branch);
    }

    /** What `merge` does once the merge run has answered. */
    method MergeFinish(outcome: MergeOutcome, message: Option<string>, current: string, branch: string) returns (r: Outcome)
      modifies shell
      ensures (shell.issued, r) == MergeFinishAt(shell.tool, repoDir, old(shell.issued), outcome, message, current, branch)
      ensures shell.files == old(shell.files)
    {
      if outcome == FastForward {
        return Pass;
      }
      if outcome == Conflict {
        r := RunOutcome(MergeAbortArgs);
        return;
      }
      var msg := MergeMessage(message, current, branch);
      var staged := Status();
      if staged.Failure? {
        return Fail(staged.error);
      }
      r := AddEach(staged.value.addedTables.keys + staged.value.modifiedTables.keys);
      if r.Fail? {
        return;
      }
      r := Commit(Some(msg), false, None);
    }

    /** `add` of a single table, as one step of a longer sequence. */
    method AddOne(table: string) returns (r: Result<Status>)
      modifies shell
      ensures (shell.issued, r) == AddAt(shell.tool, repoDir, old(shell.issued), table)
      ensures shell.files == old(shell.files)
    {
      r := Add(One(table));
    }

    /** The add of the table at `i`, once those before it have succeeded. */
    method AddNext(tables: seq<string>, i: nat, ghost h: seq<Call>) returns (r: Outcome)
      requires i < |tables|
      requires StepsUpTo(AddStep(shell.tool, repoDir), h, tables, i) == (shell.issued, Pass)
      modifies shell
      ensures StepsUpTo(AddStep(shell.tool, repoDir), h, tables, i + 1) == (shell.issued, r)
      ensures r.Fail? ==> AddsAt(shell.tool, repoDir, h, tables) == (shell.issued, r)
      ensures shell.files == old(shell.files)
    {
      StepsNext(AddStep(shell.tool, repoDir), h, tables, i);
      AddStepIs(shell.tool, repoDir, shell.issued, tables[i]);
      var added := AddOne(tables[i]);
      r := if added.Failure? then Fail(added.error) else Pass;
      if r.Fail? {
        StepsStuck(AddStep(shell.tool, repoDir), h, tables, i, |tables|);
      }
    }

    /** `add` of each table in turn, as `AddsAt` says. */
    method AddEach(tables: seq<string>) returns (r: Outcome)
      modifies shell
      ensures (shell.issued, r) == AddsAt(shell.tool, repoDir, old(shell.issued), tables)
      ensures shell.files == old(shell.files)
    {
      ghost var step := AddStep(shell.tool, repoDir);
      ghost var h := shell.issued;
      var i := 0;
      while i < |tables|
        invariant 0 <= i <= |tables|
        invariant StepsUpTo(step, h, tables, i) == (shell.issued, Pass)
        invariant shell.files == old(shell.files)
      {
        var added := AddNext(tables, i, h);
        if added.Fail? {
          return added;
        }
        i := i + 1;
      }
      r := Pass;
    }

    // -------------------------------------------------------------------------
    // sql

    /** `sql`: the options grow in the order of their checks, and the listing of saved
        queries runs as soon as its check passes. `tempDir` is the fresh directory the
        source creates for a result that is read back. */
    method Sql(query: Option<string>, resultFormat: Option<string>, execute: bool, save: Option<string>,
               message: Option<string>, listSaved: bool, batch: bool, multiDbDir: Option<string>,
               resultFile: Option<string>, parser: bool, tempDir: string) returns (r: Result<SqlValue>)
      modifies shell
      ensures (shell.issued, shell.files, r) == SqlAt(shell.tool, repoDir, tempDir, old(shell.issued), old(shell.files),
                                                      SqlArgs(query, resultFormat, execute, save, message, listSaved,
                                                              batch, multiDbDir, resultFile, parser))
    {
      ghost var plan := SqlArgs(query, resultFormat, execute, save, message, listSaved, batch, multiDbDir, resultFile, parser);
      var toks := [Word("sql")];
      if listSaved {
        if ListSavedClash(query, resultFormat, save, message, batch, multiDbDir) {
          return Failure(SqlIncompatibleError);
        }
        toks := toks + [Switch("--list-saved")];
        var listed := ListSaved(toks);
        if listed.Failure? {
          return Failure(listed.error);
        }
      }
      r := SqlMainRun(query, resultFormat, execute, save, message, listSaved, batch, multiDbDir, resultFile, parser, tempDir, toks);
    }

    /** `sql` once the listing of saved queries has run (when asked): the `execute` check,
        the remaining options, then the query and the main run. */
    method SqlMainRun(query: Option<string>, resultFormat: Option<string>, execute: bool, save: Option<string>,
                      message: Option<string>, listSaved: bool, batch: bool, multiDbDir: Option<string>,
                      resultFile: Option<string>, parser: bool, tempDir: string, toks0: seq<Arg>) returns (r: Result<SqlValue>)
      requires !(listSaved && ListSavedClash(query, resultFormat, save, message, batch, multiDbDir))
      requires toks0 == [Word("sql")] + SwitchIf(listSaved, "--list-saved")
      modifies shell
      ensures (shell.issued, shell.files, r) ==
        SqlMainAt(shell.tool, repoDir, tempDir, old(shell.issued), old(shell.files),
                  SqlArgs(query, resultFormat, execute, save, message, listSaved, batch, multiDbDir, resultFile, parser).main)
    {
      var toks := toks0;
      if execute {
        if ExecuteClash(query, save, message, listSaved, batch, multiDbDir) {
          assert SqlArgs(query, resultFormat, execute, save, message, listSaved, batch, multiDbDir, resultFile, parser).main
              == Failure(SqlIncompatibleError);
          return Failure(SqlIncompatibleError);
        }
        toks := toks + ExecuteArg(execute);
      }
      assert toks == toks0 + ExecuteArg(execute);
      toks := toks + ValuedIf(multiDbDir, "--multi-db-dir") + SwitchIf(batch, "--batch") + SaveArgs(save, message);
      assert toks == SqlOptions(execute, save, message, listSaved, batch, multiDbDir);
      assert SqlArgs(query, resultFormat, execute, save, message, listSaved, batch, multiDbDir, resultFile, parser).main
          == SqlRun(toks, query, resultFormat, resultFile, parser);
      r := SqlQuery(toks, query, resultFormat, resultFile, parser, tempDir);
    }

    /** The listing of saved queries, run as soon as its check passes. */
    method ListSaved(toks: seq<Arg>) returns (r: Result<string>)
      requires toks == [Word("sql"), Switch("--list-saved")]
      modifies shell
      ensures shell.issued == old(shell.issued) + [Call(ListSavedArgs, repoDir)] && shell.files == old(shell.files)
      ensures r == Ask(shell.tool, repoDir, old(shell.issued), ListSavedArgs)
    {
      assert Render(toks[1..][1..]) == [];
      assert Render(toks) == ListSavedArgs;
      r := RunVector(toks);
    }

    /** The query and the destination of its output, added to the options `toks`, then
        the main run. */
    method SqlQuery(toks: seq<Arg>, query: Option<string>, resultFormat: Option<string>, resultFile: Option<string>,
                    parser: bool, tempDir: string) returns (r: Result<SqlValue>)
      modifies shell
      ensures (shell.issued, shell.files, r) ==
        SqlMainAt(shell.tool, repoDir, tempDir, old(shell.issued), old(shell.files), SqlRun(toks, query, resultFormat, resultFile, parser))
    {
      var main: Result<(seq<Arg>, Sink)>;
      if parser || resultFile.Some? || resultFormat in {Some("csv"), Some("json")} {
        if query.None? {
          return Failure(SqlQueryError);
        }
        var format := if parser || resultFile.Some? then "csv" else resultFormat.value;
        var sink := if parser then ToParser else if resultFile.Some? then ToFile(resultFile.value) else Decoded(format);
        main := Success((toks + [Valued("--query", query.value), Valued("--result-format", format)], sink));
      } else {
        main := Success((toks + ValuedOpt(query, "--query"), Discarded));
      }
      assert main == SqlRun(toks, query, resultFormat, resultFile, parser);
      r := SqlMain(main.value.0, main.value.1, tempDir);
    }

    /** The main run of `sql`, with stdout sent where `sink` says and the temporary file
        removed afterwards. */
    method SqlMain(toks: seq<Arg>, sink: Sink, tempDir: string) returns (r: Result<SqlValue>)
      modifies shell
      ensures (shell.issued, shell.files, r) == SqlMainAt(shell.tool, repoDir, tempDir, old(shell.issued), old(shell.files), Success((toks, sink)))
    {
      var scratch := ScratchFile(tempDir);
      var out := shell.Run(Render(toks), repoDir, OutfileOf(sink, scratch));
      if sink.ToFile? || sink.Discarded? {
        if out.Failure? {
          return Failure(out.error);
        }
        return if sink.ToFile? then Success(Returned(out.value)) else Success(Nothing);
      }
      var text := shell.files[scratch];
      shell.RemoveIfExists(scratch);
      if out.Failure? {
        return Failure(out.error);
      }
      r := Success(FileText(text));
    }

    // -------------------------------------------------------------------------
    // schema and table import and export

    /** `schema import`, built as `SchemaImportArgs` says. */
    method SchemaImport(table: string, filename: string, create: bool, update: bool, replace: bool, dryRun: bool,
                        keepTypes: bool, fileType: Option<string>, pks: Option<seq<string>>, mapFile: Option<string>,
                        floatThreshold: Option<string>, delim: Option<string>) returns (r: Outcome)
      modifies shell
      ensures Settled(old(shell.issued), old(shell.files),
                      SchemaImportArgs(table, filename, create, update, replace, dryRun, keepTypes, fileType, pks,
                                       mapFile, floatThreshold, delim), r)
    {
      if !OneOf(create, update, replace) {
        return Fail(ModeCountError);
      }
      if create && !KeysGiven(pks) {
        return Fail(CreatePksError);
      }
      if replace && !KeysGiven(pks) {
        return Fail(ReplacePksError);
      }
      var switches := SwitchIf(create, "--create") + SwitchIf(update, "--update") + SwitchIf(replace, "--replace");
      switches := switches + SwitchIf(dryRun, "--dry-run") + SwitchIf(keepTypes, "--keep-types");
      var opts := ValuedIf(fileType, "--file_type") + KeysArg(pks, "--pks");
      var rest := ValuedIf(mapFile, "--map") + ValuedIf(floatThreshold, "--float-threshold") + ValuedIf(delim, "--delim");
      var toks := [Word("schema"), Word("import")] + switches + (opts + rest) + [Word(table), Word(filename)];
      SchemaImportTokens(table, filename, create, update, replace, dryRun, keepTypes, fileType, pks,
                         mapFile, floatThreshold, delim);
      r := RunOutcome(toks);
    }

    /** `table import`, built as `TableImportArgs` says. */
    method TableImport(table: string, filename: string, create: bool, update: bool, force: bool,
                       mapFile: Option<string>, pk: Option<seq<string>>, replace: bool, fileType: Option<string>,
                       continueImporting: bool, delim: Option<string>) returns (r: Outcome)
      modifies shell
      ensures Settled(old(shell.issued), old(shell.files),
                      TableImportArgs(table, filename, create, update, force, mapFile, pk, replace, fileType,
                                      continueImporting, delim), r)
    {
      if !OneOf(create, update, replace) {
        return Fail(ModeCountError);
      }
      if create && !KeysGiven(pk) {
        return Fail(CreatePksError);
      }
      if replace && !KeysGiven(pk) {
        return Fail(ReplacePksError);
      }
      var switches := SwitchIf(create, "--create-table") + SwitchIf(update, "--update-table")
                      + SwitchIf(replace, "--replace-table");
      var opts := ValuedIf(fileType, "--file-type") + KeysArg(pk, "--pk");
      var rest := ValuedIf(mapFile, "--map") + ValuedIf(delim, "--delim");
      var more := SwitchIf(continueImporting, "--continue") + SwitchIf(force, "--force");
      var toks := [Word("table"), Word("import")] + switches + (opts + rest) + more + [Word(table), Word(filename)];
      TableImportTokens(table, filename, create, update, force, mapFile, pk, replace, fileType, continueImporting, delim);
      r := RunOutcome(toks);
    }

    /** `table export`, built as `TableExportArgs` says. */
    method TableExport(table: string, filename: string, force: bool, schema: Option<string>, mapFile: Option<string>,
                       pk: Option<seq<string>>, fileType: Option<string>, continueExporting: bool) returns (r: Outcome)
      modifies shell
      ensures RanVector(old(shell.issued), old(shell.files),
                        TableExportArgs(table, filename, force, schema, mapFile, pk, fileType, continueExporting), r)
    {
      var switches := SwitchIf(force, "--force") + SwitchIf(continueExporting, "--continue");
      var opts := ValuedIf(schema, "--schema") + ValuedIf(mapFile, "--map") + KeysArg(pk, "--pk")
                  + ValuedIf(fileType, "--file-type");
      var toks := [Word("table"), Word("export")] + switches + opts + [Word(table), Word(filename)];
      TableExportTokens(table, filename, force, schema, mapFile, pk, fileType, continueExporting);
      r := RunOutcome(toks);
    }
  }
}
