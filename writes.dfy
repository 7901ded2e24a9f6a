/** The write pipeline of the library's `utils` module: the choice of import mode, the
    import through a temporary file with an optional add and commit, and the checks that
    `write_file` and `write_columns` make. The temporary file name is a parameter (the
    source draws it from `tempfile.mktemp`), and so is the CSV text a writer produces. */
module Writes {
  import opened Base
  import opened Text
  import opened DoltTypes
  import opened Argv
  import opened Convert
  import opened Commands
  import opened Process
  import opened Listing
  import opened Repo

  const SourceError: Error := ValueError("Specify one of: file, file_handle")
  const LengthError: Error := ValueError("Must pass columns of identical length")

  /** What the writer handed to `_import_helper` does with the temporary path: hand back
      a file the caller already has, or write text to the temporary path and hand that
      path back. The text is an error when the writer raises before it opens the file. */
  datatype Writer = Existing(path: string) | Temporary(text: Result<string>)

  /** The files after the writer ran, and the path it handed back or what it raised. */
  function WriteAt(w: Writer, tmp: string, fs: map<string, string>): (map<string, string>, Result<string>) {
    match w
    case Existing(p) => (fs, Success(p))
    case Temporary(t) => if t.Failure? then (fs, Failure(t.error)) else (fs[tmp := t.value], Success(tmp))
  }

  /** `[table.name for table in tables]`. `Repo.NamesOf` is the same list comprehension
      over branches: the two records are distinct types with no common supertype here. */
  function TableNames(ts: seq<Table>): (names: seq<string>)
    ensures |names| == |ts| && forall i :: 0 <= i < |ts| ==> names[i] == ts[i].name
  {
    if ts == [] then [] else TableNames(ts[..|ts| - 1]) + [ts[|ts| - 1].name]
  }

  /** `_get_import_mode_and_flags` after the calls `h`: a given mode is checked and needs
      no run; without one, `ls` runs once and the mode depends on whether the table is
      among the tables it lists. */
  function ModeAt(tool: (seq<Call>, Call) -> Exit, dir: string, h: seq<Call>, table: string,
                  importMode: Option<string>): (seq<Call>, Result<ImportMode>)
  {
    if Given(importMode) then (h, ImportModeOf(table, importMode, []))
    else
      var args := Render(LsArgs(false, false));
      var a := Ask(tool, dir, h, args);
      var h' := h + [Call(args, dir)];
      if a.Failure? then (h', Failure(a.error))
      else
        match LsOf(Split(a.value, "\n"))
        case Failure(e) => (h', Failure(e))
        case Success(ts) => (h', ImportModeOf(table, importMode, TableNames(ts)))
  }

  /** `["--pk=" + ",".join(primary_key)]` when there are keys; none is the same as `[]`. */
  function PkArgs(pk: seq<string>): seq<string> {
    if pk == [] then [] else ["--pk=" + Join(",", pk)]
  }

  /** The vector of the import: the table, the flags of the mode, the keys, `--continue`,
      then the file. */
  function ImportArgs(table: string, mode: ImportMode, pk: seq<string>, doContinue: bool, file: string): seq<string> {
    ["table", "import", table] + ImportFlags(mode) + PkArgs(pk) + (if doContinue then ["--continue"] else []) + [file]
  }

  /** The message of the commit after an import: the caller's, unless empty. */
  function CommitMessage(table: string, mode: ImportMode, message: Option<string>): string {
    if Given(message) then message.value
    else "Committing write to table " + table + " in " + ModeName(mode) + " mode"
  }

  /** The runs inside the `try`, from the import on: the import, then, when asked, the add
      of the table with its status and the commit. They write no file. */
  function ImportRunAt(tool: (seq<Call>, Call) -> Exit, dir: string, h: seq<Call>, table: string, mode: ImportMode,
                       file: string, pk: seq<string>, doContinue: bool, commit: bool, message: Option<string>,
                       date: Option<string>): (seq<Call>, Outcome)
  {
    var args := ImportArgs(table, mode, pk, doContinue, file);
    var a := Ask(tool, dir, h, args);
    var h1 := h + [Call(args, dir)];
    if a.Failure? then (h1, Fail(a.error))
    else if !commit then (h1, Pass)
    else AddCommitAt(tool, dir, h1, table, CommitMessage(table, mode, message), date)
  }

  /** The add of the table, with its status, then the commit with `msg`. */
  function AddCommitAt(tool: (seq<Call>, Call) -> Exit, dir: string, h: seq<Call>, table: string, msg: string,
                       date: Option<string>): (seq<Call>, Outcome)
  {
    var added := AddAt(tool, dir, h, table);
    if added.1.Failure? then (added.0, Fail(added.1.error))
    else
      var c := Render(CommitArgs(Some(msg), false, date));
      (added.0 + [Call(c, dir)], OutcomeOf(Ask(tool, dir, added.0, c)))
  }

  /** `_import_helper` after the calls `h` with the files `fs`: the mode first, and a mode
      that raises leaves every file alone; then the writer and the runs, after which the
      temporary file is gone whatever happened. */
  function ImportAt(tool: (seq<Call>, Call) -> Exit, dir: string, h: seq<Call>, fs: map<string, string>, table: string,
                    writer: Writer, importMode: Option<string>, pk: seq<string>, doContinue: bool, commit: bool,
                    message: Option<string>, date: Option<string>, tmp: string): (seq<Call>, map<string, string>, Outcome)
  {
    var m := ModeAt(tool, dir, h, table, importMode);
    if m.1.Failure? then (m.0, fs, Fail(m.1.error))
    else
      var w := WriteAt(writer, tmp, fs);
      if w.1.Failure? then (m.0, w.0 - {tmp}, Fail(w.1.error))
      else
        var run := ImportRunAt(tool, dir, m.0, table, m.1.value, w.1.value, pk, doContinue, commit, message, date);
        (run.0, w.0 - {tmp}, run.1)
  }

  // ---------------------------------------------------------------------------
  // Properties

  /** A given mode runs nothing and is the one named; without one exactly one `ls` runs. */
  lemma ModeRuns(tool: (seq<Call>, Call) -> Exit, dir: string, h: seq<Call>, table: string, importMode: Option<string>)
    ensures Given(importMode) ==> ModeAt(tool, dir, h, table, importMode).0 == h
    ensures Given(importMode) && ModeAt(tool, dir, h, table, importMode).1.Success? ==>
      ModeName(ModeAt(tool, dir, h, table, importMode).1.value) == importMode.value
    ensures !Given(importMode) ==> ModeAt(tool, dir, h, table, importMode).0 == h + [Call(["ls", "--verbose"], dir)]
  {
    assert Render(LsArgs(false, false)) == ["ls", "--verbose"] by {
      assert LsArgs(false, false) == [Word("ls"), Switch("--verbose")];
      assert Render([Switch("--verbose")][1..]) == [];
    }
  }

  /** Without a mode, a table the listing names is updated and any other is created. */
  lemma ModeFollowsListing(tool: (seq<Call>, Call) -> Exit, dir: string, h: seq<Call>, table: string, ts: seq<Table>)
    requires var a := Ask(tool, dir, h, Render(LsArgs(false, false)));
      a.Success? && LsOf(Split(a.value, "\n")) == Success(ts)
    ensures var m := ModeAt(tool, dir, h, table, None).1;
      && (m == Success(Update) <==> exists i :: 0 <= i < |ts| && ts[i].name == table)
      && (m == Success(Create) <==> forall i :: 0 <= i < |ts| ==> ts[i].name != table)
  {
    var names := TableNames(ts);
    if table in names {
      var i :| 0 <= i < |names| && names[i] == table;
      assert ts[i].name == table;
    }
  }

  /** The keys given to the import read back from its `--pk=` option when no key holds a
      comma. */
  lemma PkReadsBack(pk: seq<string>)
    requires pk != [] && forall k :: k in pk ==> !Contains(k, ",")
    ensures |PkArgs(pk)| == 1 && PkArgs(pk)[0][..5] == "--pk="
    ensures Split(PkArgs(pk)[0][5..], ",") == pk
  {
    var arg := "--pk=" + Join(",", pk);
    assert arg[5..] == Join(",", pk);
    SplitJoin(pk, ",");
  }

  /** The temporary file never outlives the import, and no other file changes except the
      one the writer writes, which is the temporary file itself. */
  lemma ImportLeavesNoTemporary(tool: (seq<Call>, Call) -> Exit, dir: string, h: seq<Call>, fs: map<string, string>,
                                table: string, writer: Writer, importMode: Option<string>, pk: seq<string>,
                                doContinue: bool, commit: bool, message: Option<string>, date: Option<string>, tmp: string)
    requires tmp !in fs
    ensures var q := ImportAt(tool, dir, h, fs, table, writer, importMode, pk, doContinue, commit, message, date, tmp);
      q.1 == fs
  {
    var m := ModeAt(tool, dir, h, table, importMode);
    if m.1.Success? {
      var w := WriteAt(writer, tmp, fs);
      assert w.0 - {tmp} == fs;
    }
  }

  /** A successful import without a commit runs the mode's `ls` (if any) and the import, and
      nothing else. */
  lemma ImportWithoutCommit(tool: (seq<Call>, Call) -> Exit, dir: string, h: seq<Call>, fs: map<string, string>,
                            table: string, writer: Writer, importMode: Option<string>, pk: seq<string>,
                            doContinue: bool, message: Option<string>, date: Option<string>, tmp: string)
    requires var m := ModeAt(tool, dir, h, table, importMode); m.1.Success? && WriteAt(writer, tmp, fs).1.Success?
    ensures var m := ModeAt(tool, dir, h, table, importMode);
      var file := WriteAt(writer, tmp, fs).1.value;
      var q := ImportAt(tool, dir, h, fs, table, writer, importMode, pk, doContinue, false, message, date, tmp);
      q.0 == m.0 + [Call(ImportArgs(table, m.1.value, pk, doContinue, file), dir)]
  {
  }

  /** A committed import that goes through runs, after the mode's calls, exactly the
      import, the add of the table, its status and the commit, in that order. */
  lemma ImportThenCommit(tool: (seq<Call>, Call) -> Exit, dir: string, h: seq<Call>, fs: map<string, string>,
                         table: string, writer: Writer, importMode: Option<string>, pk: seq<string>,
                         doContinue: bool, message: Option<string>, date: Option<string>, tmp: string,
                         mode: ImportMode, file: string)
    requires ModeAt(tool, dir, h, table, importMode).1 == Success(mode)
    requires WriteAt(writer, tmp, fs).1 == Success(file)
    requires ImportRunAt(tool, dir, ModeAt(tool, dir, h, table, importMode).0, table, mode, file, pk, doContinue,
                         true, message, date).1 == Pass
    ensures ImportAt(tool, dir, h, fs, table, writer, importMode, pk, doContinue, true, message, date, tmp).0
         == ModeAt(tool, dir, h, table, importMode).0
            + [Call(ImportArgs(table, mode, pk, doContinue, file), dir), Call(["add", table], dir), Call(["status"], dir),
               Call(Render(CommitArgs(Some(CommitMessage(table, mode, message)), false, date)), dir)]
  {
    ImportAtRuns(tool, dir, h, fs, table, writer, importMode, pk, doContinue, true, message, date, tmp, mode, file);
    RunThenCommit(tool, dir, ModeAt(tool, dir, h, table, importMode).0, table, mode, file, pk, doContinue, message, date);
  }

  /** Once the mode is known and the file written, the import is the runs from the import on. */
  lemma ImportAtRuns(tool: (seq<Call>, Call) -> Exit, dir: string, h: seq<Call>, fs: map<string, string>,
                     table: string, writer: Writer, importMode: Option<string>, pk: seq<string>,
                     doContinue: bool, commit: bool, message: Option<string>, date: Option<string>, tmp: string,
                     mode: ImportMode, file: string)
    requires ModeAt(tool, dir, h, table, importMode).1 == Success(mode)
    requires WriteAt(writer, tmp, fs).1 == Success(file)
    ensures var run := ImportRunAt(tool, dir, ModeAt(tool, dir, h, table, importMode).0, table, mode, file, pk,
                                   doContinue, commit, message, date);
      var q := ImportAt(tool, dir, h, fs, table, writer, importMode, pk, doContinue, commit, message, date, tmp);
      q.0 == run.0 && q.2 == run.1
  {
  }

  /** A committed run that goes through issues the import, the add, the status and the
      commit after `h`. */
  lemma RunThenCommit(tool: (seq<Call>, Call) -> Exit, dir: string, h: seq<Call>, table: string, mode: ImportMode,
                      file: string, pk: seq<string>, doContinue: bool, message: Option<string>, date: Option<string>)
    requires ImportRunAt(tool, dir, h, table, mode, file, pk, doContinue, true, message, date).1 == Pass
    ensures ImportRunAt(tool, dir, h, table, mode, file, pk, doContinue, true, message, date).0
         == h + [Call(ImportArgs(table, mode, pk, doContinue, file), dir), Call(["add", table], dir), Call(["status"], dir),
                 Call(Render(CommitArgs(Some(CommitMessage(table, mode, message)), false, date)), dir)]
  {
    var h1 := h + [Call(ImportArgs(table, mode, pk, doContinue, file), dir)];
    AddAtCalls(tool, dir, h1, table);
  }

  // ---------------------------------------------------------------------------
  // The pipeline as the source runs it

  /** `_get_import_mode_and_flags`. */
  method ImportMode(dolt: Dolt, table: string, importMode: Option<string>) returns (r: Result<ImportMode>)
    modifies dolt.shell
    ensures (dolt.shell.issued, r) == ModeAt(dolt.shell.tool, dolt.repoDir, old(dolt.shell.issued), table, importMode)
    ensures dolt.shell.files == old(dolt.shell.files)
  {
    if Given(importMode) {
      var m := ModeOf(importMode.value);
      if m.None? {
        return Failure(ModeError);
      }
      return Success(m.value);
    }
    var listed := dolt.Ls(false, false);
    if listed.Failure? {
      return Failure(listed.error);
    }
    var names := [];
    for i := 0 to |listed.value|
      invariant names == TableNames(listed.value[..i])
    {
      assert listed.value[..i + 1][..i] == listed.value[..i];
      names := names + [listed.value[i].name];
    }
    assert listed.value[..|listed.value|] == listed.value;
    if table in names {
      r := Success(Update);
    } else {
      r := Success(Create);
    }
  }

  /** `_import_helper`: the mode, then inside `try` the writer, the import and, when asked,
      the add and the commit; the `finally` removes the temporary file. */
  method ImportHelper(dolt: Dolt, table: string, writer: Writer, importMode: Option<string>, pk: seq<string>,
                      doContinue: bool, commit: bool, message: Option<string>, date: Option<string>, tmp: string)
    returns (r: Outcome)
    modifies dolt.shell
    ensures (dolt.shell.issued, dolt.shell.files, r) ==
      ImportAt(dolt.shell.tool, dolt.repoDir, old(dolt.shell.issued), old(dolt.shell.files), table, writer,
               importMode, pk, doContinue, commit, message, date, tmp)
  {
    var mode := ImportMode(dolt, table, importMode);
    if mode.Failure? {
      return Fail(mode.error);
    }
    r := ImportBody(dolt, table, writer, mode.value, pk, doContinue, commit, message, date, tmp);
    dolt.shell.RemoveIfExists(tmp);
  }

  /** The body of the `try` in `_import_helper`. */
  method ImportBody(dolt: Dolt, table: string, writer: Writer, mode: ImportMode, pk: seq<string>,
                    doContinue: bool, commit: bool, message: Option<string>, date: Option<string>, tmp: string)
    returns (r: Outcome)
    modifies dolt.shell
    ensures var w := WriteAt(writer, tmp, old(dolt.shell.files));
      && dolt.shell.files == w.0
      && (w.1.Failure? ==> dolt.shell.issued == old(dolt.shell.issued) && r == Fail(w.1.error))
      && (w.1.Success? ==> (dolt.shell.issued, r) == ImportRunAt(dolt.shell.tool, dolt.repoDir, old(dolt.shell.issued),
                                                                  table, mode, w.1.value, pk, doContinue, commit, message, date))
  {
    var file: string;
    match writer {
      case Existing(p) =>
        file := p;
      case Temporary(text) =>
        if text.Failure? {
          return Fail(text.error);
        }
        dolt.shell.Write(tmp, text.value);
        file := tmp;
    }
    r := ImportRun(dolt, table, mode, file, pk, doContinue, commit, message, date);
  }

  /** The import run and, when asked, the add and the commit. */
  method ImportRun(dolt: Dolt, table: string, mode: ImportMode, file: string, pk: seq<string>, doContinue: bool,
                   commit: bool, message: Option<string>, date: Option<string>) returns (r: Outcome)
    modifies dolt.shell
    ensures (dolt.shell.issued, r) == ImportRunAt(dolt.shell.tool, dolt.repoDir, old(dolt.shell.issued), table, mode,
                                                  file, pk, doContinue, commit, message, date)
    ensures dolt.shell.files == old(dolt.shell.files)
  {
    var args := ImportCommand(table, mode, file, pk, doContinue);
    var out := dolt.Execute(args, false, None);
    if out.Failure? {
      return Fail(out.error);
    }
    if commit {
      r := AddCommit(dolt, table, CommitMessage(table, mode, message), date);
    } else {
      r := Pass;
    }
  }

  /** The arguments of the import run, grown as `_import_helper` grows them. */
  method ImportCommand(table: string, mode: ImportMode, file: string, pk: seq<string>, doContinue: bool)
    returns (args: seq<string>)
    ensures args == ImportArgs(table, mode, pk, doContinue, file)
  {
    args := ["table", "import", table] + ImportFlags(mode);
    if pk != [] {
      args := args + ["--pk=" + Join(",", pk)];
    }
    if doContinue {
      args := args + ["--continue"];
    }
    args := args + [file];
  }

  /** `dolt.add(table)` then `dolt.commit(msg, date=date)`. */
  method AddCommit(dolt: Dolt, table: string, msg: string, date: Option<string>) returns (r: Outcome)
    modifies dolt.shell
    ensures (dolt.shell.issued, r) == AddCommitAt(dolt.shell.tool, dolt.repoDir, old(dolt.shell.issued), table, msg, date)
    ensures dolt.shell.files == old(dolt.shell.files)
  {
    var added := dolt.AddOne(table);
    if added.Failure? {
      return Fail(added.error);
    }
    r := dolt.Commit(Some(msg), false, date);
  }

  /** `write_file`: exactly one of a path and a handle's text, checked before anything
      runs. */
  method WriteFile(dolt: Dolt, table: string, handle: Option<string>, file: Option<string>, importMode: Option<string>,
                   pk: seq<string>, commit: bool, message: Option<string>, date: Option<string>, doContinue: bool,
                   tmp: string) returns (r: Outcome)
    modifies dolt.shell
    ensures handle.Some? == file.Some? ==>
      r == Fail(SourceError) && dolt.shell.issued == old(dolt.shell.issued) && dolt.shell.files == old(dolt.shell.files)
    ensures handle.Some? != file.Some? ==>
      (dolt.shell.issued, dolt.shell.files, r) ==
        ImportAt(dolt.shell.tool, dolt.repoDir, old(dolt.shell.issued), old(dolt.shell.files), table,
                 if handle.Some? then Temporary(Success(handle.value)) else Existing(file.value),
                 importMode, pk, doContinue, commit, message, date, tmp)
  {
    if handle.Some? && file.Some? {
      return Fail(SourceError);
    } else if handle.None? && file.None? {
      return Fail(SourceError);
    }
    var writer := if handle.Some? then Temporary(Success(handle.value)) else Existing(file.value);
    r := ImportHelper(dolt, table, writer, importMode, pk, doContinue, commit, message, date, tmp);
  }

  /** The writer of `write_columns`: it refuses columns of differing lengths before it
      opens the file; otherwise the file holds `csv`, the CSV text of the columns. */
  function ColumnsWriter(columns: ODict<seq<string>>, csv: string): (w: Writer)
    ensures w.Temporary? && (w.text.Failure? <==> !UniformColumns(columns))
    ensures w.text.Failure? ==> w.text.error == LengthError
  {
    Temporary(if UniformColumns(columns) then Success(csv) else Failure(LengthError))
  }

  /** `write_columns`: the length check is the writer's, so it runs after the mode is
      settled and inside the `try`. */
  method WriteColumns(dolt: Dolt, table: string, columns: ODict<seq<string>>, csv: string, importMode: Option<string>,
                      pk: seq<string>, commit: bool, message: Option<string>, date: Option<string>, doContinue: bool,
                      tmp: string) returns (r: Outcome)
    modifies dolt.shell
    ensures (dolt.shell.issued, dolt.shell.files, r) ==
      ImportAt(dolt.shell.tool, dolt.repoDir, old(dolt.shell.issued), old(dolt.shell.files), table,
               ColumnsWriter(columns, csv), importMode, pk, doContinue, commit, message, date, tmp)
  {
    r := ImportHelper(dolt, table, ColumnsWriter(columns, csv), importMode, pk, doContinue, commit, message, date, tmp);
  }

  /** `write_rows`: its writer never raises before writing; the file holds `csv`, the
      CSV text of the rows. */
  method WriteRows(dolt: Dolt, table: string, csv: string, importMode: Option<string>, pk: seq<string>, commit: bool,
                   message: Option<string>, date: Option<string>, doContinue: bool, tmp: string) returns (r: Outcome)
    modifies dolt.shell
    ensures (dolt.shell.issued, dolt.shell.files, r) ==
      ImportAt(dolt.shell.tool, dolt.repoDir, old(dolt.shell.issued), old(dolt.shell.files), table,
               Temporary(Success(csv)), importMode, pk, doContinue, commit, message, date, tmp)
  {
    r := ImportHelper(dolt, table, Temporary(Success(csv)), importMode, pk, doContinue, commit, message, date, tmp);
  }

  /** Columns of differing lengths raise the length error and run no import, whatever the
      mode; only the mode's `ls` may have run. */
  lemma UnevenColumnsImportNothing(tool: (seq<Call>, Call) -> Exit, dir: string, h: seq<Call>, fs: map<string, string>,
                                   table: string, columns: ODict<seq<string>>, csv: string, importMode: Option<string>,
                                   pk: seq<string>, doContinue: bool, commit: bool, message: Option<string>,
                                   date: Option<string>, tmp: string)
    requires !UniformColumns(columns)
    ensures var q := ImportAt(tool, dir, h, fs, table, ColumnsWriter(columns, csv), importMode, pk, doContinue, commit, message, date, tmp);
      && q.0 == ModeAt(tool, dir, h, table, importMode).0
      && q.2.Fail?
      && (ModeAt(tool, dir, h, table, importMode).1.Success? ==> q.2.error == LengthError)
  {
  }
}
