/** The argument vectors of the repository handle's commands, with the checks each
    command makes on its flags before anything is run. Each builder returns the token
    list of the vector it would run, or the `ValueError` it raises; the lemmas state what
    a command-line parser reads back from the vector. */
module Commands {
  import opened Base
  import opened Text
  import opened Convert
  import opened Argv

  // ---------------------------------------------------------------------------
  // reset

  const ResetTablesError: Error := ValueError("tables should be: Union[str, List[str]]; found <class 'NoneType'>")
  const ResetBothError: Error := ValueError("Specify one of: hard=True, soft=True")
  const ResetMixedError: Error := ValueError("Specify either hard/soft flag, or tables to reset")

  /** `reset`: tables must be a name or a list; at most one of hard and soft, and neither
      together with a non-empty table list. Without tables the reset is soft. */
  function ResetArgs(tables: Names, hard: bool, soft: bool): (r: Result<seq<Arg>>)
    ensures r == Failure(ResetTablesError) <==> tables.NoNames?
    ensures r == Failure(ResetBothError) <==> !tables.NoNames? && hard && soft
    ensures r == Failure(ResetMixedError) <==>
      !tables.NoNames? && !(hard && soft) && (hard || soft) && ToList(tables).value != []
    ensures r.Success? ==> |r.value| >= 1 && r.value[0] == Word("reset")
  {
    if tables.NoNames? then Failure(ResetTablesError)
    else
      var toReset := ToList(tables).value;
      if hard && soft then Failure(ResetBothError)
      else if (hard || soft) && toReset != [] then Failure(ResetMixedError)
      else if hard then Success([Word("reset"), Switch("--hard")])
      else if soft || !NamesGiven(tables) then Success([Word("reset"), Switch("--soft")])
      else Success([Word("reset")] + Words(toReset))
  }

  /** A reset is either of the whole working set, hard or (by default) soft, or of
      exactly the tables named; it never mixes the two. */
  lemma ResetReads(tables: Names, hard: bool, soft: bool)
    requires ResetArgs(tables, hard, soft).Success?
    requires PlainWords(ToList(tables).value, {})
    ensures var rd := ReadArgs(Render(ResetArgs(tables, hard, soft).value), {});
      && rd.values == []
      && (hard || soft || !NamesGiven(tables) ==>
            rd == Reading(["reset"], [if hard then "--hard" else "--soft"], []))
      && (!hard && !soft && NamesGiven(tables) ==>
            rd == Reading(["reset"] + ToList(tables).value, [], []))
  {
    var toks := ResetArgs(tables, hard, soft).value;
    OneMeant(Word("reset"), {});
    if !hard && !soft && NamesGiven(tables) {
      WordsMeant(ToList(tables).value, {});
      Joined([Word("reset")], Words(ToList(tables).value), {});
    } else {
      var f := if hard then "--hard" else "--soft";
      OneMeant(Switch(f), {});
      Joined([Word("reset")], [Switch(f)], {});
      assert toks == [Word("reset")] + [Switch(f)];
    }
    ReadRender(toks, {});
  }

  // ---------------------------------------------------------------------------
  // commit

  /** `commit`: the message (empty when none is given), `--allow-empty` when asked, and
      the date, already formatted, when one is given. */
  function CommitArgs(message: Option<string>, allowEmpty: bool, date: Option<string>): seq<Arg> {
    [Word("commit"), Valued("-m", MessageOf(message))]
    + SwitchIf(allowEmpty, "--allow-empty")
    + ValuedOpt(date, "--date")
  }

  /** `if message is None: message = ""`. */
  function MessageOf(message: Option<string>): string {
    if message.Some? then message.value else ""
  }

  /** What a parser must know to read a commit: `-m` and `--date` take a value. */
  predicate CommitParser(valued: set<string>) {
    "-m" in valued && "--date" in valued && "commit" !in valued && "--allow-empty" !in valued
  }

  lemma CommitHeadMeant(m: string, valued: set<string>)
    requires CommitParser(valued)
    ensures Unambiguous([Word("commit"), Valued("-m", m)], valued)
    ensures Meant([Word("commit"), Valued("-m", m)]) == Reading(["commit"], [], [("-m", m)])
  {
    OneMeant(Word("commit"), valued);
    OneMeant(Valued("-m", m), valued);
    Joined([Word("commit")], [Valued("-m", m)], valued);
    assert [Word("commit"), Valued("-m", m)] == [Word("commit")] + [Valued("-m", m)];
  }

  lemma CommitMeant(message: Option<string>, allowEmpty: bool, date: Option<string>, valued: set<string>)
    requires CommitParser(valued)
    ensures Unambiguous(CommitArgs(message, allowEmpty, date), valued)
    ensures Meant(CommitArgs(message, allowEmpty, date))
         == Reading(["commit"], FlagIf(allowEmpty, "--allow-empty"),
                    [("-m", MessageOf(message))] + PairOpt(date, "--date"))
  {
    var head := [Word("commit"), Valued("-m", MessageOf(message))];
    CommitHeadMeant(MessageOf(message), valued);
    SwitchIfMeant(allowEmpty, "--allow-empty", valued);
    Joined(head, SwitchIf(allowEmpty, "--allow-empty"), valued);
    ValuedOptMeant(date, "--date", valued);
    Joined(head + SwitchIf(allowEmpty, "--allow-empty"), ValuedOpt(date, "--date"), valued);
  }

  /** A parser that knows `-m` and `--date` take a value reads the message, whatever it
      says, as the value of `-m`. */
  lemma CommitReads(message: Option<string>, allowEmpty: bool, date: Option<string>, valued: set<string>)
    requires CommitParser(valued)
    ensures ReadArgs(Render(CommitArgs(message, allowEmpty, date)), valued)
         == Reading(["commit"], FlagIf(allowEmpty, "--allow-empty"),
                    [("-m", MessageOf(message))] + PairOpt(date, "--date"))
  {
    CommitMeant(message, allowEmpty, date, valued);
    ReadRender(CommitArgs(message, allowEmpty, date), valued);
  }

  // ---------------------------------------------------------------------------
  // merge

  /** `merge`: `--squash` when asked, then the branch merged in. */
  function MergeArgs(branch: string, squash: bool): seq<Arg> {
    [Word("merge")] + SwitchIf(squash, "--squash") + [Word(branch)]
  }

  lemma MergeReads(branch: string, squash: bool)
    requires PlainWords([branch], {})
    ensures ReadArgs(Render(MergeArgs(branch, squash)), {})
         == Reading(["merge", branch], FlagIf(squash, "--squash"), [])
  {
    assert [branch][0] == branch;
    OneMeant(Word("merge"), {});
    SwitchIfMeant(squash, "--squash", {});
    OneMeant(Word(branch), {});
    Joined([Word("merge")], SwitchIf(squash, "--squash"), {});
    Joined([Word("merge")] + SwitchIf(squash, "--squash"), [Word(branch)], {});
    ReadRender(MergeArgs(branch, squash), {});
  }

  const MergeAbortArgs: seq<Arg> := [Word("merge"), Switch("--abort")]

  function MergeDirtyError(branch: string, current: string): Error {
    ValueError("Changes in the working set, please commit before merging " + branch + " to " + current)
  }

  function MergeUnknownError(branch: string, current: string): Error {
    ValueError("Trying to merge in non-existent branch " + branch + " to " + current)
  }

  /** How `merge` reads the tool's answer, split into lines. */
  datatype MergeOutcome = FastForward | Conflict | Merged

  function MergeOutcomeOf(output: string): MergeOutcome {
    var lines := Split(output, "\n");
    if |lines| == 3 && Contains(lines[1], "Fast-forward") then FastForward
    else if |lines| == 5 && StartsWith(lines[2], "CONFLICT") then Conflict
    else Merged
  }

  /** The message of the commit that concludes a merge; the default names the two
      branches the other way round from the merge actually made. */
  function MergeMessage(message: Option<string>, current: string, branch: string): (m: string)
    ensures message.Some? ==> m == message.value
    ensures message.None? ==> StartsWith(m, "Merged " + current) && EndsWith(m, " into " + branch)
    ensures message.None? ==> |m| == |"Merged "| + |current| + |" into "| + |branch|
  {
    if message.Some? then message.value
    else
      var m := "Merged " + current + " into " + branch;
      Concat("Merged " + current, " into " + branch);
      assert m == "Merged " + current + (" into " + branch);
      m
  }

  /** The default merge message says the current branch was merged into the branch that
      was in fact merged into it: for two different branch names (which hold no spaces)
      it is never the message that names them the right way round. */
  lemma MergeMessageReversed(current: string, branch: string)
    requires current != branch && NoSpace(current) && NoSpace(branch)
    ensures MergeMessage(None, current, branch) != "Merged " + branch + " into " + current
  {
    var a := current + " into " + branch;
    var b := branch + " into " + current;
    assert MergeMessage(None, current, branch) == "Merged " + a;
    assert "Merged " + branch + " into " + current == "Merged " + b;
    if "Merged " + a == "Merged " + b {
      assert a == ("Merged " + a)[7..];
      assert b == ("Merged " + b)[7..];
      assert a == current + (" into " + branch) && b == branch + (" into " + current);
      SameFirstWord(current, " into " + branch, branch, " into " + current);
    }
  }

  /** Two texts that are equal and each start with a word followed by a space start with
      the same word. */
  lemma SameFirstWord(w1: string, r1: string, w2: string, r2: string)
    requires NoSpace(w1) && NoSpace(w2) && r1 != [] && r1[0] == ' ' && r2 != [] && r2[0] == ' '
    requires w1 + r1 == w2 + r2
    ensures w1 == w2
  {
    var s := w1 + r1;
    var j := if |w1| < |w2| then |w1| else |w2|;
    WordEnd(w1, r1, j);
    WordEnd(w2, r2, j);
    assert w1 == s[..|w1|] == w2;
  }

  /** Within a word followed by a text starting with a space, the first space is where
      the word ends. */
  lemma WordEnd(w: string, r: string, j: nat)
    requires NoSpace(w) && r != [] && r[0] == ' ' && j <= |w|
    ensures (w + r)[j] == ' ' <==> j == |w|
  {
    if j < |w| {
      assert (w + r)[j] == w[j] && !IsSpace(w[j]);
    }
  }

  // ---------------------------------------------------------------------------
  // diff

  /** `diff` raises the message that `branch` raises for its own switches. */
  const AtMostOneError: Error := ValueError("At most one of delete, copy, move can be set to True")

  /** `list.extend` with a string: one argument per character. */
  function Chars(s: string): (toks: seq<Arg>)
    ensures |toks| == |s|
  {
    if s == [] then []
    else (if IsFlag([s[0]]) then [Switch([s[0]])] else [Word([s[0]])]) + Chars(s[1..])
  }

  /** Each character of `s` as a one-character string. */
  function Singles(s: string): (r: seq<string>)
    ensures |r| == |s|
  {
    if s == [] then [] else [[s[0]]] + Singles(s[1..])
  }

  lemma {:induction false} CharsRender(s: string)
    ensures Render(Chars(s)) == Singles(s)
  {
    if s != [] {
      CharsRender(s[1..]);
      var t := if IsFlag([s[0]]) then Switch([s[0]]) else Word([s[0]]);
      assert Chars(s) == [t] + Chars(s[1..]);
      assert Chars(s)[0] == t && Chars(s)[1..] == Chars(s[1..]);
      assert Render(Chars(s)) == [[s[0]]] + Render(Chars(s[1..]));
    }
  }

  /** Truthiness of an optional count. */
  predicate Positive(n: Option<int>) {
    n.Some? && n.value != 0
  }

  /** `if tables: args.append(" ".join(to_list(tables)))`: all the names in one argument. */
  function TablesArg(tables: Names): seq<Arg> {
    if NamesGiven(tables) then [Word(Join(" ", ToList(tables).value))] else []
  }

  function TablesText(tables: Names): seq<string> {
    if NamesGiven(tables) then [Join(" ", ToList(tables).value)] else []
  }

  lemma TablesArgMeant(tables: Names, valued: set<string>)
    requires PlainWords(TablesText(tables), valued)
    ensures Unambiguous(TablesArg(tables), valued)
    ensures Meant(TablesArg(tables)) == Reading(TablesText(tables), [], [])
  {
    if NamesGiven(tables) {
      assert TablesText(tables)[0] == Join(" ", ToList(tables).value);
      OneMeant(Word(Join(" ", ToList(tables).value)), valued);
    }
  }

  /** `diff`: at most one of data, schema and summary; `--where` and `--limit` only go
      with a data diff. */
  function DiffArgs(commit: Option<string>, otherCommit: Option<string>, tables: Names, data: bool,
                    schema: bool, summary: bool, sql: bool, where: Option<string>, limit: Option<int>): (r: Result<seq<Arg>>)
    ensures r.Failure? <==> (data && schema) || (data && summary) || (schema && summary)
    ensures r.Failure? ==> r.error == AtMostOneError
  {
    if (data && schema) || (data && summary) || (schema && summary) then Failure(AtMostOneError)
    else
      Success([Word("diff")] + DataOptions(data, where, limit) + SwitchIf(summary, "--summary")
              + SchemaChars(schema) + SwitchIf(sql, "--sql")
              + WordIf(commit) + WordIf(otherCommit) + TablesArg(tables))
  }

  /** The valued options of a data diff. */
  function DataOptions(data: bool, where: Option<string>, limit: Option<int>): seq<Arg> {
    if data then ValuedIf(where, "--where") + LimitArg(limit) else []
  }

  /** `if limit: args.extend(["--limit", str(limit)])`. */
  function LimitArg(limit: Option<int>): seq<Arg> {
    if Positive(limit) then [Valued("--limit", IntToString(limit.value))] else []
  }

  /** `if schema: args.extend("--schema")`. */
  function SchemaChars(schema: bool): seq<Arg> {
    if schema then Chars("--schema") else []
  }

  /** `"--schema"` reaches the tool as eight one-character arguments. */
  lemma SchemaCharsRender()
    ensures Render(SchemaChars(true)) == Singles("--schema")
  {
    CharsRender("--schema");
  }

  /** No argument of `Singles(s)` is longer than one character. */
  lemma {:induction false} SinglesShort(s: string)
    ensures forall i :: 0 <= i < |Singles(s)| ==> Singles(s)[i] == [s[i]]
  {
    if s != [] {
      SinglesShort(s[1..]);
      assert Singles(s) == [[s[0]]] + Singles(s[1..]);
    }
  }

  function DataValues(data: bool, where: Option<string>, limit: Option<int>): seq<(string, string)> {
    if data then PairIf(where, "--where") + LimitPair(limit) else []
  }

  function LimitPair(limit: Option<int>): seq<(string, string)> {
    if Positive(limit) then [("--limit", IntToString(limit.value))] else []
  }

  /** What a parser must know to read a diff: `--where` and `--limit` take a value, the
      other words of the vector do not. */
  predicate DiffParser(valued: set<string>) {
    "--where" in valued && "--limit" in valued && "diff" !in valued && "--summary" !in valued && "--sql" !in valued
  }

  lemma DataOptionsMeant(data: bool, where: Option<string>, limit: Option<int>, valued: set<string>)
    requires DiffParser(valued)
    ensures Unambiguous(DataOptions(data, where, limit), valued)
    ensures Meant(DataOptions(data, where, limit)) == Reading([], [], DataValues(data, where, limit))
  {
    if data {
      ValuedIfMeant(where, "--where", valued);
      if Positive(limit) { OneMeant(Valued("--limit", IntToString(limit.value)), valued); }
      Joined(ValuedIf(where, "--where"), LimitArg(limit), valued);
    }
  }

  /** `diff` with its data options and `--summary`. */
  lemma DiffHeadMeant(data: bool, summary: bool, where: Option<string>, limit: Option<int>, valued: set<string>)
    requires DiffParser(valued)
    ensures var head := [Word("diff")] + DataOptions(data, where, limit) + SwitchIf(summary, "--summary");
      && Unambiguous(head, valued)
      && Meant(head) == Reading(["diff"], FlagIf(summary, "--summary"), DataValues(data, where, limit))
  {
    var opts := DataOptions(data, where, limit);
    OneMeant(Word("diff"), valued);
    DataOptionsMeant(data, where, limit, valued);
    Joined([Word("diff")], opts, valued);
    SwitchIfMeant(summary, "--summary", valued);
    Joined([Word("diff")] + opts, SwitchIf(summary, "--summary"), valued);
  }

  /** The options part of a diff without `schema`. */
  lemma DiffOptionsMeant(data: bool, summary: bool, sql: bool, where: Option<string>, limit: Option<int>, valued: set<string>)
    requires DiffParser(valued)
    ensures var front := [Word("diff")] + DataOptions(data, where, limit) + SwitchIf(summary, "--summary")
                         + SchemaChars(false) + SwitchIf(sql, "--sql");
      && Unambiguous(front, valued)
      && Meant(front) == Reading(["diff"], FlagIf(summary, "--summary") + FlagIf(sql, "--sql"),
                                 DataValues(data, where, limit))
  {
    var head := [Word("diff")] + DataOptions(data, where, limit) + SwitchIf(summary, "--summary");
    DiffHeadMeant(data, summary, where, limit, valued);
    assert head + SchemaChars(false) == head;
    SwitchIfMeant(sql, "--sql", valued);
    Joined(head, SwitchIf(sql, "--sql"), valued);
  }

  /** The operands of a diff, after its options: the commits and the tables. */
  lemma DiffOperandsMeant(front: seq<Arg>, commit: Option<string>, otherCommit: Option<string>, tables: Names,
                          valued: set<string>, rd: Reading)
    requires Unambiguous(front, valued) && Meant(front) == rd
    requires PlainWords(WordsIf(commit), valued) && PlainWords(WordsIf(otherCommit), valued)
    requires PlainWords(TablesText(tables), valued)
    ensures var toks := front + WordIf(commit) + WordIf(otherCommit) + TablesArg(tables);
      && Unambiguous(toks, valued)
      && Meant(toks) == Reading(rd.words + WordsIf(commit) + WordsIf(otherCommit) + TablesText(tables),
                                rd.switches, rd.values)
  {
    WordIfMeant(commit, valued);
    WordIfMeant(otherCommit, valued);
    TablesArgMeant(tables, valued);
    var a := front + WordIf(commit);
    Joined(front, WordIf(commit), valued);
    BeforeWords(rd, WordsIf(commit));
    var b := a + WordIf(otherCommit);
    Joined(a, WordIf(otherCommit), valued);
    BeforeWords(Meant(a), WordsIf(otherCommit));
    Joined(b, TablesArg(tables), valued);
    BeforeWords(Meant(b), TablesText(tables));
  }

  /** Without `schema`, the tool reads the commits and then the tables as operands,
      `--where` and `--limit` only for a data diff, and the summary and sql switches as
      asked. */
  lemma DiffReads(commit: Option<string>, otherCommit: Option<string>, tables: Names, data: bool,
                  summary: bool, sql: bool, where: Option<string>, limit: Option<int>, valued: set<string>)
    requires DiffParser(valued) && !(data && summary)
    requires PlainWords(WordsIf(commit), valued) && PlainWords(WordsIf(otherCommit), valued)
    requires PlainWords(TablesText(tables), valued)
    ensures ReadArgs(Render(DiffArgs(commit, otherCommit, tables, data, false, summary, sql, where, limit).value), valued)
         == Reading(["diff"] + WordsIf(commit) + WordsIf(otherCommit) + TablesText(tables),
                    FlagIf(summary, "--summary") + FlagIf(sql, "--sql"), DataValues(data, where, limit))
  {
    var front := [Word("diff")] + DataOptions(data, where, limit) + SwitchIf(summary, "--summary")
                 + SchemaChars(false) + SwitchIf(sql, "--sql");
    DiffOptionsMeant(data, summary, sql, where, limit, valued);
    DiffOperandsMeant(front, commit, otherCommit, tables, valued, Meant(front));
    ReadRender(DiffArgs(commit, otherCommit, tables, data, false, summary, sql, where, limit).value, valued);
  }

  /** `toks` begins with `front`. */
  predicate Extends(toks: seq<Arg>, front: seq<Arg>) {
    |front| <= |toks| && toks[..|front|] == front
  }

  /** The arguments of a vector begin with the arguments of any prefix of it. */
  lemma RenderExtends(toks: seq<Arg>, front: seq<Arg>)
    requires Extends(toks, front)
    ensures |Render(front)| <= |Render(toks)| && Render(toks)[..|Render(front)|] == Render(front)
  {
    assert toks == front + toks[|front|..];
    RenderAppend(front, toks[|front|..]);
  }

  /** The start of a schema diff: `diff`, then the characters of `--schema`. */
  lemma DiffSchemaFront(where: Option<string>, limit: Option<int>)
    ensures Render([Word("diff")] + DataOptions(false, where, limit) + SwitchIf(false, "--summary") + SchemaChars(true))
         == ["diff"] + Singles("--schema")
  {
    assert [Word("diff")] + DataOptions(false, where, limit) + SwitchIf(false, "--summary") == [Word("diff")];
    RenderAppend([Word("diff")], SchemaChars(true));
    SchemaCharsRender();
  }

  /** With `schema`, the eight arguments after `diff` are the characters of "--schema",
      one by one: the tool is never given the `--schema` switch. */
  lemma DiffSchemaQuirk(commit: Option<string>, otherCommit: Option<string>, tables: Names,
                        sql: bool, where: Option<string>, limit: Option<int>)
    ensures var args := Render(DiffArgs(commit, otherCommit, tables, false, true, false, sql, where, limit).value);
      && |args| >= 9 && args[..9] == ["diff"] + Singles("--schema")
  {
    var front := [Word("diff")] + DataOptions(false, where, limit) + SwitchIf(false, "--summary") + SchemaChars(true);
    var toks := front + SwitchIf(sql, "--sql") + WordIf(commit) + WordIf(otherCommit) + TablesArg(tables);
    assert DiffArgs(commit, otherCommit, tables, false, true, false, sql, where, limit) == Success(toks);
    ExtendsFour(front, SwitchIf(sql, "--sql"), WordIf(commit), WordIf(otherCommit), TablesArg(tables));
    RenderExtends(toks, front);
    DiffSchemaFront(where, limit);
  }

  lemma ExtendsFour(front: seq<Arg>, a: seq<Arg>, b: seq<Arg>, c: seq<Arg>, d: seq<Arg>)
    ensures Extends(front + a + b + c + d, front)
  {
    assert front + a + b + c + d == front + (a + b + c + d);
    assert (front + (a + b + c + d))[..|front|] == front;
  }

  // ---------------------------------------------------------------------------
  // blame

  /** `blame`: the revision when one is given, then the table. */
  function BlameArgs(table: string, rev: Option<string>): seq<Arg> {
    [Word("blame")] + WordIf(rev) + [Word(table)]
  }

  lemma BlameReads(table: string, rev: Option<string>)
    requires PlainWords(WordsIf(rev) + [table], {})
    ensures ReadArgs(Render(BlameArgs(table, rev)), {}) == Reading(["blame"] + WordsIf(rev) + [table], [], [])
  {
    assert PlainWords(WordsIf(rev), {}) && !IsFlag(table) by {
      assert forall i :: 0 <= i < |WordsIf(rev)| ==> (WordsIf(rev) + [table])[i] == WordsIf(rev)[i];
      assert (WordsIf(rev) + [table])[|WordsIf(rev)|] == table;
    }
    OneMeant(Word("blame"), {});
    WordIfMeant(rev, {});
    OneMeant(Word(table), {});
    Joined([Word("blame")], WordIf(rev), {});
    Joined([Word("blame")] + WordIf(rev), [Word(table)], {});
    ReadRender(BlameArgs(table, rev), {});
  }

  // ---------------------------------------------------------------------------
  // branch

  const BranchForceError: Error :=
    ValueError("force is not valid without providing a new branch name, or copy, move, or delete being true")
  const CopyNeedsNewError: Error := ValueError("must provide new_branch when copying a branch")
  const DeleteNeedsNameError: Error := ValueError("must provide branch_name when deleting")
  const MoveNeedsNewError: Error := ValueError("must provide new_branch when moving a branch")

  /** More than one of three switches. */
  predicate TwoOf(a: bool, b: bool, c: bool) {
    (a && b) || (a && c) || (b && c)
  }

  /** What `branch` does: only list the branches, or run a vector and then list them. */
  datatype BranchPlan = ListOnly | RunThenList(toks: seq<Arg>)

  /** `branch`: at most one of delete, copy and move; `force` only with something to do.
      A name without a switch creates the branch (at the start point, when given); copy
      and move need the new name, delete needs the name. */
  function BranchArgs(name: Option<string>, start: Option<string>, newBranch: Option<string>,
                      force: bool, delete: bool, copy: bool, move: bool): (r: Result<BranchPlan>)
    ensures r == Failure(AtMostOneError) <==> TwoOf(delete, copy, move)
    ensures r == Failure(BranchForceError) <==>
      !TwoOf(delete, copy, move) && !Given(name) && !delete && !copy && !move && force
    ensures r == Success(ListOnly) <==>
      !TwoOf(delete, copy, move) && !Given(name) && !delete && !copy && !move && !force
    ensures r == Failure(CopyNeedsNewError) <==> !TwoOf(delete, copy, move) && copy && !Given(newBranch)
    ensures r == Failure(DeleteNeedsNameError) <==> !TwoOf(delete, copy, move) && delete && !Given(name)
    ensures r == Failure(MoveNeedsNewError) <==> !TwoOf(delete, copy, move) && move && !Given(newBranch)
    ensures r.Success? && r.value.RunThenList? ==> |r.value.toks| >= 1 && r.value.toks[0] == Word("branch")
  {
    if TwoOf(delete, copy, move) then Failure(AtMostOneError)
    else if !(Given(name) || delete || copy || move) then
      if force then Failure(BranchForceError) else Success(ListOnly)
    else
      var base := [Word("branch")] + SwitchIf(force, "--force");
      if Given(name) && !(delete || copy || move) then Success(RunThenList(Creation(base, name.value, start)))
      else if copy then
        if !Given(newBranch) then Failure(CopyNeedsNewError)
        else Success(RunThenList(Relocation(base, "--copy", name, newBranch.value)))
      else if delete then
        if !Given(name) then Failure(DeleteNeedsNameError)
        else Success(RunThenList(base + [Switch("--delete"), Word(name.value)]))
      else if move then
        if !Given(newBranch) then Failure(MoveNeedsNewError)
        else Success(RunThenList(Relocation(base, "--move", name, newBranch.value)))
      else
        // The closing `if branch_name` block of the source: every case reaching it was
        // taken by the first test above.
        assert false; Success(ListOnly)
  }

  /** Create: the name, then the start point when given. */
  function Creation(base: seq<Arg>, name: string, start: Option<string>): seq<Arg> {
    base + [Word(name)] + WordIf(start)
  }

  /** Copy and move: the switch, the branch (when given), then the new name. */
  function Relocation(base: seq<Arg>, op: string, name: Option<string>, newBranch: string): seq<Arg> {
    base + [Switch(op)] + WordIf(name) + [Word(newBranch)]
  }

  /** The reading of `branch` with `--force` when asked. */
  lemma BranchBaseMeant(force: bool)
    ensures Unambiguous([Word("branch")] + SwitchIf(force, "--force"), {})
    ensures Meant([Word("branch")] + SwitchIf(force, "--force")) == Reading(["branch"], FlagIf(force, "--force"), [])
  {
    OneMeant(Word("branch"), {});
    SwitchIfMeant(force, "--force", {});
    Joined([Word("branch")], SwitchIf(force, "--force"), {});
  }

  lemma BranchCreates(name: string, start: Option<string>, force: bool)
    requires name != ""
    ensures BranchArgs(Some(name), start, None, force, false, false, false)
         == Success(RunThenList(Creation([Word("branch")] + SwitchIf(force, "--force"), name, start)))
  {
  }

  lemma CreationMeant(name: string, start: Option<string>, force: bool)
    requires PlainWords([name], {}) && PlainWords(WordsIf(start), {})
    ensures var toks := Creation([Word("branch")] + SwitchIf(force, "--force"), name, start);
      && Unambiguous(toks, {})
      && Meant(toks) == Reading(["branch", name] + WordsIf(start), FlagIf(force, "--force"), [])
  {
    var base := [Word("branch")] + SwitchIf(force, "--force");
    assert [name][0] == name;
    BranchBaseMeant(force);
    OneMeant(Word(name), {});
    Joined(base, [Word(name)], {});
    WordIfMeant(start, {});
    Joined(base + [Word(name)], WordIf(start), {});
  }

  /** Creating a branch: the name and the start point are the operands. */
  lemma BranchCreateReads(name: string, start: Option<string>, force: bool)
    requires PlainWords([name], {}) && name != "" && PlainWords(WordsIf(start), {})
    ensures BranchArgs(Some(name), start, None, force, false, false, false).Success?
    ensures ReadArgs(Render(BranchArgs(Some(name), start, None, force, false, false, false).value.toks), {})
         == Reading(["branch", name] + WordsIf(start), FlagIf(force, "--force"), [])
  {
    BranchCreates(name, start, force);
    CreationMeant(name, start, force);
    ReadRender(Creation([Word("branch")] + SwitchIf(force, "--force"), name, start), {});
  }

  /** Copying or moving: the switch says which, and the operands are the branch (when
      given) and the new name. */
  lemma RelocationReads(force: bool, op: string, name: Option<string>, newBranch: string)
    requires IsFlag(op) && PlainWords(WordsIf(name), {}) && PlainWords([newBranch], {})
    ensures ReadArgs(Render(Relocation([Word("branch")] + SwitchIf(force, "--force"), op, name, newBranch)), {})
         == Reading(["branch"] + WordsIf(name) + [newBranch], FlagIf(force, "--force") + [op], [])
  {
    var base := [Word("branch")] + SwitchIf(force, "--force");
    assert [newBranch][0] == newBranch;
    BranchBaseMeant(force);
    OneMeant(Switch(op), {});
    Joined(base, [Switch(op)], {});
    WordIfMeant(name, {});
    Joined(base + [Switch(op)], WordIf(name), {});
    OneMeant(Word(newBranch), {});
    Joined(base + [Switch(op)] + WordIf(name), [Word(newBranch)], {});
    ReadRender(Relocation(base, op, name, newBranch), {});
  }

  /** Deleting: the `--delete` switch and the branch. */
  lemma BranchDeleteReads(name: string, force: bool)
    requires PlainWords([name], {}) && name != ""
    ensures ReadArgs(Render(BranchArgs(Some(name), None, None, force, true, false, false).value.toks), {})
         == Reading(["branch", name], FlagIf(force, "--force") + ["--delete"], [])
  {
    var base := [Word("branch")] + SwitchIf(force, "--force");
    assert [name][0] == name;
    BranchBaseMeant(force);
    OneMeant(Switch("--delete"), {});
    OneMeant(Word(name), {});
    Joined([Switch("--delete")], [Word(name)], {});
    assert [Switch("--delete"), Word(name)] == [Switch("--delete")] + [Word(name)];
    Joined(base, [Switch("--delete"), Word(name)], {});
    ReadRender(base + [Switch("--delete"), Word(name)], {});
  }

  // ---------------------------------------------------------------------------
  // checkout

  const CheckoutTablesError: Error := ValueError("No tables may be provided when creating a branch with checkout")

  /** `checkout`: a branch (created with `-b` when asked, at the start point when given) or
      tables, never both; `--track` with the upstream when one is given. */
  function CheckoutArgs(branch: Option<string>, tables: Names, create: bool, start: Option<string>,
                        track: Option<string>): (r: Result<seq<Arg>>)
    ensures r.Failure? <==> NamesGiven(tables) && Given(branch)
    ensures r.Failure? ==> r.error == CheckoutTablesError
  {
    if NamesGiven(tables) && Given(branch) then Failure(CheckoutTablesError)
    else Success([Word("checkout")] + BranchTarget(branch, create, start) + TablesArg(tables) + ValuedOpt(track, "--track"))
  }

  /** `-b` with the branch to create, or the branch alone, then the start point; nothing
      without a branch. */
  function BranchTarget(branch: Option<string>, create: bool, start: Option<string>): seq<Arg> {
    if Given(branch) then BranchWord(branch.value, create) + WordIf(start) else []
  }

  function BranchWord(b: string, create: bool): seq<Arg> {
    if create then [Valued("-b", b)] else [Word(b)]
  }

  /** The options of `checkout` that take a value. */
  const CheckoutValued: set<string> := {"-b", "--track"}

  lemma CheckoutBranchTokens(b: string, create: bool, start: Option<string>, track: Option<string>)
    requires b != ""
    ensures CheckoutArgs(Some(b), NoNames, create, start, track)
         == Success([Word("checkout")] + BranchWord(b, create) + WordIf(start) + ValuedOpt(track, "--track"))
  {
    assert TablesArg(NoNames) == [];
    assert BranchTarget(Some(b), create, start) == BranchWord(b, create) + WordIf(start);
    assert [Word("checkout")] + (BranchWord(b, create) + WordIf(start)) + []
        == [Word("checkout")] + BranchWord(b, create) + WordIf(start);
  }

  lemma CheckoutHeadMeant(b: string, create: bool)
    requires PlainWords([b], CheckoutValued)
    ensures Unambiguous([Word("checkout")] + BranchWord(b, create), CheckoutValued)
    ensures Meant([Word("checkout")] + BranchWord(b, create))
         == Reading(["checkout"] + (if create then [] else [b]), [], if create then [("-b", b)] else [])
  {
    assert [b][0] == b;
    OneMeant(Word("checkout"), CheckoutValued);
    if create { OneMeant(Valued("-b", b), CheckoutValued); } else { OneMeant(Word(b), CheckoutValued); }
    Joined([Word("checkout")], BranchWord(b, create), CheckoutValued);
  }

  /** Switching to (or creating) a branch: the branch is the value of `-b` when created
      and an operand otherwise; the start point follows it, the upstream is `--track`'s. */
  lemma CheckoutBranchReads(b: string, create: bool, start: Option<string>, track: Option<string>)
    requires b != "" && PlainWords([b], CheckoutValued) && PlainWords(WordsIf(start), CheckoutValued)
    ensures CheckoutArgs(Some(b), NoNames, create, start, track).Success?
    ensures ReadArgs(Render(CheckoutArgs(Some(b), NoNames, create, start, track).value), CheckoutValued)
         == Reading(["checkout"] + (if create then [] else [b]) + WordsIf(start), [],
                    (if create then [("-b", b)] else []) + PairOpt(track, "--track"))
  {
    CheckoutBranchTokens(b, create, start, track);
    CheckoutHeadMeant(b, create);
    CheckoutTailReads([Word("checkout")] + BranchWord(b, create), start, track, CheckoutValued);
  }

  lemma CheckoutTailReads(head: seq<Arg>, start: Option<string>, track: Option<string>, valued: set<string>)
    requires Unambiguous(head, valued) && "--track" in valued && PlainWords(WordsIf(start), valued)
    ensures ReadArgs(Render(head + WordIf(start) + ValuedOpt(track, "--track")), valued)
         == Reading(Meant(head).words + WordsIf(start), Meant(head).switches,
                    Meant(head).values + PairOpt(track, "--track"))
  {
    WordIfMeant(start, valued);
    Joined(head, WordIf(start), valued);
    ValuedOptMeant(track, "--track", valued);
    Joined(head + WordIf(start), ValuedOpt(track, "--track"), valued);
    ReadRender(head + WordIf(start) + ValuedOpt(track, "--track"), valued);
    var m := Meant(head);
    assert m.words + WordsIf(start) + [] == m.words + WordsIf(start);
    assert m.switches + [] + [] == m.switches;
    assert m.values + [] + PairOpt(track, "--track") == m.values + PairOpt(track, "--track");
  }

  lemma CheckoutTablesTokens(tables: Names, track: Option<string>)
    ensures CheckoutArgs(None, tables, false, None, track)
         == Success([Word("checkout")] + TablesArg(tables) + ValuedOpt(track, "--track"))
  {
    assert BranchTarget(None, false, None) == [];
    assert [Word("checkout")] + [] == [Word("checkout")];
  }

  lemma CheckoutTablesMeant(tables: Names, track: Option<string>)
    requires PlainWords(TablesText(tables), CheckoutValued)
    ensures Unambiguous([Word("checkout")] + TablesArg(tables) + ValuedOpt(track, "--track"), CheckoutValued)
    ensures Meant([Word("checkout")] + TablesArg(tables) + ValuedOpt(track, "--track"))
         == Reading(["checkout"] + TablesText(tables), [], PairOpt(track, "--track"))
  {
    OneMeant(Word("checkout"), CheckoutValued);
    TablesArgMeant(tables, CheckoutValued);
    Joined([Word("checkout")], TablesArg(tables), CheckoutValued);
    ValuedOptMeant(track, "--track", CheckoutValued);
    Joined([Word("checkout")] + TablesArg(tables), ValuedOpt(track, "--track"), CheckoutValued);
  }

  /** Checking out tables: all the names in one operand, the upstream as `--track`'s value. */
  lemma CheckoutTablesReads(tables: Names, track: Option<string>)
    requires PlainWords(TablesText(tables), CheckoutValued)
    ensures CheckoutArgs(None, tables, false, None, track).Success?
    ensures ReadArgs(Render(CheckoutArgs(None, tables, false, None, track).value), CheckoutValued)
         == Reading(["checkout"] + TablesText(tables), [], PairOpt(track, "--track"))
  {
    CheckoutTablesTokens(tables, track);
    CheckoutTablesMeant(tables, track);
    ReadRender([Word("checkout")] + TablesArg(tables) + ValuedOpt(track, "--track"), CheckoutValued);
  }

  // ---------------------------------------------------------------------------
  // remote

  const RemoteBothError: Error := ValueError("add and remove are not comptaibe ")
  const RemoteRemoveNameError: Error := ValueError("Must provide the name of a remote to move")
  const RemoteAddError: Error := ValueError("Must provide name and url to add")

  /** What `remote` does: list the remotes, or change them. Both keep `--verbose`. */
  datatype RemotePlan = ListRemotes(toks: seq<Arg>) | ChangeRemotes(toks: seq<Arg>)

  const RemoteBase: seq<Arg> := [Word("remote"), Switch("--verbose")]

  /** `remote`: neither add nor remove lists; remove needs a name and excludes add; add
      needs a name and a URL. */
  function RemoteArgs(add: bool, name: Option<string>, url: Option<string>, remove: bool): (r: Result<RemotePlan>)
    ensures r.Success? && r.value.ListRemotes? <==> !add && !remove
    ensures r == Failure(RemoteBothError) <==> add && remove
    ensures r == Failure(RemoteRemoveNameError) <==> remove && !add && !Given(name)
    ensures r == Failure(RemoteAddError) <==> add && !remove && !(Given(name) && Given(url))
    ensures r.Success? ==> |r.value.toks| >= 2 && r.value.toks[..2] == RemoteBase
  {
    if !(add || remove) then Success(ListRemotes(RemoteBase))
    else if remove && add then Failure(RemoteBothError)
    else if remove && !Given(name) then Failure(RemoteRemoveNameError)
    else if remove then Success(ChangeRemotes(RemoteBase + [Word("remove"), Word(name.value)]))
    else if !(Given(name) && Given(url)) then Failure(RemoteAddError)
    else Success(ChangeRemotes(RemoteBase + [Word("add"), Word(name.value), Word(url.value)]))
  }

  lemma RemoteBaseMeant()
    ensures Unambiguous(RemoteBase, {}) && Meant(RemoteBase) == Reading(["remote"], ["--verbose"], [])
  {
    OneMeant(Word("remote"), {});
    OneMeant(Switch("--verbose"), {});
    Joined([Word("remote")], [Switch("--verbose")], {});
  }

  lemma ChangeMeant(ws: seq<string>)
    requires PlainWords(ws, {})
    ensures Unambiguous(RemoteBase + Words(ws), {})
    ensures Meant(RemoteBase + Words(ws)) == Reading(["remote"] + ws, ["--verbose"], [])
  {
    RemoteBaseMeant();
    WordsMeant(ws, {});
    Joined(RemoteBase, Words(ws), {});
  }

  /** Adding a remote: the sub-command, the name and the URL are operands. */
  lemma RemoteAddReads(name: string, url: string)
    requires name != "" && url != "" && PlainWords([name, url], {})
    ensures RemoteArgs(true, Some(name), Some(url), false) == Success(ChangeRemotes(RemoteBase + Words(["add", name, url])))
    ensures ReadArgs(Render(RemoteBase + Words(["add", name, url])), {})
         == Reading(["remote", "add", name, url], ["--verbose"], [])
  {
    assert [name, url][0] == name && [name, url][1] == url;
    assert Words(["add", name, url]) == [Word("add"), Word(name), Word(url)];
    ChangeMeant(["add", name, url]);
    ReadRender(RemoteBase + Words(["add", name, url]), {});
  }

  /** Removing a remote: the sub-command and the name are operands. */
  lemma RemoteRemoveReads(name: string)
    requires name != "" && PlainWords([name], {})
    ensures RemoteArgs(false, Some(name), None, true) == Success(ChangeRemotes(RemoteBase + Words(["remove", name])))
    ensures ReadArgs(Render(RemoteBase + Words(["remove", name])), {})
         == Reading(["remote", "remove", name], ["--verbose"], [])
  {
    assert [name][0] == name;
    assert Words(["remove", name]) == [Word("remove"), Word(name)];
    ChangeMeant(["remove", name]);
    ReadRender(RemoteBase + Words(["remove", name]), {});
  }

  // ---------------------------------------------------------------------------
  // push, pull, fetch

  /** `push`: the upstream and force switches when asked, the remote, then the refspec
      when given. */
  function PushArgs(remote: string, refspec: Option<string>, setUpstream: bool, force: bool): seq<Arg> {
    [Word("push")] + SwitchIf(setUpstream, "--set-upstream") + SwitchIf(force, "--force")
    + [Word(remote)] + WordIf(refspec)
  }

  /** `pull`: the remote, then the branch when it is not `None`. */
  function PullArgs(remote: string, branch: Option<string>): seq<Arg> {
    [Word("pull"), Word(remote)] + WordOpt(branch)
  }

  /** `fetch`: `--force` when asked, the remote when non-empty, then every refspec as an
      argument of its own. */
  function FetchArgs(remote: string, refspecs: Names, force: bool): seq<Arg> {
    [Word("fetch")] + SwitchIf(force, "--force") + WordIf(Some(remote)) + Refspecs(refspecs)
  }

  /** `if refspecs: args.extend(to_list(refspecs))`. */
  function Refspecs(refspecs: Names): seq<Arg> {
    if NamesGiven(refspecs) then Words(ToList(refspecs).value) else []
  }

  function RefspecsText(refspecs: Names): seq<string> {
    if NamesGiven(refspecs) then ToList(refspecs).value else []
  }

  lemma PushHeadMeant(setUpstream: bool, force: bool)
    ensures var head := [Word("push")] + SwitchIf(setUpstream, "--set-upstream") + SwitchIf(force, "--force");
      && Unambiguous(head, {})
      && Meant(head) == Reading(["push"], FlagIf(setUpstream, "--set-upstream") + FlagIf(force, "--force"), [])
  {
    OneMeant(Word("push"), {});
    SwitchIfMeant(setUpstream, "--set-upstream", {});
    Joined([Word("push")], SwitchIf(setUpstream, "--set-upstream"), {});
    SwitchIfMeant(force, "--force", {});
    Joined([Word("push")] + SwitchIf(setUpstream, "--set-upstream"), SwitchIf(force, "--force"), {});
  }

  /** `push`: the remote and the refspec are the operands, in that order. */
  lemma PushReads(remote: string, refspec: Option<string>, setUpstream: bool, force: bool)
    requires PlainWords([remote], {}) && PlainWords(WordsIf(refspec), {})
    ensures ReadArgs(Render(PushArgs(remote, refspec, setUpstream, force)), {})
         == Reading(["push", remote] + WordsIf(refspec), FlagIf(setUpstream, "--set-upstream") + FlagIf(force, "--force"), [])
  {
    var head := [Word("push")] + SwitchIf(setUpstream, "--set-upstream") + SwitchIf(force, "--force");
    assert [remote][0] == remote;
    PushHeadMeant(setUpstream, force);
    OneMeant(Word(remote), {});
    Joined(head, [Word(remote)], {});
    WordIfMeant(refspec, {});
    Joined(head + [Word(remote)], WordIf(refspec), {});
    ReadRender(PushArgs(remote, refspec, setUpstream, force), {});
  }

  /** `pull`: the remote, then the branch when one is given. */
  lemma PullReads(remote: string, branch: Option<string>)
    requires PlainWords([remote], {}) && PlainWords(WordsOpt(branch), {})
    ensures ReadArgs(Render(PullArgs(remote, branch)), {}) == Reading(["pull", remote] + WordsOpt(branch), [], [])
  {
    assert [remote][0] == remote;
    WordsMeant(["pull", remote], {});
    assert Words(["pull", remote]) == [Word("pull"), Word(remote)];
    WordOptMeant(branch, {});
    Joined([Word("pull"), Word(remote)], WordOpt(branch), {});
    ReadRender(PullArgs(remote, branch), {});
  }

  lemma RefspecsMeant(refspecs: Names, valued: set<string>)
    requires PlainWords(RefspecsText(refspecs), valued)
    ensures Unambiguous(Refspecs(refspecs), valued) && Meant(Refspecs(refspecs)) == Reading(RefspecsText(refspecs), [], [])
  {
    if NamesGiven(refspecs) { WordsMeant(ToList(refspecs).value, valued); }
  }

  /** `fetch`: the remote (when named) and then every refspec are the operands. */
  lemma FetchReads(remote: string, refspecs: Names, force: bool)
    requires PlainWords(WordsIf(Some(remote)), {}) && PlainWords(RefspecsText(refspecs), {})
    ensures ReadArgs(Render(FetchArgs(remote, refspecs, force)), {})
         == Reading(["fetch"] + WordsIf(Some(remote)) + RefspecsText(refspecs), FlagIf(force, "--force"), [])
  {
    var head := [Word("fetch")] + SwitchIf(force, "--force");
    OneMeant(Word("fetch"), {});
    SwitchIfMeant(force, "--force", {});
    Joined([Word("fetch")], SwitchIf(force, "--force"), {});
    FetchTailMeant(head, remote, refspecs);
    ReadRender(FetchArgs(remote, refspecs, force), {});
  }

  lemma FetchTailMeant(head: seq<Arg>, remote: string, refspecs: Names)
    requires Unambiguous(head, {}) && PlainWords(WordsIf(Some(remote)), {}) && PlainWords(RefspecsText(refspecs), {})
    ensures Unambiguous(head + WordIf(Some(remote)) + Refspecs(refspecs), {})
    ensures Meant(head + WordIf(Some(remote)) + Refspecs(refspecs))
         == Reading(Meant(head).words + WordsIf(Some(remote)) + RefspecsText(refspecs), Meant(head).switches, Meant(head).values)
  {
    WordIfMeant(Some(remote), {});
    Joined(head, WordIf(Some(remote)), {});
    RefspecsMeant(refspecs, {});
    Joined(head + WordIf(Some(remote)), Refspecs(refspecs), {});
  }

  // ---------------------------------------------------------------------------
  // ls

  /** `ls --verbose`, with `--all` and `--system` when asked. */
  function LsArgs(system: bool, all: bool): seq<Arg> {
    [Word("ls"), Switch("--verbose")] + SwitchIf(all, "--all") + SwitchIf(system, "--system")
  }

  /** `ls --verbose`: only switches after the sub-command. */
  lemma LsReads(system: bool, all: bool)
    ensures ReadArgs(Render(LsArgs(system, all)), {})
         == Reading(["ls"], ["--verbose"] + FlagIf(all, "--all") + FlagIf(system, "--system"), [])
  {
    var head := [Word("ls"), Switch("--verbose")];
    OneMeant(Word("ls"), {});
    OneMeant(Switch("--verbose"), {});
    Joined([Word("ls")], [Switch("--verbose")], {});
    LsTailMeant(head, system, all);
    ReadRender(LsArgs(system, all), {});
  }

  lemma LsTailMeant(head: seq<Arg>, system: bool, all: bool)
    requires Unambiguous(head, {})
    ensures Unambiguous(head + SwitchIf(all, "--all") + SwitchIf(system, "--system"), {})
    ensures Meant(head + SwitchIf(all, "--all") + SwitchIf(system, "--system"))
         == Reading(Meant(head).words, Meant(head).switches + FlagIf(all, "--all") + FlagIf(system, "--system"), Meant(head).values)
  {
    SwitchIfMeant(all, "--all", {});
    Joined(head, SwitchIf(all, "--all"), {});
    SwitchIfMeant(system, "--system", {});
    Joined(head + SwitchIf(all, "--all"), SwitchIf(system, "--system"), {});
  }

  // ---------------------------------------------------------------------------
  // config

  const ConfigOneError: Error := ValueError("Exactly one of add, list, get, unset must be True")
  const ConfigScopeError: Error := ValueError("Must pass either global_config")
  const ConfigAddError: Error := ValueError("For add, name and value must be set")
  const ConfigListError: Error := ValueError("For list, no name and value provided")
  /** `get` and `unset` raise the same message. */
  const ConfigGetError: Error := ValueError("For get, only name is provided")

  /** How many of four switches are set. */
  function CountOf(a: bool, b: bool, c: bool, d: bool): nat {
    (if a then 1 else 0) + (if b then 1 else 0) + (if c then 1 else 0) + (if d then 1 else 0)
  }

  /** `_config_helper`: exactly one action, a scope, and for each action the name and
      value it needs; the global scope wins when both are set. */
  function ConfigArgs(global: bool, local: bool, name: Option<string>, value: Option<string>,
                      add: bool, list: bool, get: bool, unset: bool): (r: Result<seq<Arg>>)
    ensures r == Failure(ConfigOneError) <==> CountOf(add, list, get, unset) != 1
    ensures r == Failure(ConfigScopeError) <==> CountOf(add, list, get, unset) == 1 && !global && !local
    ensures r == Failure(ConfigAddError) <==>
      CountOf(add, list, get, unset) == 1 && (global || local) && add && !(Given(name) && Given(value))
    ensures r == Failure(ConfigListError) <==>
      CountOf(add, list, get, unset) == 1 && (global || local) && list && (Given(name) || Given(value))
    ensures r == Failure(ConfigGetError) <==>
      CountOf(add, list, get, unset) == 1 && (global || local) && (get || unset) && (!Given(name) || Given(value))
  {
    if CountOf(add, list, get, unset) != 1 then Failure(ConfigOneError)
    else if !global && !local then Failure(ConfigScopeError)
    else
      var scope := if global then "--global" else "--local";
      if add then
        if !(Given(name) && Given(value)) then Failure(ConfigAddError)
        else Success(ConfigVector(scope, "--add", [name.value, value.value]))
      else if list then
        if Given(name) || Given(value) then Failure(ConfigListError)
        else Success(ConfigVector(scope, "--list", []))
      else if get then
        if !Given(name) || Given(value) then Failure(ConfigGetError)
        else Success(ConfigVector(scope, "--get", [name.value]))
      else
        if !Given(name) || Given(value) then Failure(ConfigGetError)
        else Success(ConfigVector(scope, "--unset", [name.value]))
  }

  /** `config`, the scope, the action, then its operands. */
  function ConfigVector(scope: string, action: string, operands: seq<string>): seq<Arg> {
    Layout(["config"], [(true, scope), (true, action)], [], [], operands)
  }

  /** `config` one piece at a time, as `_config_helper` grows it. */
  lemma ConfigTokens(scope: string, action: string, operands: seq<string>)
    ensures ConfigVector(scope, action, operands) == [Word("config"), Switch(scope), Switch(action)] + Words(operands)
  {
    Flags2((true, scope), (true, action));
    assert Words(["config"]) == [Word("config")];
    assert Flags([]) == [];
  }

  /** The action switch of a successful `config` call. */
  function ConfigAction(add: bool, list: bool, get: bool): string {
    if add then "--add" else if list then "--list" else if get then "--get" else "--unset"
  }

  /** The operands of a successful `config` call: name and value for add, nothing for
      list, the name for get and unset. */
  function ConfigOperands(name: Option<string>, value: Option<string>, add: bool, list: bool): seq<string>
    requires add ==> name.Some? && value.Some?
    requires !add && !list ==> name.Some?
  {
    if add then [name.value, value.value] else if list then [] else [name.value]
  }

  /** Every accepted `config` call reads back as the scope and the action, with exactly the
      operands that action needs. */
  lemma ConfigReads(global: bool, local: bool, name: Option<string>, value: Option<string>,
                    add: bool, list: bool, get: bool, unset: bool)
    requires ConfigArgs(global, local, name, value, add, list, get, unset).Success?
    requires PlainWords(WordsOpt(name), {}) && PlainWords(WordsOpt(value), {})
    ensures add ==> name.Some? && value.Some?
    ensures !add && !list ==> name.Some? && !Given(value)
    ensures ReadArgs(Render(ConfigArgs(global, local, name, value, add, list, get, unset).value), {})
         == Reading(["config"] + ConfigOperands(name, value, add, list),
                    [if global then "--global" else "--local", ConfigAction(add, list, get)], [])
  {
    var scope := if global then "--global" else "--local";
    ConfigAccepted(global, local, name, value, add, list, get, unset);
    var operands := ConfigOperands(name, value, add, list);
    assert PlainWords(operands, {}) by {
      if add { assert WordsOpt(name)[0] == operands[0] && WordsOpt(value)[0] == operands[1]; }
      else if !list { assert WordsOpt(name)[0] == operands[0]; }
    }
    ConfigVectorReads(scope, ConfigAction(add, list, get), operands);
  }

  lemma ConfigAccepted(global: bool, local: bool, name: Option<string>, value: Option<string>,
                       add: bool, list: bool, get: bool, unset: bool)
    requires ConfigArgs(global, local, name, value, add, list, get, unset).Success?
    ensures add ==> name.Some? && value.Some?
    ensures !add && !list ==> name.Some? && !Given(value)
    ensures ConfigArgs(global, local, name, value, add, list, get, unset).value
         == ConfigVector(if global then "--global" else "--local", ConfigAction(add, list, get),
                         ConfigOperands(name, value, add, list))
  {
    var scope := if global then "--global" else "--local";
    var r := ConfigArgs(global, local, name, value, add, list, get, unset);
    if add {
      assert r.value == ConfigVector(scope, "--add", [name.value, value.value]);
    } else if list {
      assert r.value == ConfigVector(scope, "--list", []);
    } else if get {
      assert r.value == ConfigVector(scope, "--get", [name.value]);
    } else {
      assert r.value == ConfigVector(scope, "--unset", [name.value]);
    }
  }

  lemma ConfigVectorReads(scope: string, action: string, operands: seq<string>)
    requires IsFlag(scope) && IsFlag(action) && PlainWords(operands, {})
    ensures ReadArgs(Render(ConfigVector(scope, action, operands)), {}) == Reading(["config"] + operands, [scope, action], [])
  {
    var flags := [(true, scope), (true, action)];
    assert flags[0].1 == scope && flags[1].1 == action;
    assert FlagsOn(flags) == [scope, action] by {
      assert FlagsOn(flags[1..]) == [action] + FlagsOn(flags[2..]);
    }
    assert Meant([]) == NoReading;
    LayoutReads(["config"], flags, [], [], operands, {});
  }

  // ---------------------------------------------------------------------------
  // schema import, table import, export, mv, cp

  const ModeCountError: Error := ValueError("Exactly one of create, update, replace must be True")
  const CreatePksError: Error := ValueError("When create is set to True, pks must be provided")
  const ReplacePksError: Error := ValueError("When replace is set to True, pks must be provided")

  /** Exactly one of three switches. */
  predicate OneOf(a: bool, b: bool, c: bool) {
    (a && !b && !c) || (!a && b && !c) || (!a && !b && c)
  }

  /** Python truthiness of an optional list of key columns. */
  predicate KeysGiven(pks: Option<seq<string>>) {
    pks.Some? && pks.value != []
  }

  /** `if pks: args.extend([flag, ",".join(pks)])`. */
  function KeysArg(pks: Option<seq<string>>, flag: string): seq<Arg> {
    if KeysGiven(pks) then [Valued(flag, Join(",", pks.value))] else []
  }

  function KeysPair(pks: Option<seq<string>>, flag: string): seq<(string, string)> {
    if KeysGiven(pks) then [(flag, Join(",", pks.value))] else []
  }

  /** The checks `schema_import` and `table_import` share: exactly one mode, and key
      columns for create and replace. */
  function ModeCheck(create: bool, update: bool, replace: bool, pks: Option<seq<string>>): (r: Outcome)
    ensures r == Fail(ModeCountError) <==> !OneOf(create, update, replace)
    ensures r == Fail(CreatePksError) <==> OneOf(create, update, replace) && create && !KeysGiven(pks)
    ensures r == Fail(ReplacePksError) <==> OneOf(create, update, replace) && replace && !KeysGiven(pks)
    ensures r == Pass <==> OneOf(create, update, replace) && (update || KeysGiven(pks))
  {
    if !OneOf(create, update, replace) then Fail(ModeCountError)
    else if create && !KeysGiven(pks) then Fail(CreatePksError)
    else if replace && !KeysGiven(pks) then Fail(ReplacePksError)
    else Pass
  }

  /** `if before: ...; if pks: args.extend([flag, ",".join(pks)]); if after: ...`: the
      options around the key columns. */
  function KeyedOptions(before: seq<(Option<string>, string)>, pks: Option<seq<string>>, pkFlag: string,
                        after: seq<(Option<string>, string)>): seq<Arg> {
    Options(before) + KeysArg(pks, pkFlag) + Options(after)
  }

  lemma KeyedOptionsMeant(before: seq<(Option<string>, string)>, pks: Option<seq<string>>, pkFlag: string,
                          after: seq<(Option<string>, string)>, valued: set<string>)
    requires OptionTable(before, valued) && pkFlag in valued && OptionTable(after, valued)
    ensures OnlyValues(KeyedOptions(before, pks, pkFlag, after), valued)
    ensures Meant(KeyedOptions(before, pks, pkFlag, after)).values
         == PairsOn(before) + KeysPair(pks, pkFlag) + PairsOn(after)
  {
    OptionsMeant(before, valued);
    if KeysGiven(pks) { OneMeant(Valued(pkFlag, Join(",", pks.value)), valued); }
    Joined(Options(before), KeysArg(pks, pkFlag), valued);
    OptionsMeant(after, valued);
    Joined(Options(before) + KeysArg(pks, pkFlag), Options(after), valued);
  }

  /** The options of `schema import` that take a value. */
  const SchemaValued: set<string> := {"--file_type", "--pks", "--map", "--float-threshold", "--delim"}

  /** `schema import`: the mode, dry-run and keep-types switches, the options, then the
      table and the file. The float threshold arrives as the text `str` gives it. */
  function SchemaImportArgs(table: string, filename: string, create: bool, update: bool, replace: bool,
                            dryRun: bool, keepTypes: bool, fileType: Option<string>, pks: Option<seq<string>>,
                            mapFile: Option<string>, floatThreshold: Option<string>, delim: Option<string>): (r: Result<seq<Arg>>)
    ensures r.Failure? <==> ModeCheck(create, update, replace, pks).Fail?
    ensures r.Failure? ==> r.error == ModeCheck(create, update, replace, pks).error
  {
    var check := ModeCheck(create, update, replace, pks);
    if check.Fail? then Failure(check.error)
    else
      Success(Layout(["schema", "import"], SchemaSwitches(create, update, replace, dryRun, keepTypes),
                     KeyedOptions([(fileType, "--file_type")], pks, "--pks",
                                  [(mapFile, "--map"), (floatThreshold, "--float-threshold"), (delim, "--delim")]),
                     [], [table, filename]))
  }

  function SchemaSwitches(create: bool, update: bool, replace: bool, dryRun: bool, keepTypes: bool): seq<(bool, string)> {
    [(create, "--create"), (update, "--update"), (replace, "--replace"), (dryRun, "--dry-run"), (keepTypes, "--keep-types")]
  }

  /** `schema import` one piece at a time, as `schema_import` grows it. */
  lemma SchemaImportTokens(table: string, filename: string, create: bool, update: bool, replace: bool,
                           dryRun: bool, keepTypes: bool, fileType: Option<string>, pks: Option<seq<string>>,
                           mapFile: Option<string>, floatThreshold: Option<string>, delim: Option<string>)
    requires ModeCheck(create, update, replace, pks) == Pass
    ensures SchemaImportArgs(table, filename, create, update, replace, dryRun, keepTypes, fileType, pks,
                             mapFile, floatThreshold, delim).value
         == [Word("schema"), Word("import")]
            + (SwitchIf(create, "--create") + SwitchIf(update, "--update") + SwitchIf(replace, "--replace")
               + SwitchIf(dryRun, "--dry-run") + SwitchIf(keepTypes, "--keep-types"))
            + (ValuedIf(fileType, "--file_type") + KeysArg(pks, "--pks")
               + (ValuedIf(mapFile, "--map") + ValuedIf(floatThreshold, "--float-threshold") + ValuedIf(delim, "--delim")))
            + [Word(table), Word(filename)]
  {
    var flags := SwitchIf(create, "--create") + SwitchIf(update, "--update") + SwitchIf(replace, "--replace")
                 + SwitchIf(dryRun, "--dry-run") + SwitchIf(keepTypes, "--keep-types");
    Flags5((create, "--create"), (update, "--update"), (replace, "--replace"), (dryRun, "--dry-run"), (keepTypes, "--keep-types"));
    var after := [(mapFile, "--map"), (floatThreshold, "--float-threshold"), (delim, "--delim")];
    var rest := ValuedIf(mapFile, "--map") + ValuedIf(floatThreshold, "--float-threshold") + ValuedIf(delim, "--delim");
    Options3((mapFile, "--map"), (floatThreshold, "--float-threshold"), (delim, "--delim"));
    var opts := ValuedIf(fileType, "--file_type") + KeysArg(pks, "--pks") + rest;
    assert KeyedOptions([(fileType, "--file_type")], pks, "--pks", after) == opts by {
      OptionsOne((fileType, "--file_type"));
    }
    assert Words(["schema", "import"]) == [Word("schema"), Word("import")];
    assert Words([table, filename]) == [Word(table), Word(filename)];
    LayoutNoMore(["schema", "import"], SchemaSwitches(create, update, replace, dryRun, keepTypes), opts, [table, filename]);
  }

  /** An accepted `schema import` reads back as the table and the file, the switches that
      are set, and the options that are given, the key columns joined with commas. */
  lemma SchemaImportReads(table: string, filename: string, create: bool, update: bool, replace: bool,
                          dryRun: bool, keepTypes: bool, fileType: Option<string>, pks: Option<seq<string>>,
                          mapFile: Option<string>, floatThreshold: Option<string>, delim: Option<string>)
    requires ModeCheck(create, update, replace, pks) == Pass
    requires PlainWords(["schema", "import", table, filename], SchemaValued)
    ensures SchemaImportArgs(table, filename, create, update, replace, dryRun, keepTypes, fileType, pks,
                             mapFile, floatThreshold, delim).Success?
    ensures ReadArgs(Render(SchemaImportArgs(table, filename, create, update, replace, dryRun, keepTypes, fileType,
                                             pks, mapFile, floatThreshold, delim).value), SchemaValued)
         == Reading(["schema", "import", table, filename],
                    FlagsOn(SchemaSwitches(create, update, replace, dryRun, keepTypes)),
                    PairIf(fileType, "--file_type") + KeysPair(pks, "--pks") + PairIf(mapFile, "--map")
                    + PairIf(floatThreshold, "--float-threshold") + PairIf(delim, "--delim"))
  {
    var after := [(mapFile, "--map"), (floatThreshold, "--float-threshold"), (delim, "--delim")];
    SchemaOptionsMeant(fileType, pks, mapFile, floatThreshold, delim);
    SchemaSwitchTable(create, update, replace, dryRun, keepTypes);
    var switches := SchemaSwitches(create, update, replace, dryRun, keepTypes);
    var opts := KeyedOptions([(fileType, "--file_type")], pks, "--pks", after);
    assert SchemaImportArgs(table, filename, create, update, replace, dryRun, keepTypes, fileType, pks,
                            mapFile, floatThreshold, delim)
        == Success(Layout(["schema", "import"], switches, opts, [], [table, filename]));
    assert FlagTable([], SchemaValued);
    assert ["schema", "import"] + [table, filename] == ["schema", "import", table, filename];
    WholeLayoutReads(["schema", "import"], [table, filename], switches, opts, [], SchemaValued);
    assert FlagsOn(switches) + FlagsOn([]) == FlagsOn(switches);
  }


  lemma SchemaOptionsMeant(fileType: Option<string>, pks: Option<seq<string>>, mapFile: Option<string>,
                           floatThreshold: Option<string>, delim: Option<string>)
    ensures var opts := KeyedOptions([(fileType, "--file_type")], pks, "--pks",
                                     [(mapFile, "--map"), (floatThreshold, "--float-threshold"), (delim, "--delim")]);
      && OnlyValues(opts, SchemaValued)
      && Meant(opts).values == PairIf(fileType, "--file_type") + KeysPair(pks, "--pks") + PairIf(mapFile, "--map")
                               + PairIf(floatThreshold, "--float-threshold") + PairIf(delim, "--delim")
  {
    var after := [(mapFile, "--map"), (floatThreshold, "--float-threshold"), (delim, "--delim")];
    SchemaOptionTables(fileType, mapFile, floatThreshold, delim);
    KeyedOptionsMeant([(fileType, "--file_type")], pks, "--pks", after, SchemaValued);
    SchemaPairs(fileType, pks, mapFile, floatThreshold, delim);
  }

  lemma SchemaOptionTables(fileType: Option<string>, mapFile: Option<string>, floatThreshold: Option<string>,
                           delim: Option<string>)
    ensures OptionTable([(fileType, "--file_type")], SchemaValued) && "--pks" in SchemaValued
    ensures OptionTable([(mapFile, "--map"), (floatThreshold, "--float-threshold"), (delim, "--delim")], SchemaValued)
  {
    var after := [(mapFile, "--map"), (floatThreshold, "--float-threshold"), (delim, "--delim")];
    assert after[0].1 == "--map" && after[1].1 == "--float-threshold" && after[2].1 == "--delim";
    assert [(fileType, "--file_type")][0].1 == "--file_type";
  }

  lemma SchemaPairs(fileType: Option<string>, pks: Option<seq<string>>, mapFile: Option<string>,
                    floatThreshold: Option<string>, delim: Option<string>)
    ensures PairsOn([(fileType, "--file_type")]) + KeysPair(pks, "--pks")
            + PairsOn([(mapFile, "--map"), (floatThreshold, "--float-threshold"), (delim, "--delim")])
         == PairIf(fileType, "--file_type") + KeysPair(pks, "--pks") + PairIf(mapFile, "--map")
            + PairIf(floatThreshold, "--float-threshold") + PairIf(delim, "--delim")
  {
    PairsThree(mapFile, "--map", floatThreshold, "--float-threshold", delim, "--delim");
    PairsOne(fileType, "--file_type");
    AppendThree(PairIf(fileType, "--file_type") + KeysPair(pks, "--pks"), PairIf(mapFile, "--map"),
                PairIf(floatThreshold, "--float-threshold"), PairIf(delim, "--delim"));
  }

  lemma SchemaSwitchTable(create: bool, update: bool, replace: bool, dryRun: bool, keepTypes: bool)
    ensures FlagTable(SchemaSwitches(create, update, replace, dryRun, keepTypes), SchemaValued)
  {
    var fs := SchemaSwitches(create, update, replace, dryRun, keepTypes);
    forall i | 0 <= i < |fs| ensures IsFlag(fs[i].1) && fs[i].1 !in SchemaValued {
      assert fs[i].1 in {"--create", "--update", "--replace", "--dry-run", "--keep-types"};
      assert fs[i].1[0] == '-';
    }
  }

  lemma PairsOne(v: Option<string>, f: string)
    ensures PairsOn([(v, f)]) == PairIf(v, f)
  {
    assert [(v, f)][1..] == [];
  }

  lemma PairsThree(a: Option<string>, fa: string, b: Option<string>, fb: string, c: Option<string>, fc: string)
    ensures PairsOn([(a, fa), (b, fb), (c, fc)]) == PairIf(a, fa) + PairIf(b, fb) + PairIf(c, fc)
  {
    var vs := [(a, fa), (b, fb), (c, fc)];
    assert vs[1..] == [(b, fb), (c, fc)] && [(b, fb), (c, fc)][1..] == [(c, fc)];
    PairsOne(c, fc);
    assert PairsOn([(b, fb), (c, fc)]) == PairIf(b, fb) + PairsOn([(c, fc)]);
  }

  /** `LayoutReads` for a command whose words and operands are checked together. */
  lemma WholeLayoutReads(sub: seq<string>, operands: seq<string>, flags: seq<(bool, string)>, opts: seq<Arg>,
                         more: seq<(bool, string)>, valued: set<string>)
    requires PlainWords(sub + operands, valued)
    requires FlagTable(flags, valued) && FlagTable(more, valued) && OnlyValues(opts, valued)
    ensures ReadArgs(Render(Layout(sub, flags, opts, more, operands)), valued)
         == Reading(sub + operands, FlagsOn(flags) + FlagsOn(more), Meant(opts).values)
  {
    var ws := sub + operands;
    SplitPlain(ws, |sub|, valued);
    assert ws[..|sub|] == sub && ws[|sub|..] == operands;
    LayoutReads(sub, flags, opts, more, operands, valued);
  }

  lemma SplitPlain(ws: seq<string>, k: nat, valued: set<string>)
    requires PlainWords(ws, valued) && k <= |ws|
    ensures PlainWords(ws[..k], valued) && PlainWords(ws[k..], valued)
  {
    assert forall i :: 0 <= i < k ==> ws[..k][i] == ws[i];
    assert forall i :: 0 <= i < |ws| - k ==> ws[k..][i] == ws[k + i];
  }

  /** The options of `table import` and `table export` that take a value. */
  const TableValued: set<string> := {"--file-type", "--pk", "--map", "--delim", "--schema"}

  /** `table import`: the mode switch, the options, `--continue` and `--force`, then the
      table and the file. */
  function TableImportArgs(table: string, filename: string, create: bool, update: bool, force: bool,
                           mapFile: Option<string>, pk: Option<seq<string>>, replace: bool, fileType: Option<string>,
                           continueImporting: bool, delim: Option<string>): (r: Result<seq<Arg>>)
    ensures r.Failure? <==> ModeCheck(create, update, replace, pk).Fail?
    ensures r.Failure? ==> r.error == ModeCheck(create, update, replace, pk).error
  {
    var check := ModeCheck(create, update, replace, pk);
    if check.Fail? then Failure(check.error)
    else
      Success(Layout(["table", "import"],
                     [(create, "--create-table"), (update, "--update-table"), (replace, "--replace-table")],
                     KeyedOptions([(fileType, "--file-type")], pk, "--pk", [(mapFile, "--map"), (delim, "--delim")]),
                     [(continueImporting, "--continue"), (force, "--force")], [table, filename]))
  }

  /** `table import` one piece at a time, as `table_import` grows it. */
  lemma TableImportTokens(table: string, filename: string, create: bool, update: bool, force: bool,
                          mapFile: Option<string>, pk: Option<seq<string>>, replace: bool, fileType: Option<string>,
                          continueImporting: bool, delim: Option<string>)
    requires ModeCheck(create, update, replace, pk) == Pass
    ensures TableImportArgs(table, filename, create, update, force, mapFile, pk, replace, fileType,
                            continueImporting, delim).value
         == [Word("table"), Word("import")]
            + (SwitchIf(create, "--create-table") + SwitchIf(update, "--update-table") + SwitchIf(replace, "--replace-table"))
            + (ValuedIf(fileType, "--file-type") + KeysArg(pk, "--pk") + (ValuedIf(mapFile, "--map") + ValuedIf(delim, "--delim")))
            + (SwitchIf(continueImporting, "--continue") + SwitchIf(force, "--force")) + [Word(table), Word(filename)]
  {
    var flags := SwitchIf(create, "--create-table") + SwitchIf(update, "--update-table") + SwitchIf(replace, "--replace-table");
    Flags3((create, "--create-table"), (update, "--update-table"), (replace, "--replace-table"));
    var switches := SwitchIf(continueImporting, "--continue") + SwitchIf(force, "--force");
    Flags2((continueImporting, "--continue"), (force, "--force"));
    var after := [(mapFile, "--map"), (delim, "--delim")];
    var rest := ValuedIf(mapFile, "--map") + ValuedIf(delim, "--delim");
    Options2((mapFile, "--map"), (delim, "--delim"));
    var opts := ValuedIf(fileType, "--file-type") + KeysArg(pk, "--pk") + rest;
    assert KeyedOptions([(fileType, "--file-type")], pk, "--pk", after) == opts by {
      OptionsOne((fileType, "--file-type"));
    }
    assert Words(["table", "import"]) == [Word("table"), Word("import")];
    assert Words([table, filename]) == [Word(table), Word(filename)];
    LayoutInRow(["table", "import"], [(create, "--create-table"), (update, "--update-table"), (replace, "--replace-table")],
                opts, [(continueImporting, "--continue"), (force, "--force")], [table, filename]);
  }

  /** An accepted `table import` reads back as the table and the file, the mode and the
      other switches that are set, and the options that are given. */
  lemma TableImportReads(table: string, filename: string, create: bool, update: bool, force: bool,
                         mapFile: Option<string>, pk: Option<seq<string>>, replace: bool, fileType: Option<string>,
                         continueImporting: bool, delim: Option<string>)
    requires ModeCheck(create, update, replace, pk) == Pass
    requires PlainWords(["table", "import", table, filename], TableValued)
    ensures TableImportArgs(table, filename, create, update, force, mapFile, pk, replace, fileType,
                            continueImporting, delim).Success?
    ensures ReadArgs(Render(TableImportArgs(table, filename, create, update, force, mapFile, pk, replace, fileType,
                                            continueImporting, delim).value), TableValued)
         == Reading(["table", "import", table, filename],
                    FlagsOn([(create, "--create-table"), (update, "--update-table"), (replace, "--replace-table")])
                    + FlagsOn([(continueImporting, "--continue"), (force, "--force")]),
                    PairIf(fileType, "--file-type") + KeysPair(pk, "--pk") + PairsOn([(mapFile, "--map"), (delim, "--delim")]))
  {
    var after := [(mapFile, "--map"), (delim, "--delim")];
    assert after[0].1 == "--map" && after[1].1 == "--delim";
    assert [(fileType, "--file-type")][0].1 == "--file-type";
    KeyedOptionsMeant([(fileType, "--file-type")], pk, "--pk", after, TableValued);
    PairsOne(fileType, "--file-type");
    TableImportSwitchTables(create, update, replace, continueImporting, force);
    assert ["table", "import"] + [table, filename] == ["table", "import", table, filename];
    WholeLayoutReads(["table", "import"], [table, filename],
                     [(create, "--create-table"), (update, "--update-table"), (replace, "--replace-table")],
                     KeyedOptions([(fileType, "--file-type")], pk, "--pk", after),
                     [(continueImporting, "--continue"), (force, "--force")], TableValued);
  }


  lemma TableImportSwitchTables(create: bool, update: bool, replace: bool, continueImporting: bool, force: bool)
    ensures FlagTable([(create, "--create-table"), (update, "--update-table"), (replace, "--replace-table")], TableValued)
    ensures FlagTable([(continueImporting, "--continue"), (force, "--force")], TableValued)
  {
  }

  /** `table export`: no checks; `--force` and `--continue`, the options, then the table
      and the file. */
  function TableExportArgs(table: string, filename: string, force: bool, schema: Option<string>,
                           mapFile: Option<string>, pk: Option<seq<string>>, fileType: Option<string>,
                           continueExporting: bool): seq<Arg> {
    Layout(["table", "export"], [(force, "--force"), (continueExporting, "--continue")],
           KeyedOptions([(schema, "--schema"), (mapFile, "--map")], pk, "--pk", [(fileType, "--file-type")]),
           [], [table, filename])
  }

  /** `table export` one piece at a time, as `table_export` grows it. */
  lemma TableExportTokens(table: string, filename: string, force: bool, schema: Option<string>,
                          mapFile: Option<string>, pk: Option<seq<string>>, fileType: Option<string>,
                          continueExporting: bool)
    ensures TableExportArgs(table, filename, force, schema, mapFile, pk, fileType, continueExporting)
         == [Word("table"), Word("export")] + (SwitchIf(force, "--force") + SwitchIf(continueExporting, "--continue"))
            + (ValuedIf(schema, "--schema") + ValuedIf(mapFile, "--map") + KeysArg(pk, "--pk")
               + ValuedIf(fileType, "--file-type")) + [Word(table), Word(filename)]
  {
    var flags := SwitchIf(force, "--force") + SwitchIf(continueExporting, "--continue");
    Flags2((force, "--force"), (continueExporting, "--continue"));
    var before := [(schema, "--schema"), (mapFile, "--map")];
    var lead := ValuedIf(schema, "--schema") + ValuedIf(mapFile, "--map");
    Options2((schema, "--schema"), (mapFile, "--map"));
    var opts := lead + KeysArg(pk, "--pk") + ValuedIf(fileType, "--file-type");
    assert KeyedOptions(before, pk, "--pk", [(fileType, "--file-type")]) == opts by {
      OptionsOne((fileType, "--file-type"));
    }
    assert Words(["table", "export"]) == [Word("table"), Word("export")];
    assert Words([table, filename]) == [Word(table), Word(filename)];
    LayoutNoMore(["table", "export"], [(force, "--force"), (continueExporting, "--continue")], opts, [table, filename]);
  }

  lemma TableExportReads(table: string, filename: string, force: bool, schema: Option<string>,
                         mapFile: Option<string>, pk: Option<seq<string>>, fileType: Option<string>,
                         continueExporting: bool)
    requires PlainWords(["table", "export", table, filename], TableValued)
    ensures ReadArgs(Render(TableExportArgs(table, filename, force, schema, mapFile, pk, fileType, continueExporting)), TableValued)
         == Reading(["table", "export", table, filename], FlagsOn([(force, "--force"), (continueExporting, "--continue")]),
                    PairsOn([(schema, "--schema"), (mapFile, "--map")]) + KeysPair(pk, "--pk") + PairIf(fileType, "--file-type"))
  {
    var before := [(schema, "--schema"), (mapFile, "--map")];
    assert before[0].1 == "--schema" && before[1].1 == "--map";
    assert [(fileType, "--file-type")][0].1 == "--file-type";
    KeyedOptionsMeant(before, pk, "--pk", [(fileType, "--file-type")], TableValued);
    PairsOne(fileType, "--file-type");
    assert FlagTable([(force, "--force"), (continueExporting, "--continue")], TableValued);
    assert FlagTable([], TableValued) && FlagsOn([]) == [];
    assert ["table", "export"] + [table, filename] == ["table", "export", table, filename];
    WholeLayoutReads(["table", "export"], [table, filename], [(force, "--force"), (continueExporting, "--continue")],
                     KeyedOptions(before, pk, "--pk", [(fileType, "--file-type")]), [], TableValued);
  }

  /** `table mv`: `--force` when asked, then the old and the new name. */
  function TableMvArgs(oldTable: string, newTable: string, force: bool): seq<Arg> {
    Layout(["table", "mv"], [(force, "--force")], [], [], [oldTable, newTable])
  }

  /** `table cp`: `--force` when asked, the commit when given, then the old and the new name. */
  function TableCpArgs(oldTable: string, newTable: string, commit: Option<string>, force: bool): seq<Arg> {
    Layout(["table", "cp"], [(force, "--force")], [], [], WordsIf(commit) + [oldTable, newTable])
  }

  lemma TableMvTokens(oldTable: string, newTable: string, force: bool)
    ensures TableMvArgs(oldTable, newTable, force)
         == [Word("table"), Word("mv")] + SwitchIf(force, "--force") + [Word(oldTable), Word(newTable)]
  {
    assert [(force, "--force")][1..] == [];
    assert Words(["table", "mv"]) == [Word("table"), Word("mv")];
    assert Words([oldTable, newTable]) == [Word(oldTable), Word(newTable)];
  }

  lemma TableCpTokens(oldTable: string, newTable: string, commit: Option<string>, force: bool)
    ensures TableCpArgs(oldTable, newTable, commit, force)
         == [Word("table"), Word("cp")] + SwitchIf(force, "--force") + WordIf(commit) + [Word(oldTable), Word(newTable)]
  {
    assert [(force, "--force")][1..] == [];
    assert Words(["table", "cp"]) == [Word("table"), Word("cp")];
    var ops := WordsIf(commit) + [oldTable, newTable];
    assert Words(ops) == WordIf(commit) + [Word(oldTable), Word(newTable)];
  }

  lemma ForceOnly(force: bool)
    ensures FlagTable([(force, "--force")], {}) && FlagsOn([(force, "--force")]) == FlagIf(force, "--force")
    ensures OnlyValues([], {}) && Meant([]).values == []
  {
    assert [(force, "--force")][1..] == [];
    assert Meant([]) == NoReading;
  }

  /** Renaming reads back as the old and the new name, with `--force` when asked. */
  lemma TableMvReads(oldTable: string, newTable: string, force: bool)
    requires PlainWords([oldTable, newTable], {})
    ensures ReadArgs(Render(TableMvArgs(oldTable, newTable, force)), {})
         == Reading(["table", "mv", oldTable, newTable], FlagIf(force, "--force"), [])
  {
    ForceOnly(force);
    assert PlainWords(["table", "mv"], {}) by {
      assert "table"[0] == 't' && "mv"[0] == 'm';
    }
    LayoutReads(["table", "mv"], [(force, "--force")], [], [], [oldTable, newTable], {});
    assert ["table", "mv"] + [oldTable, newTable] == ["table", "mv", oldTable, newTable];
    assert FlagsOn([]) == [];
  }

  /** Copying reads back as the commit (when given), the old and the new name, with
      `--force` when asked. */
  lemma TableCpReads(oldTable: string, newTable: string, commit: Option<string>, force: bool)
    requires PlainWords(WordsIf(commit) + [oldTable, newTable], {})
    ensures ReadArgs(Render(TableCpArgs(oldTable, newTable, commit, force)), {})
         == Reading(["table", "cp"] + WordsIf(commit) + [oldTable, newTable], FlagIf(force, "--force"), [])
  {
    ForceOnly(force);
    LayoutReads(["table", "cp"], [(force, "--force")], [], [], WordsIf(commit) + [oldTable, newTable], {});
    AppendAssoc(["table", "cp"], WordsIf(commit), [oldTable, newTable]);
    assert FlagsOn([]) == [];
  }

  // ---------------------------------------------------------------------------
  // sql

  const SqlIncompatibleError: Error := ValueError("Incompatible arguments provided")
  const SqlQueryError: Error := ValueError("Must provide a query in order to specify a result format")

  /** Where the output of the query goes: to a temporary file handed to the caller's
      parser, to the caller's file, to a temporary file decoded as CSV or JSON, or
      nowhere the caller sees. */
  datatype Sink = ToParser | ToFile(path: string) | Decoded(format: string) | Discarded

  /** The runs of `sql`: the saved-query listing first when asked, then the main run. */
  datatype SqlPlan = SqlPlan(listFirst: bool, main: Result<(seq<Arg>, Sink)>)

  predicate ListSavedClash(query: Option<string>, resultFormat: Option<string>, save: Option<string>,
                           message: Option<string>, batch: bool, multiDbDir: Option<string>) {
    Given(query) || Given(resultFormat) || Given(save) || Given(message) || batch || Given(multiDbDir)
  }

  predicate ExecuteClash(query: Option<string>, save: Option<string>, message: Option<string>,
                         listSaved: bool, batch: bool, multiDbDir: Option<string>) {
    Given(query) || Given(save) || Given(message) || listSaved || batch || Given(multiDbDir)
  }

  /** `sql`. The listing of saved queries runs as soon as its check passes, and its switch
      stays in the vector of the main run; `--execute` is given the text `True`. A result
      parser, a result file or a CSV/JSON format each need a query. */
  function SqlArgs(query: Option<string>, resultFormat: Option<string>, execute: bool, save: Option<string>,
                   message: Option<string>, listSaved: bool, batch: bool, multiDbDir: Option<string>,
                   resultFile: Option<string>, parser: bool): (r: SqlPlan)
    ensures r.listFirst <==> listSaved && !ListSavedClash(query, resultFormat, save, message, batch, multiDbDir)
    ensures r.main == Failure(SqlIncompatibleError) <==>
      (listSaved && ListSavedClash(query, resultFormat, save, message, batch, multiDbDir))
      || (execute && ExecuteClash(query, save, message, listSaved, batch, multiDbDir))
    ensures r.main == Failure(SqlQueryError) <==>
      !(listSaved && ListSavedClash(query, resultFormat, save, message, batch, multiDbDir))
      && !(execute && ExecuteClash(query, save, message, listSaved, batch, multiDbDir))
      && query.None? && (parser || resultFile.Some? || resultFormat in {Some("csv"), Some("json")})
  {
    if listSaved && ListSavedClash(query, resultFormat, save, message, batch, multiDbDir) then
      SqlPlan(false, Failure(SqlIncompatibleError))
    else if execute && ExecuteClash(query, save, message, listSaved, batch, multiDbDir) then
      SqlPlan(listSaved, Failure(SqlIncompatibleError))
    else
      var base := SqlOptions(execute, save, message, listSaved, batch, multiDbDir);
      SqlPlan(listSaved, SqlRun(base, query, resultFormat, resultFile, parser))
  }

  /** The options of `sql` before the query. */
  function SqlOptions(execute: bool, save: Option<string>, message: Option<string>, listSaved: bool,
                      batch: bool, multiDbDir: Option<string>): seq<Arg> {
    [Word("sql")] + SwitchIf(listSaved, "--list-saved") + ExecuteArg(execute)
    + ValuedIf(multiDbDir, "--multi-db-dir") + SwitchIf(batch, "--batch") + SaveArgs(save, message)
  }

  /** `args.extend(["--execute", str(execute)])`. */
  function ExecuteArg(execute: bool): seq<Arg> {
    if execute then [Valued("--execute", "True")] else []
  }

  /** The name to save the query under, and its message only with a name. */
  function SaveArgs(save: Option<string>, message: Option<string>): seq<Arg> {
    if Given(save) then [Valued("--save", save.value)] + ValuedIf(message, "--message") else []
  }

  /** The query and the destination of its output. */
  function SqlRun(base: seq<Arg>, query: Option<string>, resultFormat: Option<string>,
                  resultFile: Option<string>, parser: bool): (r: Result<(seq<Arg>, Sink)>)
    ensures r.Failure? <==> query.None? && (parser || resultFile.Some? || resultFormat in {Some("csv"), Some("json")})
    ensures r.Failure? ==> r.error == SqlQueryError
  {
    if parser then
      if query.None? then Failure(SqlQueryError)
      else Success((base + [Valued("--query", query.value), Valued("--result-format", "csv")], ToParser))
    else if resultFile.Some? then
      if query.None? then Failure(SqlQueryError)
      else Success((base + [Valued("--query", query.value), Valued("--result-format", "csv")], ToFile(resultFile.value)))
    else if resultFormat in {Some("csv"), Some("json")} then
      if query.None? then Failure(SqlQueryError)
      else Success((base + [Valued("--query", query.value), Valued("--result-format", resultFormat.value)],
                    Decoded(resultFormat.value)))
    else Success((base + ValuedOpt(query, "--query"), Discarded))
  }

  /** The options of `sql` that take a value. */
  const SqlValued: set<string> := {"--execute", "--multi-db-dir", "--save", "--message", "--query", "--result-format"}

  lemma SqlPlainOptions()
    ensures SqlOptions(false, None, None, false, false, None) == [Word("sql")]
  {
  }

  /** A bare query: one run, `sql --query q`, whose output the caller does not see. */
  lemma SqlQueryReads(q: string)
    ensures SqlArgs(Some(q), None, false, None, None, false, false, None, None, false)
         == SqlPlan(false, Success(([Word("sql"), Valued("--query", q)], Discarded)))
    ensures ReadArgs(Render([Word("sql"), Valued("--query", q)]), SqlValued) == Reading(["sql"], [], [("--query", q)])
  {
    SqlPlainOptions();
    assert !(None in {Some("csv"), Some("json")});
    assert SqlRun([Word("sql")], Some(q), None, None, false) == Success(([Word("sql")] + [Valued("--query", q)], Discarded));
    OneMeant(Word("sql"), SqlValued);
    OneMeant(Valued("--query", q), SqlValued);
    Joined([Word("sql")], [Valued("--query", q)], SqlValued);
    assert [Word("sql")] + [Valued("--query", q)] == [Word("sql"), Valued("--query", q)];
    ReadRender([Word("sql"), Valued("--query", q)], SqlValued);
  }

  /** The format a query's result is asked in: CSV for a parser or a result file,
      otherwise the format named. */
  function ResultFormat(resultFormat: Option<string>, resultFile: Option<string>, parser: bool): string
    requires parser || resultFile.Some? || resultFormat in {Some("csv"), Some("json")}
  {
    if parser || resultFile.Some? then "csv" else resultFormat.value
  }

  /** A query whose result is kept: the parser takes precedence over the result file,
      which takes precedence over the format; the tool is asked for the query and the
      format and nothing else. */
  lemma SqlResultReads(q: string, resultFormat: Option<string>, resultFile: Option<string>, parser: bool)
    requires parser || resultFile.Some? || resultFormat in {Some("csv"), Some("json")}
    ensures var plan := SqlArgs(Some(q), resultFormat, false, None, None, false, false, None, resultFile, parser);
      && !plan.listFirst && plan.main.Success?
      && plan.main.value.1 == (if parser then ToParser
                               else if resultFile.Some? then ToFile(resultFile.value)
                               else Decoded(resultFormat.value))
      && ReadArgs(Render(plan.main.value.0), SqlValued)
         == Reading(["sql"], [], [("--query", q), ("--result-format", ResultFormat(resultFormat, resultFile, parser))])
  {
    var fmt := ResultFormat(resultFormat, resultFile, parser);
    var toks := [Word("sql")] + [Valued("--query", q), Valued("--result-format", fmt)];
    SqlPlainOptions();
    assert SqlArgs(Some(q), resultFormat, false, None, None, false, false, None, resultFile, parser).main.value.0 == toks;
    OneMeant(Word("sql"), SqlValued);
    OneMeant(Valued("--query", q), SqlValued);
    OneMeant(Valued("--result-format", fmt), SqlValued);
    Joined([Valued("--query", q)], [Valued("--result-format", fmt)], SqlValued);
    Joined([Word("sql")], [Valued("--query", q), Valued("--result-format", fmt)], SqlValued);
    ReadRender(toks, SqlValued);
  }

  /** Listing the saved queries alone runs `sql --list-saved` first and then the same
      vector again as the main run. */
  lemma SqlListSavedTwice()
    ensures SqlArgs(None, None, false, None, None, true, false, None, None, false)
         == SqlPlan(true, Success(([Word("sql"), Switch("--list-saved")], Discarded)))
  {
    assert !ListSavedClash(None, None, None, None, false, None);
    assert !(None in {Some("csv"), Some("json")});
    assert SqlOptions(false, None, None, true, false, None) == [Word("sql")] + [Switch("--list-saved")];
    assert [Word("sql")] + [Switch("--list-saved")] == [Word("sql"), Switch("--list-saved")];
    assert SqlRun([Word("sql"), Switch("--list-saved")], None, None, None, false)
        == Success(([Word("sql"), Switch("--list-saved")] + [], Discarded));
    assert [Word("sql"), Switch("--list-saved")] + [] == [Word("sql"), Switch("--list-saved")];
  }

  // ---------------------------------------------------------------------------
  // the clone directory and the DoltHub database name

  const CloneDirError: Error := ValueError("Provide either new_dir or remote_url")

  /** `os.path.join(a, b)` for a `b` without "/". */
  function PathJoin(a: string, b: string): string {
    if a == "" || EndsWith(a, "/") then a + b else a + "/" + b
  }

  /** `_get_clone_dir`: with a remote URL, its last "/" piece under the new directory (or
      the working directory), which must not exist yet; otherwise the new directory. */
  function CloneDir(newDir: Option<string>, remoteUrl: Option<string>, cwd: string, existing: set<string>): (r: Result<string>)
    ensures r == Failure(CloneDirError) <==> !Given(newDir) && !Given(remoteUrl)
    ensures !Given(remoteUrl) && Given(newDir) ==> r == Success(newDir.value)
  {
    if !(Given(newDir) || Given(remoteUrl)) then Failure(CloneDirError)
    else if Given(remoteUrl) then
      var split := Split(remoteUrl.value, "/");
      var inferred := PathJoin(if Given(newDir) then newDir.value else cwd, split[|split| - 1]);
      if inferred in existing then
        Failure(DoltDirectoryException("Path already exists: " + inferred + ". Cannot create new directory"))
      else Success(inferred)
    else Success(newDir.value)
  }

  /** `DoltHubContext._get_db_name`: the second of exactly two "/" pieces. */
  function DbName(dbPath: string): (r: Result<string>)
    ensures r.Failure? <==> |Split(dbPath, "/")| != 2
    ensures r.Failure? ==> r.error == ValueError("Invalid DoltHub path " + dbPath)
  {
    var split := Split(dbPath, "/");
    if |split| != 2 then Failure(ValueError("Invalid DoltHub path " + dbPath)) else Success(split[1])
  }

  /** The last "/" piece of a URL. */
  function LastPiece(url: string): string {
    var split := Split(url, "/");
    split[|split| - 1]
  }

  lemma PathJoinEnds(a: string, b: string)
    ensures StartsWith(PathJoin(a, b), a) && EndsWith(PathJoin(a, b), b)
  {
    if a == "" || EndsWith(a, "/") { Concat(a, b); } else { Concat(a + "/", b); Concat(a, "/" + b); assert a + "/" + b == a + ("/" + b); }
  }

  /** A directory inferred from a URL lies under the new directory (or the working one), is
      named after the URL's last "/" piece, which holds no "/", and did not exist. */
  lemma CloneDirFromUrl(newDir: Option<string>, remoteUrl: string, cwd: string, existing: set<string>)
    requires remoteUrl != ""
    ensures var r := CloneDir(newDir, Some(remoteUrl), cwd, existing);
      && !Contains(LastPiece(remoteUrl), "/")
      && (r.Success? ==> StartsWith(r.value, if Given(newDir) then newDir.value else cwd)
                         && EndsWith(r.value, LastPiece(remoteUrl)) && r.value !in existing)
      && (r.Failure? ==> r.error.DoltDirectoryException?)
  {
    var split := Split(remoteUrl, "/");
    SplitPiecesFree(remoteUrl, "/");
    var last := LastPiece(remoteUrl);
    assert last in split;
    var base := if Given(newDir) then newDir.value else cwd;
    PathJoinEnds(base, last);
    assert CloneDir(newDir, Some(remoteUrl), cwd, existing)
        == if PathJoin(base, last) in existing
           then Failure(DoltDirectoryException("Path already exists: " + PathJoin(base, last) + ". Cannot create new directory"))
           else Success(PathJoin(base, last));
  }

  /** An owner and a database name without "/" give back the name. */
  lemma {:induction false} DbNameOf(owner: string, name: string)
    requires !Contains(owner, "/") && !Contains(name, "/")
    ensures DbName(owner + "/" + name) == Success(name)
  {
    SplitFirst(owner, name, "/");
    SplitNone(name, "/");
  }

  /** A path accepted as a DoltHub path is the owner, "/", and the name returned. */
  lemma DbNameSplits(dbPath: string)
    requires DbName(dbPath).Success?
    ensures !Contains(DbName(dbPath).value, "/")
    ensures dbPath == Split(dbPath, "/")[0] + "/" + DbName(dbPath).value
  {
    var split := Split(dbPath, "/");
    JoinSplit(dbPath, "/");
    SplitPiecesFree(dbPath, "/");
    assert split[1] in split;
    assert split[1..] == [split[1]];
  }
}
