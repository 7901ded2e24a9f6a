/** Commits as the library reads them from the `dolt_log` system table: the query it
    sends, and the fold that turns one row per (commit, parent) pair into one commit
    per hash. */
module CommitLog {
  import opened Base
  import opened Text
  import opened DoltTypes

  /** The value the `parents` attribute can hold: nothing, the single parent hash read
      from the first row, a list of two hashes once a second row arrived, or a tuple
      (which the library tests for but never builds). */
  datatype Parents = PNone | PStr(hash: string) | PList(hashes: seq<string>) | PTuple(items: seq<string>)

  /** The attributes of a commit at one moment. */
  datatype CommitInfo = CommitInfo(
    ref: string,
    timestamp: string,
    author: string,
    email: string,
    message: string,
    parents: Parents,
    merge: bool)

  /** What `append_parent` does to a commit: a tuple is refused with `ValueError`; a
      single hash becomes the list of it and the new one and marks the commit a merge;
      anything else is left as it is. */
  function AppendParentTo(c: CommitInfo, parent: string): (r: Result<CommitInfo>)
    ensures r.Failure? <==> c.parents.PTuple?
    ensures r.Success? && c.parents.PStr? ==> r.value.parents == PList([c.parents.hash, parent]) && r.value.merge
    ensures r.Success? && !c.parents.PStr? ==> r.value == c
    ensures r.Success? ==> r.value.(parents := c.parents, merge := c.merge) == c
  {
    match c.parents
    case PTuple(_) => Failure(ValueError("Already has a merge parent set"))
    case PStr(p) => Success(c.(parents := PList([p, parent]), merge := true))
    case _ => Success(c)
  }

  /** A commit of the log, updated in place as further parent rows arrive. */
  class Commit {
    var ref: string
    var timestamp: string
    var author: string
    var email: string
    var message: string
    var parents: Parents
    var merge: bool

    constructor (info: CommitInfo)
      ensures Info() == info
    {
      ref := info.ref;
      timestamp := info.timestamp;
      author := info.author;
      email := info.email;
      message := info.message;
      parents := info.parents;
      merge := info.merge;
    }

    function Info(): CommitInfo
      reads this
    {
      CommitInfo(ref, timestamp, author, email, message, parents, merge)
    }

    /** `is_merge`: whether the parents are a tuple. */
    predicate IsMerge()
      reads this
    {
      parents.PTuple?
    }

    /** `append_parent`: record a further parent hash. */
    method AppendParent(parent: string) returns (r: Outcome)
      modifies this
      ensures r.Fail? <==> old(parents).PTuple?
      ensures r.Fail? ==> r.error == ValueError("Already has a merge parent set") && Info() == old(Info())
      ensures r.Pass? ==> Success(Info()) == AppendParentTo(old(Info()), parent)
    {
      if parents.PTuple? {
        return Fail(ValueError("Already has a merge parent set"));
      } else if parents.PStr? {
        parents := PList([parents.hash, parent]);
        merge := true;
      }
      r := Pass;
    }
  }

  // ---------------------------------------------------------------------------
  // The query

  const LogQueryBase: string :=
    "\n            select\n"
    + "                dc.`commit_hash` as commit_hash,\n"
    + "                dca.`parent_hash` as parent_hash,\n"
    + "                `committer` as committer,\n"
    + "                `email` as email,\n"
    + "                `date` as date,\n"
    + "                `message` as message\n"
    + "            from\n"
    + "                dolt_log as dc\n"
    + "                left outer join dolt_commit_ancestors as dca\n"
    + "                    on dc.commit_hash = dca.commit_hash\n"
    + "        "

  /** `get_log_table_query`: the join of `dolt_log` with `dolt_commit_ancestors`, narrowed
      to one commit when one is named, newest first, at most `number` rows when given.
      The `head` argument is accepted and not used. */
  function LogTableQuery(number: Option<int>, commit: Option<string>, head: Option<string>): string {
    var where := if commit.Some? then Some(WhereClause(commit.value)) else None;
    var limit := if number.Some? then Some(LimitClause(number.value)) else None;
    WithClauses(LogQueryBase, where, OrderClause, limit)
  }

  function WhereClause(commit: string): string {
    "\nWHERE dc.`commit_hash`='" + commit + "'"
  }

  const OrderClause: string := "\nORDER BY `date` DESC"

  function LimitClause(number: int): string {
    "\nLIMIT " + IntToString(number)
  }

  /** The clauses appended to the query text `base`: the filter first when there is one,
      then the ordering, then the limit when there is one. */
  function WithClauses(base: string, where: Option<string>, order: string, limit: Option<string>): (q: string)
    ensures StartsWith(q, base)
    ensures where.Some? ==> StartsWith(q[|base|..], where.value)
    ensures where.None? ==> StartsWith(q[|base|..], order)
    ensures limit.None? ==> EndsWith(q, order)
    ensures limit.Some? ==> EndsWith(q, limit.value) && EndsWith(q[..|q| - |limit.value|], order)
    ensures |q| == |base| + (if where.Some? then |where.value| else 0) + |order|
                  + (if limit.Some? then |limit.value| else 0)
  {
    var w := if where.Some? then where.value else "";
    var l := if limit.Some? then limit.value else "";
    ClausePieces(base, w, order, l);
    base + w + order + l
  }

  /** Where four pieces sit in their concatenation. */
  lemma ClausePieces(a: string, b: string, c: string, d: string)
    ensures var q := a + b + c + d;
      && StartsWith(q, a) && StartsWith(q[|a|..], b) && (b == "" ==> StartsWith(q[|a|..], c))
      && EndsWith(q, d) && EndsWith(q[..|q| - |d|], c) && (d == "" ==> EndsWith(q, c))
  {
    FrontPieces(a, b, c + d);
    assert a + b + c + d == a + b + (c + d);
    BackPieces(a + b, c, d);
  }

  /** The first two of three pieces, read from the front. */
  lemma FrontPieces(a: string, b: string, e: string)
    ensures StartsWith(a + b + e, a) && StartsWith((a + b + e)[|a|..], b)
    ensures b == "" ==> (a + b + e)[|a|..] == e
  {
    assert a + b + e == a + (b + e);
    Concat(a, b + e);
    Concat(b, e);
  }

  /** The last two of three pieces, read from the back. */
  lemma BackPieces(f: string, c: string, d: string)
    ensures EndsWith(f + c + d, d) && EndsWith((f + c + d)[..|f + c + d| - |d|], c)
    ensures d == "" ==> EndsWith(f + c + d, c)
  {
    Concat(f + c, d);
    Concat(f, c);
  }

  // ---------------------------------------------------------------------------
  // The fold over the rows

  /** The commits read so far: their hashes in first-appearance order, and each one's
      attributes. */
  datatype LogState = LogState(order: seq<string>, commits: map<string, CommitInfo>)

  /** One row of the result: a row for a hash already seen appends its parent; a new hash
      makes a commit from the row, read key by key in the order the source reads them; a
      missing key is a `KeyError` naming it. */
  function LogStep(st: LogState, row: Row): Result<LogState> {
    if "commit_hash" !in row then Failure(KeyError("commit_hash"))
    else
      var ref := row["commit_hash"];
      if ref in st.commits then
        if "parent_hash" !in row then Failure(KeyError("parent_hash"))
        else match AppendParentTo(st.commits[ref], row["parent_hash"])
          case Failure(e) => Failure(e)
          case Success(c) => Success(st.(commits := st.commits[ref := c]))
      else
        match FirstMissing(row, ["date", "committer", "email", "message", "parent_hash"])
        case Some(k) => Failure(KeyError(k))
        case None => Success(LogState(st.order + [ref], st.commits[ref := NewCommit(row)]))
  }

  /** The first of `keys` that `row` lacks. */
  function FirstMissing(row: Row, keys: seq<string>): (r: Option<string>)
    ensures r.Some? ==> r.value in keys && r.value !in row
    ensures r.None? ==> forall k :: k in keys ==> k in row
  {
    if keys == [] then None
    else if keys[0] !in row then Some(keys[0])
    else FirstMissing(row, keys[1..])
  }

  predicate HasLogKeys(row: Row) {
    "commit_hash" in row && "date" in row && "committer" in row && "email" in row
    && "message" in row && "parent_hash" in row
  }

  /** The commit made from the first row of its hash: one parent, not a merge. */
  function NewCommit(row: Row): CommitInfo
    requires HasLogKeys(row)
  {
    CommitInfo(row["commit_hash"], row["date"], row["committer"], row["email"], row["message"],
               PStr(row["parent_hash"]), false)
  }

  /** `parse_dolt_log_table` on values: the rows folded in order from no commits. */
  function LogFold(rows: seq<Row>): Result<LogState> {
    if rows == [] then Success(LogState([], map[]))
    else
      match LogFold(rows[..|rows| - 1])
      case Failure(e) => Failure(e)
      case Success(st) => LogStep(st, rows[|rows| - 1])
  }

  /** The commit objects stand for the fold's state: same hashes in the same order,
      one distinct object per hash holding that hash's attributes. */
  predicate Mirrors(order: seq<string>, commits: map<string, Commit>, st: LogState)
    reads commits.Values
  {
    && order == st.order
    && commits.Keys == st.commits.Keys
    && (forall k :: k in commits ==> commits[k].Info() == st.commits[k])
    && (forall k, k' :: k in commits && k' in commits && k != k' ==> commits[k] != commits[k'])
  }

  /** `parse_dolt_log_table` as the source runs it: one pass over the rows, building an
      ordered dictionary of commit objects and appending parents in place. */
  method ParseDoltLogTable(rows: seq<Row>) returns (r: Result<(seq<string>, map<string, Commit>)>)
    ensures r.Failure? <==> LogFold(rows).Failure?
    ensures r.Failure? ==> r.error == LogFold(rows).error
    ensures r.Success? ==> Mirrors(r.value.0, r.value.1, LogFold(rows).value)
    ensures r.Success? ==> forall k :: k in r.value.1 ==> fresh(r.value.1[k])
  {
    var order: seq<string> := [];
    var commits: map<string, Commit> := map[];
    var i := 0;
    while i < |rows|
      invariant 0 <= i <= |rows|
      invariant LogFold(rows[..i]).Success?
      invariant Mirrors(order, commits, LogFold(rows[..i]).value)
      invariant forall k :: k in commits ==> fresh(commits[k])
    {
      LogFoldNext(rows, i);
      var out;
      out, order, commits := IngestRow(rows[i], order, commits, LogFold(rows[..i]).value);
      if out.Fail? {
        FoldFailureSticks(rows, i + 1);
        return Failure(out.error);
      }
      i := i + 1;
    }
    assert rows[..i] == rows;
    r := Success((order, commits));
  }

  /** The body of the loop: one row read into the commit objects. */
  method IngestRow(row: Row, order: seq<string>, commits: map<string, Commit>, ghost st: LogState)
    returns (out: Outcome, order': seq<string>, commits': map<string, Commit>)
    requires Mirrors(order, commits, st)
    modifies commits.Values
    ensures out.Fail? <==> LogStep(st, row).Failure?
    ensures out.Fail? ==> out.error == LogStep(st, row).error
    ensures out.Pass? ==> Mirrors(order', commits', LogStep(st, row).value)
    ensures forall k :: k in commits' ==> (k in commits && commits'[k] == commits[k]) || fresh(commits'[k])
  {
    ghost var step := LogStep(st, row);
    order', commits' := order, commits;
    if "commit_hash" !in row {
      return Fail(KeyError("commit_hash")), order', commits';
    }
    var ref := row["commit_hash"];
    if ref in commits {
      if "parent_hash" !in row {
        return Fail(KeyError("parent_hash")), order', commits';
      }
      out := AppendToKnown(commits, ref, row["parent_hash"], st);
    } else {
      var missing := FirstMissing(row, ["date", "committer", "email", "message", "parent_hash"]);
      if missing.Some? {
        return Fail(KeyError(missing.value)), order', commits';
      }
      assert HasLogKeys(row);
      order', commits' := AddNew(row, order, commits, st);
      out := Pass;
    }
  }

  /** The first row of a new hash: a fresh commit object, added last. */
  method AddNew(row: Row, order: seq<string>, commits: map<string, Commit>, ghost st: LogState)
    returns (order': seq<string>, commits': map<string, Commit>)
    requires HasLogKeys(row) && row["commit_hash"] !in commits && Mirrors(order, commits, st)
    ensures Mirrors(order', commits',
      LogState(st.order + [row["commit_hash"]], st.commits[row["commit_hash"] := NewCommit(row)]))
    ensures forall k :: k in commits' ==> (k in commits && commits'[k] == commits[k]) || fresh(commits'[k])
  {
    var c := new Commit(NewCommit(row));
    commits' := commits[row["commit_hash"] := c];
    order' := order + [row["commit_hash"]];
  }

  /** A further parent row for a hash already read: appended in place to its commit. */
  method AppendToKnown(commits: map<string, Commit>, ref: string, parent: string, ghost st: LogState)
    returns (out: Outcome)
    requires ref in commits && Mirrors(st.order, commits, st)
    modifies commits.Values
    ensures out.Fail? <==> AppendParentTo(st.commits[ref], parent).Failure?
    ensures out.Fail? ==> out.error == AppendParentTo(st.commits[ref], parent).error
    ensures out.Pass? ==>
      Mirrors(st.order, commits, st.(commits := st.commits[ref := AppendParentTo(st.commits[ref], parent).value]))
  {
    var c := commits[ref];
    out := c.AppendParent(parent);
    if out.Pass? {
      assert forall k :: k in commits && k != ref ==> commits[k].Info() == old(commits[k].Info());
    }
  }

  lemma LogFoldNext(rows: seq<Row>, i: nat)
    requires i < |rows|
    ensures LogFold(rows[..i + 1]) == match LogFold(rows[..i])
      case Failure(e) => Failure(e)
      case Success(st) => LogStep(st, rows[i])
  {
    assert rows[..i + 1][..i] == rows[..i];
  }

  lemma {:induction false} FoldFailureSticks(rows: seq<Row>, k: nat)
    requires k <= |rows| && LogFold(rows[..k]).Failure?
    ensures LogFold(rows) == LogFold(rows[..k])
    decreases |rows| - k
  {
    if k < |rows| {
      var next := rows[..k + 1];
      assert next[..|next| - 1] == rows[..k];
      FailedFront(next);
      FoldFailureSticks(rows, k + 1);
    } else {
      assert rows[..k] == rows;
    }
  }

  lemma FailedFront(rows: seq<Row>)
    requires rows != [] && LogFold(rows[..|rows| - 1]).Failure?
    ensures LogFold(rows) == LogFold(rows[..|rows| - 1])
  {
  }

  // ---------------------------------------------------------------------------
  // What the fold computes

  /** Every row carries a commit hash and a parent hash. */
  predicate RowsKeyed(rows: seq<Row>) {
    forall i :: 0 <= i < |rows| ==> "commit_hash" in rows[i] && "parent_hash" in rows[i]
  }

  /** The commit hash of each row, in order. */
  function Refs(rows: seq<Row>): (refs: seq<string>)
    requires RowsKeyed(rows)
    ensures |refs| == |rows|
  {
    if rows == [] then [] else Refs(rows[..|rows| - 1]) + [rows[|rows| - 1]["commit_hash"]]
  }

  lemma {:induction false} RefsAt(rows: seq<Row>, i: nat)
    requires RowsKeyed(rows) && i < |rows|
    ensures Refs(rows)[i] == rows[i]["commit_hash"]
  {
    if i < |rows| - 1 {
      RowsKeyedFront(rows);
      RefsAt(rows[..|rows| - 1], i);
    }
  }

  /** The parent hashes of the rows for commit `k`, in order. */
  function ParentsOf(rows: seq<Row>, k: string): seq<string>
    requires RowsKeyed(rows)
  {
    if rows == [] then []
    else
      var last := rows[|rows| - 1];
      ParentsOf(rows[..|rows| - 1], k) + (if last["commit_hash"] == k then [last["parent_hash"]] else [])
  }

  /** The elements of `s` in order of first appearance, each once. */
  function Dedup(s: seq<string>): seq<string> {
    if s == [] then []
    else
      var front := s[..|s| - 1];
      if s[|s| - 1] in front then Dedup(front) else Dedup(front) + [s[|s| - 1]]
  }

  /** `Dedup` keeps exactly the elements of `s`, each once. */
  lemma {:induction false} DedupMeaning(s: seq<string>)
    ensures forall x :: x in Dedup(s) <==> x in s
    ensures forall i, j :: 0 <= i < j < |Dedup(s)| ==> Dedup(s)[i] != Dedup(s)[j]
  {
    if s != [] {
      var front := s[..|s| - 1];
      DedupMeaning(front);
      assert s == front + [s[|s| - 1]];
    }
  }

  /** The first row for commit `k`, if any. */
  function FirstRowOf(rows: seq<Row>, k: string): Option<Row>
    requires RowsKeyed(rows)
  {
    if rows == [] then None
    else
      var last := rows[|rows| - 1];
      match FirstRowOf(rows[..|rows| - 1], k)
      case Some(r) => Some(r)
      case None => if last["commit_hash"] == k then Some(last) else None
  }

  /** `FirstRowOf` finds a row for `k` exactly when one exists, and it is the one at the
      lowest index among them. */
  lemma {:induction false} FirstRowMeaning(rows: seq<Row>, k: string)
    requires RowsKeyed(rows)
    ensures FirstRowOf(rows, k).Some? <==> exists i :: 0 <= i < |rows| && rows[i]["commit_hash"] == k
    ensures FirstRowOf(rows, k).Some? ==>
      exists i: nat :: FirstIndex(rows, k, i) && rows[i] == FirstRowOf(rows, k).value
  {
    if rows != [] {
      var front := rows[..|rows| - 1];
      RowsKeyedFront(rows);
      FirstRowMeaning(front, k);
      assert forall i :: 0 <= i < |front| ==> front[i] == rows[i];
      if FirstRowOf(front, k).None? && rows[|rows| - 1]["commit_hash"] == k {
        assert FirstIndex(rows, k, |rows| - 1);
      }
    }
  }

  /** `i` is the lowest index of a row for commit `k`. */
  predicate FirstIndex(rows: seq<Row>, k: string, i: nat)
    requires RowsKeyed(rows)
  {
    && i < |rows| && rows[i]["commit_hash"] == k
    && forall j :: 0 <= j < i ==> rows[j]["commit_hash"] != k
  }

  /** A commit read from `rows` for hash `k`: one parent row gives a single parent string
      and no merge flag; two or more give the list of the first two parents and the merge
      flag, any further row being ignored; its date, committer, email and message are
      those of the first row for `k`. */
  predicate CommitOk(rows: seq<Row>, k: string, c: CommitInfo)
    requires RowsKeyed(rows)
  {
    ParentsFit(ParentsOf(rows, k), k, c) && DetailFits(FirstRowOf(rows, k), c)
  }

  /** The commit's details are read from the row `first`. */
  predicate DetailFits(first: Option<Row>, c: CommitInfo) {
    && first.Some? && HasLogKeys(first.value)
    && c.timestamp == first.value["date"] && c.author == first.value["committer"]
    && c.email == first.value["email"] && c.message == first.value["message"]
  }

  /** The commit for hash `k` whose parent rows gave the hashes `ps`, in order. */
  predicate ParentsFit(ps: seq<string>, k: string, c: CommitInfo) {
    && |ps| >= 1
    && c.ref == k
    && c.parents == (if |ps| == 1 then PStr(ps[0]) else PList(ps[..2]))
    && (c.merge <==> |ps| >= 2)
  }

  /** The state the fold reaches: the hashes in order of first appearance, one commit per
      hash that occurs, each as `CommitOk` says. */
  ghost predicate Describes(rows: seq<Row>, st: LogState)
    requires RowsKeyed(rows)
  {
    && st.order == Dedup(Refs(rows))
    && (forall k :: k in st.commits <==> k in Refs(rows))
    && (forall k :: k in st.commits ==> CommitOk(rows, k, st.commits[k]))
  }

  lemma RowsKeyedFront(rows: seq<Row>)
    requires rows != [] && RowsKeyed(rows)
    ensures RowsKeyed(rows[..|rows| - 1])
  {
    var front := rows[..|rows| - 1];
    assert forall i :: 0 <= i < |front| ==> front[i] == rows[i];
  }

  lemma {:induction false} NoParentsUnlessListed(rows: seq<Row>, k: string)
    requires RowsKeyed(rows) && k !in Refs(rows)
    ensures ParentsOf(rows, k) == [] && FirstRowOf(rows, k).None?
  {
    if rows != [] {
      RowsKeyedFront(rows);
      var front := rows[..|rows| - 1];
      assert Refs(rows) == Refs(front) + [rows[|rows| - 1]["commit_hash"]];
      NoParentsUnlessListed(front, k);
    }
  }

  /** A row the fold accepts has a commit hash and a parent hash; a known hash gets the
      parent appended, a new hash (whose row then has all six keys) a new commit. */
  lemma StepResult(st: LogState, row: Row)
    requires LogStep(st, row).Success?
    ensures "commit_hash" in row && "parent_hash" in row
    ensures row["commit_hash"] in st.commits ==>
      && AppendParentTo(st.commits[row["commit_hash"]], row["parent_hash"]).Success?
      && LogStep(st, row).value == st.(commits := st.commits[row["commit_hash"] :=
           AppendParentTo(st.commits[row["commit_hash"]], row["parent_hash"]).value])
    ensures row["commit_hash"] !in st.commits ==>
      && HasLogKeys(row)
      && LogStep(st, row).value
         == LogState(st.order + [row["commit_hash"]], st.commits[row["commit_hash"] := NewCommit(row)])
  {
    if row["commit_hash"] !in st.commits {
      var keys := ["date", "committer", "email", "message", "parent_hash"];
      assert FirstMissing(row, keys).None?;
      assert keys[0] in keys && keys[1] in keys && keys[2] in keys && keys[3] in keys && keys[4] in keys;
    }
  }

  /** What the fold builds: the hashes in order of first appearance, and for each hash the
      parents and merge flag its rows give. */
  lemma {:induction false} LogFoldMeaning(rows: seq<Row>)
    requires LogFold(rows).Success?
    ensures RowsKeyed(rows)
    ensures Describes(rows, LogFold(rows).value)
  {
    if rows != [] {
      var front := rows[..|rows| - 1];
      LogFoldMeaning(front);
      FoldStep(front, rows, LogFold(front).value);
    }
  }

  /** One row more, accepted by the fold, keeps `Describes`. */
  lemma FoldStep(front: seq<Row>, rows: seq<Row>, st: LogState)
    requires rows != [] && front == rows[..|rows| - 1] && RowsKeyed(front) && Describes(front, st)
    requires LogStep(st, rows[|rows| - 1]).Success?
    ensures RowsKeyed(rows) && Describes(rows, LogStep(st, rows[|rows| - 1]).value)
  {
    var row := rows[|rows| - 1];
    StepResult(st, row);
    assert RowsKeyed(rows) by {
      assert forall i :: 0 <= i < |front| ==> rows[i] == front[i];
    }
    if row["commit_hash"] in st.commits {
      FoldStepKnown(front, rows, st, LogStep(st, row).value);
    } else {
      FoldStepNew(front, rows, st, LogStep(st, row).value);
    }
  }

  /** A row for a hash already seen keeps `Describes`. */
  lemma FoldStepKnown(front: seq<Row>, rows: seq<Row>, st: LogState, st': LogState)
    requires rows != [] && front == rows[..|rows| - 1] && RowsKeyed(front) && RowsKeyed(rows)
    requires Describes(front, st) && rows[|rows| - 1]["commit_hash"] in st.commits
    requires AppendParentTo(st.commits[rows[|rows| - 1]["commit_hash"]], rows[|rows| - 1]["parent_hash"]).Success?
    requires st' == st.(commits := st.commits[rows[|rows| - 1]["commit_hash"] :=
      AppendParentTo(st.commits[rows[|rows| - 1]["commit_hash"]], rows[|rows| - 1]["parent_hash"]).value])
    ensures Describes(rows, st')
  {
    var ref := rows[|rows| - 1]["commit_hash"];
    assert ref in Refs(front) && st'.order == st.order;
    assert st'.commits.Keys == st.commits.Keys + {ref};
    OrderStep(front, rows, st.order, st'.order);
    KeysStep(front, rows, st.commits.Keys, st'.commits.Keys);
    CommitsStepKnown(front, rows, st.commits, st'.commits);
  }

  /** A row for a new hash keeps `Describes`. */
  lemma FoldStepNew(front: seq<Row>, rows: seq<Row>, st: LogState, st': LogState)
    requires rows != [] && front == rows[..|rows| - 1] && RowsKeyed(front) && RowsKeyed(rows)
    requires Describes(front, st) && rows[|rows| - 1]["commit_hash"] !in st.commits
    requires HasLogKeys(rows[|rows| - 1])
    requires st' == LogState(st.order + [rows[|rows| - 1]["commit_hash"]],
      st.commits[rows[|rows| - 1]["commit_hash"] := NewCommit(rows[|rows| - 1])])
    ensures Describes(rows, st')
  {
    var ref := rows[|rows| - 1]["commit_hash"];
    OrderStep(front, rows, st.order, st'.order);
    KeysStep(front, rows, st.commits.Keys, st'.commits.Keys);
    NoParentsUnlessListed(front, ref);
    CommitsStepNew(front, rows, st.commits, st'.commits);
  }

  lemma OrderStep(front: seq<Row>, rows: seq<Row>, order: seq<string>, order': seq<string>)
    requires rows != [] && front == rows[..|rows| - 1] && RowsKeyed(rows) && RowsKeyed(front)
    requires order == Dedup(Refs(front))
    requires order' == if rows[|rows| - 1]["commit_hash"] in Refs(front) then order
                       else order + [rows[|rows| - 1]["commit_hash"]]
    ensures order' == Dedup(Refs(rows))
  {
    RefsLast(front, rows);
  }

  lemma KeysStep(front: seq<Row>, rows: seq<Row>, keys: set<string>, keys': set<string>)
    requires rows != [] && front == rows[..|rows| - 1] && RowsKeyed(rows) && RowsKeyed(front)
    requires forall k :: k in keys <==> k in Refs(front)
    requires keys' == keys + {rows[|rows| - 1]["commit_hash"]}
    ensures forall k :: k in keys' <==> k in Refs(rows)
  {
    RefsLast(front, rows);
  }

  lemma CommitsStepKnown(front: seq<Row>, rows: seq<Row>, m: map<string, CommitInfo>, m': map<string, CommitInfo>)
    requires rows != [] && front == rows[..|rows| - 1] && RowsKeyed(rows) && RowsKeyed(front)
    requires forall k :: k in m ==> CommitOk(front, k, m[k])
    requires rows[|rows| - 1]["commit_hash"] in m
    requires AppendParentTo(m[rows[|rows| - 1]["commit_hash"]], rows[|rows| - 1]["parent_hash"]).Success?
    requires m' == m[rows[|rows| - 1]["commit_hash"] :=
      AppendParentTo(m[rows[|rows| - 1]["commit_hash"]], rows[|rows| - 1]["parent_hash"]).value]
    ensures forall k :: k in m' ==> CommitOk(rows, k, m'[k])
  {
    var ref := rows[|rows| - 1]["commit_hash"];
    forall k | k in m'
      ensures CommitOk(rows, k, m'[k])
    {
      ParentsOfLast(front, rows, k);
      FirstRowLast(front, rows, k);
      if k == ref {
        AppendKeepsCommitOk(ParentsOf(front, ref), rows[|rows| - 1]["parent_hash"], ref, m[ref]);
      } else {
        assert m'[k] == m[k];
      }
    }
  }

  lemma CommitsStepNew(front: seq<Row>, rows: seq<Row>, m: map<string, CommitInfo>, m': map<string, CommitInfo>)
    requires rows != [] && front == rows[..|rows| - 1] && RowsKeyed(rows) && RowsKeyed(front)
    requires forall k :: k in m ==> CommitOk(front, k, m[k])
    requires HasLogKeys(rows[|rows| - 1])
    requires ParentsOf(front, rows[|rows| - 1]["commit_hash"]) == []
    requires FirstRowOf(front, rows[|rows| - 1]["commit_hash"]).None?
    requires m' == m[rows[|rows| - 1]["commit_hash"] := NewCommit(rows[|rows| - 1])]
    ensures forall k :: k in m' ==> CommitOk(rows, k, m'[k])
  {
    var ref := rows[|rows| - 1]["commit_hash"];
    forall k | k in m'
      ensures CommitOk(rows, k, m'[k])
    {
      ParentsOfLast(front, rows, k);
      FirstRowLast(front, rows, k);
      if k != ref {
        assert m'[k] == m[k];
      }
    }
  }

  lemma RefsLast(front: seq<Row>, rows: seq<Row>)
    requires rows != [] && front == rows[..|rows| - 1] && RowsKeyed(rows) && RowsKeyed(front)
    ensures Refs(rows) == Refs(front) + [rows[|rows| - 1]["commit_hash"]]
    ensures Dedup(Refs(rows)) == if rows[|rows| - 1]["commit_hash"] in Refs(front) then Dedup(Refs(front))
                                 else Dedup(Refs(front)) + [rows[|rows| - 1]["commit_hash"]]
  {
    assert Refs(rows)[..|Refs(rows)| - 1] == Refs(front);
  }

  lemma ParentsOfLast(front: seq<Row>, rows: seq<Row>, k: string)
    requires rows != [] && front == rows[..|rows| - 1] && RowsKeyed(rows) && RowsKeyed(front)
    ensures ParentsOf(rows, k) == ParentsOf(front, k)
      + (if rows[|rows| - 1]["commit_hash"] == k then [rows[|rows| - 1]["parent_hash"]] else [])
  {
  }

  lemma FirstRowLast(front: seq<Row>, rows: seq<Row>, k: string)
    requires rows != [] && front == rows[..|rows| - 1] && RowsKeyed(rows) && RowsKeyed(front)
    ensures FirstRowOf(rows, k) == if FirstRowOf(front, k).Some? then FirstRowOf(front, k)
      else if rows[|rows| - 1]["commit_hash"] == k then Some(rows[|rows| - 1]) else None
  {
  }

  /** A further parent row turns the commit of `ps` into the commit of `ps + [p]`. */
  lemma AppendKeepsCommitOk(ps: seq<string>, p: string, k: string, c: CommitInfo)
    requires ParentsFit(ps, k, c)
    ensures AppendParentTo(c, p).Success?
    ensures ParentsFit(ps + [p], k, AppendParentTo(c, p).value)
  {
    if |ps| == 1 {
      assert (ps + [p])[..2] == [ps[0], p];
    } else {
      assert (ps + [p])[..2] == ps[..2];
    }
  }

  // ---------------------------------------------------------------------------
  // Consequences

  /** The hashes come out each once, exactly those of the rows, and they are the keys
      of the commit map. */
  lemma OrderMeaning(rows: seq<Row>)
    requires LogFold(rows).Success?
    ensures RowsKeyed(rows)
    ensures forall k :: k in LogFold(rows).value.order <==> k in Refs(rows)
    ensures forall k :: k in LogFold(rows).value.order <==> k in LogFold(rows).value.commits
    ensures forall i, j :: 0 <= i < j < |LogFold(rows).value.order| ==>
      LogFold(rows).value.order[i] != LogFold(rows).value.order[j]
  {
    LogFoldMeaning(rows);
    DedupMeaning(Refs(rows));
  }

  /** The fold never builds a tuple of parents: `is_merge` is false for every commit read
      from the log, merge commits included. */
  lemma NeverTuple(rows: seq<Row>)
    requires LogFold(rows).Success?
    ensures forall k :: k in LogFold(rows).value.commits ==> !LogFold(rows).value.commits[k].parents.PTuple?
  {
    LogFoldMeaning(rows);
  }

  /** The same, on the commit objects `parse_dolt_log_table` returns. */
  lemma ParsedNeverMerge(rows: seq<Row>, order: seq<string>, commits: map<string, Commit>)
    requires LogFold(rows).Success? && Mirrors(order, commits, LogFold(rows).value)
    ensures forall k :: k in commits ==> !commits[k].IsMerge()
  {
    NeverTuple(rows);
  }

  /** Rows that all carry the six columns of the query are always read without error. */
  lemma {:induction false} FoldSucceeds(rows: seq<Row>)
    requires forall i :: 0 <= i < |rows| ==> HasLogKeys(rows[i])
    ensures LogFold(rows).Success?
  {
    if rows != [] {
      var front := rows[..|rows| - 1];
      var row := rows[|rows| - 1];
      assert forall i :: 0 <= i < |front| ==> front[i] == rows[i];
      FoldSucceeds(front);
      NeverTuple(front);
      var st := LogFold(front).value;
      if row["commit_hash"] !in st.commits {
        var keys := ["date", "committer", "email", "message", "parent_hash"];
        assert forall k :: k in keys ==> k in row;
      }
    }
  }

  /** A fold that fails does so with a `KeyError` naming a column some row lacks. */
  lemma {:induction false} FoldFailure(rows: seq<Row>)
    requires LogFold(rows).Failure?
    ensures LogFold(rows).error.KeyError?
    ensures exists i :: 0 <= i < |rows| && LogFold(rows).error.key !in rows[i]
  {
    var front := rows[..|rows| - 1];
    var row := rows[|rows| - 1];
    if LogFold(front).Failure? {
      FoldFailure(front);
      var i :| 0 <= i < |front| && LogFold(front).error.key !in front[i];
      assert front[i] == rows[i];
    } else {
      NeverTuple(front);
      assert LogFold(rows).error.key !in rows[|rows| - 1];
    }
  }
}
