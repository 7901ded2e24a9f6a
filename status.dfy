/** `Dolt.status`: the three-state scan of `dolt status` output. */
module StatusParser {
  import opened Base
  import opened Text
  import opened DoltTypes

  /** What a line says once its leading whitespace is dropped; the tests are made in this order. */
  datatype LineKind = StagedHeader | UnstagedHeader | ModifiedEntry | NewTableEntry | OtherLine

  function Classify(line: string): LineKind {
    var l := LStrip(line);
    if StartsWith(l, "Changes to be committed") then StagedHeader
    else if StartsWith(l, "Changes not staged for commit") then UnstagedHeader
    else if StartsWith(l, "Untracked files") then UnstagedHeader
    else if StartsWith(l, "modified") then ModifiedEntry
    else if StartsWith(l, "new table") then NewTableEntry
    else OtherLine
  }

  /** `line.lstrip().split(":")[1].lstrip()`; `IndexError` when there is no colon. */
  function EntryName(line: string): (r: Result<string>)
    ensures r.Failure? <==> !Contains(LStrip(line), ":")
  {
    var parts := Split(LStrip(line), ":");
    if |parts| < 2 then Failure(IndexError) else Success(LStrip(parts[1]))
  }

  /** What one line does to the scan: set the staged flag, record an entry in the
      modified (`added == false`) or new-table (`added == true`) map, or nothing. */
  datatype Event = Header(staged: bool) | Entry(added: bool, name: Result<string>) | Skip

  function EventOf(line: string): Event {
    match Classify(line)
    case StagedHeader => Header(true)
    case UnstagedHeader => Header(false)
    case ModifiedEntry => Entry(false, EntryName(line))
    case NewTableEntry => Entry(true, EntryName(line))
    case OtherLine => Skip
  }

  function Events(lines: seq<string>): (es: seq<Event>)
    ensures |es| == |lines| && forall i :: 0 <= i < |lines| ==> es[i] == EventOf(lines[i])
  {
    if lines == [] then [] else Events(lines[..|lines| - 1]) + [EventOf(lines[|lines| - 1])]
  }

  datatype ScanState = ScanState(staged: bool, modified: ODict<bool>, added: ODict<bool>)

  function Start(): ScanState {
    ScanState(false, EmptyDict(), EmptyDict())
  }

  function EntriesOf(st: ScanState, added: bool): ODict<bool> {
    if added then st.added else st.modified
  }

  function Step(st: ScanState, e: Event): Result<ScanState> {
    match e
    case Header(b) => Success(st.(staged := b))
    case Entry(added, name) =>
      (match name
       case Failure(err) => Failure(err)
       case Success(t) =>
         if added then Success(st.(added := st.added.Put(t, st.staged)))
         else Success(st.(modified := st.modified.Put(t, st.staged))))
    case Skip => Success(st)
  }

  /** The scan of a sequence of events from the start state; the first failure stops it. */
  function Run(es: seq<Event>): Result<ScanState> {
    if es == [] then Success(Start())
    else
      match Run(es[..|es| - 1])
      case Failure(err) => Failure(err)
      case Success(st) => Step(st, es[|es| - 1])
  }

  function Scan(lines: seq<string>): Result<ScanState> {
    Run(Events(lines))
  }

  /** The status that `dolt status` output stands for. The source tests "clean" against the
      output lines joined back with newlines, which is the output itself (`JoinSplit`). */
  function StatusOf(output: string): Result<Status> {
    var lines := Split(output, "\n");
    if Contains(output, "clean") then Success(Status(true, EmptyDict(), EmptyDict()))
    else
      match Scan(lines)
      case Failure(e) => Failure(e)
      case Success(st) => Success(Status(false, st.modified, st.added))
  }

  /** The status check as the source runs it: "clean" anywhere wins, otherwise the scan. */
  method ParseStatus(output: string) returns (r: Result<Status>)
    ensures r == StatusOf(output)
  {
    var lines := Split(output, "\n");
    JoinSplit(output, "\n");
    if Contains(Join("\n", lines), "clean") {
      return Success(Status(true, EmptyDict(), EmptyDict()));
    }
    var scanned := ScanLines(lines);
    match scanned
    case Failure(e) =>
      r := Failure(e);
    case Success(st) =>
      r := Success(Status(false, st.modified, st.added));
  }

  /** The scan as the source runs it: one pass over the lines, flipping `staged` and
      filling the two dictionaries. */
  method ScanLines(lines: seq<string>) returns (r: Result<ScanState>)
    ensures r == Scan(lines)
  {
    ghost var es := Events(lines);
    var staged := false;
    var changes: ODict<bool> := EmptyDict();
    var newTables: ODict<bool> := EmptyDict();
    var i := 0;
    while i < |lines|
      invariant 0 <= i <= |lines|
      invariant Run(es[..i]) == Success(ScanState(staged, changes, newTables))
    {
      ScanAdvance(es, i, ScanState(staged, changes, newTables));
      var line := lines[i];
      LineEvent(line);
      var kind := Classify(line);
      if kind == StagedHeader {
        staged := true;
      } else if kind == UnstagedHeader {
        staged := false;
      } else if kind == ModifiedEntry || kind == NewTableEntry {
        var parts := Split(LStrip(line), ":");
        if |parts| < 2 {
          FailureSticks(es, i + 1);
          return Failure(IndexError);
        }
        var name := LStrip(parts[1]);
        if kind == ModifiedEntry {
          changes := changes.Put(name, staged);
        } else {
          newTables := newTables.Put(name, staged);
        }
      }
      i := i + 1;
    }
    assert es[..i] == es;
    r := Success(ScanState(staged, changes, newTables));
  }

  /** One line's event, in the terms the loop tests. */
  lemma LineEvent(line: string)
    ensures var k := Classify(line); var parts := Split(LStrip(line), ":");
      && (k == StagedHeader ==> EventOf(line) == Header(true))
      && (k == UnstagedHeader ==> EventOf(line) == Header(false))
      && (k == ModifiedEntry || k == NewTableEntry ==>
            EventOf(line) == Entry(k == NewTableEntry,
                                   if |parts| < 2 then Failure(IndexError) else Success(LStrip(parts[1]))))
      && (k == OtherLine ==> EventOf(line) == Skip)
  {
  }

  /** The scan after `i` events that reached `st` takes one step on the next event. */
  lemma ScanAdvance(es: seq<Event>, i: nat, st: ScanState)
    requires i < |es| && Run(es[..i]) == Success(st)
    ensures Run(es[..i + 1]) == Step(st, es[i])
  {
    RunNext(es, i);
  }

  /** One more event extends the scan by one step. */
  lemma RunNext(es: seq<Event>, i: nat)
    requires i < |es|
    ensures Run(es[..i + 1]) == (match Run(es[..i])
                                 case Failure(err) => Failure(err)
                                 case Success(st) => Step(st, es[i]))
  {
    assert es[..i + 1][..i] == es[..i];
  }

  /** Once the scan of a prefix has failed, the scan of the whole fails with the same error. */
  lemma {:induction false} FailureSticks(es: seq<Event>, k: nat)
    requires k <= |es| && Run(es[..k]).Failure?
    ensures Run(es) == Run(es[..k])
    decreases |es| - k
  {
    if k < |es| {
      var n := |es| - 1;
      assert es[..n][..k] == es[..k];
      FailureSticks(es[..n], k);
    } else {
      assert es[..k] == es;
    }
  }

  /** The scan fails exactly when some entry line has no colon. */
  lemma {:induction false} RunFails(es: seq<Event>)
    ensures Run(es).Failure? <==> exists i :: 0 <= i < |es| && es[i].Entry? && es[i].name.Failure?
  {
    if es != [] {
      var n := |es| - 1;
      RunFails(es[..n]);
      assert forall i :: 0 <= i < n ==> es[..n][i] == es[i];
    }
  }

  /** The staged flag in force after `es`: set by the last header, false before any. */
  function StagedAfter(es: seq<Event>): bool {
    if es == [] then false
    else match es[|es| - 1]
      case Header(b) => b
      case _ => StagedAfter(es[..|es| - 1])
  }

  /** The staged flag the scan ends with is the one the last section header set. */
  lemma {:induction false} RunStaged(es: seq<Event>)
    requires Run(es).Success?
    ensures Run(es).value.staged == StagedAfter(es)
  {
    if es != [] {
      RunStaged(es[..|es| - 1]);
    }
  }

  /** `i` is the last event of `es` that records `name` in the map chosen by `added`. */
  predicate LastEntryAt(es: seq<Event>, added: bool, name: string, i: int) {
    0 <= i < |es| && es[i] == Entry(added, Success(name))
    && forall j :: i < j < |es| ==> es[j] != Entry(added, Success(name))
  }

  /** What the scan records: a table is in the modified (resp. added) map exactly when
      some "modified" (resp. "new table") line names it, and it is mapped to the staged
      flag in force at the last such line. */
  lemma {:induction false} RunMeaning(es: seq<Event>, added: bool, name: string)
    requires Run(es).Success?
    ensures name in EntriesOf(Run(es).value, added).vals <==>
      exists i :: 0 <= i < |es| && es[i] == Entry(added, Success(name))
    ensures name in EntriesOf(Run(es).value, added).vals ==>
      exists i :: LastEntryAt(es, added, name, i)
        && EntriesOf(Run(es).value, added).vals[name] == StagedAfter(es[..i])
  {
    if es != [] {
      var n := |es| - 1;
      var front := es[..n];
      var st := Run(front).value;
      RunMeaning(front, added, name);
      RunStaged(front);
      var m := EntriesOf(Run(es).value, added);
      var m0 := EntriesOf(st, added);
      assert forall i :: 0 <= i < n ==> front[i] == es[i];
      if es[n] == Entry(added, Success(name)) {
        assert m.vals[name] == st.staged;
        assert front == es[..n];
        assert LastEntryAt(es, added, name, n);
      } else {
        assert name in m.vals <==> name in m0.vals;
        if name in m.vals {
          assert m.vals[name] == m0.vals[name];
          var i :| LastEntryAt(front, added, name, i) && m0.vals[name] == StagedAfter(front[..i]);
          assert front[..i] == es[..i];
          assert LastEntryAt(es, added, name, i);
        }
      }
    }
  }
}
