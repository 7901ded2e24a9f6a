/** The three line-oriented listings the library reads back from the tool:
    `dolt ls --verbose`, `dolt remote --verbose` and `dolt config --list`. */
module Listing {
  import opened Base
  import opened Text
  import opened DoltTypes

  // ---------------------------------------------------------------------------
  // dolt ls --verbose

  /** `line.lstrip().split()`: the whitespace-separated fields of a line. */
  function Fields(line: string): seq<string> {
    SplitWs(LStrip(line))
  }

  function IntLiteralError(token: string): Error {
    ValueError("invalid literal for int() with base 10: '" + token + "'")
  }

  /** One user-table line of the listing: name, root hash and row count. Too few fields
      is an `IndexError`; a count that is not an integer literal a `ValueError`. */
  function TableOfLine(line: string): (r: Result<Table>)
    ensures r == Failure(IndexError) <==> |Fields(line)| < 3
    ensures r.Success? <==> |Fields(line)| >= 3 && ParseInt(Fields(line)[2]).Some?
    ensures r.Success? ==> !r.value.system && r.value.root.Some? && r.value.rowCnt.Some?
  {
    var split := Fields(line);
    if |split| < 3 then Failure(IndexError)
    else match ParseInt(split[2])
      case None => Failure(IntLiteralError(split[2]))
      case Some(n) => Success(Table(split[0], Some(split[1]), Some(n), false))
  }

  lemma DigitsHaveNoSpace(s: string)
    requires AllDigits(s)
    ensures NoSpace(s)
  {
    assert forall i :: 0 <= i < |s| ==> IsDigit(s[i]);
  }

  /** A line laid out as the tool lays it out reads back as the table it describes. */
  lemma TableOfLineRoundTrip(indent: string, name: string, root: string, rows: int)
    requires forall i :: 0 <= i < |indent| ==> IsSpace(indent[i])
    requires name != "" && NoSpace(name) && root != "" && NoSpace(root)
    ensures TableOfLine(indent + Join(" ", [name, root, IntToString(rows)]))
            == Success(Table(name, Some(root), Some(rows), false))
  {
    var count := IntToString(rows);
    if rows < 0 {
      DigitsHaveNoSpace(NatToString(-rows));
      assert count == "-" + NatToString(-rows);
      assert forall i :: 1 <= i < |count| ==> count[i] == NatToString(-rows)[i - 1];
    } else {
      DigitsHaveNoSpace(count);
    }
    var ws := [name, root, count];
    var body := Join(" ", ws);
    SplitWsJoin(ws);
    LStripSpaces(indent, body);
    ParseIntOfString(rows);
  }

  lemma {:induction false} LStripSpaces(indent: string, s: string)
    requires forall i :: 0 <= i < |indent| ==> IsSpace(indent[i])
    requires s != "" && !IsSpace(s[0])
    ensures LStrip(indent + s) == s
  {
    if indent != "" {
      var rest := indent[1..];
      assert forall i :: 0 <= i < |rest| ==> rest[i] == indent[i + 1];
      LStripSpaces(rest, s);
      DropFirst(indent, s);
    } else {
      assert indent + s == s;
    }
  }

  /** What the first loop makes of one line: a "Tables" header or an empty line is
      skipped, a line starting with "System" ends the loop, any other line is a table. */
  datatype LsLine = Skipped | Marker | Row(table: Result<Table>)

  function LsLineOf(line: string): LsLine {
    if StartsWith(line, "Tables") || line == "" then Skipped
    else if StartsWith(line, "System") then Marker
    else Row(TableOfLine(line))
  }

  function LsLines(lines: seq<string>): (ls: seq<LsLine>)
    ensures |ls| == |lines|
  {
    if lines == [] then [] else LsLines(lines[..|lines| - 1]) + [LsLineOf(lines[|lines| - 1])]
  }

  lemma {:induction false} LsLinesAt(lines: seq<string>, i: nat)
    requires i < |lines|
    ensures LsLines(lines)[i] == LsLineOf(lines[i])
  {
    if i < |lines| - 1 {
      LsLinesAt(lines[..|lines| - 1], i);
    }
  }

  /** The user tables the first loop collects: every table line before the first
      marker, in order; the first bad line ends the listing with its error. */
  function UserTables(ls: seq<LsLine>): (r: Result<seq<Table>>)
    ensures r.Success? ==> |r.value| <= |ls|
  {
    if ls == [] then Success([])
    else match ls[0]
      case Skipped => UserTables(ls[1..])
      case Marker => Success([])
      case Row(Failure(e)) => Failure(e)
      case Row(Success(t)) =>
        match UserTables(ls[1..])
        case Failure(e) => Failure(e)
        case Success(ts) => Success([t] + ts)
  }

  /** Where the first loop breaks: the first marker line. */
  function FirstMarker(ls: seq<LsLine>): (r: Option<nat>)
    ensures r.Some? ==> r.value < |ls| && ls[r.value] == Marker
    ensures r.Some? ==> forall j :: 0 <= j < r.value ==> ls[j] != Marker
    ensures r.None? ==> forall j :: 0 <= j < |ls| ==> ls[j] != Marker
  {
    if ls == [] then None
    else if ls[0] == Marker then Some(0)
    else match FirstMarker(ls[1..])
      case None => None
      case Some(i) => Some(i + 1)
  }

  /** The system tables the second loop collects: one per line that does not start with
      "System", named by the stripped line (an empty line gives an empty name). */
  function SystemTables(lines: seq<string>): seq<Table> {
    if lines == [] then []
    else
      var front := SystemTables(lines[..|lines| - 1]);
      var line := lines[|lines| - 1];
      if StartsWith(line, "System") then front else front + [Table(Strip(line), None, None, true)]
  }

  /** The listing: the "No tables in working set" message of exactly three lines is the
      empty listing; otherwise the user tables, followed by the system tables after the
      first "System" line provided that line is not the first one. */
  function LsOf(lines: seq<string>): Result<seq<Table>> {
    if |lines| == 3 && lines[0] == "No tables in working set" then Success([])
    else match UserTables(LsLines(lines))
      case Failure(e) => Failure(e)
      case Success(user) =>
        match FirstMarker(LsLines(lines))
        case Some(p) => if p != 0 then Success(user + SystemTables(lines[p..])) else Success(user)
        case None => Success(user)
  }

  /** The two loops of the listing as the source runs them. */
  method ParseLs(lines: seq<string>) returns (r: Result<seq<Table>>)
    ensures r == LsOf(lines)
  {
    if |lines| == 3 && lines[0] == "No tables in working set" {
      return Success([]);
    }
    var user, systemPos := CollectUserTables(lines);
    if user.Failure? {
      return Failure(user.error);
    }
    var tables := user.value;
    match systemPos {
      case Some(p) =>
        if p != 0 {
          var systemTables := CollectSystemTables(lines[p..]);
          tables := tables + systemTables;
        }
      case None =>
    }
    r := Success(tables);
  }

  /** The first loop: user tables up to the first "System" line, and where that is. */
  method CollectUserTables(lines: seq<string>) returns (r: Result<seq<Table>>, systemPos: Option<nat>)
    ensures r == UserTables(LsLines(lines))
    ensures r.Success? ==> systemPos == FirstMarker(LsLines(lines))
  {
    ghost var ls := LsLines(lines);
    var tables: seq<Table> := [];
    systemPos := None;
    var i := 0;
    assert ls[i..] == ls;
    PrependNothing(UserTables(ls));
    while i < |lines|
      invariant 0 <= i <= |lines|
      invariant forall j :: 0 <= j < i ==> ls[j] != Marker
      invariant UserTables(ls) == Prepend(tables, UserTables(ls[i..]))
    {
      UserTablesAdvance(ls, i, tables);
      LsLinesAt(lines, i);
      var line := lines[i];
      if StartsWith(line, "Tables") || line == "" {
        assert ls[i] == Skipped;
      } else if StartsWith(line, "System") {
        assert ls[i] == Marker;
        FirstMarkerAt(ls, i);
        return Success(tables), Some(i);
      } else {
        var t := TableOfLine(line);
        assert ls[i] == Row(t);
        if t.Failure? {
          return Failure(t.error), systemPos;
        }
        tables := tables + [t.value];
      }
      i := i + 1;
    }
    assert ls[i..] == [];
    PrependNone(tables);
    r := Success(tables);
  }

  /** One line of the first loop, stated on what the listing still owes after `tables`. */
  lemma UserTablesAdvance(ls: seq<LsLine>, i: nat, tables: seq<Table>)
    requires i < |ls| && UserTables(ls) == Prepend(tables, UserTables(ls[i..]))
    ensures ls[i] == Skipped ==> UserTables(ls) == Prepend(tables, UserTables(ls[i + 1..]))
    ensures ls[i] == Marker ==> UserTables(ls) == Success(tables)
    ensures ls[i].Row? && ls[i].table.Failure? ==> UserTables(ls) == Failure(ls[i].table.error)
    ensures ls[i].Row? && ls[i].table.Success?
            ==> UserTables(ls) == Prepend(tables + [ls[i].table.value], UserTables(ls[i + 1..]))
  {
    UserTablesStep(ls, i);
    match ls[i]
    case Skipped =>
    case Marker => PrependNone(tables);
    case Row(Failure(e)) =>
    case Row(Success(t)) => PrependAssoc(tables, t, UserTables(ls[i + 1..]));
  }

  /** The second loop: the tables listed from the "System" line on. */
  method CollectSystemTables(rest: seq<string>) returns (tables: seq<Table>)
    ensures tables == SystemTables(rest)
  {
    tables := [];
    var k := 0;
    while k < |rest|
      invariant 0 <= k <= |rest|
      invariant tables == SystemTables(rest[..k])
    {
      assert rest[..k + 1][..k] == rest[..k];
      var line := rest[k];
      if !StartsWith(line, "System") {
        tables := tables + [Table(Strip(line), None, None, true)];
      }
      k := k + 1;
    }
    assert rest[..k] == rest;
  }

  /** How the first loop's result changes by one line. */
  lemma UserTablesStep(ls: seq<LsLine>, i: nat)
    requires i < |ls|
    ensures UserTables(ls[i..]) == match ls[i]
      case Skipped => UserTables(ls[i + 1..])
      case Marker => Success([])
      case Row(Failure(e)) => Failure(e)
      case Row(Success(t)) => Prepend([t], UserTables(ls[i + 1..]))
  {
    assert ls[i..][0] == ls[i] && ls[i..][1..] == ls[i + 1..];
  }

  /** `tables` followed by what `rest` lists, failing when `rest` does. */
  function Prepend(tables: seq<Table>, rest: Result<seq<Table>>): Result<seq<Table>> {
    match rest
    case Failure(e) => Failure(e)
    case Success(ts) => Success(tables + ts)
  }

  lemma PrependNothing(rest: Result<seq<Table>>)
    ensures Prepend([], rest) == rest
  {
    if rest.Success? {
      assert [] + rest.value == rest.value;
    }
  }

  lemma PrependNone(tables: seq<Table>)
    ensures Prepend(tables, Success([])) == Success(tables)
  {
    assert tables + [] == tables;
  }

  lemma PrependAssoc(tables: seq<Table>, t: Table, rest: Result<seq<Table>>)
    ensures Prepend(tables, Prepend([t], rest)) == Prepend(tables + [t], rest)
  {
    if rest.Success? {
      assert tables + ([t] + rest.value) == tables + [t] + rest.value;
    }
  }

  lemma FirstMarkerAt(ls: seq<LsLine>, i: nat)
    requires i < |ls| && ls[i] == Marker
    requires forall j :: 0 <= j < i ==> ls[j] != Marker
    ensures FirstMarker(ls) == Some(i)
  {
    var f := FirstMarker(ls);
    assert f.Some?;
  }

  /** A "System" marker on the very first line counts as no marker: the listing then
      holds no system tables at all, whatever follows it. */
  lemma MarkerOnFirstLineHidesSystemTables(lines: seq<string>)
    requires lines != [] && StartsWith(lines[0], "System")
    requires !(|lines| == 3 && lines[0] == "No tables in working set")
    ensures LsOf(lines) == Success([])
  {
    var ls := LsLines(lines);
    assert ls[0] == Marker by {
      LsLinesAt(lines, 0);
      assert lines[0][0] == 'S';
    }
    assert UserTables(ls) == Success([]);
    assert FirstMarker(ls) == Some(0);
  }

  predicate UserShaped(t: Table) {
    !t.system && t.root.Some? && t.rowCnt.Some?
  }

  predicate RowsUserShaped(ls: seq<LsLine>) {
    forall i :: 0 <= i < |ls| && ls[i].Row? && ls[i].table.Success? ==> UserShaped(ls[i].table.value)
  }

  lemma LsLinesShaped(lines: seq<string>)
    ensures RowsUserShaped(LsLines(lines))
  {
    var ls := LsLines(lines);
    forall i | 0 <= i < |ls| && ls[i].Row? && ls[i].table.Success?
      ensures UserShaped(ls[i].table.value)
    {
      LsLinesAt(lines, i);
    }
  }

  lemma {:induction false} UserTablesShaped(ls: seq<LsLine>)
    requires RowsUserShaped(ls)
    ensures UserTables(ls).Success? ==> forall t :: t in UserTables(ls).value ==> UserShaped(t)
  {
    if ls != [] {
      assert RowsUserShaped(ls[1..]) by {
        forall i | 0 <= i < |ls[1..]| && ls[1..][i].Row? && ls[1..][i].table.Success?
          ensures UserShaped(ls[1..][i].table.value)
        {
          assert ls[1..][i] == ls[i + 1];
        }
      }
      UserTablesShaped(ls[1..]);
    }
  }

  /** A listing holds user tables, each with a root hash and a row count, followed by
      system tables, which have neither. */
  lemma LsShape(lines: seq<string>)
    requires LsOf(lines).Success?
    ensures forall t :: t in LsOf(lines).value ==> UserShaped(t) || (t.system && t.root.None? && t.rowCnt.None?)
  {
    LsLinesShaped(lines);
    UserTablesShaped(LsLines(lines));
    if !(|lines| == 3 && lines[0] == "No tables in working set") {
      var user := UserTables(LsLines(lines)).value;
      match FirstMarker(LsLines(lines))
      case Some(p) =>
        if p != 0 {
          var system := SystemTables(lines[p..]);
          SystemTablesMeaning(lines[p..]);
          assert LsOf(lines).value == user + system;
          forall t | t in user + system
            ensures UserShaped(t) || (t.system && t.root.None? && t.rowCnt.None?)
          {
            if t !in user { assert t in system; }
          }
        }
      case None =>
    }
  }

  /** Every system table comes from a line after the marker that does not start with
      "System"; there is one per such line, named by the line stripped of whitespace. */
  lemma {:induction false} SystemTablesMeaning(lines: seq<string>)
    ensures |SystemTables(lines)| == |lines| - CountStartingSystem(lines)
    ensures forall t :: t in SystemTables(lines) ==>
      t.system && t.root.None? && t.rowCnt.None? && exists l :: l in lines && !StartsWith(l, "System") && t.name == Strip(l)
  {
    if lines != [] {
      var front := lines[..|lines| - 1];
      SystemTablesMeaning(front);
      assert forall l :: l in front ==> l in lines;
    }
  }

  function CountStartingSystem(lines: seq<string>): (n: nat)
    ensures n <= |lines|
  {
    if lines == [] then 0
    else CountStartingSystem(lines[..|lines| - 1]) + (if StartsWith(lines[|lines| - 1], "System") then 1 else 0)
  }

  /** An empty line after the marker lists a system table with an empty name. */
  lemma EmptyLineListsEmptyName(lines: seq<string>, i: nat)
    requires i < |lines| && lines[i] == ""
    ensures Table("", None, None, true) in SystemTables(lines)
    decreases |lines|
  {
    if i < |lines| - 1 {
      EmptyLineListsEmptyName(lines[..|lines| - 1], i);
    }
  }

  // ---------------------------------------------------------------------------
  // dolt remote --verbose

  /** The remotes listed before the first empty line, one per line as name and URL;
      a line with fewer than two fields is an `IndexError`. */
  function RemotesOf(lines: seq<string>): Result<seq<Remote>> {
    if lines == [] || lines[0] == "" then Success([])
    else
      var split := Fields(lines[0]);
      if |split| < 2 then Failure(IndexError)
      else match RemotesOf(lines[1..])
        case Failure(e) => Failure(e)
        case Success(rs) => Success([Remote(split[0], split[1])] + rs)
  }

  /** The listing loop as the source runs it, stopping at the first empty line. */
  method ParseRemotes(lines: seq<string>) returns (r: Result<seq<Remote>>)
    ensures r == RemotesOf(lines)
  {
    var remotes: seq<Remote> := [];
    var i := 0;
    assert lines[i..] == lines;
    PrependNoRemotes(RemotesOf(lines));
    while i < |lines|
      invariant 0 <= i <= |lines|
      invariant forall j :: 0 <= j < i ==> lines[j] != ""
      invariant RemotesOf(lines) == PrependRemotes(remotes, RemotesOf(lines[i..]))
    {
      var line := lines[i];
      assert lines[i..][0] == line && lines[i..][1..] == lines[i + 1..];
      if line == "" {
        break;
      }
      var split := Fields(line);
      if |split| < 2 {
        assert RemotesOf(lines[i..]) == Failure(IndexError);
        return Failure(IndexError);
      }
      PrependRemotesAssoc(remotes, Remote(split[0], split[1]), RemotesOf(lines[i + 1..]));
      remotes := remotes + [Remote(split[0], split[1])];
      i := i + 1;
    }
    assert RemotesOf(lines[i..]) == Success([]);
    assert remotes + [] == remotes;
    r := Success(remotes);
  }

  lemma PrependNoRemotes(rest: Result<seq<Remote>>)
    ensures PrependRemotes([], rest) == rest
  {
    if rest.Success? {
      assert [] + rest.value == rest.value;
    }
  }

  lemma PrependRemotesAssoc(remotes: seq<Remote>, r: Remote, rest: Result<seq<Remote>>)
    ensures PrependRemotes(remotes, PrependRemotes([r], rest)) == PrependRemotes(remotes + [r], rest)
  {
    if rest.Success? {
      assert remotes + ([r] + rest.value) == remotes + [r] + rest.value;
    }
  }

  function PrependRemotes(remotes: seq<Remote>, rest: Result<seq<Remote>>): Result<seq<Remote>> {
    match rest
    case Failure(e) => Failure(e)
    case Success(rs) => Success(remotes + rs)
  }

  /** The line the tool prints for a remote: its name and URL separated by a space. */
  function RemoteLine(r: Remote): string {
    Join(" ", [r.name, r.url])
  }

  function RemoteLines(rs: seq<Remote>): (ls: seq<string>)
    ensures |ls| == |rs|
  {
    if rs == [] then [] else [RemoteLine(rs[0])] + RemoteLines(rs[1..])
  }

  predicate WellFormedRemote(r: Remote) {
    r.name != "" && NoSpace(r.name) && r.url != "" && NoSpace(r.url)
  }

  lemma RemoteLineFields(r: Remote)
    requires WellFormedRemote(r)
    ensures RemoteLine(r) != "" && Fields(RemoteLine(r)) == [r.name, r.url]
  {
    SplitWsJoin([r.name, r.url]);
    LStripSpaces("", RemoteLine(r));
    assert "" + RemoteLine(r) == RemoteLine(r);
  }

  lemma RemotesOfCons(line: string, rest: seq<string>, rs: seq<Remote>)
    requires rs != [] && line != "" && Fields(line) == [rs[0].name, rs[0].url]
    requires RemotesOf(rest) == Success(rs[1..])
    ensures RemotesOf([line] + rest) == Success(rs)
  {
    DropFirst([line], rest);
    assert Remote(rs[0].name, rs[0].url) == rs[0];
    ConsFront(rs);
  }

  predicate WellFormedRemotes(rs: seq<Remote>) {
    forall i :: 0 <= i < |rs| ==> WellFormedRemote(rs[i])
  }

  /** The first line of a listing holds the first remote, the lines after it the rest. */
  lemma RemotesStep(rs: seq<Remote>, trailer: seq<string>)
    requires rs != [] && WellFormedRemote(rs[0])
    requires RemotesOf(RemoteLines(rs[1..]) + [""] + trailer) == Success(rs[1..])
    ensures RemotesOf(RemoteLines(rs) + [""] + trailer) == Success(rs)
  {
    RemoteLinesFront(rs, trailer);
    RemoteLineFields(rs[0]);
    RemotesOfCons(RemoteLine(rs[0]), RemoteLines(rs[1..]) + [""] + trailer, rs);
  }

  lemma RemoteLinesFront(rs: seq<Remote>, trailer: seq<string>)
    requires rs != []
    ensures RemoteLines(rs) + [""] + trailer == [RemoteLine(rs[0])] + (RemoteLines(rs[1..]) + [""] + trailer)
  {
    var head, tail := [RemoteLine(rs[0])], RemoteLines(rs[1..]);
    assert RemoteLines(rs) == head + tail;
    AppendThree(head, tail, [""], trailer);
  }

  lemma WellFormedTail(rs: seq<Remote>)
    requires rs != [] && WellFormedRemotes(rs)
    ensures WellFormedRemote(rs[0]) && WellFormedRemotes(rs[1..])
  {
    forall i | 0 <= i < |rs[1..]| ensures WellFormedRemote(rs[1..][i]) {
      assert rs[1..][i] == rs[i + 1];
    }
  }

  lemma RemotesEnd(trailer: seq<string>)
    ensures RemotesOf(RemoteLines([]) + [""] + trailer) == Success([])
  {
    assert (RemoteLines([]) + [""] + trailer)[0] == "";
  }

  /** Remotes printed one per line and followed by an empty line read back unchanged,
      whatever comes after the empty line. */
  lemma {:induction false} RemotesRoundTrip(rs: seq<Remote>, trailer: seq<string>)
    requires WellFormedRemotes(rs)
    ensures RemotesOf(RemoteLines(rs) + [""] + trailer) == Success(rs)
  {
    if rs == [] {
      RemotesEnd(trailer);
    } else {
      WellFormedTail(rs);
      RemotesRoundTrip(rs[1..], trailer);
      RemotesStep(rs, trailer);
    }
  }

  // ---------------------------------------------------------------------------
  // dolt config

  /** The settings listed by `dolt config`: each line holding "=" is split on " = " into
      a name and a value; a later line for the same name wins; a line with "=" but no
      " = " is an `IndexError`. */
  function ConfigOf(lines: seq<string>): Result<map<string, string>> {
    if lines == [] then Success(map[])
    else
      match ConfigOf(lines[..|lines| - 1])
      case Failure(e) => Failure(e)
      case Success(m) =>
        var line := lines[|lines| - 1];
        if !Contains(line, "=") then Success(m)
        else
          var split := Split(line, " = ");
          if |split| < 2 then Failure(IndexError) else Success(m[split[0] := split[1]])
  }

  /** The parsing loop as the source runs it. */
  method ParseConfig(lines: seq<string>) returns (r: Result<map<string, string>>)
    ensures r == ConfigOf(lines)
  {
    var result: map<string, string> := map[];
    var i := 0;
    while i < |lines|
      invariant 0 <= i <= |lines|
      invariant ConfigOf(lines[..i]) == Success(result)
    {
      assert lines[..i + 1][..i] == lines[..i];
      var line := lines[i];
      if Contains(line, "=") {
        var split := Split(line, " = ");
        if |split| < 2 {
          ConfigFailureSticks(lines, i + 1);
          return Failure(IndexError);
        }
        result := result[split[0] := split[1]];
      }
      i := i + 1;
    }
    assert lines[..i] == lines;
    r := Success(result);
  }

  lemma {:induction false} ConfigFailureSticks(lines: seq<string>, k: nat)
    requires k <= |lines| && ConfigOf(lines[..k]).Failure?
    ensures ConfigOf(lines) == ConfigOf(lines[..k])
    decreases |lines| - k
  {
    if k < |lines| {
      var n := |lines| - 1;
      assert lines[..n][..k] == lines[..k];
      ConfigFailureSticks(lines[..n], k);
    } else {
      assert lines[..k] == lines;
    }
  }

  predicate NoEquals(s: string) {
    forall i :: 0 <= i < |s| ==> s[i] != '='
  }

  /** The line the tool prints for a setting. */
  function ConfigLine(name: string, value: string): string {
    name + " = " + value
  }

  /** Any occurrence of `t` in `s` puts the characters of `t` in `s` at that place. */
  lemma OccursAtChar(s: string, t: string, j: nat, k: nat)
    requires OccursAt(s, t, j) && k < |t|
    ensures j + k < |s| && s[j + k] == t[k]
  {
    assert s[j..j + |t|][k] == t[k];
  }

  lemma NoEqualsNoSeparator(s: string)
    requires NoEquals(s)
    ensures IndexOf(s, " = ").None? && !Contains(s, "=")
  {
    var f := IndexOf(s, " = ");
    if f.Some? {
      OccursAtChar(s, " = ", f.value, 1);
      assert false;
    }
    var g := IndexOf(s, "=");
    if g.Some? {
      OccursAtChar(s, "=", g.value, 0);
      assert false;
    }
  }

  /** A setting printed as the tool prints it reads back as the same name and value. */
  lemma ConfigLineSplits(name: string, value: string)
    requires NoEquals(name) && NoEquals(value)
    ensures Contains(ConfigLine(name, value), "=")
    ensures Split(ConfigLine(name, value), " = ") == [name, value]
  {
    var line := ConfigLine(name, value);
    var n := |name|;
    assert OccursAt(line, " = ", n) by {
      assert line[n..n + 3] == " = ";
    }
    var f := IndexOf(line, " = ");
    assert f == Some(n) by {
      if f.value < n {
        OccursAtChar(line, " = ", f.value, 1);
      }
    }
    assert OccursAt(line, "=", n + 1) by {
      assert line == name + (" = " + value);
      assert line[n + 1] == '=';
      assert line[n + 1..n + 2] == "=";
    }
    assert line[n + 3..] == value;
    assert line[..n] == name;
    NoEqualsNoSeparator(value);
  }

  /** Settings as a name-to-value map, a later pair for the same name winning. */
  function MapOf(pairs: seq<(string, string)>): map<string, string> {
    if pairs == [] then map[]
    else MapOf(pairs[..|pairs| - 1])[pairs[|pairs| - 1].0 := pairs[|pairs| - 1].1]
  }

  function ConfigLines(pairs: seq<(string, string)>): (ls: seq<string>)
    ensures |ls| == |pairs|
  {
    if pairs == [] then [] else ConfigLines(pairs[..|pairs| - 1]) + [ConfigLine(pairs[|pairs| - 1].0, pairs[|pairs| - 1].1)]
  }

  /** Settings printed one per line read back as the map they describe, the last
      setting of a name winning. */
  lemma {:induction false} ConfigRoundTrip(pairs: seq<(string, string)>)
    requires forall p :: p in pairs ==> NoEquals(p.0) && NoEquals(p.1)
    ensures ConfigOf(ConfigLines(pairs)) == Success(MapOf(pairs))
  {
    if pairs != [] {
      var n := |pairs| - 1;
      var lines := ConfigLines(pairs);
      assert forall p :: p in pairs[..n] ==> p in pairs;
      ConfigRoundTrip(pairs[..n]);
      assert lines[..n] == ConfigLines(pairs[..n]);
      assert pairs[n] in pairs;
      ConfigLineSplits(pairs[n].0, pairs[n].1);
    }
  }
}
