/** Argument vectors as the library assembles them and as a command-line parser reads
    them back. A vector is written as a list of tokens: a bare word (sub-command or
    operand), a switch, or an option followed by its value; `Render` flattens the tokens
    into the strings handed to the tool, and `ReadArgs` is the reading a getopt-style
    parser makes of those strings. */
module Argv {
  import opened Base

  datatype Arg = Word(w: string) | Switch(flag: string) | Valued(flag: string, value: string)

  /** The strings one token stands for. */
  function Strings(t: Arg): seq<string> {
    match t
    case Word(w) => [w]
    case Switch(f) => [f]
    case Valued(f, v) => [f, v]
  }

  /** The strings of the vector. */
  function Render(toks: seq<Arg>): (args: seq<string>)
    ensures |args| >= |toks|
  {
    if toks == [] then [] else Strings(toks[0]) + Render(toks[1..])
  }

  lemma {:induction false} RenderAppend(a: seq<Arg>, b: seq<Arg>)
    ensures Render(a + b) == Render(a) + Render(b)
  {
    if a != [] {
      assert (a + b)[0] == a[0];
      assert (a + b)[1..] == a[1..] + b;
      RenderAppend(a[1..], b);
      assert Render(a + b) == Strings(a[0]) + (Render(a[1..]) + Render(b));
    } else {
      assert a + b == b;
    }
  }

  /** A string a parser takes for an option rather than an operand. */
  predicate IsFlag(s: string) {
    |s| > 0 && s[0] == '-'
  }

  /** What a parser sees: the operands (sub-command words first), the switches, and the
      options with their values, each in order. */
  datatype Reading = Reading(words: seq<string>, switches: seq<string>, values: seq<(string, string)>)

  /** Read from the front: a string in `valued` takes the next string as its value, any
      other string that starts with '-' is a switch, anything else an operand. */
  function ReadArgs(args: seq<string>, valued: set<string>): Reading
    decreases |args|
  {
    if args == [] then Reading([], [], [])
    else
      if args[0] in valued && |args| >= 2 then
        var rest := ReadArgs(args[2..], valued);
        rest.(values := [(args[0], args[1])] + rest.values)
      else
        var rest := ReadArgs(args[1..], valued);
        if IsFlag(args[0]) then rest.(switches := [args[0]] + rest.switches)
        else rest.(words := [args[0]] + rest.words)
  }

  /** The reading the tokens stand for. */
  function Meant(toks: seq<Arg>): Reading {
    Reading(WordsOf(toks), SwitchesOf(toks), ValuesOf(toks))
  }

  function WordsOf(toks: seq<Arg>): seq<string> {
    if toks == [] then [] else (if toks[0].Word? then [toks[0].w] else []) + WordsOf(toks[1..])
  }

  function SwitchesOf(toks: seq<Arg>): seq<string> {
    if toks == [] then [] else (if toks[0].Switch? then [toks[0].flag] else []) + SwitchesOf(toks[1..])
  }

  function ValuesOf(toks: seq<Arg>): seq<(string, string)> {
    if toks == [] then []
    else (if toks[0].Valued? then [(toks[0].flag, toks[0].value)] else []) + ValuesOf(toks[1..])
  }

  /** Tokens a parser cannot mistake: words do not look like options, switches look like
      options and take no value, valued options are known to take one. */
  predicate Unambiguous(toks: seq<Arg>, valued: set<string>) {
    toks == [] || (TokenOk(toks[0], valued) && Unambiguous(toks[1..], valued))
  }

  predicate TokenOk(t: Arg, valued: set<string>) {
    match t
    case Word(w) => !IsFlag(w) && w !in valued
    case Switch(f) => IsFlag(f) && f !in valued
    case Valued(f, _) => f in valued
  }

  /** The reading `m` in front of the reading `rd`. */
  function Before(m: Reading, rd: Reading): Reading {
    Reading(m.words + rd.words, m.switches + rd.switches, m.values + rd.values)
  }

  const NoReading := Reading([], [], [])

  lemma MeantOne(t: Arg)
    ensures Meant([t]) == match t
      case Word(w) => Reading([w], [], [])
      case Switch(f) => Reading([], [f], [])
      case Valued(f, v) => Reading([], [], [(f, v)])
  {
    assert [t][0] == t && [t][1..] == [];
    assert WordsOf([t]) == (if t.Word? then [t.w] else []) + [];
    assert SwitchesOf([t]) == (if t.Switch? then [t.flag] else []) + [];
    assert ValuesOf([t]) == (if t.Valued? then [(t.flag, t.value)] else []) + [];
  }

  /** Operands after a reading add to its words and to nothing else. */
  lemma BeforeWords(rd: Reading, ws: seq<string>)
    ensures Before(rd, Reading(ws, [], [])) == Reading(rd.words + ws, rd.switches, rd.values)
  {
    assert rd.switches + [] == rd.switches && rd.values + [] == rd.values;
  }

  lemma BeforeAssoc(x: Reading, y: Reading, z: Reading)
    ensures Before(x, Before(y, z)) == Before(Before(x, y), z)
  {
    assert x.words + (y.words + z.words) == (x.words + y.words) + z.words;
    assert x.switches + (y.switches + z.switches) == (x.switches + y.switches) + z.switches;
    assert x.values + (y.values + z.values) == (x.values + y.values) + z.values;
  }

  /** One token the parser cannot mistake is read as what it stands for. */
  lemma ReadOne(t: Arg, args: seq<string>, valued: set<string>)
    requires TokenOk(t, valued)
    ensures ReadArgs(Strings(t) + args, valued) == Before(Meant([t]), ReadArgs(args, valued))
  {
    var all := Strings(t) + args;
    assert [t][1..] == [];
    var rd := ReadArgs(args, valued);
    match t
    case Word(w) =>
      assert all[0] == w && all[1..] == args;
      MeantOne(t);
      assert ReadArgs(all, valued) == rd.(words := [w] + rd.words);
    case Switch(f) =>
      assert all[0] == f && all[1..] == args;
      MeantOne(t);
      assert ReadArgs(all, valued) == rd.(switches := [f] + rd.switches);
    case Valued(f, v) =>
      assert all[0] == f && all[1] == v && all[2..] == args;
      MeantOne(t);
      assert ReadArgs(all, valued) == rd.(values := [(f, v)] + rd.values);
  }

  /** An unambiguous prefix is read as what it stands for, whatever follows it. */
  lemma {:induction false} ReadPrefix(a: seq<Arg>, b: seq<Arg>, valued: set<string>)
    requires Unambiguous(a, valued)
    ensures ReadArgs(Render(a + b), valued) == Before(Meant(a), ReadArgs(Render(b), valued))
  {
    if a == [] {
      assert a + b == b;
    } else {
      var rest := a[1..];
      ReadPrefix(rest, b, valued);
      RenderFront(a, b);
      ReadOne(a[0], Render(rest + b), valued);
      MeantFront(a);
      BeforeAssoc(Meant([a[0]]), Meant(rest), ReadArgs(Render(b), valued));
    }
  }

  lemma RenderFront(a: seq<Arg>, b: seq<Arg>)
    requires a != []
    ensures Render(a + b) == Strings(a[0]) + Render(a[1..] + b)
  {
    assert (a + b)[0] == a[0] && (a + b)[1..] == a[1..] + b;
  }

  lemma MeantFront(a: seq<Arg>)
    requires a != []
    ensures Meant(a) == Before(Meant([a[0]]), Meant(a[1..]))
  {
    assert a == [a[0]] + a[1..];
    MeantAppend([a[0]], a[1..]);
  }

  /** An unambiguous vector reads back as exactly the operands, switches and valued
      options it was assembled from. */
  lemma ReadRender(toks: seq<Arg>, valued: set<string>)
    requires Unambiguous(toks, valued)
    ensures ReadArgs(Render(toks), valued) == Meant(toks)
  {
    ReadPrefix(toks, [], valued);
    assert toks + [] == toks;
  }

  lemma {:induction false} MeantAppend(a: seq<Arg>, b: seq<Arg>)
    ensures Meant(a + b) == Reading(Meant(a).words + Meant(b).words, Meant(a).switches + Meant(b).switches,
                                    Meant(a).values + Meant(b).values)
  {
    if a != [] {
      assert (a + b)[0] == a[0];
      assert (a + b)[1..] == a[1..] + b;
      MeantAppend(a[1..], b);
      assert WordsOf(a + b) == (if a[0].Word? then [a[0].w] else []) + (WordsOf(a[1..]) + WordsOf(b));
      assert SwitchesOf(a + b) == (if a[0].Switch? then [a[0].flag] else []) + (SwitchesOf(a[1..]) + SwitchesOf(b));
      assert ValuesOf(a + b) == (if a[0].Valued? then [(a[0].flag, a[0].value)] else []) + (ValuesOf(a[1..]) + ValuesOf(b));
    } else {
      assert a + b == b;
    }
  }

  lemma {:induction false} UnambiguousAppend(a: seq<Arg>, b: seq<Arg>, valued: set<string>)
    requires Unambiguous(a, valued) && Unambiguous(b, valued)
    ensures Unambiguous(a + b, valued)
  {
    if a == [] {
      assert a + b == b;
    } else {
      assert (a + b)[0] == a[0] && (a + b)[1..] == a[1..] + b;
      UnambiguousAppend(a[1..], b, valued);
    }
  }

  // Small builders for the tokens the library appends conditionally.

  /** `if on: args.append(flag)`. */
  function SwitchIf(on: bool, flag: string): seq<Arg> {
    if on then [Switch(flag)] else []
  }

  /** `if value: args.extend([flag, value])`. */
  function ValuedIf(value: Option<string>, flag: string): seq<Arg> {
    if Given(value) then [Valued(flag, value.value)] else []
  }

  /** `if value: args.append(value)`. */
  function WordIf(value: Option<string>): seq<Arg> {
    if Given(value) then [Word(value.value)] else []
  }

  function Words(ws: seq<string>): (toks: seq<Arg>)
    ensures |toks| == |ws| && forall i :: 0 <= i < |ws| ==> toks[i] == Word(ws[i])
  {
    if ws == [] then [] else [Word(ws[0])] + Words(ws[1..])
  }

  /** Words reach the tool as themselves. */
  lemma {:induction false} WordsRender(ws: seq<string>)
    ensures Render(Words(ws)) == ws
  {
    if ws != [] {
      WordsRender(ws[1..]);
      RenderAppend([Word(ws[0])], Words(ws[1..]));
    }
  }

  /** Operands that a parser cannot take for options. */
  predicate PlainWords(ws: seq<string>, valued: set<string>) {
    forall i :: 0 <= i < |ws| ==> !IsFlag(ws[i]) && ws[i] !in valued
  }

  lemma {:induction false} WordsMeant(ws: seq<string>, valued: set<string>)
    requires PlainWords(ws, valued)
    ensures Unambiguous(Words(ws), valued) && Meant(Words(ws)) == Reading(ws, [], [])
  {
    if ws != [] {
      assert Words(ws)[1..] == Words(ws[1..]);
      WordsMeant(ws[1..], valued);
    }
  }

  // Readings of the pieces a vector is assembled from, so that a whole vector's reading
  // is put together piece by piece.

  /** The switch `flag` when `on`. */
  function FlagIf(on: bool, flag: string): seq<string> {
    if on then [flag] else []
  }

  /** The option `flag` with the value given, when it is given (non-empty). */
  function PairIf(value: Option<string>, flag: string): seq<(string, string)> {
    if Given(value) then [(flag, value.value)] else []
  }

  /** The option `flag` with the value given, when it is not `None`. */
  function PairOpt(value: Option<string>, flag: string): seq<(string, string)> {
    if value.Some? then [(flag, value.value)] else []
  }

  /** Two unambiguous pieces make an unambiguous vector, read as one after the other. */
  lemma Joined(a: seq<Arg>, b: seq<Arg>, valued: set<string>)
    requires Unambiguous(a, valued) && Unambiguous(b, valued)
    ensures Unambiguous(a + b, valued) && Meant(a + b) == Before(Meant(a), Meant(b))
  {
    UnambiguousAppend(a, b, valued);
    MeantAppend(a, b);
  }

  lemma OneMeant(t: Arg, valued: set<string>)
    requires TokenOk(t, valued)
    ensures Unambiguous([t], valued)
    ensures Meant([t]) == match t
      case Word(w) => Reading([w], [], [])
      case Switch(f) => Reading([], [f], [])
      case Valued(f, v) => Reading([], [], [(f, v)])
  {
    MeantOne(t);
  }

  lemma SwitchIfMeant(on: bool, flag: string, valued: set<string>)
    requires IsFlag(flag) && flag !in valued
    ensures Unambiguous(SwitchIf(on, flag), valued)
    ensures Meant(SwitchIf(on, flag)) == Reading([], FlagIf(on, flag), [])
  {
    if on { OneMeant(Switch(flag), valued); }
  }

  lemma ValuedIfMeant(value: Option<string>, flag: string, valued: set<string>)
    requires flag in valued
    ensures Unambiguous(ValuedIf(value, flag), valued)
    ensures Meant(ValuedIf(value, flag)) == Reading([], [], PairIf(value, flag))
  {
    if Given(value) { OneMeant(Valued(flag, value.value), valued); }
  }

  /** The operands of an optional word. */
  function WordsIf(value: Option<string>): seq<string> {
    if Given(value) then [value.value] else []
  }

  lemma WordIfMeant(value: Option<string>, valued: set<string>)
    requires PlainWords(WordsIf(value), valued)
    ensures Unambiguous(WordIf(value), valued)
    ensures Meant(WordIf(value)) == Reading(WordsIf(value), [], [])
  {
    if Given(value) {
      assert WordsIf(value)[0] == value.value;
      OneMeant(Word(value.value), valued);
    }
  }

  /** `if value is not None: args.extend([flag, value])`. */
  function ValuedOpt(value: Option<string>, flag: string): seq<Arg> {
    if value.Some? then [Valued(flag, value.value)] else []
  }

  lemma ValuedOptMeant(value: Option<string>, flag: string, valued: set<string>)
    requires flag in valued
    ensures Unambiguous(ValuedOpt(value, flag), valued)
    ensures Meant(ValuedOpt(value, flag)) == Reading([], [], PairOpt(value, flag))
  {
    if value.Some? { OneMeant(Valued(flag, value.value), valued); }
  }

  /** `if value is not None: args.append(value)`. */
  function WordOpt(value: Option<string>): seq<Arg> {
    if value.Some? then [Word(value.value)] else []
  }

  /** The operands of an optional word appended when it is not `None`. */
  function WordsOpt(value: Option<string>): seq<string> {
    if value.Some? then [value.value] else []
  }

  lemma WordOptMeant(value: Option<string>, valued: set<string>)
    requires PlainWords(WordsOpt(value), valued)
    ensures Unambiguous(WordOpt(value), valued)
    ensures Meant(WordOpt(value)) == Reading(WordsOpt(value), [], [])
  {
    if value.Some? {
      assert WordsOpt(value)[0] == value.value;
      OneMeant(Word(value.value), valued);
    }
  }

  // Runs of conditional switches and options, written as a table of (condition, flag).

  /** `if on: args.append(flag)` for each row, in order. */
  function Flags(fs: seq<(bool, string)>): seq<Arg> {
    if fs == [] then [] else SwitchIf(fs[0].0, fs[0].1) + Flags(fs[1..])
  }

  /** The switch rows of two tables, one after the other. */
  lemma {:induction false} FlagsAppend(a: seq<(bool, string)>, b: seq<(bool, string)>)
    ensures Flags(a + b) == Flags(a) + Flags(b)
    decreases |a|
  {
    if a == [] {
      assert a + b == b;
    } else {
      assert (a + b)[0] == a[0] && (a + b)[1..] == a[1..] + b;
      FlagsAppend(a[1..], b);
    }
  }

  lemma FlagsOne(row: (bool, string))
    ensures Flags([row]) == SwitchIf(row.0, row.1)
  {
    assert [row][1..] == [];
  }

  lemma Flags2(a: (bool, string), b: (bool, string))
    ensures Flags([a, b]) == SwitchIf(a.0, a.1) + SwitchIf(b.0, b.1)
  {
    assert [a, b] == [a] + [b];
    FlagsAppend([a], [b]);
    FlagsOne(a); FlagsOne(b);
  }

  lemma Flags3(a: (bool, string), b: (bool, string), c: (bool, string))
    ensures Flags([a, b, c]) == SwitchIf(a.0, a.1) + SwitchIf(b.0, b.1) + SwitchIf(c.0, c.1)
  {
    assert [a, b, c] == [a, b] + [c];
    FlagsAppend([a, b], [c]);
    Flags2(a, b); FlagsOne(c);
  }

  lemma Flags5(a: (bool, string), b: (bool, string), c: (bool, string), d: (bool, string), e: (bool, string))
    ensures Flags([a, b, c, d, e])
         == SwitchIf(a.0, a.1) + SwitchIf(b.0, b.1) + SwitchIf(c.0, c.1) + SwitchIf(d.0, d.1) + SwitchIf(e.0, e.1)
  {
    assert [a, b, c, d, e] == [a, b, c] + [d, e];
    FlagsAppend([a, b, c], [d, e]);
    Flags3(a, b, c); Flags2(d, e);
  }

  /** The switches of the rows that are set, in order. */
  function FlagsOn(fs: seq<(bool, string)>): seq<string> {
    if fs == [] then [] else FlagIf(fs[0].0, fs[0].1) + FlagsOn(fs[1..])
  }

  /** Every flag of the table looks like an option and takes no value. */
  predicate FlagTable(fs: seq<(bool, string)>, valued: set<string>) {
    forall i :: 0 <= i < |fs| ==> IsFlag(fs[i].1) && fs[i].1 !in valued
  }

  lemma {:induction false} FlagsMeant(fs: seq<(bool, string)>, valued: set<string>)
    requires FlagTable(fs, valued)
    ensures Unambiguous(Flags(fs), valued) && Meant(Flags(fs)) == Reading([], FlagsOn(fs), [])
  {
    if fs != [] {
      assert FlagTable(fs[1..], valued) by {
        forall i | 0 <= i < |fs[1..]| ensures IsFlag(fs[1..][i].1) && fs[1..][i].1 !in valued {
          assert fs[1..][i] == fs[i + 1];
        }
      }
      FlagsMeant(fs[1..], valued);
      SwitchIfMeant(fs[0].0, fs[0].1, valued);
      Joined(SwitchIf(fs[0].0, fs[0].1), Flags(fs[1..]), valued);
    }
  }

  /** `if value: args.extend([flag, value])` for each row, in order. */
  function Options(vs: seq<(Option<string>, string)>): seq<Arg> {
    if vs == [] then [] else ValuedIf(vs[0].0, vs[0].1) + Options(vs[1..])
  }

  /** The option rows of two tables, one after the other. */
  lemma {:induction false} OptionsAppend(a: seq<(Option<string>, string)>, b: seq<(Option<string>, string)>)
    ensures Options(a + b) == Options(a) + Options(b)
    decreases |a|
  {
    if a == [] {
      assert a + b == b;
    } else {
      assert (a + b)[0] == a[0] && (a + b)[1..] == a[1..] + b;
      OptionsAppend(a[1..], b);
    }
  }

  lemma OptionsOne(row: (Option<string>, string))
    ensures Options([row]) == ValuedIf(row.0, row.1)
  {
    assert [row][1..] == [];
  }

  lemma Options2(a: (Option<string>, string), b: (Option<string>, string))
    ensures Options([a, b]) == ValuedIf(a.0, a.1) + ValuedIf(b.0, b.1)
  {
    assert [a, b] == [a] + [b];
    OptionsAppend([a], [b]);
    OptionsOne(a); OptionsOne(b);
  }

  lemma Options3(a: (Option<string>, string), b: (Option<string>, string), c: (Option<string>, string))
    ensures Options([a, b, c]) == ValuedIf(a.0, a.1) + ValuedIf(b.0, b.1) + ValuedIf(c.0, c.1)
  {
    assert [a, b, c] == [a, b] + [c];
    OptionsAppend([a, b], [c]);
    Options2(a, b); OptionsOne(c);
  }

  /** The options of the rows that are given, with their values, in order. */
  function PairsOn(vs: seq<(Option<string>, string)>): seq<(string, string)> {
    if vs == [] then [] else PairIf(vs[0].0, vs[0].1) + PairsOn(vs[1..])
  }

  /** Every option of the table is known to take a value. */
  predicate OptionTable(vs: seq<(Option<string>, string)>, valued: set<string>) {
    forall i :: 0 <= i < |vs| ==> vs[i].1 in valued
  }

  lemma {:induction false} OptionsMeant(vs: seq<(Option<string>, string)>, valued: set<string>)
    requires OptionTable(vs, valued)
    ensures Unambiguous(Options(vs), valued) && Meant(Options(vs)) == Reading([], [], PairsOn(vs))
  {
    if vs != [] {
      assert OptionTable(vs[1..], valued) by {
        forall i | 0 <= i < |vs[1..]| ensures vs[1..][i].1 in valued {
          assert vs[1..][i] == vs[i + 1];
        }
      }
      OptionsMeant(vs[1..], valued);
      ValuedIfMeant(vs[0].0, vs[0].1, valued);
      Joined(ValuedIf(vs[0].0, vs[0].1), Options(vs[1..]), valued);
    }
  }

  /** The common layout of a vector: the sub-command words, a run of switches, the
      options, a second run of switches, then the operands. */
  function Layout(sub: seq<string>, flags: seq<(bool, string)>, opts: seq<Arg>, more: seq<(bool, string)>,
                  operands: seq<string>): seq<Arg> {
    (Words(sub) + Flags(flags) + opts) + (Flags(more) + Words(operands))
  }

  /** The layout's five parts in a row. */
  lemma LayoutInRow(sub: seq<string>, flags: seq<(bool, string)>, opts: seq<Arg>, more: seq<(bool, string)>,
                    operands: seq<string>)
    ensures Layout(sub, flags, opts, more, operands)
         == Words(sub) + Flags(flags) + opts + Flags(more) + Words(operands)
  {
    var a, b := Words(sub) + Flags(flags) + opts, Flags(more);
    assert a + (b + Words(operands)) == a + b + Words(operands);
  }

  /** A layout with no trailing switches. */
  lemma LayoutNoMore(sub: seq<string>, flags: seq<(bool, string)>, opts: seq<Arg>, operands: seq<string>)
    ensures Layout(sub, flags, opts, [], operands) == Words(sub) + Flags(flags) + opts + Words(operands)
  {
    assert Flags([]) + Words(operands) == Words(operands);
  }

  /** Options only: the tokens carry no operand and no switch. */
  predicate OnlyValues(opts: seq<Arg>, valued: set<string>) {
    Unambiguous(opts, valued) && Meant(opts).words == [] && Meant(opts).switches == []
  }

  lemma LayoutFront(sub: seq<string>, flags: seq<(bool, string)>, opts: seq<Arg>, valued: set<string>)
    requires PlainWords(sub, valued) && FlagTable(flags, valued) && OnlyValues(opts, valued)
    ensures Unambiguous(Words(sub) + Flags(flags) + opts, valued)
    ensures Meant(Words(sub) + Flags(flags) + opts) == Reading(sub, FlagsOn(flags), Meant(opts).values)
  {
    WordsMeant(sub, valued);
    FlagsMeant(flags, valued);
    Joined(Words(sub), Flags(flags), valued);
    Joined(Words(sub) + Flags(flags), opts, valued);
  }

  lemma LayoutBack(more: seq<(bool, string)>, operands: seq<string>, valued: set<string>)
    requires FlagTable(more, valued) && PlainWords(operands, valued)
    ensures Unambiguous(Flags(more) + Words(operands), valued)
    ensures Meant(Flags(more) + Words(operands)) == Reading(operands, FlagsOn(more), [])
  {
    FlagsMeant(more, valued);
    WordsMeant(operands, valued);
    Joined(Flags(more), Words(operands), valued);
  }

  /** A parser reads such a vector back as the sub-command and the operands, the switches
      that are set, and the options' values. */
  lemma LayoutReads(sub: seq<string>, flags: seq<(bool, string)>, opts: seq<Arg>, more: seq<(bool, string)>,
                    operands: seq<string>, valued: set<string>)
    requires PlainWords(sub, valued) && PlainWords(operands, valued)
    requires FlagTable(flags, valued) && FlagTable(more, valued) && OnlyValues(opts, valued)
    ensures ReadArgs(Render(Layout(sub, flags, opts, more, operands)), valued)
         == Reading(sub + operands, FlagsOn(flags) + FlagsOn(more), Meant(opts).values)
  {
    var front := Words(sub) + Flags(flags) + opts;
    var back := Flags(more) + Words(operands);
    LayoutFront(sub, flags, opts, valued);
    LayoutBack(more, operands, valued);
    Joined(front, back, valued);
    ReadRender(front + back, valued);
  }
}
