/** The few `str` operations of Python that the library applies to the tool's output:
    `startswith`, `in`, `lstrip`, `strip`, `split(sep)`, `split()`, `join`, `int` and `str`
    on integers. Whitespace is what Python's `str.isspace` accepts: the ASCII tab, line
    feed, vertical tab, form feed, carriage return, the separators U+001C to U+001F and the
    space, and the Unicode spaces and line separators listed below. */
module Text {
  import opened Base

  predicate IsSpace(c: char) {
    || c == ' ' || '\t' <= c <= '\r' || '\U{001C}' <= c <= '\U{001F}'
    || c == '\U{0085}' || c == '\U{00A0}' || c == '\U{1680}' || '\U{2000}' <= c <= '\U{200A}'
    || c == '\U{2028}' || c == '\U{2029}' || c == '\U{202F}' || c == '\U{205F}' || c == '\U{3000}'
  }

  predicate NoSpace(s: string) {
    forall i :: 0 <= i < |s| ==> !IsSpace(s[i])
  }

  predicate StartsWith(s: string, prefix: string) {
    |prefix| <= |s| && s[..|prefix|] == prefix
  }

  predicate EndsWith(s: string, suffix: string) {
    |suffix| <= |s| && s[|s| - |suffix|..] == suffix
  }

  /** The two halves of a concatenation are its prefix and its suffix. */
  lemma Concat(a: string, b: string)
    ensures StartsWith(a + b, a) && (a + b)[|a|..] == b
    ensures EndsWith(a + b, b) && (a + b)[..|a|] == a
    ensures b == "" ==> a + b == a
  {
  }

  /** `s.lstrip()`: the suffix of `s` left after dropping its leading whitespace. */
  function LStrip(s: string): (r: string)
    ensures |r| <= |s| && r == s[|s| - |r|..]
    ensures forall i :: 0 <= i < |s| - |r| ==> IsSpace(s[i])
    ensures r == "" || !IsSpace(r[0])
  {
    if s != [] && IsSpace(s[0]) then LStrip(s[1..]) else s
  }

  /** `s.rstrip()`: the prefix of `s` left after dropping its trailing whitespace. */
  function RStrip(s: string): (r: string)
    ensures |r| <= |s| && r == s[..|r|]
    ensures forall i :: |r| <= i < |s| ==> IsSpace(s[i])
    ensures r == "" || !IsSpace(r[|r| - 1])
  {
    if s != [] && IsSpace(s[|s| - 1]) then RStrip(s[..|s| - 1]) else s
  }

  /** `s.strip()`: the middle of `s`, between its leading and its trailing whitespace. */
  function Strip(s: string): (r: string)
    ensures r == "" || (!IsSpace(r[0]) && !IsSpace(r[|r| - 1]))
    ensures Trims(s, |s| - |LStrip(s)|, r)
  {
    var t := LStrip(s);
    var r := RStrip(t);
    Trimmed(s, t, r);
    r
  }

  /** `r` is what `s` holds from position `k` on, with only whitespace before and after. */
  predicate Trims(s: string, k: nat, r: string) {
    && k + |r| <= |s| && r == s[k..k + |r|]
    && (forall i :: 0 <= i < k ==> IsSpace(s[i]))
    && (forall i :: k + |r| <= i < |s| ==> IsSpace(s[i]))
  }

  /** A prefix `r` of a suffix `t` of `s`, with whitespace only before `t` in `s` and
      after `r` in `t`, is what `s` holds between its leading and trailing whitespace. */
  lemma Trimmed(s: string, t: string, r: string)
    requires |t| <= |s| && t == s[|s| - |t|..] && |r| <= |t| && r == t[..|r|]
    requires forall i :: 0 <= i < |s| - |t| ==> IsSpace(s[i])
    requires forall i :: |r| <= i < |t| ==> IsSpace(t[i])
    ensures Trims(s, |s| - |t|, r)
  {
    PrefixOfSuffix(s, t, r);
  }

  /** A prefix `r` of a suffix `t` of `s` is the slice of `s` where it sits. */
  lemma PrefixOfSuffix<T>(s: seq<T>, t: seq<T>, r: seq<T>)
    requires |t| <= |s| && t == s[|s| - |t|..] && |r| <= |t| && r == t[..|r|]
    ensures r == s[|s| - |t|..|s| - |t| + |r|]
    ensures forall i :: |s| - |t| <= i < |s| ==> s[i] == t[i - (|s| - |t|)]
  {
  }

  predicate OccursAt(s: string, t: string, i: nat) {
    i + |t| <= |s| && s[i..i + |t|] == t
  }

  /** `s.find(t)`, with `None` for -1: the first position where `t` occurs in `s`. */
  function IndexOf(s: string, t: string): (r: Option<nat>)
    ensures r.Some? ==> OccursAt(s, t, r.value) && forall j :: 0 <= j < r.value ==> !OccursAt(s, t, j)
    ensures r.None? ==> forall j :: 0 <= j ==> !OccursAt(s, t, j)
    decreases |s|
  {
    if |s| < |t| then None
    else if s[..|t|] == t then Some(0)
    else
      match IndexOf(s[1..], t)
      case None =>
        assert forall j :: 1 <= j ==> (OccursAt(s, t, j) <==> OccursAt(s[1..], t, j - 1));
        None
      case Some(i) =>
        assert forall j :: 1 <= j ==> (OccursAt(s, t, j) <==> OccursAt(s[1..], t, j - 1));
        Some(i + 1)
  }

  /** Python's `t in s` on strings. */
  predicate Contains(s: string, t: string) {
    IndexOf(s, t).Some?
  }

  /** `s.split(sep)` for a non-empty separator. */
  function Split(s: string, sep: string): (r: seq<string>)
    requires sep != ""
    ensures |r| >= 1
    decreases |s|
  {
    match IndexOf(s, sep)
    case None => [s]
    case Some(i) => [s[..i]] + Split(s[i + |sep|..], sep)
  }

  /** `sep.join(parts)`. */
  function Join(sep: string, parts: seq<string>): string {
    if parts == [] then ""
    else if |parts| == 1 then parts[0]
    else parts[0] + sep + Join(sep, parts[1..])
  }

  /** The pieces `Split` returns, put back together with the separator, give the original. */
  lemma {:induction false} JoinSplit(s: string, sep: string)
    requires sep != ""
    ensures Join(sep, Split(s, sep)) == s
    decreases |s|
  {
    var found := IndexOf(s, sep);
    if found.Some? {
      var i := found.value;
      var rest := s[i + |sep|..];
      JoinSplit(rest, sep);
      var tail := Split(rest, sep);
      assert Split(s, sep) == [s[..i]] + tail;
      JoinFront(s[..i], tail, sep);
      Around(s, sep, i);
    }
  }

  /** A string is what comes before an occurrence, the occurrence, and what follows it. */
  lemma Around(s: string, t: string, i: nat)
    requires OccursAt(s, t, i)
    ensures s == s[..i] + t + s[i + |t|..]
  {
    assert s == s[..i] + s[i..i + |t|] + s[i + |t|..];
  }

  lemma JoinFront(head: string, tail: seq<string>, sep: string)
    requires tail != []
    ensures Join(sep, [head] + tail) == head + sep + Join(sep, tail)
  {
    assert ([head] + tail)[1..] == tail;
  }

  /** No piece that `Split` returns contains the separator. */
  lemma {:induction false} SplitPiecesFree(s: string, sep: string)
    requires sep != ""
    ensures forall p :: p in Split(s, sep) ==> !Contains(p, sep)
    decreases |s|
  {
    match IndexOf(s, sep)
    case None =>
    case Some(i) =>
      var rest := s[i + |sep|..];
      SplitPiecesFree(rest, sep);
      HeadFree(s, sep, i);
      assert Split(s, sep) == [s[..i]] + Split(rest, sep);
  }

  /** What comes before the first occurrence of `sep` does not contain it. */
  lemma HeadFree(s: string, sep: string, i: nat)
    requires sep != "" && IndexOf(s, sep) == Some(i)
    ensures !Contains(s[..i], sep)
  {
    var head := s[..i];
    if Contains(head, sep) {
      var j := IndexOf(head, sep).value;
      assert j < i && head[j..j + |sep|] == s[j..j + |sep|];
      assert OccursAt(s, sep, j);
      assert false;
    }
  }

  /** Parts free of a one-character separator, joined with it, split back into the same
      parts. */
  lemma {:induction false} SplitJoin(parts: seq<string>, sep: string)
    requires |sep| == 1 && parts != []
    requires forall p :: p in parts ==> !Contains(p, sep)
    ensures Split(Join(sep, parts), sep) == parts
    decreases |parts|
  {
    if |parts| == 1 {
      SplitNone(parts[0], sep);
    } else {
      var rest := parts[1..];
      assert forall p :: p in rest ==> p in parts;
      SplitJoin(rest, sep);
      SplitFirst(parts[0], Join(sep, rest), sep);
      assert parts == [parts[0]] + rest;
    }
  }

  /** A string without the separator splits into itself. */
  lemma SplitNone(s: string, sep: string)
    requires sep != "" && !Contains(s, sep)
    ensures Split(s, sep) == [s]
  {
  }

  /** Splitting on a one-character separator stops at the first one, so a first piece
      free of it comes out whole. */
  lemma SplitFirst(a: string, b: string, sep: string)
    requires |sep| == 1 && !Contains(a, sep)
    ensures Split(a + sep + b, sep) == [a] + Split(b, sep)
  {
    var s := a + sep + b;
    assert OccursAt(s, sep, |a|) by { assert s[|a|..|a| + 1] == sep; }
    forall j | 0 <= j < |a| ensures !OccursAt(s, sep, j) {
      if OccursAt(s, sep, j) {
        assert a[j..j + 1] == s[j..j + 1];
        assert OccursAt(a, sep, j);
      }
    }
    var found := IndexOf(s, sep);
    assert found.Some? && found.value == |a|;
    assert s[..|a|] == a && s[|a| + |sep|..] == b;
  }

  /** The leading run of non-whitespace characters of `s`. */
  function Word(s: string): (r: string)
    ensures |r| <= |s| && r == s[..|r|] && NoSpace(r)
    ensures |r| < |s| ==> IsSpace(s[|r|])
  {
    if s == [] || IsSpace(s[0]) then "" else [s[0]] + Word(s[1..])
  }

  /** `s.split()`: the maximal runs of non-whitespace characters, in order. */
  function SplitWs(s: string): (r: seq<string>)
    ensures forall t :: t in r ==> t != "" && NoSpace(t)
    decreases |s|
  {
    var t := LStrip(s);
    if t == "" then []
    else
      var w := Word(t);
      [w] + SplitWs(t[|w|..])
  }

  lemma {:induction false} WordPrefix(w: string, rest: string)
    requires NoSpace(w) && (rest == "" || IsSpace(rest[0]))
    ensures Word(w + rest) == w
    decreases |w|
  {
    if w != "" {
      WordPrefix(w[1..], rest);
      assert (w + rest)[1..] == w[1..] + rest;
    }
  }

  lemma SplitWsLeadingSpace(c: char, s: string)
    requires IsSpace(c)
    ensures SplitWs([c] + s) == SplitWs(s)
  {
    assert ([c] + s)[1..] == s;
  }

  /** A single word splits back into itself. */
  lemma SplitWsOne(w: string)
    requires w != "" && NoSpace(w)
    ensures SplitWs(w) == [w]
  {
    WordPrefix(w, "");
    assert w + "" == w;
    assert LStrip(w) == w;
    assert w[|w|..] == "";
    assert SplitWs(w) == [w] + SplitWs("");
  }

  /** A word followed by a space: the word is the first piece, the rest splits on. */
  lemma SplitWsCons(w: string, rest: string)
    requires w != "" && NoSpace(w)
    ensures SplitWs(w + " " + rest) == [w] + SplitWs(rest)
  {
    var s := w + " " + rest;
    WordPrefix(w, " " + rest);
    assert w + (" " + rest) == s;
    assert LStrip(s) == s;
    assert s[|w|..] == [' '] + rest;
    SplitWsLeadingSpace(' ', rest);
    assert SplitWs(s) == [w] + SplitWs([' '] + rest);
  }

  /** Each of `ws` is a non-empty run of non-whitespace characters. */
  predicate Tokens(ws: seq<string>) {
    forall i :: 0 <= i < |ws| ==> ws[i] != "" && NoSpace(ws[i])
  }

  /** Words without whitespace, joined by single spaces, split back into the same words. */
  lemma {:induction false} SplitWsJoin(ws: seq<string>)
    requires Tokens(ws)
    ensures SplitWs(Join(" ", ws)) == ws
  {
    if |ws| == 1 {
      SplitWsOne(ws[0]);
    } else if |ws| > 1 {
      TokensTail(ws);
      SplitWsJoin(ws[1..]);
      SplitWsCons(ws[0], Join(" ", ws[1..]));
      JoinCons(ws, " ");
      assert ws == [ws[0]] + ws[1..];
    }
  }

  lemma TokensTail(ws: seq<string>)
    requires ws != [] && Tokens(ws)
    ensures ws[0] != "" && NoSpace(ws[0]) && Tokens(ws[1..])
  {
    forall i | 0 <= i < |ws[1..]| ensures ws[1..][i] != "" && NoSpace(ws[1..][i]) {
      assert ws[1..][i] == ws[i + 1];
    }
  }

  lemma JoinCons(parts: seq<string>, sep: string)
    requires |parts| > 1
    ensures Join(sep, parts) == parts[0] + sep + Join(sep, parts[1..])
  {
  }

  predicate IsDigit(c: char) {
    '0' <= c <= '9'
  }

  function DigitValue(c: char): nat
    requires IsDigit(c)
  {
    (c as int - '0' as int) as nat
  }

  function DigitChar(d: nat): (c: char)
    requires d < 10
    ensures IsDigit(c) && DigitValue(c) == d
  {
    ('0' as int + d) as char
  }

  predicate AllDigits(s: string) {
    forall i :: 0 <= i < |s| ==> IsDigit(s[i])
  }

  /** The value of a string of decimal digits, most significant first. */
  function DigitsValue(s: string): nat
    requires AllDigits(s)
  {
    if s == [] then 0 else 10 * DigitsValue(s[..|s| - 1]) + DigitValue(s[|s| - 1])
  }

  /** Whether `token` starts with a minus sign. */
  predicate Negative(token: string) {
    token != [] && token[0] == '-'
  }

  /** `token` without its leading sign, when it has one. */
  function Magnitude(token: string): (ds: string)
    ensures |ds| <= |token| && ds == token[|token| - |ds|..]
  {
    if token != [] && (token[0] == '-' || token[0] == '+') then token[1..] else token
  }

  /** `str(n)` for a natural number. */
  function NatToString(n: nat): (r: string)
    ensures r != "" && AllDigits(r)
  {
    if n < 10 then [DigitChar(n)] else NatToString(n / 10) + [DigitChar(n % 10)]
  }

  /** `str(n)` for an integer. */
  function IntToString(n: int): string {
    if n < 0 then "-" + NatToString(-n) else NatToString(n)
  }

  /** `int(token)` on a token without whitespace: an optional sign and at least one ASCII
      decimal digit, read as a signed decimal number; `None` for every other token. */
  function ParseInt(token: string): (r: Option<int>)
    ensures r.Some? <==> Magnitude(token) != [] && AllDigits(Magnitude(token))
    ensures r.Some? ==> r.value == if Negative(token) then -(DigitsValue(Magnitude(token)) as int) else DigitsValue(Magnitude(token))
  {
    if token != [] && (token[0] == '-' || token[0] == '+') then
      var ds := token[1..];
      if ds != [] && AllDigits(ds) then
        Some(if token[0] == '-' then -(DigitsValue(ds) as int) else DigitsValue(ds))
      else None
    else if token != [] && AllDigits(token) then Some(DigitsValue(token))
    else None
  }

  lemma {:induction false} NatToStringValue(n: nat)
    ensures DigitsValue(NatToString(n)) == n
  {
    if n >= 10 {
      NatToStringValue(n / 10);
      var s := NatToString(n);
      assert s[..|s| - 1] == NatToString(n / 10);
    }
  }

  /** `int(str(n)) == n`. */
  lemma ParseIntOfString(n: int)
    ensures ParseInt(IntToString(n)) == Some(n)
  {
    var m: nat := if n < 0 then -n else n;
    NatToStringValue(m);
    ParseDigits(NatToString(m));
  }

  /** Digits parse to their value, and with a minus sign in front to its negation. */
  lemma ParseDigits(ds: string)
    requires ds != [] && AllDigits(ds)
    ensures ParseInt(ds) == Some(DigitsValue(ds) as int)
    ensures ParseInt("-" + ds) == Some(-(DigitsValue(ds) as int))
  {
    assert IsDigit(ds[0]);
    assert Magnitude(ds) == ds && !Negative(ds);
    MinusDigits(ds);
  }

  lemma MinusDigits(ds: string)
    ensures Magnitude("-" + ds) == ds && Negative("-" + ds)
  {
    var m := "-" + ds;
    assert m[0] == '-' && m[1..] == ds;
  }
}
