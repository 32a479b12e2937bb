/**
 The PostgreSQL `text[]` printer and parser: two-pass escaping on the way out, an
 index-driven scanner on the way in, and the proof that they are inverse up to trimming.
 */
module PgTextArray {
  import opened Text

  // ---------------------------------------------------------------- printing

  /** strings.ReplaceAll with a one-character pattern */
  function ReplaceChar(s: string, c: char, to: string): string {
    if s == "" then "" else (if s[0] == c then to else [s[0]]) + ReplaceChar(s[1..], c, to)
  }

  function EscapeTwoPass(s: string): string {
    ReplaceChar(ReplaceChar(s, '\\', "\\\\"), '"', "\\\"")
  }

  /** One-pass escaping: a backslash before every quote and every backslash. */
  function Escape(s: string): string {
    if s == "" then ""
    else (if s[0] == '\\' || s[0] == '"' then ['\\', s[0]] else [s[0]]) + Escape(s[1..])
  }

  function InQuotes(body: string): string {
    "\"" + body + "\""
  }

  function Quote(item: string): string {
    InQuotes(EscapeTwoPass(Trim(item)))
  }

  function Quotes(items: seq<string>): (r: seq<string>)
    ensures |r| == |items|
  {
    if items == [] then [] else [Quote(items[0])] + Quotes(items[1..])
  }

  function Literal(items: seq<string>): string {
    "{" + JoinComma(Quotes(items)) + "}"
  }

  method ToPGTextArrayLiteral(items: seq<string>) returns (lit: string)
    ensures lit == Literal(items)
  {
    if |items| == 0 {
      return "{}";
    }
    var parts: seq<string> := [];
    for k := 0 to |items|
      invariant parts == Quotes(items[..k])
    {
      QuotesSnoc(items[..k], items[k]);
      assert items[..k + 1] == items[..k] + [items[k]];
      var s := Trim(items[k]);
      s := ReplaceChar(s, '\\', "\\\\");
      s := ReplaceChar(s, '"', "\\\"");
      parts := parts + ["\"" + s + "\""];
    }
    assert items[..|items|] == items;
    lit := "{" + JoinComma(parts) + "}";
  }

  lemma {:induction false} QuotesSnoc(items: seq<string>, x: string)
    ensures Quotes(items + [x]) == Quotes(items) + [Quote(x)]
  {
    if items != [] {
      QuotesSnoc(items[1..], x);
      assert (items + [x])[1..] == items[1..] + [x];
    }
  }

  lemma {:induction false} ReplaceCharConcat(a: string, b: string, c: char, to: string)
    ensures ReplaceChar(a + b, c, to) == ReplaceChar(a, c, to) + ReplaceChar(b, c, to)
  {
    if a == "" {
      assert a + b == b;
    } else {
      ReplaceCharConcat(a[1..], b, c, to);
      var head := if a[0] == c then to else [a[0]];
      var x, y := ReplaceChar(a[1..], c, to), ReplaceChar(b, c, to);
      assert (a + b)[0] == a[0] && (a + b)[1..] == a[1..] + b;
      assert ReplaceChar(a + b, c, to) == head + (x + y);
      assert head + (x + y) == (head + x) + y;
    }
  }

  /** Escaping backslashes and then quotes is the same as escaping both in one pass. */
  lemma {:induction false} TwoPassIsOnePass(s: string)
    ensures EscapeTwoPass(s) == Escape(s)
  {
    if s != "" {
      TwoPassIsOnePass(s[1..]);
      var head := if s[0] == '\\' then "\\\\" else [s[0]];
      ReplaceCharConcat(head, ReplaceChar(s[1..], '\\', "\\\\"), '"', "\\\"");
      if s[0] == '\\' {
        assert head[1..] == "\\";
        assert ReplaceChar("\\", '"', "\\\"") == "\\";
        assert ReplaceChar(head, '"', "\\\"") == "\\\\";
      } else {
        assert ReplaceChar(head[1..], '"', "\\\"") == "";
      }
    }
  }

  // ---------------------------------------------------------------- parsing, as a function of the remaining input

  predicate IsSep(c: char) {
    c == ',' || c == ' ' || c == '\t' || c == '\n' || c == '\r'
  }

  predicate AllSep(s: string) {
    forall k :: 0 <= k < |s| ==> IsSep(s[k])
  }

  function SkipSep(s: string): (r: string)
    ensures |r| <= |s|
    ensures r == "" || !IsSep(r[0])
  {
    if s != "" && IsSep(s[0]) then SkipSep(s[1..]) else s
  }

  datatype Scanned = Scanned(text: string, rest: string)

  /** Reads a quoted element whose opening quote has been consumed; Err is a dangling escape. */
  function ScanQuoted(s: string): (r: Result<Scanned>)
    ensures r.Ok? ==> |r.value.rest| <= |s|
  {
    if s == "" then Ok(Scanned("", ""))
    else if s[0] == '\\' then
      if |s| < 2 then Err else Cons(s[1], ScanQuoted(s[2..]))
    else if s[0] == '"' then Ok(Scanned("", s[1..]))
    else Cons(s[0], ScanQuoted(s[1..]))
  }

  function Cons(c: char, r: Result<Scanned>): Result<Scanned> {
    if r.Ok? then Ok(Scanned([c] + r.value.text, r.value.rest)) else Err
  }

  /** The length of the unquoted element at the start of s. */
  function BareLength(s: string): (n: nat)
    ensures n <= |s|
    ensures forall k :: 0 <= k < n ==> s[k] != ','
    ensures n < |s| ==> s[n] == ','
  {
    if s == "" || s[0] == ',' then 0 else 1 + BareLength(s[1..])
  }

  /** unescapeBackslash */
  function Unescape(s: string): string {
    if s == "" then ""
    else if s[0] == '\\' && |s| > 1 then [s[1]] + Unescape(s[2..])
    else [s[0]] + Unescape(s[1..])
  }

  function BareValue(raw: string): string {
    if Trim(raw) == "NULL" then "" else Unescape(Trim(raw))
  }

  function Prepend(xs: seq<string>, r: Result<seq<string>>): Result<seq<string>> {
    if r.Ok? then Ok(xs + r.value) else Err
  }

  datatype Step = Done | Bad | Item(text: string, rest: string)

  /** What the scanner reads next, once separators are skipped. */
  function NextItem(t: string): (r: Step)
    requires t == "" || !IsSep(t[0])
    ensures r.Item? ==> |r.rest| < |t|
  {
    if t == "" then Done
    else if t[0] == '"' then
      var q := ScanQuoted(t[1..]);
      if q.Err? then Bad else Item(q.value.text, q.value.rest)
    else
      Item(BareValue(t[..BareLength(t)]), t[BareLength(t)..])
  }

  function ParseItems(s: string): Result<seq<string>>
    decreases |s|
  {
    match NextItem(SkipSep(s))
    case Done => Ok([])
    case Bad => Err
    case Item(text, rest) => Prepend([text], ParseItems(rest))
  }

  function Parse(literal: string): Result<seq<string>> {
    var s := Trim(literal);
    if s == "" then Ok([])
    else if |s| < 2 || s[0] != '{' || s[|s| - 1] != '}' then Err
    else
      var inner := s[1..|s| - 1];
      if Trim(inner) == "" then Ok([]) else ParseItems(inner)
  }

  // ---------------------------------------------------------------- the scanner itself

  lemma UnescapeAt(r: string, s: string, i: nat)
    requires i < |s|
    ensures r + Unescape(s[i..]) ==
            if s[i] == '\\' && i + 1 < |s| then r + [s[i + 1]] + Unescape(s[i + 2..]) else r + [s[i]] + Unescape(s[i + 1..])
  {
    if s[i] == '\\' && i + 1 < |s| {
      assert s[i..][2..] == s[i + 2..];
    } else {
      assert s[i..][1..] == s[i + 1..];
    }
  }

  method UnescapeBackslash(s: string) returns (r: string)
    ensures r == Unescape(s)
  {
    if '\\' !in s {
      NothingToUnescape(s);
      return s;
    }
    r := "";
    var i := 0;
    while i < |s|
      invariant 0 <= i <= |s|
      invariant r + Unescape(s[i..]) == Unescape(s)
    {
      UnescapeAt(r, s, i);
      if s[i] == '\\' && i + 1 < |s| {
        r := r + [s[i + 1]];
        i := i + 2;
      } else {
        r := r + [s[i]];
        i := i + 1;
      }
    }
  }

  lemma {:induction false} NothingToUnescape(s: string)
    requires '\\' !in s
    ensures Unescape(s) == s
  {
    if s != "" {
      assert s[0] in s;
      NothingToUnescape(s[1..]);
    }
  }

  method SkipSeparators(inner: string, from: nat) returns (i: nat)
    requires from <= |inner|
    ensures from <= i <= |inner|
    ensures inner[i..] == SkipSep(inner[from..])
  {
    i := from;
    while i < |inner| && IsSep(inner[i])
      invariant from <= i <= |inner|
      invariant SkipSep(inner[from..]) == SkipSep(inner[i..])
    {
      assert inner[i..][1..] == inner[i + 1..];
      i := i + 1;
    }
  }

  /** The quoted branch; `from` is the index after the opening quote. */
  method ReadQuoted(inner: string, from: nat) returns (text: Result<string>, i: nat)
    requires from <= |inner|
    ensures from <= i <= |inner|
    ensures ScanQuoted(inner[from..]) == if text.Ok? then Ok(Scanned(text.value, inner[i..])) else Err
  {
    var sb := "";
    i := from;
    ConsAllFacts(sb, ' ', ScanQuoted(inner[i..]));
    while i < |inner|
      invariant from <= i <= |inner|
      invariant ScanQuoted(inner[from..]) == ConsAll(sb, ScanQuoted(inner[i..]))
    {
      var c := inner[i];
      ConsAllFacts(sb, c, ScanQuoted(inner[i + 1..]));
      if c == '\\' {
        if i + 1 >= |inner| {
          return Err, i;
        }
        assert inner[i..][2..] == inner[i + 2..];
        ConsAllFacts(sb, inner[i + 1], ScanQuoted(inner[i + 2..]));
        sb := sb + [inner[i + 1]];
        i := i + 2;
      } else if c == '"' {
        assert inner[i..][1..] == inner[i + 1..];
        i := i + 1;
        return Ok(sb), i;
      } else {
        assert inner[i..][1..] == inner[i + 1..];
        sb := sb + [c];
        i := i + 1;
      }
    }
    assert inner[i..] == "" && sb + "" == sb;
    text := Ok(sb);
  }

  /** The unquoted branch: everything up to the next comma, trimmed; NULL is the empty string. */
  method ReadBare(inner: string, start: nat) returns (item: string, i: nat)
    requires start <= |inner|
    ensures i == start + BareLength(inner[start..]) <= |inner|
    ensures item == BareValue(inner[start..i])
  {
    i := start;
    while i < |inner| && inner[i] != ','
      invariant start <= i <= |inner|
      invariant BareLength(inner[start..]) == i - start + BareLength(inner[i..])
    {
      assert inner[i..][1..] == inner[i + 1..];
      i := i + 1;
    }
    var token := Trim(inner[start..i]);
    if token == "NULL" {
      item := "";
    } else {
      item := UnescapeBackslash(token);
    }
  }

  /** parsePGTextArrayLiteral: one index walks over the text between the braces. */
  method ParsePGTextArrayLiteral(literal: string) returns (r: Result<seq<string>>)
    ensures r == Parse(literal)
  {
    var s := Trim(literal);
    if s == "" {
      return Ok([]);
    }
    if |s| < 2 || s[0] != '{' || s[|s| - 1] != '}' {
      return Err;
    }
    var inner := s[1..|s| - 1];
    if Trim(inner) == "" {
      return Ok([]);
    }
    r := ScanItems(inner);
  }

  method ScanItem(inner: string, from: nat) returns (step: Step, i: nat)
    requires from <= |inner|
    ensures from <= i <= |inner|
    ensures step == NextItem(SkipSep(inner[from..]))
    ensures step.Item? ==> from < i && step.rest == inner[i..]
  {
    i := SkipSeparators(inner, from);
    if i >= |inner| {
      return Done, i;
    }
    ghost var t := inner[i..];
    if inner[i] == '"' {
      assert t[1..] == inner[i + 1..];
      var text;
      text, i := ReadQuoted(inner, i + 1);
      if text.Err? {
        return Bad, i;
      }
      step := Item(text.value, inner[i..]);
    } else {
      var start := i;
      var item;
      item, i := ReadBare(inner, start);
      assert t[..i - start] == inner[start..i] && t[i - start..] == inner[i..];
      step := Item(item, inner[i..]);
    }
  }

  method ScanItems(inner: string) returns (r: Result<seq<string>>)
    ensures r == ParseItems(inner)
  {
    var items: seq<string> := [];
    var i := 0;
    assert inner[0..] == inner;
    PrependNothing(ParseItems(inner));
    while i < |inner|
      invariant 0 <= i <= |inner|
      invariant ParseItems(inner) == Prepend(items, ParseItems(inner[i..]))
      decreases |inner| - i
    {
      var step, next := ScanItem(inner, i);
      match step {
        case Done =>
          assert items + [] == items;
          return Ok(items);
        case Bad =>
          return Err;
        case Item(text, rest) =>
          PrependAssoc(items, [text], ParseItems(rest));
          items, i := items + [text], next;
      }
    }
    assert inner[i..] == "" && items + [] == items;
    r := Ok(items);
  }

  ghost function ConsAll(text: string, r: Result<Scanned>): Result<Scanned> {
    if r.Ok? then Ok(Scanned(text + r.value.text, r.value.rest)) else Err
  }

  lemma ConsAllFacts(sb: string, c: char, r: Result<Scanned>)
    ensures ConsAll("", r) == r
    ensures ConsAll(sb, Cons(c, r)) == ConsAll(sb + [c], r)
    ensures sb + "" == sb
  {
    if r.Ok? {
      assert "" + r.value.text == r.value.text;
      assert sb + ([c] + r.value.text) == (sb + [c]) + r.value.text;
    }
  }

  lemma PrependNothing(r: Result<seq<string>>)
    ensures Prepend([], r) == r
  {
    if r.Ok? {
      assert [] + r.value == r.value;
    }
  }

  lemma PrependAssoc(a: seq<string>, b: seq<string>, r: Result<seq<string>>)
    ensures Prepend(a, Prepend(b, r)) == Prepend(a + b, r)
  {
    if r.Ok? {
      assert a + (b + r.value) == (a + b) + r.value;
    }
  }

  // ---------------------------------------------------------------- what the server may send back

  /** One character of an element as written: plain, or behind a backslash. */
  datatype Piece = Raw(c: char) | Escaped(c: char)

  /** The ways PostgreSQL's input syntax lets one element be written; NULL may be spelled in any letter case. */
  datatype Form = Quoted(body: seq<Piece>) | Bare(body: seq<Piece>) | Null(word: string)

  datatype Element = Element(before: string, form: Form, after: string)

  function Show(ps: seq<Piece>): string {
    if ps == [] then "" else (if ps[0].Raw? then [ps[0].c] else ['\\', ps[0].c]) + Show(ps[1..])
  }

  function Meaning(ps: seq<Piece>): (r: string)
    ensures |r| == |ps|
  {
    if ps == [] then "" else [ps[0].c] + Meaning(ps[1..])
  }

  predicate LegalQuoted(ps: seq<Piece>) {
    forall k :: 0 <= k < |ps| && ps[k].Raw? ==> ps[k].c != '"' && ps[k].c != '\\'
  }

  /** ASCII white space, which the server drops around an element, vertical tab and form feed included. */
  predicate IsBlank(c: char) {
    c == ' ' || '\t' <= c <= '\r'
  }

  predicate AllBlank(s: string) {
    forall k :: 0 <= k < |s| ==> IsBlank(s[k])
  }

  /** What the server reads as NULL when it stands unquoted. */
  predicate EqualsNullWord(s: string) {
    && |s| == 4
    && (s[0] == 'n' || s[0] == 'N') && (s[1] == 'u' || s[1] == 'U')
    && (s[2] == 'l' || s[2] == 'L') && (s[3] == 'l' || s[3] == 'L')
  }

  /** Characters that may not stand unescaped in an unquoted element. */
  predicate IsSpecial(c: char) {
    c == '"' || c == '\\' || c == '{' || c == '}' || c == ','
  }

  predicate LegalBare(ps: seq<Piece>) {
    && ps != []
    && (forall k :: 0 <= k < |ps| && ps[k].Raw? ==> !IsSpecial(ps[k].c))
    && (ps[0].Raw? ==> !IsBlank(ps[0].c))
    && (ps[|ps| - 1].Raw? ==> !IsBlank(ps[|ps| - 1].c))
    && !EqualsNullWord(Show(ps))
  }

  /** What the server accepts for one element, with white space on both sides. */
  predicate Legal(e: Element) {
    && AllBlank(e.before) && AllBlank(e.after)
    && match e.form
       case Quoted(ps) => LegalQuoted(ps)
       case Bare(ps) => LegalBare(ps)
       case Null(word) => EqualsNullWord(word)
  }

  /** The unquoted elements this parser reads back as the server meant them. */
  predicate Recoverable(ps: seq<Piece>)
    requires ps != []
  {
    && Escaped(',') !in ps
    && (ps[0].Raw? ==> !IsSpace(ps[0].c))
    && !IsSpace(ps[|ps| - 1].c)
  }

  /** The legal elements this parser reads back as the server means them. */
  predicate Readable(e: Element)
    requires Legal(e)
  {
    match e.form
    case Quoted(_) => AllSep(e.before) && AllSep(e.after)
    case Bare(ps) => Recoverable(ps)
    case Null(word) => word == "NULL"
  }

  function ShowForm(f: Form): string {
    match f
    case Quoted(ps) => InQuotes(Show(ps))
    case Bare(ps) => Show(ps)
    case Null(word) => word
  }

  function FormValue(f: Form): string {
    match f
    case Quoted(ps) => Meaning(ps)
    case Bare(ps) => Meaning(ps)
    case Null(_) => ""
  }

  function ShowElement(e: Element): string {
    e.before + ShowForm(e.form) + e.after
  }

  function ShowElements(es: seq<Element>): (r: seq<string>)
    ensures |r| == |es|
  {
    if es == [] then [] else [ShowElement(es[0])] + ShowElements(es[1..])
  }

  function ElementValues(es: seq<Element>): (r: seq<string>)
    ensures |r| == |es|
  {
    if es == [] then [] else [FormValue(es[0].form)] + ElementValues(es[1..])
  }

  lemma {:induction false} SkipPadding(p: string, s: string)
    requires AllSep(p)
    ensures SkipSep(p + s) == SkipSep(s)
  {
    if p == "" {
      assert p + s == s;
    } else {
      assert (p + s)[1..] == p[1..] + s;
      SkipPadding(p[1..], s);
    }
  }

  lemma ParsePadding(p: string, s: string)
    requires AllSep(p)
    ensures ParseItems(p + s) == ParseItems(s)
  {
    SkipPadding(p, s);
  }

  lemma ScanPlain(c: char, t: string)
    requires c != '"' && c != '\\'
    ensures ScanQuoted([c] + t) == Cons(c, ScanQuoted(t))
  {
    assert ([c] + t)[1..] == t;
  }

  lemma ScanEscaped(c: char, t: string)
    ensures ScanQuoted(['\\', c] + t) == Cons(c, ScanQuoted(t))
  {
    assert (['\\', c] + t)[2..] == t;
  }

  lemma ScanClosing(rest: string)
    ensures ScanQuoted("\"" + rest) == Ok(Scanned("", rest))
  {
    assert ("\"" + rest)[1..] == rest;
  }

  lemma Reassoc(a: string, b: string, c: string, d: string)
    ensures a + b + c + d == a + (b + c + d)
  {
  }

  lemma {:induction false} ScanShown(ps: seq<Piece>, rest: string)
    requires LegalQuoted(ps)
    ensures ScanQuoted(Show(ps) + "\"" + rest) == Ok(Scanned(Meaning(ps), rest))
  {
    if ps == [] {
      ScanClosing(rest);
      assert Show(ps) + "\"" + rest == "\"" + rest;
    } else {
      ScanShown(ps[1..], rest);
      var tail := Show(ps[1..]) + "\"" + rest;
      var head := if ps[0].Raw? then [ps[0].c] else ['\\', ps[0].c];
      Reassoc(head, Show(ps[1..]), "\"", rest);
      if ps[0].Raw? {
        ScanPlain(ps[0].c, tail);
      } else {
        ScanEscaped(ps[0].c, tail);
      }
    }
  }

  lemma {:induction false} UnescapeShown(ps: seq<Piece>)
    requires forall k :: 0 <= k < |ps| && ps[k].Raw? ==> ps[k].c != '\\'
    ensures Unescape(Show(ps)) == Meaning(ps)
  {
    if ps != [] {
      UnescapeShown(ps[1..]);
      if ps[0].Raw? {
        assert Show(ps)[1..] == Show(ps[1..]);
      } else {
        assert Show(ps)[2..] == Show(ps[1..]);
      }
    }
  }

  lemma {:induction false} ShowHasNoComma(ps: seq<Piece>)
    requires forall k :: 0 <= k < |ps| ==> ps[k].c != ','
    ensures ',' !in Show(ps)
  {
    if ps != [] {
      ShowHasNoComma(ps[1..]);
    }
  }

  lemma {:induction false} ShowEnds(ps: seq<Piece>)
    requires ps != []
    ensures Show(ps) != ""
    ensures Show(ps)[0] == if ps[0].Raw? then ps[0].c else '\\'
    ensures Show(ps)[|Show(ps)| - 1] == ps[|ps| - 1].c
  {
    if |ps| > 1 {
      ShowEnds(ps[1..]);
    } else {
      assert Show(ps[1..]) == "";
    }
  }

  lemma {:induction false} BareLengthAt(a: string, b: string)
    requires ',' !in a
    requires b == "" || b[0] == ','
    ensures BareLength(a + b) == |a|
  {
    if a == "" {
      assert a + b == b;
    } else {
      assert a[0] in a;
      assert (a + b)[1..] == a[1..] + b;
      BareLengthAt(a[1..], b);
    }
  }

  predicate AllSpace(s: string) {
    forall k :: 0 <= k < |s| ==> IsSpace(s[k])
  }

  lemma {:induction false} TrimLeftSpace(p: string, s: string)
    requires AllSpace(p)
    ensures TrimLeft(p + s) == TrimLeft(s)
  {
    if p == "" {
      assert p + s == s;
    } else {
      assert (p + s)[1..] == p[1..] + s;
      TrimLeftSpace(p[1..], s);
    }
  }

  lemma {:induction false} TrimRightSpace(s: string, p: string)
    requires AllSpace(p)
    ensures TrimRight(s + p) == TrimRight(s)
  {
    if p == "" {
      assert s + p == s;
    } else {
      assert (s + p)[..|s + p| - 1] == s + p[..|p| - 1];
      TrimRightSpace(s, p[..|p| - 1]);
    }
  }

  lemma {:induction false} TrimLeftKeeps(s: string, p: string)
    requires TrimLeft(s) != ""
    ensures TrimLeft(s + p) == TrimLeft(s) + p
  {
    if s != "" && IsSpace(s[0]) {
      assert (s + p)[1..] == s[1..] + p;
      TrimLeftKeeps(s[1..], p);
    }
  }

  lemma {:induction false} TrimLeftBlank(s: string)
    requires TrimLeft(s) == ""
    ensures AllSpace(s)
  {
    if s != "" {
      TrimLeftBlank(s[1..]);
    }
  }

  /** White space around a text does not change what is left of it. */
  lemma TrimAround(q: string, s: string, a: string)
    requires AllSpace(q) && AllSpace(a)
    ensures Trim(q + s + a) == Trim(s)
  {
    assert q + s + a == q + (s + a);
    TrimLeftSpace(q, s + a);
    if TrimLeft(s) == "" {
      TrimLeftBlank(s);
      TrimLeftSpace(s, a);
      TrimLeftSpace(a, "");
      assert a + "" == a;
    } else {
      TrimLeftKeeps(s, a);
      TrimRightSpace(TrimLeft(s), a);
    }
  }

  lemma ParseQuotedAt(ps: seq<Piece>, tail: string)
    requires LegalQuoted(ps)
    ensures ParseItems(InQuotes(Show(ps)) + tail) == Prepend([Meaning(ps)], ParseItems(tail))
  {
    var t := InQuotes(Show(ps)) + tail;
    ScanShown(ps, tail);
    assert t[0] == '"' && t[1..] == Show(ps) + "\"" + tail;
  }

  lemma ParseQuotedForm(ps: seq<Piece>, after: string, tail: string)
    requires LegalQuoted(ps) && AllSep(after)
    ensures ParseItems(InQuotes(Show(ps)) + after + tail) == Prepend([Meaning(ps)], ParseItems(tail))
  {
    Assoc(InQuotes(Show(ps)), after, tail);
    ParseQuotedAt(ps, after + tail);
    ParsePadding(after, tail);
  }

  lemma Assoc(a: string, b: string, c: string)
    ensures a + b + c == a + (b + c)
  {
  }

  lemma ParseBareStep(s: string)
    requires s != "" && !IsSep(s[0]) && s[0] != '"'
    ensures var n := BareLength(s); ParseItems(s) == Prepend([BareValue(s[..n])], ParseItems(s[n..]))
  {
    assert SkipSep(s) == s;
  }

  lemma ParseBareAt(raw: string, tail: string)
    requires raw != "" && !IsSep(raw[0]) && raw[0] != '"' && ',' !in raw
    requires tail == "" || tail[0] == ','
    ensures ParseItems(raw + tail) == Prepend([BareValue(raw)], ParseItems(tail))
  {
    var t := raw + tail;
    BareLengthAt(raw, tail);
    assert t[0] == raw[0];
    assert t[..|raw|] == raw && t[|raw|..] == tail;
    ParseBareStep(t);
  }

  /** A token without comma is read whole; the white space around it is not part of its value. */
  lemma ParsePaddedToken(q: string, s: string, a: string, tail: string)
    requires AllBlank(q) && AllBlank(a) && (q == "" || !IsSep(q[0]))
    requires s != "" && ',' !in s && !IsSep(s[0]) && (q == "" ==> s[0] != '"')
    requires tail == "" || tail[0] == ','
    ensures ParseItems(q + s + a + tail) == Prepend([BareValue(s)], ParseItems(tail))
  {
    var raw := q + s + a;
    assert ',' !in raw;
    assert raw[0] == if q == "" then s[0] else q[0];
    TrimAround(q, s, a);
    ParseBareAt(raw, tail);
  }

  /** What is left of the white space in front of an element once separators are skipped. */
  lemma {:induction false} SkipBlanks(p: string, s: string) returns (q: string)
    requires AllBlank(p) && s != "" && !IsSep(s[0])
    ensures AllBlank(q) && SkipSep(p + s) == q + s
    ensures q == "" || !IsSep(q[0])
    ensures q == "" <==> AllSep(p)
  {
    if p == "" || !IsSep(p[0]) {
      q := p;
      assert p + s != "" && (p + s)[0] == if p == "" then s[0] else p[0];
    } else {
      assert (p + s)[1..] == p[1..] + s;
      q := SkipBlanks(p[1..], s);
      assert AllSep(p) <==> AllSep(p[1..]);
    }
  }

  lemma SkippedParsesAlike(s: string)
    ensures ParseItems(s) == ParseItems(SkipSep(s))
  {
    assert SkipSep(SkipSep(s)) == SkipSep(s);
  }

  /** Only white space that is no separator matters in front of an element. */
  lemma SkippedAround(p: string, s: string, a: string) returns (q: string)
    requires AllBlank(p) && s != "" && !IsSep(s[0])
    ensures AllBlank(q) && (q == "" || !IsSep(q[0])) && (q == "" <==> AllSep(p))
    ensures ParseItems(p + s + a) == ParseItems(q + s + a)
  {
    q := SkipBlanks(p, s + a);
    Assoc(p, s, a);
    Assoc(q, s, a);
    SkippedParsesAlike(p + s + a);
  }

  /** The same with the whole white space in front. */
  lemma ParseTokenForm(p: string, s: string, a: string, tail: string)
    requires AllBlank(p) && AllBlank(a)
    requires s != "" && ',' !in s && !IsSep(s[0]) && s[0] != '"'
    requires tail == "" || tail[0] == ','
    ensures ParseItems(p + s + a + tail) == Prepend([BareValue(s)], ParseItems(tail))
  {
    Assoc(p + s, a, tail);
    var q := SkippedAround(p, s, a + tail);
    Assoc(q + s, a, tail);
    ParsePaddedToken(q, s, a, tail);
  }

  lemma ParseBareForm(p: string, ps: seq<Piece>, a: string, tail: string)
    requires LegalBare(ps) && Recoverable(ps) && AllBlank(p) && AllBlank(a)
    requires tail == "" || tail[0] == ','
    ensures ParseItems(p + Show(ps) + a + tail) == Prepend([Meaning(ps)], ParseItems(tail))
  {
    ShownIsBare(ps);
    ShownHasNoComma(ps);
    ParseTokenForm(p, Show(ps), a, tail);
    RecoverableValue(ps);
  }

  lemma RecoverableValue(ps: seq<Piece>)
    requires LegalBare(ps) && Recoverable(ps)
    ensures BareValue(Show(ps)) == Meaning(ps)
  {
    ShowEnds(ps);
    assert Trim(Show(ps)) == Show(ps);
    LegalBareIsLegalQuoted(ps);
    UnescapeShown(ps);
  }

  lemma NoCommaPieces(ps: seq<Piece>)
    requires LegalBare(ps) && Escaped(',') !in ps
    ensures forall k :: 0 <= k < |ps| ==> ps[k].c != ','
  {
    forall k | 0 <= k < |ps| ensures ps[k].c != ',' {
      assert ps[k] in ps;
    }
  }

  lemma LegalBareIsLegalQuoted(ps: seq<Piece>)
    requires LegalBare(ps)
    ensures LegalQuoted(ps)
  {
    forall k | 0 <= k < |ps| && ps[k].Raw? ensures ps[k].c != '"' && ps[k].c != '\\' {
      assert !IsSpecial(ps[k].c);
    }
  }

  /** One readable element at the front of the input is read back and the rest is left. */
  lemma ParseElement(e: Element, tail: string)
    requires Legal(e) && Readable(e)
    requires tail == "" || tail[0] == ','
    ensures ParseItems(ShowElement(e) + tail) == Prepend([FormValue(e.form)], ParseItems(tail))
  {
    match e.form
    case Quoted(ps) =>
      Reassoc(e.before, ShowForm(e.form), e.after, tail);
      ParsePadding(e.before, ShowForm(e.form) + e.after + tail);
      ParseQuotedForm(ps, e.after, tail);
    case Bare(ps) =>
      ParseBareForm(e.before, ps, e.after, tail);
    case Null(word) =>
      NullWordPlain(word);
      ParseTokenForm(e.before, word, e.after, tail);
  }

  lemma {:induction false} ParseElements(es: seq<Element>)
    requires forall k :: 0 <= k < |es| ==> Legal(es[k]) && Readable(es[k])
    ensures ParseItems(JoinComma(ShowElements(es))) == Ok(ElementValues(es))
  {
    if es == [] {
    } else {
      var parts := ShowElements(es);
      if |es| == 1 {
        ParseElement(es[0], "");
        assert parts[0] == ShowElement(es[0]) + "";
        assert ElementValues(es[1..]) == [];
      } else {
        var tail := "," + JoinComma(parts[1..]);
        ParseElement(es[0], tail);
        assert JoinComma(parts) == ShowElement(es[0]) + tail;
        ParsePadding(",", JoinComma(parts[1..]));
        assert parts[1..] == ShowElements(es[1..]);
        ParseElements(es[1..]);
      }
    }
  }

  /**
   Any legal mix of quoted and unquoted elements, however escaped and padded, is read back element
   by element, provided each is Readable; ListRecoveredIff shows that none of these conditions can go.
   */
  lemma ParseAnyLegalMix(es: seq<Element>)
    requires forall k :: 0 <= k < |es| ==> Legal(es[k]) && Readable(es[k])
    ensures Parse("{" + JoinComma(ShowElements(es)) + "}") == Ok(ElementValues(es))
  {
    var inner := JoinComma(ShowElements(es));
    ParseBraced(inner);
    ParseElements(es);
    if es != [] {
      ElementsNotBlank(es);
    }
  }

  lemma ParseBraced(inner: string)
    ensures Parse("{" + inner + "}") == if Trim(inner) == "" then Ok([]) else ParseItems(inner)
  {
    var s := "{" + inner + "}";
    assert |s| == |inner| + 2 && s[0] == '{' && s[|s| - 1] == '}';
    assert !IsSpace(s[0]) && !IsSpace(s[|s| - 1]);
    assert Trim(s) == s;
    assert s[1..|s| - 1] == inner;
  }

  lemma ElementsNotBlank(es: seq<Element>)
    requires es != [] && Legal(es[0]) && Readable(es[0])
    ensures Trim(JoinComma(ShowElements(es))) != ""
  {
    var parts := ShowElements(es);
    var shown := ShowForm(es[0].form);
    if es[0].form.Bare? {
      ShowEnds(es[0].form.body);
    }
    assert shown != "" && !IsSpace(shown[0]);
    var n := |es[0].before|;
    assert parts[0][n] == shown[0];
    assert JoinComma(parts)[n] == parts[0][n];
    NonBlankTrim(JoinComma(parts), n);
  }

  lemma {:induction false} NonBlankTrim(s: string, k: nat)
    requires k < |s| && !IsSpace(s[k])
    ensures Trim(s) != ""
  {
    NonBlankTrimLeft(s, k);
    var t := TrimLeft(s);
    if TrimRight(t) == "" {
      TrimRightBlank(t);
      assert false;
    }
  }

  lemma {:induction false} NonBlankTrimLeft(s: string, k: nat)
    requires k < |s| && !IsSpace(s[k])
    ensures TrimLeft(s) != ""
  {
    if IsSpace(s[0]) {
      NonBlankTrimLeft(s[1..], k - 1);
    }
  }

  lemma {:induction false} TrimRightBlank(s: string)
    requires TrimRight(s) == ""
    ensures forall k :: 0 <= k < |s| ==> IsSpace(s[k])
  {
    if s != "" {
      TrimRightBlank(s[..|s| - 1]);
    }
  }

  // ---------------------------------------------------------------- round trip of the printer

  /** The pieces of the printer's own one-pass escaping. */
  function EscapedPieces(s: string): (ps: seq<Piece>)
    ensures LegalQuoted(ps)
  {
    if s == "" then []
    else [if s[0] == '\\' || s[0] == '"' then Escaped(s[0]) else Raw(s[0])] + EscapedPieces(s[1..])
  }

  lemma {:induction false} EscapeIsShow(s: string)
    ensures Show(EscapedPieces(s)) == Escape(s)
    ensures Meaning(EscapedPieces(s)) == s
  {
    if s != "" {
      EscapeIsShow(s[1..]);
      assert EscapedPieces(s)[1..] == EscapedPieces(s[1..]);
    }
  }

  function Printed(items: seq<string>): (es: seq<Element>)
    ensures |es| == |items|
    ensures forall k :: 0 <= k < |es| ==> Legal(es[k]) && Readable(es[k])
  {
    if items == [] then []
    else [Element("", Quoted(EscapedPieces(Trim(items[0]))), "")] + Printed(items[1..])
  }

  function TrimAll(items: seq<string>): (r: seq<string>)
    ensures |r| == |items|
    ensures forall k :: 0 <= k < |r| ==> r[k] == Trim(items[k])
  {
    if items == [] then [] else [Trim(items[0])] + TrimAll(items[1..])
  }

  lemma {:induction false} PrintedIsQuotes(items: seq<string>)
    ensures ShowElements(Printed(items)) == Quotes(items)
    ensures ElementValues(Printed(items)) == TrimAll(items)
  {
    if items != [] {
      PrintedIsQuotes(items[1..]);
      OneIsQuoted(items[0]);
      assert Printed(items)[1..] == Printed(items[1..]);
    }
  }

  lemma OneIsQuoted(item: string)
    ensures ShowElement(Element("", Quoted(EscapedPieces(Trim(item))), "")) == Quote(item)
    ensures FormValue(Quoted(EscapedPieces(Trim(item)))) == Trim(item)
  {
    EscapeIsShow(Trim(item));
    TwoPassIsOnePass(Trim(item));
    Unpadded(Quote(item));
  }

  lemma Unpadded(s: string)
    ensures "" + s + "" == s
  {
  }

  /** Parsing what was printed gives every element back, trimmed, in order. */
  lemma RoundTrip(items: seq<string>)
    ensures Parse(Literal(items)) == Ok(TrimAll(items))
  {
    PrintedIsQuotes(items);
    ParseAnyLegalMix(Printed(items));
  }

  lemma {:induction false} QuotesOfTrimmed(items: seq<string>)
    ensures Quotes(TrimAll(items)) == Quotes(items)
  {
    if items != [] {
      QuotesOfTrimmed(items[1..]);
      assert TrimAll(items)[1..] == TrimAll(items[1..]);
    }
  }

  /** Reading a stored array and printing it again gives the same literal. */
  lemma PrintIsStable(items: seq<string>)
    ensures var r := Parse(Literal(items)); r.Ok? && Literal(r.value) == Literal(items)
  {
    RoundTrip(items);
    QuotesOfTrimmed(items);
  }

  // ---------------------------------------------------------------- the output form the server uses

  /** PostgreSQL quotes an element on output exactly when one of these holds. */
  predicate NeedsQuotes(s: string) {
    s == "" || EqualsNullWord(s) || exists k :: 0 <= k < |s| && (IsSpecial(s[k]) || IsBlank(s[k]))
  }

  function RawPieces(s: string): (ps: seq<Piece>)
    ensures |ps| == |s|
    ensures forall k :: 0 <= k < |s| ==> ps[k] == Raw(s[k])
  {
    if s == "" then [] else [Raw(s[0])] + RawPieces(s[1..])
  }

  lemma {:induction false} RawPiecesShow(s: string)
    ensures Show(RawPieces(s)) == s
    ensures Meaning(RawPieces(s)) == s
  {
    if s != "" {
      RawPiecesShow(s[1..]);
      assert RawPieces(s)[1..] == RawPieces(s[1..]);
    }
  }

  function ServerForm(s: string): Form {
    if NeedsQuotes(s) then Quoted(EscapedPieces(s)) else Bare(RawPieces(s))
  }

  function ServerElements(xs: seq<string>): (es: seq<Element>)
    ensures |es| == |xs|
    ensures forall k :: 0 <= k < |xs| ==> es[k] == Element("", ServerForm(xs[k]), "")
  {
    if xs == [] then [] else [Element("", ServerForm(xs[0]), "")] + ServerElements(xs[1..])
  }

  lemma ServerFormReadable(s: string)
    requires Trimmed(s)
    ensures Legal(Element("", ServerForm(s), "")) && Readable(Element("", ServerForm(s), ""))
    ensures FormValue(ServerForm(s)) == s
  {
    if NeedsQuotes(s) {
      EscapeIsShow(s);
    } else {
      RawPiecesShow(s);
      var ps := RawPieces(s);
      assert Escaped(',') !in ps;
    }
  }

  /** Every list this program can have stored (its printer trims) survives the server's own rendering. */
  lemma {:induction false} ServerRoundTrip(xs: seq<string>)
    requires forall k :: 0 <= k < |xs| ==> Trimmed(xs[k])
    ensures Parse("{" + JoinComma(ShowElements(ServerElements(xs))) + "}") == Ok(xs)
  {
    var es := ServerElements(xs);
    forall k | 0 <= k < |es| ensures Legal(es[k]) && Readable(es[k]) && FormValue(es[k].form) == xs[k] {
      ServerFormReadable(xs[k]);
    }
    ParseAnyLegalMix(es);
    ValuesPointwise(es, xs);
  }

  lemma {:induction false} ValuesPointwise(es: seq<Element>, xs: seq<string>)
    requires |es| == |xs| && forall k :: 0 <= k < |es| ==> FormValue(es[k].form) == xs[k]
    ensures ElementValues(es) == xs
  {
    if es != [] {
      ValuesPointwise(es[1..], xs[1..]);
    }
  }

  // ---------------------------------------------------------------- exactly which elements are recovered

  lemma {:induction false} UnescapeLast(s: string)
    requires s != ""
    ensures Unescape(s) != "" && Unescape(s)[|Unescape(s)| - 1] == s[|s| - 1]
  {
    if s[0] == '\\' && |s| > 1 {
      if |s| > 2 { UnescapeLast(s[2..]); }
    } else if |s| > 1 {
      UnescapeLast(s[1..]);
    }
  }

  lemma {:induction false} TrimLeftShown(ps: seq<Piece>) returns (j: nat)
    requires LegalQuoted(ps)
    ensures j <= |ps| && TrimLeft(Show(ps)) == Show(ps[j..])
    ensures ps != [] && ps[0].Raw? && IsSpace(ps[0].c) ==> j > 0
  {
    if ps == [] || ps[0].Escaped? || !IsSpace(ps[0].c) {
      j := 0;
      assert ps[0..] == ps;
      if ps != [] { ShowEnds(ps); }
    } else {
      j := TrimLeftShown(ps[1..]);
      assert Show(ps)[1..] == Show(ps[1..]);
      assert ps[1..][j..] == ps[j + 1..];
      j := j + 1;
    }
  }

  lemma {:induction false} MeaningEnds(ps: seq<Piece>)
    requires ps != []
    ensures Meaning(ps)[|ps| - 1] == ps[|ps| - 1].c
  {
    if |ps| > 1 { MeaningEnds(ps[1..]); }
  }

  lemma ShownIsBare(ps: seq<Piece>)
    requires LegalBare(ps)
    ensures Show(ps) != "" && !IsSep(Show(ps)[0]) && Show(ps)[0] != '"'
  {
    ShowEnds(ps);
    if ps[0].Raw? { assert !IsSpecial(ps[0].c); }
  }

  lemma ShownHasNoComma(ps: seq<Piece>)
    requires LegalBare(ps) && Escaped(',') !in ps
    ensures ',' !in Show(ps)
  {
    NoCommaPieces(ps);
    ShowHasNoComma(ps);
  }

  /** A trimmed token cannot mean anything that ends in white space. */
  lemma SpaceAtEndLost(raw: string, meant: string)
    requires meant != "" && IsSpace(meant[|meant| - 1])
    ensures BareValue(raw) != meant
  {
    var tok := Trim(raw);
    if tok != "" {
      UnescapeLast(tok);
    }
  }

  lemma TrimOnlyLeft(s: string)
    requires s != "" && !IsSpace(s[|s| - 1])
    ensures Trim(s) == TrimLeft(s)
  {
    NonBlankTrimLeft(s, |s| - 1);
  }

  lemma ShownIsShorter(raw: string, ps: seq<Piece>)
    requires LegalQuoted(ps) && Trim(raw) == Show(ps)
    ensures |BareValue(raw)| <= |ps|
  {
    UnescapeShown(ps);
  }

  /** White space dropped at the front makes the value too short. */
  lemma SpaceAtFrontLost(ps: seq<Piece>)
    requires LegalQuoted(ps) && ps != [] && ps[0].Raw? && IsSpace(ps[0].c)
    requires !IsSpace(ps[|ps| - 1].c)
    ensures BareValue(Show(ps)) != Meaning(ps)
  {
    ShowEnds(ps);
    TrimOnlyLeft(Show(ps));
    var j := TrimLeftShown(ps);
    ShownIsShorter(Show(ps), ps[j..]);
  }

  lemma UntrimmedLost(ps: seq<Piece>)
    requires LegalBare(ps) && Escaped(',') !in ps && !Recoverable(ps)
    ensures BareValue(Show(ps)) != Meaning(ps)
  {
    if IsSpace(ps[|ps| - 1].c) {
      MeaningEnds(ps);
      SpaceAtEndLost(Show(ps), Meaning(ps));
    } else {
      LegalBareIsLegalQuoted(ps);
      SpaceAtFrontLost(ps);
    }
  }

  lemma NullWordPlain(word: string)
    requires EqualsNullWord(word)
    ensures ',' !in word && !IsSep(word[0]) && word[0] != '"' && Trimmed(word)
    ensures word != "NULL" ==> BareValue(word) == word
  {
    assert '\\' !in word;
    NothingToUnescape(word);
  }

  /** Read as an unquoted token, a quoted element keeps its quotes. */
  lemma QuotesKept(ps: seq<Piece>)
    requires LegalQuoted(ps)
    ensures BareValue(InQuotes(Show(ps))) != Meaning(ps)
  {
    var shown, all := InQuotes(Show(ps)), [Raw('"')] + ps + [Raw('"')];
    ShowConcat([Raw('"')] + ps, [Raw('"')]);
    ShowConcat([Raw('"')], ps);
    OneRawShown();
    assert Show(all) == shown;
    assert Trim(shown) == shown && shown[0] == '"';
    UnescapeShown(all);
    assert |Unescape(shown)| == |ps| + 2;
  }

  lemma OneRawShown()
    ensures Show([Raw('"')]) == "\""
  {
    assert [Raw('"')][1..] == [];
  }

  lemma {:induction false} ShowConcat(a: seq<Piece>, b: seq<Piece>)
    ensures Show(a + b) == Show(a) + Show(b)
  {
    if a == [] {
      assert a + b == b;
    } else {
      assert (a + b)[1..] == a[1..] + b;
      ShowConcat(a[1..], b);
    }
  }

  // ---------------------------------------------------------------- what a legal element is read as, readable or not

  predicate CommaFree(xs: seq<string>) {
    forall k :: 0 <= k < |xs| ==> ',' !in xs[k]
  }

  lemma {:induction false} UnescapeNoComma(s: string)
    requires ',' !in s
    ensures ',' !in Unescape(s)
  {
    if s == "" {
    } else if s[0] == '\\' && |s| > 1 {
      assert s[1] in s;
      UnescapeNoComma(s[2..]);
    } else {
      assert s[0] in s;
      UnescapeNoComma(s[1..]);
    }
  }

  lemma {:induction false} TrimLeftNoComma(s: string)
    requires ',' !in s
    ensures ',' !in TrimLeft(s)
  {
    if s != "" {
      TrimLeftNoComma(s[1..]);
    }
  }

  lemma BareNoComma(raw: string)
    requires ',' !in raw
    ensures ',' !in BareValue(raw)
  {
    TrimLeftNoComma(raw);
    var t := TrimLeft(raw);
    assert TrimRight(t) == t[..|TrimRight(t)|];
    UnescapeNoComma(Trim(raw));
  }

  /** A comma is written exactly where one is meant. */
  lemma {:induction false} SameComma(ps: seq<Piece>)
    ensures ',' in Show(ps) <==> ',' in Meaning(ps)
  {
    if ps != [] {
      SameComma(ps[1..]);
      var head := if ps[0].Raw? then [ps[0].c] else ['\\', ps[0].c];
      InConcat(head, Show(ps[1..]), ',');
      InConcat([ps[0].c], Meaning(ps[1..]), ',');
    }
  }

  lemma InConcat(a: string, b: string, c: char)
    ensures c in a + b <==> c in a || c in b
  {
  }

  lemma {:induction false} EscapedCommaIsMeant(ps: seq<Piece>)
    requires Escaped(',') in ps
    ensures ',' in Meaning(ps)
  {
    InConcat([ps[0].c], Meaning(ps[1..]), ',');
    if ps[0] != Escaped(',') {
      EscapedCommaIsMeant(ps[1..]);
    }
  }

  /** An unquoted token never holds a comma. */
  lemma TokenFirst(t: string) returns (x: string, rest: string)
    requires t != "" && !IsSep(t[0]) && t[0] != '"'
    ensures ParseItems(t) == Prepend([x], ParseItems(rest)) && ',' !in x
  {
    var n := BareLength(t);
    x, rest := BareValue(t[..n]), t[n..];
    BareNoComma(t[..n]);
    ParseBareStep(t);
  }

  lemma {:induction false} SkipToBad(a: string, tail: string) returns (q: string)
    requires AllBlank(a) && !AllSep(a)
    ensures q != "" && AllBlank(q) && !IsSep(q[0]) && SkipSep(a + tail) == q + tail
  {
    if IsSep(a[0]) {
      assert (a + tail)[1..] == a[1..] + tail;
      q := SkipToBad(a[1..], tail);
    } else {
      q := a;
    }
  }

  /** White space behind a quoted element is skipped, or read as an empty element. */
  lemma AfterBlanks(a: string, tail: string)
    requires AllBlank(a) && (tail == "" || tail[0] == ',')
    ensures ParseItems(a + tail) == Prepend(if AllSep(a) then [] else [""], ParseItems(tail))
  {
    if AllSep(a) {
      ParsePadding(a, tail);
      PrependNothing(ParseItems(tail));
    } else {
      var q := SkipToBad(a, tail);
      SkippedParsesAlike(a + tail);
      BlankIsEmpty(q);
      ParseBareAt(q, tail);
    }
  }

  lemma BlankIsEmpty(q: string)
    requires AllBlank(q)
    ensures BareValue(q) == ""
  {
    TrimAround(q, "", "");
    assert q + "" + "" == q;
  }

  /** A quoted element in front of which the parser has skipped everything. */
  lemma QuotedItems(ps: seq<Piece>, a: string, tail: string)
    requires LegalQuoted(ps) && AllBlank(a) && (tail == "" || tail[0] == ',')
    ensures ParseItems(InQuotes(Show(ps)) + (a + tail)) ==
            Prepend([Meaning(ps)] + if AllSep(a) then [] else [""], ParseItems(tail))
  {
    ParseQuotedAt(ps, a + tail);
    AfterBlanks(a, tail);
    PrependAssoc([Meaning(ps)], if AllSep(a) then [] else [""], ParseItems(tail));
  }

  /** What stands between an element and the end of the list. */
  predicate IsTail(tail: string) {
    tail == "" || tail[0] == ','
  }

  /** An element that means no comma is read as one or more items without comma, and the rest is left. */
  lemma ItemsOf(e: Element, tail: string) returns (items: seq<string>)
    requires Legal(e) && ',' !in FormValue(e.form) && IsTail(tail)
    ensures items != [] && CommaFree(items) && ParseItems(ShowElement(e) + tail) == Prepend(items, ParseItems(tail))
  {
    match e.form
    case Null(word) =>
      NullWordPlain(word);
      BareNoComma(word);
      ParseTokenForm(e.before, word, e.after, tail);
      items := [BareValue(word)];
    case Bare(ps) =>
      SameComma(ps);
      ShownIsBare(ps);
      BareNoComma(Show(ps));
      ParseTokenForm(e.before, Show(ps), e.after, tail);
      items := [BareValue(Show(ps))];
    case Quoted(ps) =>
      items := ItemsOfQuoted(e.before, ps, e.after, tail);
  }

  /** Behind white space that is not skipped the quotes are part of the text. */
  lemma QuotesInText(q: string, ps: seq<Piece>, a: string, tail: string)
    requires LegalQuoted(ps) && AllBlank(q) && q != "" && !IsSep(q[0]) && AllBlank(a) && ',' !in Show(ps) && IsTail(tail)
    ensures ',' !in BareValue(InQuotes(Show(ps)))
    ensures ParseItems(q + InQuotes(Show(ps)) + (a + tail)) == Prepend([BareValue(InQuotes(Show(ps)))], ParseItems(tail))
  {
    var shown := InQuotes(Show(ps));
    QuotedNoComma(Show(ps));
    BareNoComma(shown);
    Assoc(q + shown, a, tail);
    ParsePaddedToken(q, shown, a, tail);
  }

  lemma ShownInQuotes(body: string)
    ensures ',' in body ==> ',' in InQuotes(body)
  {
    InConcat("\"", body, ',');
    InConcat("\"" + body, "\"", ',');
  }

  lemma QuotedNoComma(body: string)
    requires ',' !in body
    ensures ',' !in InQuotes(body) && InQuotes(body)[0] == '"'
  {
    InConcat("\"", body, ',');
    InConcat("\"" + body, "\"", ',');
  }

  lemma ItemsOfQuoted(p: string, ps: seq<Piece>, a: string, tail: string) returns (items: seq<string>)
    requires LegalQuoted(ps) && AllBlank(p) && AllBlank(a) && ',' !in Meaning(ps) && IsTail(tail)
    ensures items != [] && CommaFree(items) && ParseItems(p + InQuotes(Show(ps)) + a + tail) == Prepend(items, ParseItems(tail))
  {
    var shown := InQuotes(Show(ps));
    SameComma(ps);
    QuotedNoComma(Show(ps));
    Assoc(p + shown, a, tail);
    var q := SkippedAround(p, shown, a + tail);
    if q == "" {
      NothingBefore(shown);
      QuotedItems(ps, a, tail);
      items := [Meaning(ps)] + if AllSep(a) then [] else [""];
    } else {
      QuotesInText(q, ps, a, tail);
      items := [BareValue(shown)];
    }
  }

  lemma NothingBefore(s: string)
    ensures "" + s == s
  {
  }

  // ---------------------------------------------------------------- an unreadable element is never made up for

  /** The list behind its first element. */
  function Rest(es: seq<Element>): string {
    if es == [] then "" else "," + JoinComma(ShowElements(es))
  }

  lemma ListSplit(es: seq<Element>)
    requires es != []
    ensures JoinComma(ShowElements(es)) == ShowElement(es[0]) + Rest(es[1..])
    ensures ParseItems(Rest(es)) == ParseItems(JoinComma(ShowElements(es)))
    ensures IsTail(Rest(es[1..]))
  {
    var parts := ShowElements(es);
    assert parts[1..] == ShowElements(es[1..]);
    if |es| == 1 {
      assert parts[0] + "" == parts[0];
    } else {
      Assoc(parts[0], ",", JoinComma(parts[1..]));
    }
    ParsePadding(",", JoinComma(parts));
  }

  lemma DropFirst(x: string, xs: seq<string>, r: Result<seq<string>>, vs: seq<string>)
    requires Prepend([x] + xs, r) == Ok(vs)
    ensures vs != [] && vs[0] == x && Prepend(xs, r) == Ok(vs[1..])
  {
    assert [x] + xs + r.value == [x] + (xs + r.value);
  }

  /** If the pending items still fit, they fit behind the next element too, and are as many at least. */
  lemma StillPending(e: Element, tail: string, pending: seq<string>, vs: seq<string>) returns (more: seq<string>)
    requires Legal(e) && IsTail(tail) && pending != [] && CommaFree(pending)
    requires Prepend(pending, ParseItems(ShowElement(e) + tail)) == Ok([FormValue(e.form)] + vs)
    ensures more != [] && CommaFree(more) && Prepend(more, ParseItems(tail)) == Ok(vs)
  {
    var all := [FormValue(e.form)] + vs;
    assert pending == [pending[0]] + pending[1..];
    DropFirst(pending[0], pending[1..], ParseItems(ShowElement(e) + tail), all);
    assert all[1..] == vs;
    var items := ItemsOf(e, tail);
    PrependAssoc(pending[1..], items, ParseItems(tail));
    more := pending[1..] + items;
  }

  /** Once items are pending that hold no comma, the values that follow never catch up with them. */
  lemma {:induction false} NeverCatchesUp(es: seq<Element>, pending: seq<string>)
    requires (forall k :: 0 <= k < |es| ==> Legal(es[k])) && pending != [] && CommaFree(pending)
    ensures Prepend(pending, ParseItems(Rest(es))) != Ok(ElementValues(es))
  {
    if es == [] {
      assert pending + [] == pending;
    } else if Prepend(pending, ParseItems(Rest(es))) == Ok(ElementValues(es)) {
      ListSplit(es);
      var more := StillPending(es[0], Rest(es[1..]), pending, ElementValues(es[1..]));
      NeverCatchesUp(es[1..], more);
    }
  }

  /** Read as an unquoted token, an element that is not readable does not begin with what it means. */
  lemma FirstDiffers(e: Element, tail: string)
    requires Legal(e) && !Readable(e) && !(e.form.Quoted? && AllSep(e.before)) && IsTail(tail)
    ensures var r := ParseItems(ShowElement(e) + tail); r.Ok? ==> r.value != [] && r.value[0] != FormValue(e.form)
  {
    match e.form
    case Null(word) =>
      NullWordPlain(word);
      ParseTokenForm(e.before, word, e.after, tail);
    case Bare(ps) =>
      BareDiffers(e.before, ps, e.after, tail);
    case Quoted(ps) =>
      QuotedDiffers(e.before, ps, e.after, tail);
  }

  lemma BareDiffers(p: string, ps: seq<Piece>, a: string, tail: string)
    requires LegalBare(ps) && !Recoverable(ps) && AllBlank(p) && AllBlank(a) && IsTail(tail)
    ensures var r := ParseItems(p + Show(ps) + a + tail); r.Ok? ==> r.value != [] && r.value[0] != Meaning(ps)
  {
    ShownIsBare(ps);
    if Escaped(',') in ps {
      EscapedCommaIsMeant(ps);
      Assoc(p + Show(ps), a, tail);
      var q := SkippedAround(p, Show(ps), a + tail);
      var x, rest := TokenFirst(q + Show(ps) + (a + tail));
    } else {
      ShownHasNoComma(ps);
      ParseTokenForm(p, Show(ps), a, tail);
      UntrimmedLost(ps);
    }
  }

  lemma QuotedDiffers(p: string, ps: seq<Piece>, a: string, tail: string)
    requires LegalQuoted(ps) && AllBlank(p) && AllBlank(a) && !AllSep(p) && IsTail(tail)
    ensures var r := ParseItems(p + InQuotes(Show(ps)) + a + tail); r.Ok? ==> r.value != [] && r.value[0] != Meaning(ps)
  {
    var shown := InQuotes(Show(ps));
    SameComma(ps);
    Assoc(p + shown, a, tail);
    var q := SkippedAround(p, shown, a + tail);
    if ',' in shown {
      var x, rest := TokenFirst(q + shown + (a + tail));
    } else {
      ShownInQuotes(Show(ps));
      QuotesInText(q, ps, a, tail);
      QuotesKept(ps);
    }
  }

  /** A quoted element with unskipped white space behind it puts the rest of the list out of step. */
  lemma OutOfStep(e: Element, rest: seq<Element>)
    requires Legal(e) && e.form.Quoted? && AllSep(e.before) && !AllSep(e.after) && forall k :: 0 <= k < |rest| ==> Legal(rest[k])
    requires IsTail(Rest(rest))
    ensures ParseItems(ShowElement(e) + Rest(rest)) != Ok([FormValue(e.form)] + ElementValues(rest))
  {
    var ps, tail := e.form.body, Rest(rest);
    var shown := InQuotes(Show(ps));
    Reassoc(e.before, shown, e.after, tail);
    Assoc(shown, e.after, tail);
    ParsePadding(e.before, shown + (e.after + tail));
    QuotedItems(ps, e.after, tail);
    NeverCatchesUp(rest, [""]);
    if Prepend([Meaning(ps)] + [""], ParseItems(tail)) == Ok([Meaning(ps)] + ElementValues(rest)) {
      DropFirst(Meaning(ps), [""], ParseItems(tail), [Meaning(ps)] + ElementValues(rest));
    }
  }

  lemma FirstIsReadable(e: Element, rest: seq<Element>)
    requires Legal(e) && (forall k :: 0 <= k < |rest| ==> Legal(rest[k])) && IsTail(Rest(rest))
    requires ParseItems(ShowElement(e) + Rest(rest)) == Ok([FormValue(e.form)] + ElementValues(rest))
    ensures Readable(e)
  {
    if !Readable(e) {
      if e.form.Quoted? && AllSep(e.before) {
        OutOfStep(e, rest);
      } else {
        FirstDiffers(e, Rest(rest));
      }
    }
  }

  lemma RestIsRecovered(e: Element, rest: seq<Element>)
    requires Legal(e) && Readable(e) && IsTail(Rest(rest))
    requires ParseItems(ShowElement(e) + Rest(rest)) == Ok([FormValue(e.form)] + ElementValues(rest))
    ensures ParseItems(Rest(rest)) == Ok(ElementValues(rest))
  {
    var v, vs := FormValue(e.form), ElementValues(rest);
    ParseElement(e, Rest(rest));
    assert [v] + [] == [v];
    DropFirst(v, [], ParseItems(Rest(rest)), [v] + vs);
    assert ([v] + vs)[1..] == vs;
    PrependNothing(ParseItems(Rest(rest)));
  }

  lemma {:induction false} RecoveredIsReadable(es: seq<Element>)
    requires forall k :: 0 <= k < |es| ==> Legal(es[k])
    requires ParseItems(JoinComma(ShowElements(es))) == Ok(ElementValues(es))
    ensures forall k :: 0 <= k < |es| ==> Readable(es[k])
  {
    if es != [] {
      ListSplit(es);
      FirstIsReadable(es[0], es[1..]);
      RestIsRecovered(es[0], es[1..]);
      if es[1..] != [] {
        ListSplit(es[1..]);
        RecoveredIsReadable(es[1..]);
      }
      assert forall k :: 1 <= k < |es| ==> es[k] == es[1..][k - 1];
    }
  }

  /**
   A list of legal elements is read back as the server means it if and only if every element is Readable:
   a quoted one must be padded with the parser's separators alone, an unquoted one must hold no escaped
   comma and keep its ends when trimmed, and NULL must be in upper case. No two faults make up for each other.
   */
  lemma ListRecoveredIff(es: seq<Element>)
    requires forall k :: 0 <= k < |es| ==> Legal(es[k])
    ensures Parse("{" + JoinComma(ShowElements(es)) + "}") == Ok(ElementValues(es)) <==> forall k :: 0 <= k < |es| ==> Readable(es[k])
  {
    ParseBraced(JoinComma(ShowElements(es)));
    if forall k :: 0 <= k < |es| ==> Readable(es[k]) {
      ParseAnyLegalMix(es);
    } else if ParseItems(JoinComma(ShowElements(es))) == Ok(ElementValues(es)) {
      RecoveredIsReadable(es);
    }
  }
}
