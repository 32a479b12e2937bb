/** Tracking-number fields: tokenising, joining, and what a stored field stands for. */
module Tracking {
  import opened Text

  predicate IsDelimiter(c: char) {
    || c == ',' || c == '\U{FF0C}' || c == ';' || c == '\U{FF1B}'
    || c == ' ' || c == '\t' || c == '\n' || c == '\r'
  }

  /** A tracking number that tokenising leaves in one piece. */
  predicate Clean(t: string) {
    t != "" && Trimmed(t) && forall k :: 0 <= k < |t| ==> !IsDelimiter(t[k])
  }

  /** The length of the delimiter-free run at the start of s. */
  function RunLength(s: string): (n: nat)
    ensures n <= |s|
    ensures forall k :: 0 <= k < n ==> !IsDelimiter(s[k])
    ensures n < |s| ==> IsDelimiter(s[n])
  {
    if s == "" || IsDelimiter(s[0]) then 0 else 1 + RunLength(s[1..])
  }

  /** strings.FieldsFunc over the delimiters, each field trimmed and blank ones dropped. */
  function Tokens(s: string): (ts: seq<string>)
    ensures forall k :: 0 <= k < |ts| ==> Clean(ts[k])
    decreases |s|
  {
    if s == "" then []
    else if IsDelimiter(s[0]) then Tokens(s[1..])
    else
      var n := RunLength(s);
      var t := Trim(s[..n]);
      TrimIsPart(s[..n]);
      (if t == "" then [] else [t]) + Tokens(s[n..])
  }

  lemma {:induction false} TrimIsPart(s: string)
    requires forall k :: 0 <= k < |s| ==> !IsDelimiter(s[k])
    ensures forall k :: 0 <= k < |Trim(s)| ==> !IsDelimiter(Trim(s)[k])
  {
    TrimLeftIsPart(s);
    var t := TrimLeft(s);
    assert TrimRight(t) == t[..|TrimRight(t)|];
  }

  lemma {:induction false} TrimLeftIsPart(s: string)
    requires forall k :: 0 <= k < |s| ==> !IsDelimiter(s[k])
    ensures forall k :: 0 <= k < |TrimLeft(s)| ==> !IsDelimiter(TrimLeft(s)[k])
  {
    if s != "" && IsSpace(s[0]) {
      TrimLeftIsPart(s[1..]);
    }
  }

  function AllTokens(values: seq<string>): (ts: seq<string>)
    ensures forall k :: 0 <= k < |ts| ==> Clean(ts[k])
  {
    if values == [] then [] else Tokens(values[0]) + AllTokens(values[1..])
  }

  /** What a tracking field stands for: the set of its tokens. */
  function TokenSet(s: string): set<string> {
    set t | t in Tokens(s)
  }

  // ---------------------------------------------------------------- the loops

  ghost predicate DistinctNonEmpty(xs: seq<string>) {
    && (forall k :: 0 <= k < |xs| ==> xs[k] != "" && Trimmed(xs[k]))
    && (forall j, k :: 0 <= j < k < |xs| ==> xs[j] != xs[k])
  }

  /** The non-blank trimmed items, each once; a list that is already so is returned unchanged. */
  ghost predicate IsUniqueNonEmpty(items: seq<string>, out: seq<string>) {
    && DistinctNonEmpty(out)
    && (forall t :: t in out <==> t != "" && exists k :: 0 <= k < |items| && Trim(items[k]) == t)
  }

  method UniqueNonEmptyStrings(items: seq<string>) returns (out: seq<string>)
    ensures IsUniqueNonEmpty(items, out)
    ensures DistinctNonEmpty(items) ==> out == items
  {
    var seen: set<string> := {};
    out := [];
    for k := 0 to |items|
      invariant seen == set t | t in out
      invariant DistinctNonEmpty(out)
      invariant forall t :: t in out <==> t != "" && exists i :: 0 <= i < k && Trim(items[i]) == t
      invariant DistinctNonEmpty(items) ==> out == items[..k]
    {
      var s := Trim(items[k]);
      if s != "" && s !in seen {
        seen := seen + {s};
        out := out + [s];
      }
    }
  }

  lemma NextTokens(tokens: seq<string>, values: seq<string>, k: nat)
    requires k < |values|
    ensures tokens + AllTokens(values[k..]) == tokens + Tokens(values[k]) + AllTokens(values[k + 1..])
  {
    assert values[k..][1..] == values[k + 1..];
    Regroup(tokens, Tokens(values[k]), AllTokens(values[k + 1..]));
  }

  lemma Regroup(a: seq<string>, b: seq<string>, c: seq<string>)
    ensures a + (b + c) == a + b + c
  {
  }

  /** normalizeTrackingJoined */
  method NormalizeTrackingJoined(values: seq<string>) returns (joined: string, ghost parts: seq<string>)
    ensures IsUniqueNonEmpty(AllTokens(values), parts) && joined == JoinComma(parts)
  {
    var tokens: seq<string> := [];
    for k := 0 to |values|
      invariant tokens + AllTokens(values[k..]) == AllTokens(values)
    {
      NextTokens(tokens, values, k);
      tokens := tokens + Tokens(values[k]);
    }
    assert values[|values|..] == [] && tokens + [] == tokens;
    var unique := UniqueNonEmptyStrings(tokens);
    parts := unique;
    joined := JoinComma(unique);
  }

  /** strings.Split(s, ",") */
  function SplitComma(s: string): (r: seq<string>)
    ensures r != []
  {
    if s == "" then [""]
    else if s[0] == ',' then [""] + SplitComma(s[1..])
    else
      var rest := SplitComma(s[1..]);
      [[s[0]] + rest[0]] + rest[1..]
  }

  /** parseTrackingSet */
  method ParseTrackingSet(raw: string) returns (out: set<string>)
    ensures out == TokenSet(raw)
  {
    var normalized;
    ghost var parts;
    normalized, parts := NormalizeTrackingJoined([raw]);
    OneValue(raw);
    PartsAreClean([raw], parts);
    JoinedEmptyIff(parts);
    if normalized == "" {
      return {};
    }
    SplitJoined(parts);
    var pieces := SplitComma(normalized);
    out := {};
    for k := 0 to |pieces|
      invariant out == set t | t in pieces[..k]
    {
      var s := Trim(pieces[k]);
      assert pieces[k] in parts;
      if s != "" {
        out := out + {s};
      }
    }
    assert pieces[..|pieces|] == pieces;
  }

  /** joinTrackingSet: the set is listed in an arbitrary order. */
  method JoinTrackingSet(tracks: set<string>) returns (joined: string)
    ensures TokenSet(joined) == FieldSet(tracks)
    ensures joined == "" <==> FieldSet(tracks) == {}
  {
    var items: seq<string> := [];
    var rest := tracks;
    while rest != {}
      invariant rest <= tracks
      invariant forall t :: t in FieldSet(tracks) <==> t in FieldSet(rest) || t in AllTokens(items)
      decreases |rest|
    {
      var k :| k in rest;
      ghost var before := rest;
      rest := rest - {k};
      var s := Trim(k);
      AllTokensSnoc(items, s);
      assert s == "" ==> Tokens(s) == [];
      FieldSetAdd(rest, k);
      assert before == rest + {k};
      if s != "" {
        items := items + [s];
      }
    }
    ghost var parts;
    joined, parts := NormalizeTrackingJoined(items);
    PartsAreClean(items, parts);
    JoinedEmptyIff(parts);
    TokensJoined(parts);
    assert forall t :: t in TokenSet(joined) <==> t in AllTokens(items);
    assert parts != [] ==> parts[0] in FieldSet(tracks);
  }

  lemma FieldSetAdd(rest: set<string>, k: string)
    ensures forall t :: t in FieldSet(rest + {k}) <==> t in FieldSet(rest) || t in Tokens(Trim(k))
  {
  }

  // ---------------------------------------------------------------- what survives joining

  /** The tokens a set of tracking numbers breaks into. */
  function FieldSet(tracks: set<string>): set<string> {
    set k, t | k in tracks && t in Tokens(Trim(k)) :: t
  }

  lemma OneValue(raw: string)
    ensures AllTokens([raw]) == Tokens(raw)
  {
    assert [raw][1..] == [];
    assert Tokens(raw) + [] == Tokens(raw);
  }

  lemma {:induction false} AllTokensSnoc(values: seq<string>, v: string)
    ensures AllTokens(values + [v]) == AllTokens(values) + Tokens(v)
  {
    if values == [] {
      OneValue(v);
      assert values + [v] == [v];
    } else {
      AllTokensSnoc(values[1..], v);
      assert (values + [v])[0] == values[0] && (values + [v])[1..] == values[1..] + [v];
      var x, y, z := Tokens(values[0]), AllTokens(values[1..]), Tokens(v);
      assert AllTokens(values + [v]) == x + (y + z);
      assert x + (y + z) == (x + y) + z;
    }
  }

  lemma PartsAreClean(values: seq<string>, parts: seq<string>)
    requires IsUniqueNonEmpty(AllTokens(values), parts)
    ensures forall k :: 0 <= k < |parts| ==> Clean(parts[k])
    ensures forall t :: t in parts <==> t in AllTokens(values)
  {
    var all := AllTokens(values);
    forall t ensures t in parts <==> t in all {
      if t in all {
        var k :| 0 <= k < |all| && all[k] == t;
        assert Trim(all[k]) == t;
      }
    }
    forall k | 0 <= k < |parts| ensures Clean(parts[k]) {
      assert parts[k] in parts;
    }
  }

  lemma JoinedEmptyIff(parts: seq<string>)
    requires forall k :: 0 <= k < |parts| ==> parts[k] != ""
    ensures JoinComma(parts) == "" <==> parts == []
  {
  }

  lemma {:induction false} RunOfClean(t: string, rest: string)
    requires forall k :: 0 <= k < |t| ==> !IsDelimiter(t[k])
    requires rest == "" || IsDelimiter(rest[0])
    ensures RunLength(t + rest) == |t|
  {
    if t == "" {
      assert t + rest == rest;
    } else {
      assert (t + rest)[1..] == t[1..] + rest;
      RunOfClean(t[1..], rest);
    }
  }

  lemma TokensOfClean(t: string, rest: string)
    requires Clean(t)
    requires rest == "" || IsDelimiter(rest[0])
    ensures Tokens(t + rest) == [t] + Tokens(rest)
  {
    RunOfClean(t, rest);
    var s := t + rest;
    assert s[..|t|] == t && s[|t|..] == rest && s[0] == t[0];
  }

  lemma {:induction false} TokensJoined(parts: seq<string>)
    requires forall k :: 0 <= k < |parts| ==> Clean(parts[k])
    ensures Tokens(JoinComma(parts)) == parts
  {
    if |parts| == 1 {
      CleanIsItself(parts[0]);
    } else if |parts| > 1 {
      var rest := parts[1..];
      assert forall k :: 0 <= k < |rest| ==> rest[k] == parts[k + 1];
      TokensJoined(rest);
      TokensOfJoin(parts[0], JoinComma(rest));
      assert [parts[0]] + rest == parts;
    }
  }

  lemma TokensOfJoin(t: string, joined: string)
    requires Clean(t)
    ensures Tokens(t + "," + joined) == [t] + Tokens(joined)
  {
    var tail := "," + joined;
    TokensOfClean(t, tail);
    TokensSkip(joined);
    assert t + "," + joined == t + tail;
  }

  lemma TokensSkip(s: string)
    ensures Tokens("," + s) == Tokens(s)
  {
    assert ("," + s)[1..] == s;
  }

  lemma {:induction false} SplitOf(t: string, rest: string)
    requires forall k :: 0 <= k < |t| ==> t[k] != ','
    requires rest == "" || rest[0] == ','
    ensures SplitComma(t + rest) == if rest == "" then [t] else [t] + SplitComma(rest[1..])
  {
    if t == "" {
      assert t + rest == rest;
    } else {
      assert (t + rest)[1..] == t[1..] + rest;
      SplitOf(t[1..], rest);
      assert [t[0]] + t[1..] == t;
    }
  }

  lemma {:induction false} SplitJoined(parts: seq<string>)
    requires parts != [] && forall k :: 0 <= k < |parts| ==> Clean(parts[k])
    ensures SplitComma(JoinComma(parts)) == parts
  {
    assert forall k :: 0 <= k < |parts[0]| ==> parts[0][k] != ',';
    if |parts| == 1 {
      SplitOf(parts[0], "");
      assert parts[0] + "" == parts[0];
    } else {
      SplitJoined(parts[1..]);
      var tail := "," + JoinComma(parts[1..]);
      assert tail[1..] == JoinComma(parts[1..]);
      SplitOf(parts[0], tail);
      assert JoinComma(parts) == parts[0] + tail;
    }
  }

  predicate Separates(d: char) {
    d == ',' || d == '\U{FF0C}' || d == ';' || d == '\U{FF1B}' || d == ' ' || d == '\t' || d == '\n' || d == '\r'
  }

  lemma {:induction false} RunThenTokens(run: string, rest: string)
    requires run != "" && forall k :: 0 <= k < |run| ==> !IsDelimiter(run[k])
    requires rest == "" || IsDelimiter(rest[0])
    ensures Tokens(run + rest) == (if Trim(run) == "" then [] else [Trim(run)]) + Tokens(rest)
  {
    var s := run + rest;
    RunOfClean(run, rest);
    assert s[0] == run[0] && s[..|run|] == run && s[|run|..] == rest;
  }

  /** Every comma, semicolon, in either width, blank, tab and line break separates: the tokens before it and those after it. */
  lemma {:induction false} TokensAround(a: string, d: char, b: string)
    requires Separates(d)
    ensures Tokens(a + [d] + b) == Tokens(a) + Tokens(b)
    decreases |a|
  {
    var tail := [d] + b;
    assert a + [d] + b == a + tail && tail[1..] == b;
    if a == "" {
      assert a + tail == tail;
    } else if IsDelimiter(a[0]) {
      assert (a + tail)[1..] == a[1..] + [d] + b;
      TokensAround(a[1..], d, b);
    } else {
      var n := RunLength(a);
      var run, rest := a[..n], a[n..];
      assert a == run + rest && a + tail == run + (rest + tail) && rest + tail == rest + [d] + b;
      RunThenTokens(run, rest);
      RunThenTokens(run, rest + tail);
      TokensAround(rest, d, b);
      Regroup(if Trim(run) == "" then [] else [Trim(run)], Tokens(rest), Tokens(b));
    }
  }

  lemma CleanIsItself(t: string)
    requires Clean(t)
    ensures Tokens(t) == [t]
  {
    TokensOfClean(t, "");
    assert t + "" == t;
  }

  /** Joining a set of tracking numbers keeps exactly that set if and only if each is Clean. */
  lemma FieldSetFaithfulIff(tracks: set<string>)
    ensures FieldSet(tracks) == tracks <==> forall t :: t in tracks ==> Clean(t)
  {
    if forall t :: t in tracks ==> Clean(t) {
      forall t | t in tracks ensures Tokens(Trim(t)) == [t] {
        CleanIsItself(t);
      }
      assert forall t :: t in tracks ==> t in Tokens(Trim(t));
      assert forall t :: t in FieldSet(tracks) ==> t in tracks;
    }
    assert forall t :: t in FieldSet(tracks) ==> Clean(t);
  }
}
