/** Strings as the Go sources treat them: white space, trimming and joining. */
module Text {

  datatype Option<+T> = None | Some(value: T)

  datatype Result<+T> = Ok(value: T) | Err

  /** White space in the sense of strings.TrimSpace (Unicode White_Space). */
  predicate IsSpace(c: char) {
    || '\t' <= c <= '\r' || c == ' '
    || c == '\U{0085}' || c == '\U{00A0}' || c == '\U{1680}'
    || '\U{2000}' <= c <= '\U{200A}'
    || c == '\U{2028}' || c == '\U{2029}' || c == '\U{202F}' || c == '\U{205F}' || c == '\U{3000}'
  }

  predicate Trimmed(s: string) {
    s == "" || (!IsSpace(s[0]) && !IsSpace(s[|s| - 1]))
  }

  function TrimLeft(s: string): (r: string)
    ensures r == "" || (!IsSpace(r[0]) && s != "" && r[|r| - 1] == s[|s| - 1])
    ensures s != "" && !IsSpace(s[0]) ==> r == s
    ensures s != "" && !IsSpace(s[|s| - 1]) ==> r != ""
    ensures |r| <= |s|
  {
    if s != "" && IsSpace(s[0]) then TrimLeft(s[1..]) else s
  }

  function TrimRight(s: string): (r: string)
    ensures r == "" || (!IsSpace(r[|r| - 1]) && s != "" && r[0] == s[0])
    ensures s != "" && !IsSpace(s[|s| - 1]) ==> r == s
    ensures |r| <= |s| && r == s[..|r|]
  {
    if s != "" && IsSpace(s[|s| - 1]) then TrimRight(s[..|s| - 1]) else s
  }

  /** strings.TrimSpace */
  function Trim(s: string): (r: string)
    ensures Trimmed(r)
    ensures Trimmed(s) ==> r == s
    ensures s != "" && !IsSpace(s[|s| - 1]) ==> r != "" && r[|r| - 1] == s[|s| - 1]
    ensures |r| <= |s|
  {
    TrimRight(TrimLeft(s))
  }

  predicate OnlySpace(s: string) {
    forall i :: 0 <= i < |s| ==> IsSpace(s[i])
  }

  lemma {:induction false} LeftSpace(s: string) returns (before: string)
    ensures s == before + TrimLeft(s) && OnlySpace(before)
  {
    if s != "" && IsSpace(s[0]) {
      before := LeftSpace(s[1..]);
      before := [s[0]] + before;
      assert s == [s[0]] + s[1..];
    } else {
      before := "";
    }
  }

  lemma {:induction false} RightSpace(s: string) returns (after: string)
    ensures s == TrimRight(s) + after && OnlySpace(after)
  {
    if s != "" && IsSpace(s[|s| - 1]) {
      after := RightSpace(s[..|s| - 1]);
      after := after + [s[|s| - 1]];
      assert s == s[..|s| - 1] + [s[|s| - 1]];
    } else {
      after := "";
    }
  }

  /** Trimming takes white space away at both ends and nothing else. */
  lemma {:induction false} TrimIsTheMiddle(s: string) returns (before: string, after: string)
    ensures s == before + Trim(s) + after && OnlySpace(before) && OnlySpace(after) && Trimmed(Trim(s))
  {
    before := LeftSpace(s);
    after := RightSpace(TrimLeft(s));
    assert before + (Trim(s) + after) == before + Trim(s) + after;
  }

  /** The value of an optional pointer field, trimmed; absent and blank are both "". */
  function TrimOpt(s: Option<string>): (r: string)
    ensures Trimmed(r)
  {
    if s.Some? then Trim(s.value) else ""
  }

  /** A map read that, as in Go, yields "" for a missing key. */
  function Lookup(m: map<string, string>, k: string): string {
    if k in m then m[k] else ""
  }

  /** strings.Join(parts, ",") */
  function JoinComma(parts: seq<string>): string {
    if parts == [] then ""
    else if |parts| == 1 then parts[0]
    else parts[0] + "," + JoinComma(parts[1..])
  }

  lemma {:induction false} JoinCommaSnoc(parts: seq<string>, last: string)
    ensures JoinComma(parts + [last]) == if parts == [] then last else JoinComma(parts) + "," + last
  {
    if |parts| == 0 {
      assert parts + [last] == [last];
    } else if |parts| == 1 {
      assert (parts + [last])[1..] == [last];
    } else {
      JoinCommaSnoc(parts[1..], last);
      assert (parts + [last])[1..] == parts[1..] + [last];
      assert parts[0] + "," + (JoinComma(parts[1..]) + "," + last) == (parts[0] + "," + JoinComma(parts[1..])) + "," + last;
    }
  }
}
