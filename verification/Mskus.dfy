/**
 The `sku(quantity)` tokens kept in a row's text[] column: how a pulled order is printed
 into them and how the multi-order verdict is read back out.
 */
module Mskus {
  import opened Text
  import opened Orders
  import Pg = PgTextArray

  // ---------------------------------------------------------------- decimal numbers

  function Digit(d: nat): (c: char)
    requires d < 10
    ensures '0' <= c <= '9'
  {
    '0' + d as char
  }

  function Digits(n: nat): string {
    if n < 10 then [Digit(n)] else Digits(n / 10) + [Digit(n % 10)]
  }

  /** The %d verb. */
  function Itoa(n: Int): string {
    if n < 0 then "-" + Digits(-(n as int)) else Digits(n)
  }

  predicate AllDigits(s: string) {
    forall k :: 0 <= k < |s| ==> '0' <= s[k] <= '9'
  }

  function DigitsValue(s: string): nat
    requires AllDigits(s)
  {
    if s == "" then 0
    else DigitsValue(s[..|s| - 1]) * 10 + (s[|s| - 1] as int - '0' as int)
  }

  /** strconv.Atoi: an optional sign, digits, and the range of int. */
  function Atoi(s: string): Option<Int> {
    var body := if s != "" && (s[0] == '-' || s[0] == '+') then s[1..] else s;
    if body == "" || !AllDigits(body) then None
    else
      var v: int := if s[0] == '-' then -(DigitsValue(body) as int) else DigitsValue(body);
      if -0x8000_0000_0000_0000 <= v < 0x8000_0000_0000_0000 then Some(v) else None
  }

  lemma {:induction false} DigitsRead(n: nat)
    ensures Digits(n) != "" && AllDigits(Digits(n)) && DigitsValue(Digits(n)) == n
  {
    if n < 10 {
      assert Digits(n)[..0] == "";
    } else {
      DigitsRead(n / 10);
      assert Digits(n)[..|Digits(n)| - 1] == Digits(n / 10);
    }
  }

  lemma AtoiItoa(n: Int)
    ensures Atoi(Itoa(n)) == Some(n)
  {
    var m: nat := if n < 0 then -(n as int) else n;
    DigitsRead(m);
    if n < 0 {
      AtoiNegative(Digits(m));
    } else {
      AtoiPlain(Digits(m));
    }
  }

  lemma AtoiPlain(digits: string)
    requires digits != "" && AllDigits(digits) && DigitsValue(digits) < 0x8000_0000_0000_0000
    ensures Atoi(digits) == Some(DigitsValue(digits))
  {
    assert '0' <= digits[0] <= '9';
  }

  lemma AtoiNegative(digits: string)
    requires digits != "" && AllDigits(digits) && DigitsValue(digits) <= 0x8000_0000_0000_0000
    ensures Atoi("-" + digits) == Some(-(DigitsValue(digits) as int))
  {
    var s := "-" + digits;
    assert s[0] == '-' && s[1..] == digits;
  }

  // ---------------------------------------------------------------- reading a token

  /** strings.LastIndex(s, "(") */
  function LastOpen(s: string): (i: int)
    ensures -1 <= i < |s|
    ensures i >= 0 ==> s[i] == '('
    ensures forall k :: i < k < |s| ==> s[k] != '('
  {
    if s == "" then -1
    else if s[|s| - 1] == '(' then |s| - 1
    else LastOpen(s[..|s| - 1])
  }

  /** parseQtyFromMSKUToken */
  function ParseQty(token: string): (q: Int)
    ensures q >= 1
  {
    var s := Trim(token);
    if s == "" || s[|s| - 1] != ')' then 1
    else
      var i := LastOpen(s);
      if i <= 0 || i >= |s| - 1 then 1
      else
        var text := Trim(s[i + 1..|s| - 1]);
        var q := Atoi(text);
        if text == "" || q.None? || q.value <= 0 then 1 else q.value
  }

  datatype MultiInfo = MultiInfo(lineItemCount: nat, hasQtyGT1: bool, maxQuantity: int)

  function CountLines(mskus: seq<string>): nat {
    if mskus == [] then 0 else (if Trim(mskus[0]) == "" then 0 else 1) + CountLines(mskus[1..])
  }

  predicate SomeQtyAboveOne(mskus: seq<string>) {
    exists k :: 0 <= k < |mskus| && Trim(mskus[k]) != "" && ParseQty(Trim(mskus[k])) > 1
  }

  predicate IsMulti(mskus: seq<string>) {
    CountLines(mskus) > 1 || SomeQtyAboveOne(mskus)
  }

  /** One turn of the detection loop. */
  function Note(info: MultiInfo, raw: string): MultiInfo {
    if Trim(raw) == "" then info
    else
      var qty := ParseQty(Trim(raw));
      MultiInfo(info.lineItemCount + 1, info.hasQtyGT1 || qty > 1, if qty > info.maxQuantity then qty else info.maxQuantity)
  }

  function NoteAll(info: MultiInfo, mskus: seq<string>): MultiInfo
    decreases mskus
  {
    if mskus == [] then info else NoteAll(Note(info, mskus[0]), mskus[1..])
  }

  method DetectMultiOrderByMSKUs(mskus: seq<string>) returns (multi: bool, info: MultiInfo)
    ensures info == NoteAll(MultiInfo(0, false, 0), mskus)
    ensures multi <==> IsMulti(mskus)
  {
    info := MultiInfo(0, false, 0);
    for k := 0 to |mskus|
      invariant NoteAll(info, mskus[k..]) == NoteAll(MultiInfo(0, false, 0), mskus)
    {
      assert mskus[k..][1..] == mskus[k + 1..];
      info := Note(info, mskus[k]);
    }
    assert mskus[|mskus|..] == [];
    NoteAllMeaning(MultiInfo(0, false, 0), mskus);
    multi := info.lineItemCount > 1 || info.hasQtyGT1;
  }

  lemma {:induction false} NoteAllMeaning(info: MultiInfo, mskus: seq<string>)
    ensures NoteAll(info, mskus).lineItemCount == info.lineItemCount + CountLines(mskus)
    ensures NoteAll(info, mskus).hasQtyGT1 <==> info.hasQtyGT1 || SomeQtyAboveOne(mskus)
    decreases mskus
  {
    if mskus != [] {
      NoteAllMeaning(Note(info, mskus[0]), mskus[1..]);
      SomeQtyCons(mskus);
    }
  }

  // ---------------------------------------------------------------- writing the tokens of an order

  function Token(li: Line): string {
    LineSku(li) + "(" + Itoa(li.quantity) + ")"
  }

  function LineTokens(li: Line): seq<string> {
    if LineSku(li) == "" then [] else [Token(li)]
  }

  function Tokens(lines: seq<Line>): seq<string> {
    if lines == [] then [] else LineTokens(lines[0]) + Tokens(lines[1..])
  }

  method PrintMSKUs(lines: seq<Line>) returns (mskus: seq<string>)
    ensures mskus == Tokens(lines)
  {
    mskus := [];
    for k := 0 to |lines|
      invariant mskus == Tokens(lines[..k])
    {
      TokensSnoc(lines[..k], lines[k]);
      assert lines[..k + 1] == lines[..k] + [lines[k]];
      assert Tokens(lines[..k]) + [] == Tokens(lines[..k]);
      if LineSku(lines[k]) != "" {
        mskus := mskus + [Token(lines[k])];
      }
    }
    assert lines[..|lines|] == lines;
  }

  lemma {:induction false} TokensSnoc(lines: seq<Line>, li: Line)
    ensures Tokens(lines + [li]) == Tokens(lines) + LineTokens(li)
  {
    if lines != [] {
      TokensSnoc(lines[1..], li);
      assert (lines + [li])[1..] == lines[1..] + [li];
      Regroup(LineTokens(lines[0]), Tokens(lines[1..]), LineTokens(li));
    } else {
      assert (lines + [li])[1..] == [];
    }
  }

  lemma Regroup(a: seq<string>, b: seq<string>, c: seq<string>)
    ensures a + (b + c) == a + b + c
  {
  }

  // ---------------------------------------------------------------- what the verdict means for the order

  function NamedLines(lines: seq<Line>): nat {
    if lines == [] then 0 else (if LineSku(lines[0]) == "" then 0 else 1) + NamedLines(lines[1..])
  }

  predicate ManyPieces(lines: seq<Line>) {
    exists k :: 0 <= k < |lines| && LineSku(lines[k]) != "" && lines[k].quantity > 1
  }

  lemma {:induction false} LastOpenAt(a: string, b: string)
    requires '(' !in b
    ensures LastOpen(a + "(" + b) == |a|
  {
    var s := a + "(" + b;
    if b == "" {
      assert s[|s| - 1] == '(';
    } else {
      assert s[|s| - 1] == b[|b| - 1] && b[|b| - 1] in b;
      assert s[..|s| - 1] == a + "(" + b[..|b| - 1];
      LastOpenAt(a, b[..|b| - 1]);
    }
  }

  lemma {:induction false} DigitsPlain(n: nat)
    ensures '(' !in Digits(n)
    ensures forall k :: 0 <= k < |Digits(n)| ==> !IsSpace(Digits(n)[k])
  {
    if n >= 10 {
      DigitsPlain(n / 10);
    }
  }

  lemma ItoaPlain(n: Int)
    ensures Itoa(n) != "" && Trimmed(Itoa(n)) && '(' !in Itoa(n)
  {
    var m: nat := if n < 0 then -(n as int) else n;
    DigitsRead(m);
    DigitsPlain(m);
  }

  lemma TokenShape(li: Line)
    requires LineSku(li) != ""
    ensures Trimmed(Token(li)) && Token(li) != "" && Token(li)[|Token(li)| - 1] == ')'
    ensures LastOpen(Token(li)) == |LineSku(li)|
    ensures Token(li)[|LineSku(li)| + 1..|Token(li)| - 1] == Itoa(li.quantity)
  {
    var sku, number := LineSku(li), Itoa(li.quantity);
    ItoaPlain(li.quantity);
    assert Token(li) == sku + "(" + (number + ")");
    LastOpenAt(sku, number + ")");
  }

  /** A token's quantity is read from its own last parenthesis, whatever the SKU contains. */
  lemma QtyOfToken(li: Line)
    requires LineSku(li) != ""
    ensures ParseQty(Token(li)) == if li.quantity >= 1 then li.quantity else 1
  {
    TokenShape(li);
    ItoaPlain(li.quantity);
    AtoiItoa(li.quantity);
  }

  lemma {:induction false} TokensVerdict(lines: seq<Line>)
    ensures CountLines(Tokens(lines)) == NamedLines(lines)
    ensures SomeQtyAboveOne(Tokens(lines)) <==> ManyPieces(lines)
    ensures forall k :: 0 <= k < |Tokens(lines)| ==> Trimmed(Tokens(lines)[k])
  {
    if lines != [] {
      TokensVerdict(lines[1..]);
      var rest := Tokens(lines[1..]);
      if LineSku(lines[0]) != "" {
        QtyOfToken(lines[0]);
        TokenShape(lines[0]);
        var all := Tokens(lines);
        assert all[0] == Token(lines[0]) && all[1..] == rest;
        SomeQtyCons(all);
      } else {
        assert Tokens(lines) == rest;
      }
      ManyPiecesCons(lines);
    }
  }

  lemma SomeQtyCons(xs: seq<string>)
    requires xs != []
    ensures SomeQtyAboveOne(xs) <==> (Trim(xs[0]) != "" && ParseQty(Trim(xs[0])) > 1) || SomeQtyAboveOne(xs[1..])
  {
    var rest := xs[1..];
    if SomeQtyAboveOne(rest) {
      var k :| 0 <= k < |rest| && Trim(rest[k]) != "" && ParseQty(Trim(rest[k])) > 1;
      assert xs[k + 1] == rest[k];
    }
    if SomeQtyAboveOne(xs) {
      var k :| 0 <= k < |xs| && Trim(xs[k]) != "" && ParseQty(Trim(xs[k])) > 1;
      if k > 0 { assert xs[k] == rest[k - 1]; }
    }
  }

  lemma ManyPiecesCons(lines: seq<Line>)
    requires lines != []
    ensures ManyPieces(lines) <==> (LineSku(lines[0]) != "" && lines[0].quantity > 1) || ManyPieces(lines[1..])
  {
    var rest := lines[1..];
    if ManyPieces(rest) {
      var k :| 0 <= k < |rest| && LineSku(rest[k]) != "" && rest[k].quantity > 1;
      assert lines[k + 1] == rest[k];
    }
    if ManyPieces(lines) {
      var k :| 0 <= k < |lines| && LineSku(lines[k]) != "" && lines[k].quantity > 1;
      if k > 0 { assert lines[k] == rest[k - 1]; }
    }
  }

  lemma {:induction false} TrimAllTrimmed(xs: seq<string>)
    requires forall k :: 0 <= k < |xs| ==> Trimmed(xs[k])
    ensures Pg.TrimAll(xs) == xs
  {
  }

  /**
   End to end: print the order's lines, encode them as a text[] literal, decode it, and
   detect. The verdict is about the order's lines alone, whatever characters the SKUs hold.
   */
  lemma MultiVerdictEndToEnd(lines: seq<Line>)
    ensures var stored := Pg.Parse(Pg.Literal(Tokens(lines)));
            stored.Ok? && (IsMulti(stored.value) <==> NamedLines(lines) > 1 || ManyPieces(lines))
  {
    Pg.RoundTrip(Tokens(lines));
    TokensVerdict(lines);
    TrimAllTrimmed(Tokens(lines));
  }

  /** The same when the literal read back is the server's own rendering of the stored array. */
  lemma MultiVerdictThroughServer(lines: seq<Line>)
    ensures var shown := "{" + JoinComma(Pg.ShowElements(Pg.ServerElements(Tokens(lines)))) + "}";
            Pg.Parse(shown) == Ok(Tokens(lines))
            && (IsMulti(Tokens(lines)) <==> NamedLines(lines) > 1 || ManyPieces(lines))
  {
    TokensVerdict(lines);
    Pg.ServerRoundTrip(Tokens(lines));
  }
}
