/**
 Confirming an asynchronous batch: the two change-log polls, which treat repeated verdicts
 differently, and the invoice visibility fallback.
 */
module ChangeLog {
  import opened Text

  datatype Mark = Success | Failure | Pending

  /** A log entry after its PO number or invoice id has been extracted and trimmed. */
  datatype Entry = Entry(id: string, status: string)

  /** One answer of the change-log endpoint; NoReply is a failed call. */
  datatype Reply = NoReply | Logs(status: string, entries: seq<Entry>)

  function LowerChar(c: char): char {
    if 'A' <= c <= 'Z' then c - 'A' + 'a' else c
  }

  /** strings.ToLower on ASCII letters. */
  function Lower(s: string): (r: string)
    ensures |r| == |s|
  {
    if s == "" then "" else [LowerChar(s[0])] + Lower(s[1..])
  }

  /** The same ASCII letter in either case, or the same character. */
  predicate SameLetter(a: char, b: char) {
    a == b || ('a' <= a <= 'z' && b as int == a as int - 32) || ('a' <= b <= 'z' && a as int == b as int - 32)
  }

  predicate SameLetters(s: string, t: string) {
    |s| == |t| && forall i :: 0 <= i < |s| ==> SameLetter(s[i], t[i])
  }

  lemma {:induction false} LowerAt(s: string, i: nat)
    requires i < |s|
    ensures Lower(s)[i] == LowerChar(s[i])
  {
    if i > 0 {
      LowerAt(s[1..], i - 1);
    }
  }

  /** Comparing in lower case with a lower-case word is comparing without regard to case. */
  lemma {:induction false} LowerEqualsIff(s: string, word: string)
    requires forall i :: 0 <= i < |word| ==> !('A' <= word[i] <= 'Z')
    ensures Lower(s) == word <==> SameLetters(s, word)
  {
    forall i | 0 <= i < |s| ensures Lower(s)[i] == LowerChar(s[i]) {
      LowerAt(s, i);
    }
    if SameLetters(s, word) {
      assert forall i :: 0 <= i < |s| ==> Lower(s)[i] == word[i];
    }
    if Lower(s) == word {
      forall i | 0 <= i < |s| ensures SameLetter(s[i], word[i]) {
        assert Lower(s)[i] == word[i];
      }
    }
  }

  function MarkOf(e: Entry): Mark {
    var st := Lower(Trim(e.status));
    if st == "success" then Success else if st == "failure" then Failure else Pending
  }

  /** The entry settles an id we are waiting for. */
  predicate Decisive(e: Entry, want: set<string>) {
    e.id != "" && e.id in want && MarkOf(e) != Pending
  }

  type Verdicts = map<string, bool>

  // ---------------------------------------------------------------- shipment: failure wins

  function NoteShipment(result: Verdicts, e: Entry, want: set<string>): Verdicts {
    if !Decisive(e, want) then result
    else if MarkOf(e) == Failure then result[e.id := false]
    else if e.id in result && !result[e.id] then result
    else result[e.id := true]
  }

  function NoteInvoice(result: Verdicts, e: Entry, want: set<string>): Verdicts {
    if !Decisive(e, want) then result else result[e.id := MarkOf(e) == Success]
  }

  datatype Rule = FailureWins | LastWins

  function Note(rule: Rule, result: Verdicts, e: Entry, want: set<string>): Verdicts {
    if rule == FailureWins then NoteShipment(result, e, want) else NoteInvoice(result, e, want)
  }

  function NoteAll(rule: Rule, es: seq<Entry>, want: set<string>): Verdicts {
    if es == [] then map[] else Note(rule, NoteAll(rule, es[..|es| - 1], want), es[|es| - 1], want)
  }

  function EntriesOf(replies: seq<Reply>): seq<Entry> {
    if replies == [] then []
    else
      EntriesOf(replies[..|replies| - 1]) + if replies[|replies| - 1].Logs? then replies[|replies| - 1].entries else []
  }

  predicate AllSettled(want: set<string>, result: Verdicts) {
    want <= result.Keys
  }

  /** The poll stops at this reply: the log is complete or every wanted id is settled. */
  predicate StopsAt(rule: Rule, replies: seq<Reply>, want: set<string>, n: nat)
    requires 0 < n <= |replies|
  {
    var last := replies[n - 1];
    last.Logs? && (SameLetters(Trim(last.status), "completed") || AllSettled(want, NoteAll(rule, EntriesOf(replies[..n]), want)))
  }

  method ReadLogs(rule: Rule, start: Verdicts, ghost seen: seq<Entry>, entries: seq<Entry>, want: set<string>) returns (result: Verdicts)
    requires start == NoteAll(rule, seen, want)
    ensures result == NoteAll(rule, seen + entries, want)
  {
    result := start;
    assert seen + entries[..0] == seen;
    for k := 0 to |entries|
      invariant result == NoteAll(rule, seen + entries[..k], want)
    {
      ghost var upTo := seen + entries[..k + 1];
      assert upTo[..|upTo| - 1] == seen + entries[..k] && upTo[|upTo| - 1] == entries[k];
      result := Note(rule, result, entries[k], want);
    }
    assert entries[..|entries|] == entries;
  }

  /** Handles the answer to one call of the loop below and tells whether to stop there. */
  method HandleReply(rule: Rule, start: Verdicts, replies: seq<Reply>, n: nat, want: set<string>) returns (result: Verdicts, stop: bool)
    requires n < |replies| && start == NoteAll(rule, EntriesOf(replies[..n]), want)
    ensures result == NoteAll(rule, EntriesOf(replies[..n + 1]), want)
    ensures stop <==> StopsAt(rule, replies, want, n + 1)
  {
    var out := replies[n];
    EntriesStep(replies, n);
    if out.NoReply? {
      return start, false;
    }
    result := ReadLogs(rule, start, EntriesOf(replies[..n]), out.entries, want);
    LowerEqualsIff(Trim(out.status), "completed");
    stop := Lower(Trim(out.status)) == "completed" || AllSettled(want, result);
  }

  /**
   The polling loop. `replies` are the answers the service gives up to and including the
   first one after the deadline; `used` is how many were asked for.
   */
  method Poll(rule: Rule, replies: seq<Reply>, want: set<string>) returns (result: Verdicts, completed: bool, used: nat)
    requires replies != []
    ensures want == {} ==> result == map[] && completed && used == 0
    ensures want != {} ==> 0 < used <= |replies| && result == NoteAll(rule, EntriesOf(replies[..used]), want)
    ensures want != {} ==> (completed <==> StopsAt(rule, replies, want, used)) && (!completed ==> used == |replies|)
    ensures want != {} ==> forall n :: 0 < n < used ==> !StopsAt(rule, replies, want, n)
    ensures want != {} ==> VerdictsAre(result, rule, EntriesOf(replies[..used]), want)
  {
    if want == {} {
      return map[], true, 0;
    }
    result, used, completed := map[], 0, false;
    while used < |replies| && !completed
      invariant 0 <= used <= |replies|
      invariant result == NoteAll(rule, EntriesOf(replies[..used]), want)
      invariant forall n :: 0 < n < used ==> !StopsAt(rule, replies, want, n)
      invariant 0 < used <= |replies| ==> (completed <==> StopsAt(rule, replies, want, used))
      invariant used == 0 ==> !completed
      decreases |replies| - used
    {
      result, completed := HandleReply(rule, result, replies, used, want);
      used := used + 1;
    }
    VerdictsMean(rule, EntriesOf(replies[..used]), want);
  }

  lemma EntriesStep(replies: seq<Reply>, n: nat)
    requires n < |replies|
    ensures replies[n].NoReply? ==> EntriesOf(replies[..n + 1]) == EntriesOf(replies[..n])
    ensures replies[n].Logs? ==> EntriesOf(replies[..n + 1]) == EntriesOf(replies[..n]) + replies[n].entries
  {
    assert replies[..n + 1][..n] == replies[..n];
    assert EntriesOf(replies[..n]) + [] == EntriesOf(replies[..n]);
  }

  // ---------------------------------------------------------------- what the verdicts mean

  predicate Saw(es: seq<Entry>, id: string, mark: Mark) {
    exists k :: 0 <= k < |es| && es[k].id == id && MarkOf(es[k]) == mark
  }

  lemma SawSnoc(es: seq<Entry>, e: Entry, id: string, mark: Mark)
    ensures Saw(es + [e], id, mark) <==> Saw(es, id, mark) || (e.id == id && MarkOf(e) == mark)
  {
    var all := es + [e];
    if Saw(es, id, mark) {
      var k :| 0 <= k < |es| && es[k].id == id && MarkOf(es[k]) == mark;
      assert all[k] == es[k];
    }
    assert all[|es|] == e;
  }

  /** What one entry does to one id's verdict. */
  lemma NoteShipmentAt(r: Verdicts, e: Entry, want: set<string>, id: string)
    ensures var q := NoteShipment(r, e, want);
            && (id in q <==> id in r || (id != "" && id in want && e.id == id && MarkOf(e) != Pending))
            && (id in q ==> (q[id] <==> (id in r ==> r[id]) && !(e.id == id && MarkOf(e) == Failure)))
    requires id in r ==> id != "" && id in want
  {
  }

  /** Shipments: an id is settled iff wanted and decided at all, and succeeds iff it never failed. */
  lemma {:induction false} FailureWinsMeaning(es: seq<Entry>, want: set<string>, id: string)
    ensures var r := NoteAll(FailureWins, es, want);
            && (id in r <==> id != "" && id in want && (Saw(es, id, Success) || Saw(es, id, Failure)))
            && (id in r ==> (r[id] <==> !Saw(es, id, Failure)))
  {
    if es != [] {
      var before, e := es[..|es| - 1], es[|es| - 1];
      FailureWinsMeaning(before, want, id);
      assert es == before + [e];
      SawSnoc(before, e, id, Success);
      SawSnoc(before, e, id, Failure);
      NoteShipmentAt(NoteAll(FailureWins, before, want), e, want, id);
      assert NoteAll(FailureWins, es, want) == NoteShipment(NoteAll(FailureWins, before, want), e, want);
    }
  }

  /** So the shipment verdicts depend only on which marks were seen, not on their order or number. */
  lemma FailureWinsIsOrderFree(a: seq<Entry>, b: seq<Entry>, want: set<string>)
    requires forall id, mark :: id in want && mark != Pending ==> (Saw(a, id, mark) <==> Saw(b, id, mark))
    ensures NoteAll(FailureWins, a, want) == NoteAll(FailureWins, b, want)
  {
    var ra, rb := NoteAll(FailureWins, a, want), NoteAll(FailureWins, b, want);
    forall id ensures (id in ra <==> id in rb) && (id in ra ==> ra[id] == rb[id]) {
      FailureWinsAgree(a, b, want, id);
    }
  }

  lemma FailureWinsAgree(a: seq<Entry>, b: seq<Entry>, want: set<string>, id: string)
    requires forall mark :: id in want && mark != Pending ==> (Saw(a, id, mark) <==> Saw(b, id, mark))
    ensures var ra, rb := NoteAll(FailureWins, a, want), NoteAll(FailureWins, b, want);
            (id in ra <==> id in rb) && (id in ra ==> ra[id] == rb[id])
  {
    FailureWinsMeaning(a, want, id);
    FailureWinsMeaning(b, want, id);
  }

  /** The last decisive entry for an id. */
  function LastMark(es: seq<Entry>, id: string): Mark {
    if es == [] then Pending
    else if es[|es| - 1].id == id && MarkOf(es[|es| - 1]) != Pending then MarkOf(es[|es| - 1])
    else LastMark(es[..|es| - 1], id)
  }

  /** Invoices: the last decisive entry is the verdict. */
  lemma {:induction false} LastWinsMeaning(es: seq<Entry>, want: set<string>, id: string)
    ensures var r := NoteAll(LastWins, es, want);
            && (id in r <==> id != "" && id in want && LastMark(es, id) != Pending)
            && (id in r ==> (r[id] <==> LastMark(es, id) == Success))
  {
    if es != [] {
      LastWinsMeaning(es[..|es| - 1], want, id);
    }
  }

  lemma {:induction false} LastMarkWasSeen(es: seq<Entry>, id: string)
    ensures LastMark(es, id) != Pending ==> Saw(es, id, LastMark(es, id))
    ensures LastMark(es, id) == Pending ==> !Saw(es, id, Success) && !Saw(es, id, Failure)
  {
    if es != [] {
      var before, e := es[..|es| - 1], es[|es| - 1];
      LastMarkWasSeen(before, id);
      assert es == before + [e];
      SawSnoc(before, e, id, Success);
      SawSnoc(before, e, id, Failure);
    }
  }

  /** The two polls give the same verdict exactly when no success was reported after a failure. */
  lemma RulesAgreeIff(es: seq<Entry>, want: set<string>, id: string)
    requires id != "" && id in want
    ensures (id in NoteAll(FailureWins, es, want) <==> id in NoteAll(LastWins, es, want))
    ensures id in NoteAll(LastWins, es, want) ==>
              (NoteAll(FailureWins, es, want)[id] == NoteAll(LastWins, es, want)[id]
               <==> !(Saw(es, id, Failure) && LastMark(es, id) == Success))
  {
    FailureWinsMeaning(es, want, id);
    LastWinsMeaning(es, want, id);
    LastMarkWasSeen(es, id);
  }

  /** The invoice poll does not let failure win: a later success overrides it, where the shipment poll keeps it. */
  lemma LaterSuccessOverridesForInvoicesOnly(bad: Entry, good: Entry, want: set<string>)
    requires bad.id == good.id && bad.id != "" && bad.id in want
    requires MarkOf(bad) == Failure && MarkOf(good) == Success
    ensures NoteAll(LastWins, [bad, good], want) == map[bad.id := true]
    ensures NoteAll(FailureWins, [bad, good], want) == map[bad.id := false]
  {
    TwoEntries(LastWins, bad, good, want);
    TwoEntries(FailureWins, bad, good, want);
    var failed: Verdicts := map[bad.id := false];
    assert NoteInvoice(map[], bad, want) == failed && NoteShipment(map[], bad, want) == failed;
    assert failed[bad.id := true] == map[bad.id := true];
  }

  lemma TwoEntries(rule: Rule, a: Entry, b: Entry, want: set<string>)
    ensures NoteAll(rule, [a, b], want) == Note(rule, Note(rule, map[], a, want), b, want)
  {
    assert [a, b][..1] == [a] && [a][..0] == [];
    assert NoteAll(rule, [a], want) == Note(rule, map[], a, want);
  }

  // ---------------------------------------------------------------- the verdicts, on the statuses as they come

  /** The entry says this word of the id, in any letter case and with white space around it. */
  predicate Says(e: Entry, id: string, word: string) {
    e.id == id && SameLetters(Trim(e.status), word)
  }

  predicate SaidAfter(es: seq<Entry>, id: string, word: string, k: int) {
    exists j :: k < j < |es| && 0 <= j && Says(es[j], id, word)
  }

  /** The word was said, and the other word not after it. */
  predicate LastSaid(es: seq<Entry>, id: string, word: string, other: string) {
    exists k :: 0 <= k < |es| && Says(es[k], id, word) && !SaidAfter(es, id, other, k)
  }

  /** A shipment needs a success and no failure at all, an invoice a success that no failure follows. */
  predicate Succeeds(rule: Rule, es: seq<Entry>, want: set<string>, id: string) {
    && id != "" && id in want
    && if rule == FailureWins then SaidAfter(es, id, "success", -1) && !SaidAfter(es, id, "failure", -1)
       else LastSaid(es, id, "success", "failure")
  }

  predicate Fails(rule: Rule, es: seq<Entry>, want: set<string>, id: string) {
    && id != "" && id in want
    && if rule == FailureWins then SaidAfter(es, id, "failure", -1) else LastSaid(es, id, "failure", "success")
  }

  predicate VerdictIs(result: Verdicts, rule: Rule, es: seq<Entry>, want: set<string>, id: string) {
    && (id in result && result[id] <==> Succeeds(rule, es, want, id))
    && (id in result && !result[id] <==> Fails(rule, es, want, id))
  }

  ghost predicate VerdictsAre(result: Verdicts, rule: Rule, es: seq<Entry>, want: set<string>) {
    forall id :: VerdictIs(result, rule, es, want, id)
  }

  lemma {:induction false} MarkIsWord(e: Entry)
    ensures MarkOf(e) == Success <==> SameLetters(Trim(e.status), "success")
    ensures MarkOf(e) == Failure <==> SameLetters(Trim(e.status), "failure")
  {
    LowerEqualsIff(Trim(e.status), "success");
    LowerEqualsIff(Trim(e.status), "failure");
  }

  lemma {:induction false} SawIsSaid(es: seq<Entry>, id: string)
    ensures Saw(es, id, Success) <==> SaidAfter(es, id, "success", -1)
    ensures Saw(es, id, Failure) <==> SaidAfter(es, id, "failure", -1)
  {
    forall k | 0 <= k < |es| ensures MarkOf(es[k]) == Success <==> SameLetters(Trim(es[k].status), "success")
      ensures MarkOf(es[k]) == Failure <==> SameLetters(Trim(es[k].status), "failure") {
      MarkIsWord(es[k]);
    }
  }

  lemma {:induction false} LastSaidSnoc(es: seq<Entry>, e: Entry, id: string, word: string, other: string)
    requires Says(e, id, word) ==> !Says(e, id, other)
    ensures LastSaid(es + [e], id, word, other) <==> Says(e, id, word) || (LastSaid(es, id, word, other) && !Says(e, id, other))
  {
    var all := es + [e];
    if Says(e, id, word) {
      assert Says(all[|es|], id, word) && !SaidAfter(all, id, other, |es|);
    } else if LastSaid(es, id, word, other) && !Says(e, id, other) {
      var k :| 0 <= k < |es| && Says(es[k], id, word) && !SaidAfter(es, id, other, k);
      SaidSnoc(es, e, id, other, k);
      assert all[k] == es[k];
    }
    if LastSaid(all, id, word, other) && !Says(e, id, word) {
      var k :| 0 <= k < |all| && Says(all[k], id, word) && !SaidAfter(all, id, other, k);
      SaidSnoc(es, e, id, other, k);
      assert all[k] == es[k];
    }
  }

  lemma {:induction false} SaidSnoc(es: seq<Entry>, e: Entry, id: string, word: string, k: int)
    requires -1 <= k < |es|
    ensures SaidAfter(es + [e], id, word, k) <==> SaidAfter(es, id, word, k) || Says(e, id, word)
  {
    var all := es + [e];
    if SaidAfter(es, id, word, k) {
      var j :| k < j < |es| && 0 <= j && Says(es[j], id, word);
      assert all[j] == es[j];
    }
    assert all[|es|] == e;
  }

  lemma {:induction false} LastMarkIsLastSaid(es: seq<Entry>, id: string)
    ensures LastMark(es, id) == Success <==> LastSaid(es, id, "success", "failure")
    ensures LastMark(es, id) == Failure <==> LastSaid(es, id, "failure", "success")
  {
    if es != [] {
      var before, e := es[..|es| - 1], es[|es| - 1];
      assert es == before + [e];
      LastMarkIsLastSaid(before, id);
      MarkIsWord(e);
      LastSaidSnoc(before, e, id, "success", "failure");
      LastSaidSnoc(before, e, id, "failure", "success");
    }
  }

  /** What either poll makes of an id, in the words of the entries alone; any other word decides nothing. */
  lemma {:induction false} VerdictMeans(rule: Rule, es: seq<Entry>, want: set<string>, id: string)
    ensures VerdictIs(NoteAll(rule, es, want), rule, es, want, id)
  {
    if rule == FailureWins {
      FailureWinsMeaning(es, want, id);
      SawIsSaid(es, id);
    } else {
      LastWinsMeaning(es, want, id);
      LastMarkIsLastSaid(es, id);
    }
  }

  lemma {:induction false} VerdictsMean(rule: Rule, es: seq<Entry>, want: set<string>)
    ensures VerdictsAre(NoteAll(rule, es, want), rule, es, want)
  {
    forall id ensures VerdictIs(NoteAll(rule, es, want), rule, es, want, id) {
      VerdictMeans(rule, es, want, id);
    }
  }

  // ---------------------------------------------------------------- visibility of an invoice

  /** dscoInvoiceExists answers; None is a failed call. */
  type Lookups = seq<Option<bool>>

  /** waitForDSCOInvoiceVisible: up to `attempts` lookups, stopping at the first that finds it. */
  method WaitForVisible(lookups: Lookups, attempts: int) returns (visible: bool, used: nat)
    requires |lookups| >= (if attempts <= 0 then 1 else attempts)
    ensures used <= if attempts <= 0 then 1 else attempts
    ensures visible <==> exists i :: 0 <= i < (if attempts <= 0 then 1 else attempts) && lookups[i] == Some(true)
    ensures visible ==> used > 0 && lookups[used - 1] == Some(true) && forall i :: 0 <= i < used - 1 ==> lookups[i] != Some(true)
  {
    var limit := if attempts <= 0 then 1 else attempts;
    used := 0;
    while used < limit
      invariant 0 <= used <= limit
      invariant forall i :: 0 <= i < used ==> lookups[i] != Some(true)
    {
      used := used + 1;
      if lookups[used - 1] == Some(true) {
        return true, used;
      }
    }
    visible := false;
  }

  /** Verdicts first; ids without one fall back to whether the invoice can be seen. */
  function Confirmed(verdicts: Verdicts, visible: set<string>, id: string): bool {
    if id in verdicts then verdicts[id] else id in visible
  }

  /** An invoice is confirmed only by a last success, or by being visible when nothing was decided. */
  lemma ConfirmedInvoiceIff(es: seq<Entry>, want: set<string>, visible: set<string>, id: string)
    requires id != "" && id in want
    ensures Confirmed(NoteAll(LastWins, es, want), visible, id) <==>
              LastSaid(es, id, "success", "failure") || (!LastSaid(es, id, "failure", "success") && id in visible)
  {
    LastWinsMeaning(es, want, id);
    LastMarkIsLastSaid(es, id);
  }
}
