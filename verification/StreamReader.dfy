/**
 Reading a whole inventory stream: pull from a position, handle, acknowledge, and decide from
 silence alone that everything has arrived.
 */
module StreamReader {
  import opened Text

  datatype Stock = Stock(code: string, quantity: Option<int>)

  datatype Item = Item(sku: string, partnerSku: Option<string>, warehouses: seq<Stock>)

  /** The id of an event, trimmed. */
  type Id = s: string | Trimmed(s)

  datatype Event = Event(id: Id, item: Item)

  /** The events that are handled at all: those with an id. */
  function Live(events: seq<Event>): seq<Event> {
    if events == [] then []
    else Live(events[..|events| - 1]) + if events[|events| - 1].id == "" then [] else [events[|events| - 1]]
  }

  /** Those are all events with an id, as often as they come. */
  lemma {:induction false} LiveMeans(events: seq<Event>, e: Event)
    ensures multiset(Live(events))[e] == if e.id == "" then 0 else multiset(events)[e]
  {
    if events != [] {
      var before, last := events[..|events| - 1], events[|events| - 1];
      LiveMeans(before, e);
      assert events == before + [last];
    }
  }

  // ---------------------------------------------------------------- comparing positions

  function HexValue(c: char): Option<int> {
    if '0' <= c <= '9' then Some(c as int - '0' as int)
    else if 'a' <= c <= 'f' then Some(c as int - 'a' as int + 10)
    else if 'A' <= c <= 'F' then Some(c as int - 'A' as int + 10)
    else None
  }

  /** url.PathUnescape */
  function PathUnescape(s: string): Result<string> {
    if s == "" then Ok("")
    else if s[0] != '%' then
      match PathUnescape(s[1..])
      case Ok(rest) => Ok([s[0]] + rest)
      case Err => Err
    else if |s| < 3 || HexValue(s[1]).None? || HexValue(s[2]).None? then Err
    else
      match PathUnescape(s[3..])
      case Ok(rest) => Ok([(HexValue(s[1]).value * 16 + HexValue(s[2]).value) as char] + rest)
      case Err => Err
  }

  function HexDigit(v: int, upper: bool): char
    requires 0 <= v < 16
  {
    if v < 10 then (v + '0' as int) as char else (v - 10 + (if upper then 'A' else 'a') as int) as char
  }

  /** A character written as itself or as a percent sign and two hex digits, in upper or lower case. */
  datatype Piece = Plain(c: char) | Percent(c: char, upper: bool)

  predicate CanBeWritten(p: Piece) {
    if p.Plain? then p.c != '%' else (p.c as int) < 256
  }

  function WrittenAs(p: Piece): string
    requires CanBeWritten(p)
  {
    if p.Plain? then [p.c] else ['%', HexDigit(p.c as int / 16, p.upper), HexDigit(p.c as int % 16, p.upper)]
  }

  function WrittenOut(ps: seq<Piece>): string
    requires forall i :: 0 <= i < |ps| ==> CanBeWritten(ps[i])
  {
    if ps == [] then "" else WrittenAs(ps[0]) + WrittenOut(ps[1..])
  }

  function Chars(ps: seq<Piece>): string {
    if ps == [] then "" else [ps[0].c] + Chars(ps[1..])
  }

  /** However its characters are escaped, a position is read as the same one. */
  lemma {:induction false} UnescapeReads(ps: seq<Piece>)
    requires forall i :: 0 <= i < |ps| ==> CanBeWritten(ps[i])
    ensures PathUnescape(WrittenOut(ps)) == Ok(Chars(ps))
  {
    if ps != [] {
      UnescapeReads(ps[1..]);
      var rest := WrittenOut(ps[1..]);
      if ps[0].Plain? {
        assert ([ps[0].c] + rest)[1..] == rest;
      } else {
        var s := WrittenAs(ps[0]) + rest;
        assert s[0] == '%' && s[3..] == rest;
        assert HexValue(s[1]) == Some(ps[0].c as int / 16) && HexValue(s[2]) == Some(ps[0].c as int % 16);
      }
    }
  }

  /** A trimmed position as it is compared: unescaped if it can be. */
  function Normal(pos: string): string {
    match PathUnescape(pos)
    case Ok(decoded) => decoded
    case Err => pos
  }

  /** Two positions are compared as equal exactly when they spell the same characters. */
  lemma {:induction false} SamePosition(ps: seq<Piece>, qs: seq<Piece>)
    requires (forall i :: 0 <= i < |ps| ==> CanBeWritten(ps[i])) && forall i :: 0 <= i < |qs| ==> CanBeWritten(qs[i])
    ensures Normal(WrittenOut(ps)) == Normal(WrittenOut(qs)) <==> Chars(ps) == Chars(qs)
  {
    UnescapeReads(ps);
    UnescapeReads(qs);
  }

  // ---------------------------------------------------------------- the reader

  class StreamPartitionReader {
    var position: string
    /** How many events of the log lie at or before the position, as the server sees it. */
    var index: nat

    constructor (start: string)
      ensures position == Trim(start) && index == 0
    {
      position, index := Trim(start), 0;
    }

    /** A contiguous run after the position, of whatever length the server chooses. */
    method Pull(log: seq<Event>, count: nat) returns (events: seq<Event>)
      requires index <= |log|
      ensures events == log[index..index + Taken(log, index, count)]
    {
      events := log[index..index + Taken(log, index, count)];
    }

    method Ack(id: string, served: bool, count: nat) returns (ok: bool)
      modifies this
      ensures ok <==> Trim(id) != "" && served
      ensures position == (if ok then Trim(id) else old(position))
      ensures index == (if ok then old(index) + count else old(index))
    {
      var key := Trim(id);
      if key == "" || !served {
        return false;
      }
      position, index := key, index + count;
      ok := true;
    }
  }

  function Taken(log: seq<Event>, index: nat, count: nat): (n: nat)
    requires index <= |log|
    ensures index + n <= |log|
  {
    if index + count <= |log| then count else |log| - index
  }

  // ---------------------------------------------------------------- the loop and what it meets

  /**
   One turn of the loop: whether the deadline has passed, how many events the pull returns (None
   when it fails), the trimmed maxPosition (blank when it cannot be read), whether decoding or
   the handler fails, whether the ack arrives, and three successive readings of the clock.
   */
  datatype Tick = Tick(expired: bool, pulled: Option<nat>, maxPos: string, failAt: Option<nat>, acked: bool,
                       now1: int, now2: int, now3: int)

  datatype Outcome = Done | Failed | Running

  /** The batches handled so far: each takes the log up to `to` from where the reader then stood, acknowledged or not. */
  datatype History = Start | Then(before: History, to: nat, acked: bool)

  const MINUTE := 60_000_000_000

  /** The turn brings no events while the reader stands at index. */
  predicate Silent(log: seq<Event>, index: nat, t: Tick)
    requires index <= |log|
  {
    t.pulled.Some? && Taken(log, index, t.pulled.value) == 0
  }

  /** Turns [quiet, used) were silent and the last of them came idle or more after the last event, or after the start. */
  predicate IdleLongEnough(log: seq<Event>, env: seq<Tick>, used: nat, quiet: nat, index: nat, startedAt: int, idle: int)
    requires index <= |log|
  {
    && quiet < used <= |env|
    && (forall i :: quiet <= i < used ==> Silent(log, index, env[i]))
    && env[used - 1].now3 - (if quiet == 0 then startedAt else env[quiet - 1].now1) >= idle
  }

  /** From turn `from` on: only silence, and every readable maxPosition is one and the same and equals the position. */
  predicate StableSince(log: seq<Event>, env: seq<Tick>, used: nat, from: nat, index: nat, position: string)
    requires index <= |log|
  {
    && from < used <= |env|
    && env[from].maxPos != "" && Normal(position) != ""
    && Normal(env[from].maxPos) == Normal(position)
    && forall i :: from <= i < used ==> Silent(log, index, env[i]) && (env[i].maxPos == "" || env[i].maxPos == env[from].maxPos)
  }

  datatype Waited = Ready | GaveUp | Broken | Waiting

  /**
   WaitUntilHasEvents: turns until one brings events, the deadline is passed after a silent one, or a
   pull fails. Nothing is handled or acknowledged here.
   */
  method WaitUntilHasEvents(reader: StreamPartitionReader, log: seq<Event>, env: seq<Tick>, deadline: int) returns (o: Waited, used: nat)
    requires reader.index <= |log|
    ensures used <= |env|
    ensures forall i :: 0 <= i < used - 1 ==> !env[i].expired && Silent(log, reader.index, env[i]) && env[i].now1 <= deadline
    ensures o != Waiting ==> used > 0
    ensures o == Ready ==> env[used - 1].pulled.Some? && !Silent(log, reader.index, env[used - 1])
    ensures o == GaveUp ==> Silent(log, reader.index, env[used - 1]) && env[used - 1].now1 > deadline
    ensures o == Broken ==> env[used - 1].expired || env[used - 1].pulled.None?
    ensures o == Waiting ==> used == |env|
  {
    used := 0;
    while used < |env|
      invariant used <= |env|
      invariant forall i :: 0 <= i < used ==> !env[i].expired && Silent(log, reader.index, env[i]) && env[i].now1 <= deadline
    {
      var t := env[used];
      used := used + 1;
      if t.expired || t.pulled.None? {
        return Broken, used;
      }
      var events := reader.Pull(log, t.pulled.value);
      if |events| > 0 {
        return Ready, used;
      }
      if t.now1 > deadline {
        return GaveUp, used;
      }
    }
    o := Waiting;
  }

  /** Reads the turn's maxPosition after a silent pull. `from` tells at which turn the stable period began. */
  method WatchMaxPosition(log: seq<Event>, env: seq<Tick>, n: nat, index: nat, position: string, last: string, stable: Option<int>,
                          ghost from: nat)
    returns (last': string, stable': Option<int>, ghost from': nat)
    requires n < |env| && index <= |log| && Silent(log, index, env[n])
    requires stable.Some? ==> StableSince(log, env, n, from, index, position) && stable.value == env[from].now1 && last == env[from].maxPos
    ensures stable'.Some? ==>
              StableSince(log, env, n + 1, from', index, position) && stable'.value == env[from'].now1 && last' == env[from'].maxPos
    ensures env[n].maxPos == "" ==> last' == last && stable' == stable
    ensures env[n].maxPos != "" ==> last' == env[n].maxPos
    ensures env[n].maxPos != "" ==> (stable'.Some? <==> Normal(position) != "" && Normal(position) == Normal(env[n].maxPos))
    ensures stable.Some? && stable'.Some? && last == last' ==> stable' == stable
  {
    last', stable', from' := last, stable, from;
    var maxPos := env[n].maxPos;
    if maxPos != "" {
      var cur := Normal(position);
      if cur != "" && cur == Normal(maxPos) {
        if maxPos == last {
          if stable.None? {
            stable', from' := Some(env[n].now1), n;
          }
        } else {
          last', stable', from' := maxPos, Some(env[n].now1), n;
        }
      } else {
        last', stable' := maxPos, None;
      }
    }
  }

  /** Handles a batch up to the first failure. */
  method HandleBatch(events: seq<Event>, failAt: Option<nat>) returns (handled: seq<Event>, lastID: Id, ok: bool)
    ensures ok ==> handled == Live(events) && lastID == if events == [] then "" else events[|events| - 1].id
    ensures !ok ==> failAt.Some? && failAt.value < |events| && events[failAt.value].id != ""
  {
    handled, lastID, ok := [], "", true;
    for i := 0 to |events|
      invariant ok && handled == Live(events[..i])
      invariant lastID == if i == 0 then "" else events[i - 1].id
    {
      assert events[..i + 1][..i] == events[..i];
      lastID := events[i].id;
      if lastID != "" {
        if failAt == Some(i) {
          return handled, lastID, false;
        }
        handled := handled + [events[i]];
      }
    }
    assert events[..|events|] == events;
  }

  /** Where the reader stands after the deliveries. */
  function Reached(h: History): nat {
    if h.Start? then 0 else if h.acked then h.to else Reached(h.before)
  }

  /** Every batch starts where the reader stood, is not empty, and is acknowledged exactly if its last event has an id. */
  predicate Chained(log: seq<Event>, h: History) {
    h.Then? ==> Chained(log, h.before) && Reached(h.before) < h.to <= |log| && (h.acked <==> log[h.to - 1].id != "")
  }

  /** All that was handed to the handler, in order. */
  function Handled(log: seq<Event>, h: History): seq<Event>
    requires Chained(log, h)
  {
    if h.Start? then [] else Handled(log, h.before) + Live(log[Reached(h.before)..h.to])
  }

  /** What the loop keeps about the deliveries made so far. */
  ghost predicate Kept(log: seq<Event>, h: History, handled: seq<Event>, index: nat) {
    Chained(log, h) && handled == Handled(log, h) && index == Reached(h) <= |log|
  }

  /** Every event with an id at or before the position has been handled. */
  ghost predicate AtLeastOnce(log: seq<Event>, index: nat, handled: seq<Event>) {
    index <= |log| && forall i :: 0 <= i < index && log[i].id != "" ==> log[i] in handled
  }

  /** Handles one batch that is not empty and acknowledges its last event, if that has an id. */
  method TakeBatch(reader: StreamPartitionReader, log: seq<Event>, events: seq<Event>, t: Tick, handled: seq<Event>, ghost h: History)
    returns (ok: bool, all: seq<Event>, ghost h': History)
    requires Kept(log, h, handled, reader.index)
    requires events != [] && reader.index + |events| <= |log| && events == log[reader.index..reader.index + |events|]
    modifies reader
    ensures ok ==> Kept(log, h', all, reader.index)
    ensures !ok ==> t.failAt.Some? || !t.acked
    ensures AtLeastOnce(log, reader.index, all)
  {
    var now, lastID, fine := HandleBatch(events, t.failAt);
    ok, all, h' := fine, handled + now, h;
    NotYetAcked(log, h, handled, reader.index, now);
    if ok {
      ghost var to := reader.index + |events|;
      assert events[|events| - 1] == log[to - 1];
      Extended(log, h, handled, reader.index, to);
      h' := Then(h, to, lastID != "");
      if lastID != "" {
        ok := reader.Ack(lastID, t.acked, |events|);
      }
    }
  }

  lemma NotYetAcked(log: seq<Event>, h: History, handled: seq<Event>, index: nat, now: seq<Event>)
    requires Kept(log, h, handled, index)
    ensures AtLeastOnce(log, index, handled + now)
  {
    AllHandled(log, h);
    MoreHandled(log, index, handled, now);
  }

  lemma Extended(log: seq<Event>, h: History, handled: seq<Event>, index: nat, to: nat)
    requires Kept(log, h, handled, index) && index < to <= |log|
    ensures var acked := log[to - 1].id != "";
            var index' := if acked then to else index;
            && Kept(log, Then(h, to, acked), handled + Live(log[index..to]), index')
            && AtLeastOnce(log, index', handled + Live(log[index..to]))
  {
    var acked := log[to - 1].id != "";
    OneMore(log, h, to, acked);
    AllHandled(log, Then(h, to, acked));
  }

  lemma OneMore(log: seq<Event>, h: History, to: nat, acked: bool)
    requires Chained(log, h) && Reached(h) < to <= |log| && (acked <==> log[to - 1].id != "")
    ensures Chained(log, Then(h, to, acked)) && Reached(Then(h, to, acked)) == (if acked then to else Reached(h))
    ensures Handled(log, Then(h, to, acked)) == Handled(log, h) + Live(log[Reached(h)..to])
  {
  }

  lemma MoreHandled(log: seq<Event>, index: nat, handled: seq<Event>, now: seq<Event>)
    requires AtLeastOnce(log, index, handled)
    ensures AtLeastOnce(log, index, handled + now)
  {
  }

  /** What the loop remembers about the silence so far; the ghost part says since which turns. */
  datatype Watch = Watch(lastNonEmptyAt: int, lastMaxPos: string, stable: Option<int>)

  ghost predicate Watching(log: seq<Event>, env: seq<Tick>, n: nat, index: nat, position: string, startedAt: int, w: Watch, quiet: nat,
                           from: nat)
    requires index <= |log| && n <= |env|
  {
    && quiet <= n && (forall i :: quiet <= i < n ==> Silent(log, index, env[i]))
    && w.lastNonEmptyAt == (if quiet == 0 then startedAt else env[quiet - 1].now1)
    && (w.stable.Some? ==>
          StableSince(log, env, n, from, index, position) && w.stable.value == env[from].now1 && w.lastMaxPos == env[from].maxPos)
  }

  ghost predicate MayStop(log: seq<Event>, env: seq<Tick>, used: nat, quiet: nat, from: nat, index: nat, position: string,
                          startedAt: int, idle: int)
    requires index <= |log|
  {
    || IdleLongEnough(log, env, used, quiet, index, startedAt, idle)
    || (StableSince(log, env, used, from, index, position) && env[used - 1].now2 - env[from].now1 >= 60_000_000_000)
  }

  /** The deadline has passed, or a pull, the handler or an acknowledgement fails. */
  predicate MayFail(t: Tick) {
    t.expired || t.pulled.None? || t.failAt.Some? || !t.acked
  }

  /** The idle time had not run out at any of the turns [quiet, n). */
  predicate PatientUntil(env: seq<Tick>, n: int, quiet: nat, startedAt: int, idle: int)
    requires quiet <= |env| && n <= |env|
  {
    forall i :: quiet <= i < n ==> env[i].now3 - (if quiet == 0 then startedAt else env[quiet - 1].now1) < idle
  }

  method AfterSilence(log: seq<Event>, env: seq<Tick>, n: nat, index: nat, position: string, startedAt: int, idle: int, w: Watch,
                      ghost quiet: nat, ghost from: nat)
    returns (stop: bool, w': Watch, ghost from': nat)
    requires n < |env| && index <= |log| && Silent(log, index, env[n])
    requires Watching(log, env, n, index, position, startedAt, w, quiet, from) && PatientUntil(env, n, quiet, startedAt, idle)
    ensures Watching(log, env, n + 1, index, position, startedAt, w', quiet, from')
    ensures stop ==> MayStop(log, env, n + 1, quiet, from', index, position, startedAt, idle)
    ensures !stop ==> PatientUntil(env, n + 1, quiet, startedAt, idle)
    ensures stop <==> (w'.stable.Some? && env[n].now2 - w'.stable.value >= MINUTE) || env[n].now3 - w.lastNonEmptyAt >= idle
  {
    var last, stable;
    last, stable, from' := WatchMaxPosition(log, env, n, index, position, w.lastMaxPos, w.stable, from);
    w' := Watch(w.lastNonEmptyAt, last, stable);
    stop := (stable.Some? && env[n].now2 - stable.value >= MINUTE) || env[n].now3 - w.lastNonEmptyAt >= idle;
  }

  /**
   The loop of PullAll, once the stream is set up and has shown a first event. `env` lists the
   turns until the loop returns or the observation ends.
   */
  method PullAll(reader: StreamPartitionReader, log: seq<Event>, env: seq<Tick>, startedAt: int, idle: int)
    returns (outcome: Outcome, handled: seq<Event>, ghost h: History, ghost used: nat, ghost quiet: nat, ghost from: nat)
    requires reader.index == 0
    modifies reader
    ensures AtLeastOnce(log, reader.index, handled)
    ensures outcome != Failed ==> Kept(log, h, handled, reader.index)
    ensures outcome == Done ==> MayStop(log, env, used, quiet, from, reader.index, reader.position, startedAt, idle)
    ensures outcome != Failed ==> quiet <= used <= |env| && PatientUntil(env, used - 1, quiet, startedAt, idle)
    ensures outcome == Failed ==> 0 < used <= |env| && MayFail(env[used - 1])
    ensures outcome == Running ==> used == |env| && PatientUntil(env, used, quiet, startedAt, idle)
  {
    handled, h, quiet, from := [], Start, 0, 0;
    var w := Watch(startedAt, "", None);
    for n := 0 to |env|
      invariant Kept(log, h, handled, reader.index)
      invariant AtLeastOnce(log, reader.index, handled)
      invariant Watching(log, env, n, reader.index, reader.position, startedAt, w, quiet, from)
      invariant PatientUntil(env, n, quiet, startedAt, idle)
    {
      var t := env[n];
      used := n + 1;
      if t.expired || t.pulled.None? {
        return Failed, handled, h, used, quiet, from;
      }
      var events := reader.Pull(log, t.pulled.value);
      if |events| == 0 {
        var stop;
        stop, w, from := AfterSilence(log, env, n, reader.index, reader.position, startedAt, idle, w, quiet, from);
        if stop {
          return Done, handled, h, used, quiet, from;
        }
      } else {
        var ok;
        ok, handled, h := TakeBatch(reader, log, events, t, handled, h);
        if !ok {
          return Failed, handled, h, used, quiet, from;
        }
        w, quiet := Watch(t.now1, w.lastMaxPos, None), n + 1;
      }
    }
    outcome, used := Running, |env|;
  }

  lemma {:induction false} LiveHas(events: seq<Event>, i: nat)
    requires i < |events| && events[i].id != ""
    ensures events[i] in Live(events)
  {
    if i < |events| - 1 {
      LiveHas(events[..|events| - 1], i);
    }
  }

  /** At-least-once: nothing with an id is ever skipped. */
  lemma {:induction false} AllHandled(log: seq<Event>, h: History)
    requires Chained(log, h)
    ensures AtLeastOnce(log, Reached(h), Handled(log, h))
  {
    if h.Then? {
      AllHandled(log, h.before);
      var from, before := Reached(h.before), Handled(log, h.before);
      var batch := log[from..h.to];
      forall i | from <= i < h.to && log[i].id != "" ensures log[i] in Live(batch) {
        LiveHas(batch, i - from);
      }
      MoreHandled(log, from, before, Live(batch));
    }
  }
}
