/**
 Session-level advisory locks taken around every run of a job.

 PostgreSQL grants a free key to any session and a held key again to its holder; a session that
 dies drops what it holds (section 13.3.5 of the PostgreSQL documentation). The runner takes a
 session out of a pool, asks for the key, and gives the session back at the end whether or not the
 unlock statement worked, so a session may sit in the pool still holding a key.
 */
module AdvisoryLock {
  import opened Text

  type Key = int
  type Session = int
  type RunId = int

  datatype Held = Held(session: Session, count: nat)

  type HeldKeys = map<Key, Held>

  // ---------------------------------------------------------------- what the server does

  predicate Grants(held: HeldKeys, key: Key, s: Session) {
    key in held ==> held[key].session == s
  }

  /** pg_try_advisory_lock, once it is granted: locks stack per session. */
  function Locked(held: HeldKeys, key: Key, s: Session): HeldKeys {
    held[key := Held(s, if key in held then held[key].count + 1 else 1)]
  }

  /** pg_advisory_unlock: one level less; not holding the key is only a warning. */
  function Unlocked(held: HeldKeys, key: Key, s: Session): HeldKeys {
    if key !in held || held[key].session != s then held
    else if held[key].count <= 1 then held - {key}
    else held[key := Held(s, held[key].count - 1)]
  }

  /** A session ends, and everything it holds is dropped. */
  function Dropped(held: HeldKeys, s: Session): HeldKeys {
    map k | k in held && held[k].session != s :: held[k]
  }

  // ---------------------------------------------------------------- TryLock and Unlock

  /** How a statement fares on its way to the server and back. */
  datatype Reply = NotExecuted | ReplyLost | Answered

  datatype TryResult = Conn(session: Session) | Busy | Failed

  /** The ghost arguments name the run that asks and the other runs under way, to tie each call to a step of the schedule below. */
  class Advisory {
    var held: HeldKeys
    /** The sessions resting in the pool. */
    var idle: set<Session>

    constructor ()
      ensures held == map[] && idle == {}
    {
      held, idle := map[], {};
    }

    method TryLock(key: Key, pick: Option<Session>, reply: Reply, ghost runs: map<RunId, Run>, ghost run: RunId) returns (r: TryResult)
      requires pick.Some? ==> pick.value in idle
      requires run !in runs
      modifies this
      ensures pick.None? ==> r == Failed && held == old(held) && idle == old(idle)
      ensures r.Conn? <==> pick.Some? && reply == Answered && Grants(old(held), key, pick.value)
      ensures r.Conn? ==> r.session == pick.value && held == Locked(old(held), key, pick.value) && idle == old(idle) - {pick.value}
      ensures r == Busy <==> pick.Some? && reply == Answered && !Grants(old(held), key, pick.value)
      ensures !r.Conn? ==> idle == old(idle)
      ensures !r.Conn? ==> held == if pick.Some? && reply == ReplyLost && Grants(old(held), key, pick.value)
                                   then Locked(old(held), key, pick.value) else old(held)
      ensures pick.Some? ==>
                Locks(held, idle, if r.Conn? then runs[run := Run(key, pick.value)] else runs)
                == Next(Locks(old(held), old(idle), runs), Acquire(run, key, pick.value, reply))
    {
      if pick.None? {
        return Failed;
      }
      var conn := pick.value;
      idle := idle - {conn};
      var ok := false;
      if reply != NotExecuted && Grants(held, key, conn) {
        held := Locked(held, key, conn);
        ok := true;
      }
      if reply != Answered {
        idle := idle + {conn};
        return Failed;
      }
      if !ok {
        idle := idle + {conn};
        return Busy;
      }
      r := Conn(conn);
    }

    method Unlock(conn: Option<Session>, key: Key, reply: Reply, ghost runs: map<RunId, Run>, ghost run: RunId)
      requires conn.Some? ==> run in runs && runs[run] == Run(key, conn.value)
      modifies this
      ensures conn.None? ==> held == old(held) && idle == old(idle)
      ensures conn.Some? ==> idle == old(idle) + {conn.value}
      ensures conn.Some? ==> held == if reply == NotExecuted then old(held) else Unlocked(old(held), key, conn.value)
      ensures conn.Some? ==> Locks(held, idle, runs - {run}) == Next(Locks(old(held), old(idle), runs), Release(run, reply))
    {
      if conn.None? {
        return;
      }
      if reply != NotExecuted {
        held := Unlocked(held, key, conn.value);
      }
      idle := idle + {conn.value};
    }
  }

  // ---------------------------------------------------------------- every schedule of every process

  datatype Run = Run(key: Key, session: Session)

  /** The server's locks, the pooled sessions of all processes, and the runs between TryLock and Unlock. */
  datatype Locks = Locks(held: HeldKeys, idle: set<Session>, runs: map<RunId, Run>)

  datatype Action =
    | Open(session: Session)
    | Acquire(run: RunId, key: Key, session: Session, reply: Reply)
    | Release(run: RunId, reply: Reply)
    | Die(session: Session)
    | Crash(run: RunId)

  const INIT := Locks(map[], {}, map[])

  predicate Alive(w: Locks, s: Session) {
    s in w.idle || exists r :: r in w.runs && w.runs[r].session == s
  }

  predicate Enabled(w: Locks, a: Action) {
    match a
    case Open(s) => !Alive(w, s)
    case Acquire(r, _, s, _) => r !in w.runs && s in w.idle
    case Release(r, _) => r in w.runs
    case Die(s) => s in w.idle
    case Crash(r) => r in w.runs
  }

  predicate Granted(w: Locks, a: Action) {
    a.Acquire? && a.reply != NotExecuted && Grants(w.held, a.key, a.session)
  }

  function Next(w: Locks, a: Action): Locks
    requires Enabled(w, a)
  {
    match a
    case Open(s) => w.(idle := w.idle + {s})
    case Acquire(r, key, s, reply) =>
      if !Granted(w, a) then w
      else if reply == ReplyLost then w.(held := Locked(w.held, key, s))
      else Locks(Locked(w.held, key, s), w.idle - {s}, w.runs[r := Run(key, s)])
    case Release(r, reply) =>
      var run := w.runs[r];
      Locks(if reply == NotExecuted then w.held else Unlocked(w.held, run.key, run.session), w.idle + {run.session}, w.runs - {r})
    case Die(s) => Locks(Dropped(w.held, s), w.idle - {s}, w.runs)
    case Crash(r) => Locks(Dropped(w.held, w.runs[r].session), w.idle, w.runs - {r})
  }

  /** Every run holds its key on a session of its own. */
  predicate Inv(w: Locks) {
    && (forall r :: r in w.runs ==> w.runs[r].session !in w.idle)
    && (forall r :: r in w.runs ==> w.runs[r].key in w.held && w.held[w.runs[r].key].session == w.runs[r].session)
    && (forall r, q :: r in w.runs && q in w.runs && w.runs[r].session == w.runs[q].session ==> r == q)
    && (forall k :: k in w.held ==> w.held[k].count >= 1)
  }

  lemma {:induction false} StepKeepsInv(w: Locks, a: Action)
    requires Inv(w) && Enabled(w, a)
    ensures Inv(Next(w, a))
  {
    if a.Release? {
      var run := w.runs[a.run];
      forall r | r in w.runs && r != a.run ensures w.runs[r].key != run.key {
        assert w.runs[r].session != run.session;
      }
    }
  }

  predicate Exclusive(w: Locks) {
    forall r, q :: r in w.runs && q in w.runs && w.runs[r].key == w.runs[q].key ==> r == q
  }

  /** A schedule: the state before each action and after the last. */
  predicate Schedule(states: seq<Locks>, actions: seq<Action>) {
    && |states| == |actions| + 1
    && states[0] == INIT
    && forall i :: 0 <= i < |actions| ==> Enabled(states[i], actions[i]) && states[i + 1] == Next(states[i], actions[i])
  }

  lemma {:induction false} ScheduleInv(states: seq<Locks>, actions: seq<Action>, n: nat)
    requires Schedule(states, actions) && n < |states|
    ensures Inv(states[n])
  {
    if n > 0 {
      ScheduleInv(states, actions, n - 1);
      StepKeepsInv(states[n - 1], actions[n - 1]);
    }
  }

  /** At most one run per key, whatever fails and whatever the pool hands out. */
  lemma MutualExclusion(states: seq<Locks>, actions: seq<Action>, n: nat)
    requires Schedule(states, actions) && n < |states|
    ensures Exclusive(states[n])
  {
    ScheduleInv(states, actions, n);
  }

  // ---------------------------------------------------------------- leaked keys

  ghost predicate HasRun(w: Locks, k: Key) {
    exists r :: r in w.runs && w.runs[r].key == k
  }

  /** The action leaves k held by a session in the pool. */
  predicate Leaks(w: Locks, a: Action, k: Key) {
    || (Granted(w, a) && a.reply == ReplyLost && a.key == k)
    || (a.Release? && a.reply == NotExecuted && a.run in w.runs && w.runs[a.run].key == k)
  }

  /** The session the leaked key stays with. */
  function Leaker(w: Locks, a: Action, k: Key): Session
    requires Leaks(w, a, k)
  {
    if a.Acquire? then a.session else w.runs[a.run].session
  }

  predicate Ends(w: Locks, a: Action, s: Session) {
    a == Die(s) || (a.Crash? && a.run in w.runs && w.runs[a.run].session == s)
  }

  predicate EndsHolder(w: Locks, a: Action, k: Key) {
    k in w.held && Ends(w, a, w.held[k].session)
  }

  function Levels(w: Locks, k: Key): nat {
    if k in w.held then w.held[k].count else 0
  }

  /** The levels of k that belong to no run. */
  ghost function Excess(w: Locks, k: Key): int {
    Levels(w, k) - if HasRun(w, k) then 1 else 0
  }

  lemma RunHolds(w: Locks, r: RunId)
    requires Inv(w) && r in w.runs
    ensures w.runs[r].key in w.held && w.held[w.runs[r].key].session == w.runs[r].session
    ensures HasRun(w, w.runs[r].key) && Excess(w, w.runs[r].key) >= 0
  {
  }

  lemma ExcessIsNat(w: Locks, k: Key)
    requires Inv(w)
    ensures Excess(w, k) >= 0
  {
    if r :| r in w.runs && w.runs[r].key == k {
      RunHolds(w, r);
    }
  }

  /** Which keys have a run after the action. */
  lemma HasRunAfter(w: Locks, a: Action, k: Key)
    requires Inv(w) && Enabled(w, a)
    ensures HasRun(Next(w, a), k) <==>
              if a.Acquire? && Granted(w, a) && a.reply == Answered && a.key == k then true
              else if (a.Release? || a.Crash?) && w.runs[a.run].key == k then false
              else HasRun(w, k)
  {
    var w' := Next(w, a);
    if a.Acquire? && Granted(w, a) && a.reply == Answered {
      assert w'.runs[a.run].key == a.key;
    }
    if r :| r in w.runs && w.runs[r].key == k {
      assert r in w'.runs ==> w'.runs[r] == w.runs[r];
      if (a.Release? || a.Crash?) && w.runs[a.run].key == k {
        OneHolder(w, r, a.run);
      }
    }
  }

  /** Two runs of one key are the same run. */
  lemma OneHolder(w: Locks, r: RunId, q: RunId)
    requires Inv(w) && r in w.runs && q in w.runs && w.runs[r].key == w.runs[q].key
    ensures r == q
  {
    assert w.runs[r].session == w.runs[q].session;
  }

  /** A leak adds one level that no run owns, the end of the holder takes all of them away, and nothing else touches them. */
  lemma {:induction false} ExcessStep(w: Locks, a: Action, k: Key)
    requires Inv(w) && Enabled(w, a)
    ensures Excess(Next(w, a), k) == if EndsHolder(w, a, k) then 0 else Excess(w, k) + if Leaks(w, a, k) then 1 else 0
  {
    HasRunAfter(w, a, k);
    if a.Acquire? && Granted(w, a) && a.key == k {
      NoRunOfAPooledSession(w, k, a.session);
    } else if a.Release? || a.Crash? {
      RunHolds(w, a.run);
      if r :| r in w.runs && w.runs[r].key == k {
        RunHolds(w, r);
        assert w.runs[a.run].key != k ==> r != a.run;
      }
    } else if a.Die? {
      if r :| r in w.runs && w.runs[r].key == k {
        RunHolds(w, r);
      }
    }
  }

  lemma NoRunOfAPooledSession(w: Locks, k: Key, s: Session)
    requires Inv(w) && s in w.idle && Grants(w.held, k, s)
    ensures !HasRun(w, k)
  {
    if r :| r in w.runs && w.runs[r].key == k {
      RunHolds(w, r);
    }
  }

  /** A key that stays held stays with its session. */
  lemma HolderStays(w: Locks, a: Action, k: Key)
    requires Enabled(w, a) && k in w.held && k in Next(w, a).held
    ensures Next(w, a).held[k].session == w.held[k].session
  {
  }

  /** At step i the key was leaked, and the session it was left with has not ended since. */
  predicate Standing(states: seq<Locks>, actions: seq<Action>, n: nat, k: Key, i: nat)
    requires n <= |actions| < |states|
  {
    i < n && Leaks(states[i], actions[i], k)
    && forall j :: i < j < n ==> !Ends(states[j], actions[j], Leaker(states[i], actions[i], k))
  }

  ghost predicate LeakStands(states: seq<Locks>, actions: seq<Action>, n: nat, k: Key)
    requires n <= |actions| < |states|
  {
    exists i: nat :: Standing(states, actions, n, k, i)
  }

  lemma StandingBefore(states: seq<Locks>, actions: seq<Action>, n: nat, k: Key, i: nat)
    requires 0 < n <= |actions| < |states| && Standing(states, actions, n, k, i) && i < n - 1
    ensures Standing(states, actions, n - 1, k, i)
    ensures !Ends(states[n - 1], actions[n - 1], Leaker(states[i], actions[i], k))
  {
  }

  /** While a leak stands, the key is held beyond what runs own, by the session it was left with. */
  lemma {:induction false} StandingLeakHolds(states: seq<Locks>, actions: seq<Action>, n: nat, k: Key, i: nat)
    requires Schedule(states, actions) && n <= |actions| && Standing(states, actions, n, k, i)
    ensures Excess(states[n], k) > 0 && k in states[n].held
    ensures states[n].held[k].session == Leaker(states[i], actions[i], k)
  {
    ScheduleInv(states, actions, n - 1);
    ExcessStep(states[n - 1], actions[n - 1], k);
    ExcessIsNat(states[n - 1], k);
    if i < n - 1 {
      StandingBefore(states, actions, n, k, i);
      StandingLeakHolds(states, actions, n - 1, k, i);
      HolderStays(states[n - 1], actions[n - 1], k);
    } else if actions[i].Release? {
      RunHolds(states[i], actions[i].run);
    }
  }

  lemma {:induction false} ExcessWasLeaked(states: seq<Locks>, actions: seq<Action>, n: nat, k: Key)
    requires Schedule(states, actions) && n <= |actions| && Excess(states[n], k) > 0
    ensures LeakStands(states, actions, n, k)
  {
    if n > 0 {
      var w, a := states[n - 1], actions[n - 1];
      ScheduleInv(states, actions, n - 1);
      ExcessStep(w, a, k);
      if Leaks(w, a, k) {
        assert Standing(states, actions, n, k, n - 1);
      } else {
        ExcessWasLeaked(states, actions, n - 1, k);
        var i: nat :| Standing(states, actions, n - 1, k, i);
        StandingLeakHolds(states, actions, n - 1, k, i);
        assert Standing(states, actions, n, k, i);
      }
    }
  }

  /** A key is held although nothing runs exactly when it was leaked and the session it was left with has not ended since. */
  lemma HeldWithoutARunIff(states: seq<Locks>, actions: seq<Action>, n: nat, k: Key)
    requires Schedule(states, actions) && n <= |actions|
    ensures k in states[n].held && !HasRun(states[n], k) <==> !HasRun(states[n], k) && LeakStands(states, actions, n, k)
  {
    ScheduleInv(states, actions, n);
    if k in states[n].held && !HasRun(states[n], k) {
      ExcessWasLeaked(states, actions, n, k);
    }
    if i: nat :| Standing(states, actions, n, k, i) {
      StandingLeakHolds(states, actions, n, k, i);
    }
  }

  /** Refused although the server answered: the job is reported as already running. */
  predicate ReportsRunning(w: Locks, a: Action) {
    a.Acquire? && a.reply == Answered && !Grants(w.held, a.key, a.session)
  }

  /** "Already running" is the truth as long as no leak of that key stands. */
  lemma BusyMeansRunning(states: seq<Locks>, actions: seq<Action>, n: nat)
    requires Schedule(states, actions) && n < |actions|
    requires ReportsRunning(states[n], actions[n])
    requires !LeakStands(states, actions, n, actions[n].key)
    ensures HasRun(states[n], actions[n].key)
  {
    HeldWithoutARunIff(states, actions, n, actions[n].key);
  }

  /**
   "Already running" is reported with nothing running if and only if nothing runs and a leak of the
   key stands that was left with another session than the one that asks.
   */
  lemma FalseReportIff(states: seq<Locks>, actions: seq<Action>, n: nat)
    requires Schedule(states, actions) && n < |actions| && actions[n].Acquire? && actions[n].reply == Answered
    ensures var k := actions[n].key;
            ReportsRunning(states[n], actions[n]) && !HasRun(states[n], k) <==>
              !HasRun(states[n], k)
              && exists i: nat :: Standing(states, actions, n, k, i) && Leaker(states[i], actions[i], k) != actions[n].session
  {
    var k := actions[n].key;
    HeldWithoutARunIff(states, actions, n, k);
    if ReportsRunning(states[n], actions[n]) && !HasRun(states[n], k) {
      var i: nat :| Standing(states, actions, n, k, i);
      StandingLeakHolds(states, actions, n, k, i);
    }
    if i: nat :| Standing(states, actions, n, k, i) && Leaker(states[i], actions[i], k) != actions[n].session {
      StandingLeakHolds(states, actions, n, k, i);
    }
  }

  /** Such a schedule exists: after one failed unlock the key is stuck on a pooled session that runs nothing. */
  lemma BusyWithoutARun()
    ensures var actions := [Open(1), Open(2), Acquire(7, 0, 1, Answered), Release(7, NotExecuted)];
            exists states: seq<Locks> :: Schedule(states, actions) && states[4].runs == map[]
                                         && ReportsRunning(states[4], Acquire(8, 0, 2, Answered))
  {
    var actions := [Open(1), Open(2), Acquire(7, 0, 1, Answered), Release(7, NotExecuted)];
    var s1 := Next(INIT, actions[0]);
    var s2 := Next(s1, actions[1]);
    var s3 := Next(s2, actions[2]);
    assert 7 in s3.runs;
    var s4 := Next(s3, actions[3]);
    assert s4.runs == map[];
    assert s4.held[0] == Held(1, 1);
    assert Schedule([INIT, s1, s2, s3, s4], actions);
  }

  /** A stuck key is free again for its own session, and for everyone once that session dies. */
  lemma LeakHeals(w: Locks, key: Key, s: Session)
    requires Inv(w) && key in w.held && w.held[key].session in w.idle
    ensures Grants(w.held, key, s) <==> s == w.held[key].session
    ensures Grants(Next(w, Die(w.held[key].session)).held, key, s)
  {
  }

  /** The session of a run that goes on is cut off. */
  function CutOff(w: Locks, r: RunId): Locks
    requires r in w.runs
  {
    w.(held := Dropped(w.held, w.runs[r].session))
  }

  /** What the guarantee rests on: once the session of a live run is cut off, any other session can start a second run. */
  lemma CutOffBreaksExclusion(w: Locks, r: RunId, q: RunId, s: Session)
    requires Inv(w) && r in w.runs && q !in w.runs && s in w.idle
    ensures var again := Acquire(q, w.runs[r].key, s, Answered);
            !Granted(w, again) && !Exclusive(Next(CutOff(w, r), again))
  {
    var after := Next(CutOff(w, r), Acquire(q, w.runs[r].key, s, Answered));
    assert after.runs[q].key == after.runs[r].key;
  }
}
