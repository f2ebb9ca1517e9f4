/**
 * The cluster master: forks, crashes with delayed re-forks, and shutdown with a poll racing a timeout. Workers are
 * numbered in the order they are forked, times are milliseconds, and timers fire in time.
 */
module Cluster {
  import opened Options

  /** One call of `shutdown`: the workers tracked then, the 30 s timeout and the next poll. */
  datatype Shutdown = Shutdown(snapshot: set<nat>, deadline: int, nextPoll: int)

  datatype Exit = ByPoll | ByTimeout

  /** `asked` were sent SIGTERM, `killed` SIGKILL; `released` are the workers polls took off the map. */
  datatype State = State(
    forked: nat, tracked: set<nat>, dead: set<nat>, pending: seq<int>, shutdowns: seq<Shutdown>,
    asked: set<nat>, killed: set<nat>, released: set<nat>, now: int, exit: Option<Exit>)

  datatype Event =
    | Crash(w: nat) | Leave(w: nat) | Refork(i: nat) | Signal | Poll(k: nat) | Timeout(k: nat) | Tick(to: int)

  const REFORK_DELAY := 1000
  const TIMEOUT := 30000
  const INTERVAL := 500

  /** The workers forked first. */
  function Workers(count: nat): (ws: set<nat>)
    ensures |ws| == count && forall w: nat :: w in ws <==> w < count
  {
    if count == 0 then {} else Workers(count - 1) + {count - 1}
  }

  function Start(count: nat): State {
    State(count, Workers(count), {}, [], [], {}, {}, {}, 0, None)
  }

  predicate Alive(s: State, w: nat) {
    w < s.forked && w !in s.dead
  }

  /** Time does not run past a timer that is due. */
  predicate Due(s: State, t: int) {
    && (forall p <- s.pending :: t <= p)
    && (forall d <- s.shutdowns :: t <= d.deadline && t <= d.nextPoll)
  }

  predicate Enabled(s: State, e: Event) {
    && s.exit.None?
    && match e
      case Crash(w) => Alive(s, w)
      case Leave(w) => Alive(s, w)
      case Refork(i) => i < |s.pending| && s.pending[i] <= s.now
      case Signal => true
      case Poll(k) => k < |s.shutdowns| && s.shutdowns[k].nextPoll <= s.now
      case Timeout(k) => k < |s.shutdowns| && s.shutdowns[k].deadline <= s.now
      case Tick(t) => s.now < t && Due(s, t)
  }

  /** What a poll keeps of the map: it removes the workers that are not dead. */
  function Kept(s: State): set<nat> {
    s.tracked * s.dead
  }

  function Next(s: State, e: Event): State
    requires Enabled(s, e)
  {
    match e
    case Crash(w) => s.(dead := s.dead + {w}, tracked := s.tracked - {w}, pending := s.pending + [s.now + REFORK_DELAY])
    case Leave(w) => s.(dead := s.dead + {w})
    case Refork(i) => s.(forked := s.forked + 1, tracked := s.tracked + {s.forked}, pending := s.pending[..i] + s.pending[i + 1..])
    case Signal =>
      s.(asked := s.asked + s.tracked, shutdowns := s.shutdowns + [Shutdown(s.tracked, s.now + TIMEOUT, s.now + INTERVAL)])
    case Poll(k) =>
      s.(tracked := Kept(s), released := s.released + (s.tracked - s.dead),
         shutdowns := s.shutdowns[k := s.shutdowns[k].(nextPoll := s.now + INTERVAL)],
         exit := if Kept(s) == {} then Some(ByPoll) else None)
    case Timeout(k) => s.(killed := s.killed + (s.shutdowns[k].snapshot - s.dead), exit := Some(ByTimeout))
    case Tick(t) => s.(now := t)
  }

  /** The events can happen one after another, and lead to a state. */
  predicate Possible(s: State, events: seq<Event>)
    decreases |events|, 0
  {
    events == [] || (Possible(s, events[..|events| - 1]) && Enabled(After(s, events[..|events| - 1]), events[|events| - 1]))
  }

  function After(s: State, events: seq<Event>): State
    requires Possible(s, events)
    decreases |events|, 1
  {
    if events == [] then s else Next(After(s, events[..|events| - 1]), events[|events| - 1])
  }

  // ----- the invariant

  /** The workers are those forked; a worker off the map is dead, unless a poll released it. */
  predicate Accounted(s: State) {
    && (forall w <- s.tracked :: w < s.forked)
    && (forall w <- s.dead :: w < s.forked)
    && (forall w <- s.released :: w < s.forked)
    && (forall w: nat | w < s.forked :: w in s.tracked || w in s.dead || w in s.released)
  }

  /** Until the first poll, tracked workers and pending re-forks add up. */
  predicate Balanced(s: State, count: nat) {
    s.released == {} && s.exit != Some(ByPoll) && |s.tracked| + |s.pending| == count
  }

  predicate NoPoll(events: seq<Event>) {
    forall e <- events :: !e.Poll?
  }

  lemma NextAccounted(s: State, e: Event)
    requires Enabled(s, e) && Accounted(s)
    ensures Accounted(Next(s, e))
  {
  }

  lemma NextBalanced(s: State, e: Event, count: nat)
    requires Enabled(s, e) && Accounted(s) && Balanced(s, count) && !e.Poll?
    requires e.Crash? ==> e.w in s.tracked
    ensures Balanced(Next(s, e), count)
  {
    match e
    case Crash(w) => assert |s.tracked - {w}| == |s.tracked| - 1;
    case Refork(i) => assert s.forked !in s.tracked;
    case _ =>
  }

  lemma {:induction false} AlwaysAccounted(count: nat, events: seq<Event>)
    requires Possible(Start(count), events)
    ensures Accounted(After(Start(count), events))
  {
    if events == [] {
    } else {
      AlwaysAccounted(count, events[..|events| - 1]);
      NextAccounted(After(Start(count), events[..|events| - 1]), events[|events| - 1]);
    }
  }

  /**
   * In every interleaving of crashes, intentional exits, re-fork timers, signals and timeouts, until the first poll:
   * tracked workers plus pending re-forks make up the configured number, and a forked worker not tracked is dead.
   */
  lemma {:induction false} BalancedUntilPoll(count: nat, events: seq<Event>)
    requires Possible(Start(count), events) && NoPoll(events)
    ensures var s := After(Start(count), events);
      Balanced(s, count) && forall w: nat | w < s.forked :: w in s.tracked || w in s.dead
  {
    AlwaysAccounted(count, events);
    if events == [] {
    } else {
      var n := |events| - 1;
      assert events[n] in events;
      assert forall e <- events[..n] :: e in events;
      BalancedUntilPoll(count, events[..n]);
      AlwaysAccounted(count, events[..n]);
      NextBalanced(After(Start(count), events[..n]), events[n], count);
    }
  }

  // ----- the poll

  /** A poll ends the master exactly when no tracked worker is dead: it takes the living ones off the map. */
  lemma PollExits(s: State, k: nat)
    requires Enabled(s, Poll(k))
    ensures Next(s, Poll(k)).exit == Some(ByPoll) <==> forall w <- s.tracked :: w !in s.dead
  {
    if w :| w in s.tracked && w in s.dead {
      assert w in Kept(s);
    }
  }

  /** A poll that does not end the master keeps a dead worker tracked; later events keep it so. */
  predicate Stuck(s: State) {
    exists w <- s.tracked :: w in s.dead
  }

  lemma NextStuck(s: State, e: Event)
    requires Enabled(s, e) && (s.released == {} || Stuck(s)) && Next(s, e).exit != Some(ByPoll)
    ensures Next(s, e).released == {} || Stuck(Next(s, e))
  {
    if w :| w in s.tracked && w in s.dead {
      LeftStaysTracked(s, e, w);
    }
    if e.Poll? {
      var w :| w in Kept(s);
      assert w in Next(s, e).tracked && w in Next(s, e).dead;
    }
  }

  /** While no poll has ended the master, either no poll has released a worker or a dead one is tracked. */
  lemma {:induction false} ReleasedMeansStuck(count: nat, events: seq<Event>)
    requires Possible(Start(count), events) && After(Start(count), events).exit != Some(ByPoll)
    ensures After(Start(count), events).released == {} || Stuck(After(Start(count), events))
  {
    if events != [] {
      ReleasedMeansStuck(count, events[..|events| - 1]);
      NextStuck(After(Start(count), events[..|events| - 1]), events[|events| - 1]);
    }
  }

  /**
   * So an exit by the poll does not mean that the workers are dead. Whenever a poll ends the master, after any run, no
   * earlier poll has taken a worker off the map, and all workers ever forked are dead if and only if the map was already
   * empty.
   */
  lemma PollExitMeans(count: nat, events: seq<Event>, k: nat)
    requires Possible(Start(count), events) && Enabled(After(Start(count), events), Poll(k))
    requires Next(After(Start(count), events), Poll(k)).exit == Some(ByPoll)
    ensures After(Start(count), events).released == {}
    ensures var s := After(Start(count), events); (forall w: nat | w < s.forked :: w in s.dead) <==> s.tracked == {}
  {
    var s := After(Start(count), events);
    AlwaysAccounted(count, events);
    PollExits(s, k);
    ReleasedMeansStuck(count, events);
    if w :| w in s.tracked {
      assert w < s.forked && w !in s.dead;
    }
  }

  lemma PollLeavesWorkerBehind()
    ensures var events := [Signal, Tick(INTERVAL), Poll(0)];
      && Possible(Start(1), events)
      && After(Start(1), events).exit == Some(ByPoll) && Alive(After(Start(1), events), 0)
  {
    hide Possible, After;
    var s, a, b, c := Start(1), Signal, Tick(INTERVAL), Poll(0);
    assert Enabled(s, a);
    assert Enabled(Next(s, a), b);
    var t := Next(Next(s, a), b);
    assert t.shutdowns == [Shutdown({0}, TIMEOUT, INTERVAL)];
    assert Enabled(t, c) && Kept(t) == {};
    ThreeEvents(s, a, b, c);
  }

  lemma ThreeEvents(s: State, a: Event, b: Event, c: Event)
    requires Enabled(s, a) && Enabled(Next(s, a), b) && Enabled(Next(Next(s, a), b), c)
    ensures Possible(s, [a, b, c]) && After(s, [a, b, c]) == Next(Next(Next(s, a), b), c)
  {
    hide Enabled, Next;
    assert [a, b, c][..2] == [a, b] && [a, b][..1] == [a] && [a][..0] == [];
    assert Possible(s, []) && Possible(s, [a]) && After(s, [a]) == Next(s, a);
    assert Possible(s, [a, b]) && After(s, [a, b]) == Next(Next(s, a), b);
  }

  /** A worker that left intentionally stays tracked, whatever happens later, and no poll ends the master any more. */
  lemma LeftStaysTracked(s: State, e: Event, w: nat)
    requires Enabled(s, e) && w in s.tracked && w in s.dead
    ensures w in Next(s, e).tracked && w in Next(s, e).dead && Next(s, e).exit != Some(ByPoll)
  {
    assert w in Kept(s);
  }

  lemma {:induction false} OnlyTimeoutLeft(s: State, events: seq<Event>, w: nat)
    requires Possible(s, events) && s.exit.None? && w in s.tracked && w in s.dead
    ensures After(s, events).exit != Some(ByPoll)
    ensures w in After(s, events).tracked && w in After(s, events).dead
  {
    if events != [] {
      OnlyTimeoutLeft(s, events[..|events| - 1], w);
      LeftStaysTracked(After(s, events[..|events| - 1]), events[|events| - 1], w);
    }
  }

  // ----- the timeout

  /** SIGTERM comes first: the snapshot of every shutdown was sent it, and SIGKILL only goes to workers that were. */
  predicate Polite(s: State) {
    (forall d <- s.shutdowns :: d.snapshot <= s.asked) && s.killed <= s.asked
  }

  lemma NextPolite(s: State, e: Event)
    requires Enabled(s, e) && Polite(s)
    ensures Polite(Next(s, e))
  {
    var t := Next(s, e);
    forall d | d in t.shutdowns ensures d.snapshot <= t.asked {
      var i :| 0 <= i < |t.shutdowns| && t.shutdowns[i] == d;
      if i < |s.shutdowns| {
        assert s.shutdowns[i] in s.shutdowns && d.snapshot == s.shutdowns[i].snapshot;
      }
    }
    if e.Timeout? {
      assert s.shutdowns[e.k] in s.shutdowns;
    }
  }

  lemma {:induction false} AlwaysPolite(count: nat, events: seq<Event>)
    requires Possible(Start(count), events)
    ensures Polite(After(Start(count), events))
  {
    if events != [] {
      AlwaysPolite(count, events[..|events| - 1]);
      NextPolite(After(Start(count), events[..|events| - 1]), events[|events| - 1]);
    }
  }

  /**
   * Exit by the timeout, after any run: every worker in the snapshot of that shutdown was sent SIGTERM, and is dead or was
   * sent SIGKILL; nobody got SIGKILL without SIGTERM.
   */
  lemma TimeoutKills(count: nat, events: seq<Event>, k: nat)
    requires Possible(Start(count), events) && Enabled(After(Start(count), events), Timeout(k))
    ensures var s := After(Start(count), events); var t := Next(s, Timeout(k));
      && t.exit == Some(ByTimeout) && t.killed <= t.asked
      && forall w <- s.shutdowns[k].snapshot :: w in t.asked && (w in t.dead || w in t.killed)
  {
    var s := After(Start(count), events);
    AlwaysPolite(count, events);
    NextPolite(s, Timeout(k));
    assert s.shutdowns[k] in s.shutdowns;
  }

  /** The time is never past a timer that has not fired. */
  predicate OnTime(s: State) {
    (forall d <- s.shutdowns :: s.now <= d.deadline && s.now <= d.nextPoll) && forall p <- s.pending :: s.now <= p
  }

  lemma NextOnTime(s: State, e: Event)
    requires Enabled(s, e) && OnTime(s)
    ensures OnTime(Next(s, e))
  {
    match e
    case Poll(k) =>
      var t := Next(s, e);
      forall d | d in t.shutdowns ensures t.now <= d.deadline && t.now <= d.nextPoll {
        var j :| 0 <= j < |t.shutdowns| && d == t.shutdowns[j];
        assert s.shutdowns[j] in s.shutdowns;
      }
    case Refork(i) =>
      assert forall p <- Next(s, e).pending :: p in s.pending;
    case _ =>
  }

  /** No run gets past the deadline of a shutdown: by then the master has left. */
  lemma {:induction false} ShutdownEnds(count: nat, events: seq<Event>)
    requires Possible(Start(count), events)
    ensures OnTime(After(Start(count), events))
  {
    if events != [] {
      ShutdownEnds(count, events[..|events| - 1]);
      NextOnTime(After(Start(count), events[..|events| - 1]), events[|events| - 1]);
    }
  }

  /** At the deadline of a shutdown the clock stands still until the master leaves, and it can leave. */
  lemma DeadlineForcesExit(count: nat, events: seq<Event>, k: nat, t: int)
    requires Possible(Start(count), events) && After(Start(count), events).exit.None? && k < |After(Start(count), events).shutdowns|
    ensures var s := After(Start(count), events); var d := s.shutdowns[k];
      && s.now <= d.deadline
      && (s.now == d.deadline ==> Enabled(s, Timeout(k)) && !Enabled(s, Tick(t)))
  {
    ShutdownEnds(count, events);
    var s := After(Start(count), events);
    assert s.shutdowns[k] in s.shutdowns;
  }

  predicate Exact(s: State, e: Event)
    requires Enabled(s, e)
  {
    match e
    case Refork(i) => s.now == s.pending[i]
    case Poll(k) => s.now == s.shutdowns[k].nextPoll
    case Timeout(k) => s.now == s.shutdowns[k].deadline
    case _ => true
  }

  lemma ExactNow(s: State, e: Event)
    requires OnTime(s) && Enabled(s, e)
    ensures Exact(s, e)
  {
    match e
    case Refork(i) =>
      assert s.pending[i] in s.pending;
    case Poll(k) =>
      assert s.shutdowns[k] in s.shutdowns;
    case Timeout(k) =>
      assert s.shutdowns[k] in s.shutdowns;
    case _ =>
  }

  /** Timers fire at their time: a re-fork, a poll and a timeout alike. */
  lemma TimersExact(count: nat, events: seq<Event>, e: Event)
    requires Possible(Start(count), events) && Enabled(After(Start(count), events), e)
    ensures Exact(After(Start(count), events), e)
  {
    hide *;
    ShutdownEnds(count, events);
    ExactNow(After(Start(count), events), e);
  }

  lemma SnapshotStays(s: State, e: Event, k: nat)
    requires Enabled(s, e) && k < |s.shutdowns|
    ensures k < |Next(s, e).shutdowns|
    ensures Next(s, e).shutdowns[k].deadline == s.shutdowns[k].deadline && Next(s, e).shutdowns[k].snapshot == s.shutdowns[k].snapshot
  {
  }

  /** A shutdown keeps the workers tracked when its signal came, and its deadline 30 seconds after that. */
  lemma {:induction false} SignalKept(count: nat, before: seq<Event>, later: seq<Event>)
    requires Possible(Start(count), before + [Signal] + later)
    ensures Possible(Start(count), before)
    ensures var s, t := After(Start(count), before), After(Start(count), before + [Signal] + later); var k := |s.shutdowns|;
      k < |t.shutdowns| && t.shutdowns[k].snapshot == s.tracked && t.shutdowns[k].deadline == s.now + 30_000
  {
    hide Enabled;
    var run := before + [Signal] + later;
    var n := |run| - 1;
    if later == [] {
      assert run[..n] == before && run[n] == Signal;
    } else {
      hide Next;
      var m := |later| - 1;
      assert run[..n] == before + [Signal] + later[..m] && run[n] == later[m];
      SignalKept(count, before, later[..m]);
      SnapshotStays(After(Start(count), run[..n]), run[n], |After(Start(count), before).shutdowns|);
    }
  }

  /**
   * The timeout of a shutdown comes 30 seconds after its signal, not earlier and not later, and the workers tracked then
   * have all that time: it sends SIGKILL to those of them that still live, and to no others.
   */
  lemma GraceGiven(count: nat, before: seq<Event>, later: seq<Event>)
    requires Possible(Start(count), before + [Signal] + later)
    requires Possible(Start(count), before) ==> Enabled(After(Start(count), before + [Signal] + later), Timeout(|After(Start(count), before).shutdowns|))
    ensures Possible(Start(count), before)
    ensures var s, t := After(Start(count), before), After(Start(count), before + [Signal] + later);
      && t.now == s.now + 30_000
      && Next(t, Timeout(|s.shutdowns|)).killed == t.killed + (set w | w in s.tracked && w !in t.dead)
  {
    hide Possible, After;
    SignalKept(count, before, later);
    TimersExact(count, before + [Signal] + later, Timeout(|After(Start(count), before).shutdowns|));
  }

  // ----- every shutdown ends

  /** How many of these times have come. */
  function Come(times: seq<int>, now: int): nat {
    if times == [] then 0 else Come(times[..|times| - 1], now) + if times[|times| - 1] <= now then 1 else 0
  }

  lemma {:induction false} ComeConcat(a: seq<int>, b: seq<int>, now: int)
    ensures Come(a + b, now) == Come(a, now) + Come(b, now)
  {
    if b == [] {
      assert a + b == a;
    } else {
      assert (a + b)[..|a + b| - 1] == a + b[..|b| - 1];
      ComeConcat(a, b[..|b| - 1], now);
    }
  }

  lemma ComeOne(t: int, now: int)
    ensures Come([t], now) == if t <= now then 1 else 0
  {
    assert [t][..0] == [];
  }

  lemma ComeWithout(times: seq<int>, i: nat, now: int)
    requires i < |times| && times[i] <= now
    ensures Come(times[..i] + times[i + 1..], now) == Come(times, now) - 1
  {
    assert times == times[..i] + [times[i]] + times[i + 1..];
    ComeConcat(times[..i] + [times[i]], times[i + 1..], now);
    ComeConcat(times[..i], [times[i]], now);
    ComeConcat(times[..i], times[i + 1..], now);
    ComeOne(times[i], now);
  }

  lemma ComeLater(times: seq<int>, i: nat, t: int, now: int)
    requires i < |times| && times[i] <= now < t
    ensures Come(times[i := t], now) == Come(times, now) - 1
  {
    assert times[i := t] == times[..i] + [t] + times[i + 1..];
    ComeConcat(times[..i] + [t], times[i + 1..], now);
    ComeConcat(times[..i], [t], now);
    ComeOne(t, now);
    ComeConcat(times[..i], times[i + 1..], now);
    ComeWithout(times, i, now);
  }

  lemma ComeAppend(times: seq<int>, t: int, now: int)
    requires now < t
    ensures Come(times + [t], now) == Come(times, now)
  {
    ComeConcat(times, [t], now);
    ComeOne(t, now);
  }

  function Polls(s: State): seq<int> {
    seq(|s.shutdowns|, i requires 0 <= i < |s.shutdowns| => s.shutdowns[i].nextPoll)
  }

  /** What can still happen without time passing: each living worker can exit, each due re-fork and poll can run. */
  function Work(s: State): nat {
    |Workers(s.forked) - s.dead| + 2 * Come(s.pending, s.now) + Come(Polls(s), s.now)
  }

  /** The time left until a shutdown's deadline. */
  function Left(s: State, k: nat): int
    requires k < |s.shutdowns|
  {
    s.shutdowns[k].deadline - s.now
  }

  lemma DeathWork(s: State, e: Event)
    requires Enabled(s, e) && (e.Crash? || e.Leave?)
    ensures Work(Next(s, e)) == Work(s) - 1
  {
    hide Come;
    var t := Next(s, e);
    assert Workers(s.forked) - t.dead == Workers(s.forked) - s.dead - {e.w};
    assert Polls(t) == Polls(s);
    if e.Crash? {
      ComeAppend(s.pending, s.now + REFORK_DELAY, s.now);
    }
  }

  lemma SignalWork(s: State)
    requires Enabled(s, Signal)
    ensures Work(Next(s, Signal)) == Work(s)
  {
    hide Come;
    ComeAppend(Polls(s), s.now + INTERVAL, s.now);
    assert Polls(Next(s, Signal)) == Polls(s) + [s.now + INTERVAL];
  }

  lemma ReforkWork(s: State, i: nat)
    requires Enabled(s, Refork(i)) && Accounted(s)
    ensures Work(Next(s, Refork(i))) == Work(s) - 1
  {
    hide Come, Polls, Workers;
    var t := Next(s, Refork(i));
    ComeWithout(s.pending, i, s.now);
    OneMoreLives(s);
    SamePolls(s, t);
  }

  lemma OneMoreLives(s: State)
    requires Accounted(s)
    ensures |Workers(s.forked + 1) - s.dead| == |Workers(s.forked) - s.dead| + 1
  {
    var before := Workers(s.forked) - s.dead;
    assert s.forked !in s.dead && s.forked !in before;
    assert Workers(s.forked + 1) - s.dead == before + {s.forked};
  }

  lemma SamePolls(s: State, t: State)
    requires s.shutdowns == t.shutdowns
    ensures Polls(s) == Polls(t)
  {
  }

  lemma PollWork(s: State, k: nat)
    requires Enabled(s, Poll(k))
    ensures Work(Next(s, Poll(k))) == Work(s) - 1
  {
    hide Come;
    ComeLater(Polls(s), k, s.now + INTERVAL, s.now);
    assert Polls(Next(s, Poll(k))) == Polls(s)[k := s.now + INTERVAL];
  }

  lemma TimeLeft(s: State, e: Event, k: nat)
    requires Enabled(s, e) && k < |s.shutdowns|
    ensures k < |Next(s, e).shutdowns| && (if e.Tick? then Left(Next(s, e), k) < Left(s, k) else Left(Next(s, e), k) == Left(s, k))
  {
    hide Kept, Alive, Due;
  }

  /** While the master runs, every event uses up time or work; only another signal uses up neither. */
  lemma EventsAreProgress(s: State, e: Event, k: nat)
    requires Enabled(s, e) && Accounted(s) && k < |s.shutdowns| && !e.Timeout?
    ensures k < |Next(s, e).shutdowns|
    ensures if e.Tick? then Left(Next(s, e), k) < Left(s, k) else Left(Next(s, e), k) == Left(s, k)
    ensures !e.Tick? ==> Work(Next(s, e)) == if e.Signal? then Work(s) else Work(s) - 1
  {
    hide *;
    TimeLeft(s, e, k);
    match e
    case Crash(_) => DeathWork(s, e);
    case Leave(_) => DeathWork(s, e);
    case Refork(i) => ReforkWork(s, i);
    case Poll(j) => PollWork(s, j);
    case Signal => SignalWork(s);
    case Tick(_) =>
  }

  /** The master is never stuck: a due timer fires or time passes, without anyone's signal. */
  lemma CanGoOn(s: State)
    requires s.exit.None?
    ensures exists e :: Enabled(s, e) && !e.Signal?
  {
    if i :| 0 <= i < |s.pending| && s.pending[i] <= s.now {
      assert Enabled(s, Refork(i));
    } else if k :| 0 <= k < |s.shutdowns| && s.shutdowns[k].nextPoll <= s.now {
      assert Enabled(s, Poll(k));
    } else if k :| 0 <= k < |s.shutdowns| && s.shutdowns[k].deadline <= s.now {
      assert Enabled(s, Timeout(k));
    } else {
      assert Enabled(s, Tick(s.now + 1));
    }
  }

  /** Nothing changes once the master has exited. */
  ghost predicate GoesOn(run: nat -> Event, states: nat -> State, i: nat) {
    if states(i).exit.None? then Enabled(states(i), run(i)) && states(i + 1) == Next(states(i), run(i))
    else states(i + 1) == states(i)
  }

  /** A run without end. */
  ghost predicate Forever(run: nat -> Event, states: nat -> State) {
    forall i: nat :: GoesOn(run, states, i)
  }

  /** From `i` on something other than a signal still happens. */
  ghost predicate Another(run: nat -> Event, i: nat) {
    exists j: nat :: i <= j && !run(j).Signal?
  }

  lemma {:induction false} GoingOnEnds(run: nat -> Event, states: nat -> State, n: nat, k: nat, j: nat)
    requires Forever(run, states) && (forall i: nat :: Another(run, i)) && n <= j && !run(j).Signal?
    requires Accounted(states(n)) && OnTime(states(n)) && k < |states(n).shutdowns|
    ensures exists m: nat :: states(m).exit.Some?
    decreases Left(states(n), k), Work(states(n)), j - n
  {
    hide Next, Enabled, Work, Accounted;
    var s, e := states(n), run(n);
    if s.exit.None? {
      assert GoesOn(run, states, n);
      assert s.shutdowns[k] in s.shutdowns;
      if e.Timeout? {
        TimeoutExits(s, e);
      } else {
        NextAccounted(s, e);
        NextOnTime(s, e);
        EventsAreProgress(s, e, k);
        if e.Signal? {
          GoingOnEnds(run, states, n + 1, k, j);
        } else {
          assert Another(run, n + 1);
          var l: nat :| n + 1 <= l && !run(l).Signal?;
          GoingOnEnds(run, states, n + 1, k, l);
        }
      }
    }
  }

  lemma TimeoutExits(s: State, e: Event)
    requires Enabled(s, e) && e.Timeout?
    ensures Next(s, e).exit.Some?
  {
  }

  lemma StartAccounted(count: nat)
    ensures Accounted(Start(count)) && OnTime(Start(count))
  {
  }

  lemma {:induction false} ForeverAccounted(count: nat, run: nat -> Event, states: nat -> State, n: nat)
    requires Forever(run, states) && states(0) == Start(count)
    ensures (exists m: nat :: states(m).exit.Some?) || (Accounted(states(n)) && OnTime(states(n)))
  {
    hide Next, Enabled, Accounted, OnTime;
    if n == 0 {
      StartAccounted(count);
    } else {
      ForeverAccounted(count, run, states, n - 1);
      if states(n - 1).exit.None? && Accounted(states(n - 1)) && OnTime(states(n - 1)) {
        assert GoesOn(run, states, n - 1);
        NextAccounted(states(n - 1), run(n - 1));
        NextOnTime(states(n - 1), run(n - 1));
      }
    }
  }

  lemma {:induction false} ExitStays(run: nat -> Event, states: nat -> State, m: nat, i: nat)
    requires Forever(run, states) && states(m).exit.Some? && m <= i
    ensures states(i).exit.Some?
  {
    if m < i {
      ExitStays(run, states, m, i - 1);
      assert GoesOn(run, states, i - 1);
    }
  }

  /** It takes something other than a signal to leave. */
  lemma {:induction false} ExitTakesAnother(run: nat -> Event, states: nat -> State, i: nat, m: nat)
    requires Forever(run, states) && states(i).exit.None? && states(m).exit.Some? && i <= m
    ensures Another(run, i)
    decreases m - i
  {
    if run(i).Signal? {
      assert GoesOn(run, states, i);
      ExitTakesAnother(run, states, i + 1, m);
    }
  }

  /**
   * Shutdown reaches exit: an endless schedule of a started master in which a shutdown is going on leads to exit, however
   * crashes, intentional exits, re-forks, polls and further signals are interleaved, unless from some point on
   * nothing but signals arrives, not even time.
   */
  lemma ShutdownReachesExit(count: nat, run: nat -> Event, states: nat -> State, n: nat)
    requires Forever(run, states) && states(0) == Start(count) && states(n).shutdowns != []
    ensures (exists m: nat :: states(m).exit.Some?) <==> forall i: nat :: states(i).exit.Some? || Another(run, i)
  {
    if m: nat :| states(m).exit.Some? {
      forall i: nat ensures states(i).exit.Some? || Another(run, i) {
        if m <= i {
          ExitStays(run, states, m, i);
        } else if states(i).exit.None? {
          ExitTakesAnother(run, states, i, m);
        }
      }
    } else if forall i: nat :: Another(run, i) {
      ForeverAccounted(count, run, states, n);
      assert Another(run, n);
      var j: nat :| n <= j && !run(j).Signal?;
      GoingOnEnds(run, states, n, 0, j);
    }
  }

  // ----- the master process

  class Master {
    var forked: nat
    var workers: set<nat>
    var dead: set<nat>
    var timers: seq<int>
    var shutdowns: seq<Shutdown>
    var asked: set<nat>
    var killed: set<nat>
    var released: set<nat>
    var now: int
    var exit: Option<Exit>

    ghost function View(): State
      reads this
    {
      State(forked, workers, dead, timers, shutdowns, asked, killed, released, now, exit)
    }

    /** Fork the configured number of workers. */
    constructor (workerCount: nat)
      ensures View() == Start(workerCount)
    {
      forked, workers, dead, timers, shutdowns, asked, killed, released, now, exit := 0, {}, {}, [], [], {}, {}, {}, 0, None;
      new;
      for i := 0 to workerCount
        invariant View() == Start(i)
      {
        workers := workers + {forked};
        forked := forked + 1;
      }
    }

    /** The exit handler: an intentional exit is only logged. */
    method OnExit(w: nat, afterDisconnect: bool)
      requires Enabled(View(), Crash(w))
      modifies this
      ensures View() == Next(old(View()), if afterDisconnect then Leave(w) else Crash(w))
      ensures afterDisconnect ==> workers == old(workers) && timers == old(timers)
      ensures !afterDisconnect ==> workers == old(workers) - {w} && timers == old(timers) + [now + 1000]
    {
      dead := dead + {w};
      if !afterDisconnect {
        workers := workers - {w};
        timers := timers + [now + REFORK_DELAY];
      }
    }

    method OnRefork(i: nat)
      requires Enabled(View(), Refork(i))
      modifies this
      ensures View() == Next(old(View()), Refork(i))
      ensures forked == old(forked) + 1 && workers == old(workers) + {old(forked)} && |timers| == |old(timers)| - 1
    {
      timers := timers[..i] + timers[i + 1..];
      workers := workers + {forked};
      forked := forked + 1;
    }

    method OnSignal()
      requires Enabled(View(), Signal)
      modifies this
      ensures View() == Next(old(View()), Signal)
      ensures asked == old(asked) + workers && workers == old(workers)
      ensures shutdowns == old(shutdowns) + [Shutdown(workers, now + 30_000, now + 500)]
    {
      var workerList := workers;
      var left := workerList;
      while left != {}
        invariant left <= workerList && asked == old(asked) + (workerList - left)
        invariant dead == old(dead) && forked == old(forked) && workers == old(workers) && timers == old(timers)
        invariant shutdowns == old(shutdowns) && killed == old(killed) && released == old(released) && now == old(now) && exit == old(exit)
        decreases |left|
      {
        var w :| w in left;
        asked := asked + {w};
        left := left - {w};
      }
      shutdowns := shutdowns + [Shutdown(workerList, now + TIMEOUT, now + INTERVAL)];
    }

    /** The interval callback. */
    method OnPoll(k: nat)
      requires Enabled(View(), Poll(k))
      modifies this
      ensures View() == Next(old(View()), Poll(k))
      ensures workers == old(workers) * dead && (exit.Some? <==> workers == {})
      ensures exit.None? ==> shutdowns[k].nextPoll == now + 500
    {
      var alive := set w | w in workers && w !in dead;
      var before := workers;
      workers := workers - alive;
      released := released + alive;
      shutdowns := shutdowns[k := shutdowns[k].(nextPoll := now + INTERVAL)];
      assert workers == before * dead && alive == before - dead;
      if workers == {} {
        exit := Some(ByPoll);
      }
    }

    method OnTimeout(k: nat)
      requires Enabled(View(), Timeout(k))
      modifies this
      ensures View() == Next(old(View()), Timeout(k))
      ensures exit.Some? && killed == old(killed) + (shutdowns[k].snapshot - dead) && dead == old(dead)
    {
      var workerList := shutdowns[k].snapshot;
      var left := workerList;
      while left != {}
        invariant left <= workerList
        invariant killed == old(killed) + ((workerList - left) - dead)
        invariant dead == old(dead) && forked == old(forked) && workers == old(workers) && timers == old(timers)
        invariant shutdowns == old(shutdowns) && asked == old(asked) && released == old(released) && now == old(now) && exit == old(exit)
        decreases |left|
      {
        var w :| w in left;
        if w !in dead {
          killed := killed + {w};
        }
        left := left - {w};
      }
      exit := Some(ByTimeout);
    }
  }
}
