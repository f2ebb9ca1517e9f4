/**
 * Lookups in flight at once: each reads the cache when it starts and, on a miss, caches the resolver's answer when that
 * arrives; whatever other lookups do in between is up to the schedule.
 */
module SmpLookups {
  import opened Options
  import opened SmpCache

  /** A lookup that waits for the resolver. */
  datatype Call = Call(id: string, simulation: bool)

  /** What a lookup returned, when, and how many answers had been accepted by then. */
  datatype Outcome = Outcome(id: string, result: Result, at: int, seen: nat)

  datatype World = World(memory: Memory, waiting: map<nat, Call>, done: map<nat, Outcome>)

  /** Lookup n starts, or the resolver replies to it. */
  datatype Event = Asks(n: nat, id: string, simulation: bool, t: int) | Replies(n: nat, answer: Option<Answer>, t: int)

  function Begin(start: int): World {
    World(Memory(map[], start, []), map[], map[])
  }

  predicate Enabled(w: World, e: Event) {
    && w.memory.now <= e.t
    && match e
      case Asks(n, _, _, _) => n !in w.waiting && n !in w.done
      case Replies(n, _, _) => n in w.waiting
  }

  function Next(w: World, e: Event): World
    requires Enabled(w, e)
  {
    var m, seen := w.memory, |w.memory.history|;
    match e
    case Asks(n, id, simulation, t) =>
      (match IdCheck(id)
       case Some(why) => w.(memory := m.(now := t), done := w.done[n := Outcome(id, Refused(why), t, seen)])
       case None =>
         (match Cached(m, id, t)
          case Some(hit) => w.(memory := AfterRead(m, id, t), done := w.done[n := Outcome(id, Hit(hit), t, seen)])
          case None => w.(memory := AfterRead(m, id, t), waiting := w.waiting[n := Call(id, simulation)])))
    case Replies(n, answer, t) =>
      var c := w.waiting[n];
      World(AfterAnswer(m, c.id, c.simulation, answer, t), w.waiting - {n}, w.done[n := Outcome(c.id, Given(answer, t), t, seen)])
  }

  predicate Possible(w: World, events: seq<Event>)
    decreases |events|, 0
  {
    events == [] || (Possible(w, events[..|events| - 1]) && Enabled(After(w, events[..|events| - 1]), events[|events| - 1]))
  }

  function After(w: World, events: seq<Event>): World
    requires Possible(w, events)
    decreases |events|, 1
  {
    if events == [] then w else Next(After(w, events[..|events| - 1]), events[|events| - 1])
  }

  /** A found answer is sound; from the cache it is the last one accepted by then, whichever lookup had asked for it. */
  ghost predicate Explained(history: seq<Resolved>, o: Outcome) {
    && o.seen <= |history|
    && (o.result.Found? ==>
          && IdCheck(o.id) == None && Sound(history, o.id, o.result.answer, o.at)
          && match o.result.expiresAt
            case Some(end) => Served(history[..o.seen], o.id, o.at) == Some(Entry(o.result.answer, end))
            case None => o.seen < |history| && history[o.seen].id == o.id && history[o.seen].answer == o.result.answer && history[o.seen].at == o.at)
  }

  ghost predicate Sane(w: World) {
    && Consistent(w.memory)
    && (forall n <- w.waiting :: IdCheck(w.waiting[n].id) == None)
    && forall n <- w.done :: Explained(w.memory.history, w.done[n])
  }

  lemma ExplainedStays(history: seq<Resolved>, h: Resolved, o: Outcome)
    requires Explained(history, o)
    ensures Explained(history + [h], o)
  {
    assert (history + [h])[..o.seen] == history[..o.seen];
    assert forall x <- history :: x in history + [h];
  }

  lemma AsksSane(w: World, e: Event)
    requires Sane(w) && Enabled(w, e) && e.Asks?
    ensures Sane(Next(w, e))
  {
    hide Served, Explained, Sound, IdCheck, Known;
    var m := w.memory;
    NowMoves(m, e.t);
    ReadKeeps(m, e.id, e.t);
    if IdCheck(e.id) == None && Cached(m, e.id, e.t).Some? {
      HitExplained(m, e.id, e.t);
    } else if IdCheck(e.id).Some? {
      RefusedExplained(m.history, Outcome(e.id, Refused(IdCheck(e.id).value), e.t, |m.history|));
    }
  }

  lemma NowMoves(m: Memory, t: int)
    requires Consistent(m) && m.now <= t
    ensures Consistent(m.(now := t))
  {
    hide Last;
    forall id: string ensures EntryOf(m.(now := t), id) {
      assert EntryOf(m, id);
    }
  }

  lemma RefusedExplained(history: seq<Resolved>, o: Outcome)
    requires o.result.Refused? && o.seen <= |history|
    ensures Explained(history, o)
  {
  }

  lemma HitExplained(m: Memory, id: string, t: int)
    requires Consistent(m) && m.now <= t && IdCheck(id) == None && Cached(m, id, t).Some?
    ensures Explained(m.history, Outcome(id, Hit(Cached(m, id, t).value), t, |m.history|))
  {
    hide IdCheck, Sound;
    ReadKeeps(m, id, t);
    ServedSound(m.history, id, t, m.now);
    assert m.history[..|m.history|] == m.history;
  }

  lemma GivenExplained(m: Memory, c: Call, answer: Option<Answer>, t: int)
    requires Consistent(m) && m.now <= t && IdCheck(c.id) == None
    ensures Explained(AfterAnswer(m, c.id, c.simulation, answer, t).history, Outcome(c.id, Given(answer, t), t, |m.history|))
  {
    hide IdCheck, Served;
    var n := AfterAnswer(m, c.id, c.simulation, answer, t);
    if Given(answer, t).Found? {
      assert n.history[|m.history|] in n.history;
    }
  }

  lemma RepliesSane(w: World, e: Event)
    requires Sane(w) && Enabled(w, e) && e.Replies?
    ensures Sane(Next(w, e))
  {
    hide Served, Explained, Sound, IdCheck, Known, Consistent;
    var m, c := w.memory, w.waiting[e.n];
    AnswerKeeps(m, c.id, c.simulation, e.answer, e.t);
    GivenExplained(m, c, e.answer, e.t);
    forall n | n in w.done ensures Explained(Next(w, e).memory.history, w.done[n]) {
      if e.answer.Some? {
        ExplainedStays(m.history, Resolved(c.id, e.answer.value, e.t, Ttl(c.simulation)), w.done[n]);
      }
    }
  }

  /**
   * In every run of lookups that overlap as they like, whatever the resolver replies and when: no answer is returned that
   * was not accepted for that very id within its time to live, and the cache serves the answer accepted last.
   */
  lemma {:induction false} LookupsInFlight(start: int, events: seq<Event>)
    requires Possible(Begin(start), events)
    ensures Sane(After(Begin(start), events))
  {
    hide Explained, Consistent, Next, Enabled;
    if events == [] {
      BeginSane(start);
    } else {
      var k := |events| - 1;
      LookupsInFlight(start, events[..k]);
      var w := After(Begin(start), events[..k]);
      if events[k].Asks? {
        AsksSane(w, events[k]);
      } else {
        RepliesSane(w, events[k]);
      }
    }
  }

  lemma BeginSane(start: int)
    ensures Sane(Begin(start))
  {
  }

  // ----- what becomes of every lookup

  /** What the resolver's reply makes of a lookup. */
  predicate Replied(answer: Option<Answer>, t: int, r: Result) {
    match answer
    case None => r == Refused(ResolverFailed)
    case Some(a) =>
      if InForce(a, t) then r == Found(a, None)
      else r == Refused(if a.activation.Some? && t < a.activation.value then NotActive else Expired)
  }

  /** What a lookup that starts behind the history has come to: refused, served, waiting, or replied to later on. */
  predicate Asked(history: seq<Resolved>, id: string, t: int, n: nat, later: seq<Event>, w: World) {
    if IdCheck(id).Some? then n in w.done && w.done[n].result == Refused(IdCheck(id).value)
    else
      match Served(history, id, t)
      case Some(entry) => n in w.done && w.done[n].result == Found(entry.answer, Some(entry.expiresAt))
      case None => if exists e <- later :: e.Replies? && e.n == n then n in w.done else n in w.waiting && w.waiting[n].id == id
  }

  predicate ToldBy(history: seq<Resolved>, e: Event, later: seq<Event>, w: World) {
    match e
    case Asks(n, id, _, t) => Asked(history, id, t, n, later, w)
    case Replies(n, answer, t) => n in w.done && w.done[n].at == t && Replied(answer, t, w.done[n].result)
  }

  predicate Apart(w: World) {
    forall n <- w.waiting :: n !in w.done
  }

  lemma {:induction false} StaysApart(start: int, events: seq<Event>)
    requires Possible(Begin(start), events)
    ensures Apart(After(Begin(start), events))
  {
    hide IdCheck, Cached, AfterAnswer, AfterRead, Given;
    if events != [] {
      StaysApart(start, events[..|events| - 1]);
    }
  }

  lemma ToldAtOnce(w: World, e: Event)
    requires Sane(w) && Enabled(w, e)
    ensures ToldBy(w.memory.history, e, [], Next(w, e))
  {
    hide IdCheck, Served, Explained, Sound, Known, Consistent, AfterAnswer;
    match e
    case Asks(_, id, _, t) =>
      ReadKeeps(w.memory, id, t);
    case Replies(_, answer, t) =>
      if answer.Some? {
        DatesChecked(answer.value, t);
      }
  }

  lemma StillTold(history: seq<Resolved>, e: Event, later: seq<Event>, w: World, next: Event)
    requires Apart(w) && Enabled(w, next) && ToldBy(history, e, later, w)
    ensures ToldBy(history, e, later + [next], Next(w, next))
  {
    hide IdCheck, Served, Cached, AfterAnswer, AfterRead, Given, Replied;
    assert forall x <- later + [next] :: x in later || x == next;
    assert forall x <- later :: x in later + [next];
    assert next in later + [next];
  }

  /**
   * In every run, a lookup of an id that is not accepted is refused, one of an id whose last accepted answer is still good
   * when it starts gets that one, and any other waits for its reply. A reply is returned if and only if its service is in
   * force when it arrives; if not, or if there is none, the lookup is refused, and says why.
   */
  lemma {:induction false} EveryLookup(start: int, before: seq<Event>, e: Event, later: seq<Event>)
    requires Possible(Begin(start), before + [e] + later)
    ensures Possible(Begin(start), before)
    ensures ToldBy(After(Begin(start), before).memory.history, e, later, After(Begin(start), before + [e] + later))
  {
    hide ToldBy, Sane, Enabled, Next, Apart;
    var run := before + [e] + later;
    var n := |run| - 1;
    if later == [] {
      assert run[..n] == before && run[n] == e;
      LookupsInFlight(start, before);
      ToldAtOnce(After(Begin(start), before), e);
      assert later == [];
    } else {
      var k := |later| - 1;
      assert run[..n] == before + [e] + later[..k] && run[n] == later[k];
      EveryLookup(start, before, e, later[..k]);
      StaysApart(start, run[..n]);
      StillTold(After(Begin(start), before).memory.history, e, later[..k], After(Begin(start), run[..n]), later[k]);
      assert later[..k] + [later[k]] == later;
    }
  }

  /** So a participant whose service has expired is returned for at most the time to live after that. */
  lemma ExpiredAtMost(history: seq<Resolved>, id: string, answer: Answer, t: int)
    requires Sound(history, id, answer, t) && answer.expiration.Some?
    ensures t <= answer.expiration.value + 600_000
  {
  }

  lemma ThreeEvents(w: World, a: Event, b: Event, c: Event)
    requires Enabled(w, a) && Enabled(Next(w, a), b) && Enabled(Next(Next(w, a), b), c)
    ensures Possible(w, [a, b, c]) && After(w, [a, b, c]) == Next(Next(Next(w, a), b), c)
  {
    hide Enabled, Next;
    assert [a, b, c][..2] == [a, b] && [a, b][..1] == [a] && [a][..0] == [];
    assert Possible(w, []) && Possible(w, [a]) && After(w, [a]) == Next(w, a);
    assert Possible(w, [a, b]) && After(w, [a, b]) == Next(Next(w, a), b);
  }

  /** And so it can be: an answer that expires while it is cached is served on. */
  lemma ServedExpired()
    ensures var a := Answer("smp", None, Some(10));
      var events := [Asks(0, "a:b", true, 0), Replies(0, Some(a), 0), Asks(1, "a:b", true, 11)];
      && Possible(Begin(0), events)
      && After(Begin(0), events).done[1] == Outcome("a:b", Found(a, Some(SIMULATED_TTL)), 11, 1) && DateCheck(a, 11) == Some(Expired)
  {
    var a := Answer("smp", None, Some(10));
    hide Possible, After;
    var ask, reply, again := Asks(0, "a:b", true, 0), Replies(0, Some(a), 0), Asks(1, "a:b", true, 11);
    IdJoins("a:b", "a", "b", "");
    var w := Next(Begin(0), ask);
    assert w.waiting == map[0 := Call("a:b", true)];
    assert Next(w, reply).memory.cache == map["a:b" := Entry(a, SIMULATED_TTL)];
    ThreeEvents(Begin(0), ask, reply, again);
  }
}
