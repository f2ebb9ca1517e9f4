/** Participant lookup through the in-memory SMP cache, on a clock that never runs backwards (milliseconds). */
module SmpCache {
  import opened Options
  import opened Strings

  /** What the resolver answers: the metadata and the two optional service dates. */
  datatype Answer = Answer(metadata: string, activation: Option<int>, expiration: Option<int>)

  /** An answer the resolver gave for an id, with the time and the time to live it was cached with. */
  datatype Resolved = Resolved(id: string, answer: Answer, at: int, ttl: int)

  datatype Entry = Entry(answer: Answer, expiresAt: int)

  datatype Refusal = IdRequired | BadFormat | PartMissing | ResolverFailed | NotActive | Expired

  /** `expiresAt` is there when the result comes from the cache. */
  datatype Result = Found(answer: Answer, expiresAt: Option<int>) | Refused(why: Refusal)

  const SIMULATED_TTL := 300 * 1000
  const LIVE_TTL := 600 * 1000

  function Ttl(simulation: bool): int {
    if simulation then SIMULATED_TTL else LIVE_TTL
  }

  /** `validateSMPDates` at a given time. */
  function DateCheck(a: Answer, now: int): Option<Refusal> {
    if a.activation.Some? && now < a.activation.value then Some(NotActive)
    else if a.expiration.Some? && now > a.expiration.value then Some(Expired)
    else None
  }

  /** The service is in force: it has begun and not ended, the first and the last millisecond included. */
  predicate InForce(a: Answer, now: int) {
    (a.activation == None || a.activation.value <= now) && (a.expiration == None || now <= a.expiration.value)
  }

  /** Which of the two dates an answer fails; one not active yet is not called expired. */
  lemma DatesChecked(a: Answer, now: int)
    ensures DateCheck(a, now) == None <==> InForce(a, now)
    ensures DateCheck(a, now) == Some(NotActive) <==> a.activation.Some? && now < a.activation.value
    ensures DateCheck(a, now) == Some(Expired) <==>
      a.expiration.Some? && a.expiration.value < now && (a.activation.Some? ==> a.activation.value <= now)
  {
  }

  // ----- participant ids

  /** An id needs a colon, and something before it and between it and the next one. */
  function IdCheck(id: string): Option<Refusal> {
    if id == "" then Some(IdRequired)
    else if ':' !in id then Some(BadFormat)
    else if Before(id, ':') == "" || Before(After(id, ':'), ':') == "" then Some(PartMissing)
    else None
  }

  /** scheme:value, both without colons, followed by nothing or by more parts. */
  predicate Shaped(id: string, scheme: string, value: string, rest: string) {
    && id == scheme + ":" + value + rest
    && scheme != "" && value != "" && ':' !in scheme && ':' !in value && (rest == "" || rest[0] == ':')
  }

  /** Behind the value. */
  function RestOf(tail: string): string {
    if ':' in tail then ":" + After(tail, ':') else ""
  }

  lemma TailSplits(tail: string)
    ensures tail == Before(tail, ':') + RestOf(tail)
  {
    SplitAt(tail, ':');
  }

  lemma IdSplits(id: string)
    requires IdCheck(id) == None
    ensures Shaped(id, Before(id, ':'), Before(After(id, ':'), ':'), RestOf(After(id, ':')))
  {
    hide Before, After;
    var tail := After(id, ':');
    SplitAt(id, ':');
    SplitAt(tail, ':');
    TailSplits(tail);
  }

  lemma IdJoins(id: string, scheme: string, value: string, rest: string)
    requires Shaped(id, scheme, value, rest)
    ensures IdCheck(id) == None
  {
    var tail := ":" + value + rest;
    assert id == scheme + tail;
    assert tail[1..] == value + rest;
    SplitParts(scheme, ':', tail);
    SplitParts(value, ':', rest);
    assert id[|scheme|] == ':';
  }

  lemma IdReasons(id: string)
    ensures IdCheck(id) == Some(IdRequired) <==> id == ""
    ensures IdCheck(id) == Some(BadFormat) <==> id != "" && ':' !in id
  {
    hide Before, After;
  }

  /** Accepted ids are exactly those with a scheme and a value. */
  lemma IdAccepted(id: string)
    ensures IdCheck(id) == None <==> exists scheme, value, rest :: Shaped(id, scheme, value, rest)
    ensures IdCheck(id) == Some(IdRequired) <==> id == ""
    ensures IdCheck(id) == Some(BadFormat) <==> id != "" && ':' !in id
  {
    IdReasons(id);
    hide Shaped, IdCheck, Before, After;
    if IdCheck(id) == None {
      IdSplits(id);
    }
    if scheme, value, rest :| Shaped(id, scheme, value, rest) {
      IdJoins(id, scheme, value, rest);
    }
  }

  // ----- what the cache stands for

  function Hit(e: Entry): Result {
    Found(e.answer, Some(e.expiresAt))
  }

  /** The last answer accepted for an id. */
  function Last(history: seq<Resolved>, id: string): Option<Resolved> {
    if history == [] then None
    else
      var h := history[|history| - 1];
      if h.id == id then Some(h) else Last(history[..|history| - 1], id)
  }

  /** It is served until its time to live is over. */
  function Served(history: seq<Resolved>, id: string, t: int): Option<Entry> {
    match Last(history, id)
    case None => None
    case Some(h) => if t <= h.at + h.ttl then Some(Entry(h.answer, h.at + h.ttl)) else None
  }

  lemma {:induction false} LastIn(history: seq<Resolved>, id: string)
    ensures Last(history, id).Some? ==> Last(history, id).value in history && Last(history, id).value.id == id
  {
    if history != [] && history[|history| - 1].id != id {
      LastIn(history[..|history| - 1], id);
    }
  }

  lemma LastOther(history: seq<Resolved>, h: Resolved, id: string)
    ensures Last(history + [h], id) == if h.id == id then Some(h) else Last(history, id)
  {
    assert (history + [h])[..|history|] == history;
  }

  /** A result is sound: some accepted answer for the id, no older than five or ten minutes, that was in force when given. */
  ghost predicate Sound(history: seq<Resolved>, id: string, answer: Answer, t: int) {
    exists h <- history :: h.id == id && h.answer == answer && h.at <= t <= h.at + h.ttl && InForce(answer, h.at)
      && (h.ttl == 300_000 || h.ttl == 600_000)
  }

  // ----- the two steps of a lookup

  /** The cache at a time, with all answers accepted so far. */
  datatype Memory = Memory(cache: map<string, Entry>, now: int, history: seq<Resolved>)

  predicate Known(history: seq<Resolved>, now: int) {
    forall h <- history :: h.at <= now && InForce(h.answer, h.at) && (h.ttl == 300_000 || h.ttl == 600_000)
  }

  /** The entry of an id is its last accepted answer; it may be gone only once it is over. */
  predicate EntryOf(m: Memory, id: string) {
    match Last(m.history, id)
    case None => id !in m.cache
    case Some(h) => if id in m.cache then m.cache[id] == Entry(h.answer, h.at + h.ttl) else h.at + h.ttl < m.now
  }

  ghost predicate Consistent(m: Memory) {
    Known(m.history, m.now) && forall id: string :: EntryOf(m, id)
  }

  /** The cache's `get`: an entry that is over is removed. */
  function AfterRead(m: Memory, id: string, t: int): Memory {
    m.(now := t, cache := if id in m.cache && m.cache[id].expiresAt < t then m.cache - {id} else m.cache)
  }

  function Cached(m: Memory, id: string, t: int): Option<Entry> {
    if id in m.cache && m.cache[id].expiresAt >= t then Some(m.cache[id]) else None
  }

  /** The resolver's answer arrives: it is checked, cached and returned. */
  function AfterAnswer(m: Memory, id: string, simulation: bool, answer: Option<Answer>, t: int): Memory {
    if answer.None? || DateCheck(answer.value, t).Some? then m.(now := t)
    else
      Memory(m.cache[id := Entry(answer.value, t + Ttl(simulation))], t, m.history + [Resolved(id, answer.value, t, Ttl(simulation))])
  }

  function Given(answer: Option<Answer>, t: int): Result {
    match answer
    case None => Refused(ResolverFailed)
    case Some(a) => (match DateCheck(a, t) case None => Found(a, None) case Some(why) => Refused(why))
  }

  /** Reading keeps the memory consistent and serves the last accepted answer while its time to live lasts. */
  lemma ReadKeeps(m: Memory, id: string, t: int)
    requires Consistent(m) && m.now <= t
    ensures Consistent(AfterRead(m, id, t)) && Cached(m, id, t) == Served(m.history, id, t)
  {
    hide Last;
    assert EntryOf(m, id);
    forall other: string ensures EntryOf(AfterRead(m, id, t), other) {
      assert EntryOf(m, other);
    }
  }

  lemma AnswerKeeps(m: Memory, id: string, simulation: bool, answer: Option<Answer>, t: int)
    requires Consistent(m) && m.now <= t
    ensures Consistent(AfterAnswer(m, id, simulation, answer, t))
  {
    hide Last;
    var n := AfterAnswer(m, id, simulation, answer, t);
    forall other: string ensures EntryOf(n, other) {
      assert EntryOf(m, other);
      if answer.Some? {
        LastOther(m.history, Resolved(id, answer.value, t, Ttl(simulation)), other);
      }
    }
  }

  /** A served answer is sound, now and however many answers are accepted later. */
  lemma ServedSound(history: seq<Resolved>, id: string, t: int, now: int)
    requires Known(history, now) && now <= t && Served(history, id, t).Some?
    ensures Sound(history, id, Served(history, id, t).value.answer, t)
  {
    LastIn(history, id);
  }

  class Lookup {
    var cache: map<string, Entry>
    var now: int
    ghost var history: seq<Resolved>

    ghost function View(): Memory
      reads this
    {
      Memory(cache, now, history)
    }

    ghost predicate Valid()
      reads this
    {
      Consistent(View())
    }

    constructor (start: int)
      ensures Valid() && View() == Memory(map[], start, [])
    {
      cache, now, history := map[], start, [];
    }

    method CacheGet(id: string, t: int) returns (e: Option<Entry>)
      requires Valid() && now <= t
      modifies this`cache, this`now
      ensures Valid() && View() == AfterRead(old(View()), id, t)
      ensures e == Served(history, id, t) && history == old(history)
      ensures e.Some? <==> Last(history, id).Some? && t <= Last(history, id).value.at + Last(history, id).value.ttl
      ensures e.Some? ==> e.value.answer == Last(history, id).value.answer
      ensures cache == if e.Some? then old(cache) else old(cache) - {id}
    {
      ReadKeeps(View(), id, t);
      now := t;
      if id !in cache {
        return None;
      }
      if cache[id].expiresAt < t {
        cache := cache - {id};
        return None;
      }
      return Some(cache[id]);
    }

    method Resolve(id: string, simulation: bool, answer: Option<Answer>, t: int) returns (r: Result)
      requires Valid() && now <= t
      modifies this
      ensures Valid() && View() == AfterAnswer(old(View()), id, simulation, answer, t)
      ensures r.Found? <==> answer.Some? && InForce(answer.value, t)
      ensures r.Found? ==> r.answer == answer.value && r.expiresAt == None
      ensures r == Refused(ResolverFailed) <==> answer == None
      ensures r == Refused(NotActive) <==> answer.Some? && answer.value.activation.Some? && t < answer.value.activation.value
      ensures r.Refused? ==> r.why in {ResolverFailed, NotActive, Expired}
      ensures r.Refused? ==> history == old(history) && cache == old(cache)
      ensures r.Found? ==> Served(history, id, t) == Some(Entry(r.answer, t + if simulation then 300_000 else 600_000))
    {
      AnswerKeeps(View(), id, simulation, answer, t);
      now := t;
      match answer {
        case None => return Refused(ResolverFailed);
        case Some(a) =>
          var check := DateCheck(a, t);
          if check.Some? {
            return Refused(check.value);
          }
          LastOther(history, Resolved(id, a, t, Ttl(simulation)), id);
          cache := cache[id := Entry(a, t + Ttl(simulation))];
          history := history + [Resolved(id, a, t, Ttl(simulation))];
          return Found(a, None);
      }
    }

    /** A whole lookup: the cache is read at time t, and on a miss the resolver answers at a time u, t <= u. */
    method LookupParticipant(id: string, simulation: bool, answer: Option<Answer>, t: int, u: int) returns (r: Result)
      requires Valid() && now <= t <= u
      modifies this
      ensures Valid()
      ensures r.Found? ==> IdCheck(id) == None && Sound(history, id, r.answer, now)
      ensures IdCheck(id) == None && Served(old(history), id, t).Some? ==> r == Hit(Served(old(history), id, t).value)
      ensures forall other :: other != id ==> Last(history, other) == Last(old(history), other)
      ensures r.Refused? || r.expiresAt.Some? ==> history == old(history)
    {
      var check := IdCheck(id);
      if check.Some? {
        return Refused(check.value);
      }
      var cached := CacheGet(id, t);
      if cached.Some? {
        ServedSound(history, id, t, t);
        return Found(cached.value.answer, Some(cached.value.expiresAt));
      }
      r := Resolve(id, simulation, answer, u);
      if r.Found? {
        ghost var h := history[|history| - 1];
        assert h in history;
        forall other: string ensures other != id ==> Last(history, other) == Last(old(history), other) {
          LastOther(old(history), h, other);
        }
      }
    }
  }
}
