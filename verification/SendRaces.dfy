/**
 * A send saves its record only after the message is out, so signals for it can arrive first. Here the save comes at any
 * place of any schedule of signal handlers, on a log that does not have the record yet.
 */
module SendRaces {
  import opened Options
  import opened TxLog
  import opened Interleaving

  /** The rows after a schedule in which the record is saved once n actions are over. */
  function RaceRun(hs: seq<Event>, log: Log, id: string, tx: Tx, acts: seq<Action>, n: nat): Rows
    requires Handlers(hs) && n <= |acts| && forall i :: 0 <= i < |acts| ==> acts[i].h < |hs|
    decreases |acts|
  {
    if |acts| == n then
      var s := RowRun(hs, log, acts);
      s.(log := s.log[Some(id) := tx])
    else RowStep(hs, RaceRun(hs, log, id, tx, acts[..|acts| - 1], n), acts[|acts| - 1])
  }

  /** The handler of a signal for the record that reads before the record is there. */
  predicate Early(hs: seq<Event>, id: string, acts: seq<Action>, n: nat, h: nat)
    requires Handlers(hs) && n <= |acts|
  {
    h < |hs| && hs[h].ref == id && Read(h) in acts[..n]
  }

  /** The schedule without those handlers. */
  function Heard(hs: seq<Event>, id: string, all: seq<Action>, n: nat, acts: seq<Action>): seq<Action>
    requires Handlers(hs) && n <= |all|
  {
    if acts == [] then []
    else
      var a := acts[|acts| - 1];
      Heard(hs, id, all, n, acts[..|acts| - 1]) + if Early(hs, id, all, n, a.h) then [] else [a]
  }

  lemma {:induction false} HeardIn(hs: seq<Event>, id: string, all: seq<Action>, n: nat, acts: seq<Action>)
    requires Handlers(hs) && n <= |all|
    ensures forall a :: a in Heard(hs, id, all, n, acts) <==> a in acts && !Early(hs, id, all, n, a.h)
  {
    if acts != [] {
      HeardIn(hs, id, all, n, acts[..|acts| - 1]);
      assert acts == acts[..|acts| - 1] + [acts[|acts| - 1]];
    }
  }

  lemma HeardStep(hs: seq<Event>, id: string, all: seq<Action>, n: nat, m: nat)
    requires Handlers(hs) && n <= |all| && 0 < m <= |all|
    ensures Heard(hs, id, all, n, all[..m])
      == if Early(hs, id, all, n, all[m - 1].h) then Heard(hs, id, all, n, all[..m - 1])
         else Heard(hs, id, all, n, all[..m - 1]) + [all[m - 1]]
  {
    assert all[..m][..m - 1] == all[..m - 1];
    assert Heard(hs, id, all, n, all[..m - 1]) + [] == Heard(hs, id, all, n, all[..m - 1]);
  }

  // ----- what remains is a schedule

  lemma ScheduleFront(hs: seq<Event>, acts: seq<Action>)
    requires Schedule(hs, acts) && acts != []
    ensures var front, a := acts[..|acts| - 1], acts[|acts| - 1];
      Schedule(hs, front) && a.h < |hs| && a !in front && (a.Save? ==> Read(a.h) in front)
  {
    var front := acts[..|acts| - 1];
    forall k | 0 <= k < |front| && front[k].Save? ensures Read(front[k].h) in front[..k] {
      assert front[..k] == acts[..k];
    }
  }

  lemma ScheduleSnoc(hs: seq<Event>, front: seq<Action>, a: Action)
    requires Schedule(hs, front) && a.h < |hs| && a !in front && (a.Save? ==> Read(a.h) in front)
    ensures Schedule(hs, front + [a])
  {
    var acts := front + [a];
    forall k | 0 <= k < |acts| && acts[k].Save? ensures Read(acts[k].h) in acts[..k] {
      assert acts[..k] == front[..k];
    }
  }

  lemma {:induction false} HeardSchedule(hs: seq<Event>, id: string, all: seq<Action>, n: nat, acts: seq<Action>)
    requires Handlers(hs) && n <= |all| && Schedule(hs, acts)
    ensures Schedule(hs, Heard(hs, id, all, n, acts))
  {
    hide Schedule, Early;
    if acts == [] {
      assert Heard(hs, id, all, n, acts) == acts;
    } else {
      var front, a := acts[..|acts| - 1], acts[|acts| - 1];
      ScheduleFront(hs, acts);
      HeardSchedule(hs, id, all, n, front);
      if !Early(hs, id, all, n, a.h) {
        HeardIn(hs, id, all, n, front);
        ScheduleSnoc(hs, Heard(hs, id, all, n, front), a);
      } else {
        assert Heard(hs, id, all, n, acts) == Heard(hs, id, all, n, front);
      }
    }
  }

  /** Three actions keep their order. */
  lemma {:induction false} HeardOrder(hs: seq<Event>, id: string, all: seq<Action>, n: nat, acts: seq<Action>, i: nat, j: nat, k: nat)
    returns (x: nat, y: nat, z: nat)
    requires Handlers(hs) && n <= |all| && i < j < k < |Heard(hs, id, all, n, acts)|
    ensures x < y < z < |acts|
    ensures var heard := Heard(hs, id, all, n, acts); acts[x] == heard[i] && acts[y] == heard[j] && acts[z] == heard[k]
  {
    hide Early;
    var front, a := acts[..|acts| - 1], acts[|acts| - 1];
    if k < |Heard(hs, id, all, n, front)| {
      x, y, z := HeardOrder(hs, id, all, n, front, i, j, k);
    } else {
      x, y := HeardPair(hs, id, all, n, front, i, j);
      z := |acts| - 1;
    }
  }

  lemma {:induction false} HeardPair(hs: seq<Event>, id: string, all: seq<Action>, n: nat, acts: seq<Action>, i: nat, j: nat)
    returns (x: nat, y: nat)
    requires Handlers(hs) && n <= |all| && i < j < |Heard(hs, id, all, n, acts)|
    ensures x < y < |acts|
    ensures var heard := Heard(hs, id, all, n, acts); acts[x] == heard[i] && acts[y] == heard[j]
  {
    hide Early;
    var front, a := acts[..|acts| - 1], acts[|acts| - 1];
    if j < |Heard(hs, id, all, n, front)| {
      x, y := HeardPair(hs, id, all, n, front, i, j);
    } else {
      HeardIn(hs, id, all, n, front);
      assert Heard(hs, id, all, n, front)[i] in front;
      x :| 0 <= x < |front| && front[x] == Heard(hs, id, all, n, front)[i];
      y := |acts| - 1;
    }
  }

  lemma HeardSeparate(hs: seq<Event>, id: string, acts: seq<Action>, n: nat)
    requires Handlers(hs) && n <= |acts| && Schedule(hs, acts) && Separate(hs, acts)
    ensures Schedule(hs, Heard(hs, id, acts, n, acts)) && Separate(hs, Heard(hs, id, acts, n, acts))
  {
    hide Heard, Early;
    HeardSchedule(hs, id, acts, n, acts);
    var heard := Heard(hs, id, acts, n, acts);
    forall i, j, k | 0 <= i < j < k < |heard| && heard[i].Read? && heard[j].Save? && heard[k] == Save(heard[i].h)
      ensures Apart(hs[heard[j].h].ref, hs[heard[i].h].ref)
    {
      var x, y, z := HeardOrder(hs, id, acts, n, acts, i, j, k);
    }
  }

  // ----- the race against the run in which the record was there all along

  /** Before the save: the same rows but for the record, which is in the one and not in the other. */
  ghost predicate Missing(hs: seq<Event>, id: string, tx: Tx, all: seq<Action>, n: nat, race: Rows, run: Rows)
    requires Handlers(hs) && n <= |all|
  {
    && Some(id) !in race.log && run.log == race.log[Some(id) := tx]
    && Alike(hs, id, all, n, race, run)
  }

  /** Early handlers found nothing; the others hold the same. */
  ghost predicate Alike(hs: seq<Event>, id: string, all: seq<Action>, n: nat, race: Rows, run: Rows)
    requires Handlers(hs) && n <= |all|
  {
    forall h: nat :: if Early(hs, id, all, n, h) then h in race.held ==> race.held[h] == None
      else (h in race.held <==> h in run.held) && (h in race.held ==> race.held[h] == run.held[h])
  }

  lemma MissingRead(hs: seq<Event>, id: string, tx: Tx, all: seq<Action>, n: nat, h: nat, race: Rows, run: Rows)
    requires Handlers(hs) && n <= |all| && Missing(hs, id, tx, all, n, race, run) && h < |hs| && Read(h) in all[..n]
    ensures Missing(hs, id, tx, all, n, RowStep(hs, race, Read(h)), if Early(hs, id, all, n, h) then run else RowStep(hs, run, Read(h)))
  {
    if Early(hs, id, all, n, h) {
      assert Seen(race.log, hs[h]) == None;
    } else {
      assert Seen(race.log, hs[h]) == Seen(run.log, hs[h]);
    }
  }

  /** A record found on an early read is another one than the one that is missing. */
  lemma WriteBeside(log: Log, e: Event, seen: Option<Tx>, id: string, tx: Tx)
    requires !e.Recorded? && e.ref != id && Some(id) !in log
    ensures Some(id) !in Write(log, e, seen)
    ensures Write(log[Some(id) := tx], e, seen) == Write(log, e, seen)[Some(id) := tx]
  {
  }

  lemma MissingSave(hs: seq<Event>, id: string, tx: Tx, all: seq<Action>, n: nat, h: nat, race: Rows, run: Rows)
    requires Handlers(hs) && n <= |all| && Missing(hs, id, tx, all, n, race, run) && h < |hs| && Read(h) in all[..n]
    ensures Missing(hs, id, tx, all, n, RowStep(hs, race, Save(h)), if Early(hs, id, all, n, h) then run else RowStep(hs, run, Save(h)))
  {
    if Early(hs, id, all, n, h) {
      assert h in race.held ==> Write(race.log, hs[h], None) == race.log;
    } else if h in race.held {
      WriteBeside(race.log, hs[h], race.held[h], id, tx);
    }
  }

  lemma MissingStep(hs: seq<Event>, id: string, tx: Tx, all: seq<Action>, n: nat, a: Action, race: Rows, run: Rows)
    requires Handlers(hs) && n <= |all| && Missing(hs, id, tx, all, n, race, run) && a.h < |hs| && Read(a.h) in all[..n]
    ensures Missing(hs, id, tx, all, n, RowStep(hs, race, a), if Early(hs, id, all, n, a.h) then run else RowStep(hs, run, a))
  {
    hide Missing, Early, RowStep;
    match a
    case Read(h) => MissingRead(hs, id, tx, all, n, h, race, run);
    case Save(h) => MissingSave(hs, id, tx, all, n, h, race, run);
  }

  lemma AlikeStep(hs: seq<Event>, id: string, all: seq<Action>, n: nat, a: Action, race: Rows, run: Rows)
    requires Handlers(hs) && n <= |all| && race.log == run.log && Alike(hs, id, all, n, race, run) && a.h < |hs|
    requires a.Read? ==> !Early(hs, id, all, n, a.h)
    ensures var next := if Early(hs, id, all, n, a.h) then run else RowStep(hs, run, a);
      RowStep(hs, race, a).log == next.log && Alike(hs, id, all, n, RowStep(hs, race, a), next)
  {
    var e := hs[a.h];
    if Early(hs, id, all, n, a.h) && a.h in race.held {
      assert race.held[a.h] == None && Write(race.log, e, None) == race.log;
    }
  }

  lemma HeardBounds(hs: seq<Event>, id: string, all: seq<Action>, n: nat, acts: seq<Action>)
    requires Handlers(hs) && n <= |all| && forall i :: 0 <= i < |acts| ==> acts[i].h < |hs|
    ensures forall i :: 0 <= i < |Heard(hs, id, all, n, acts)| ==> Heard(hs, id, all, n, acts)[i].h < |hs|
  {
    hide Early;
    HeardIn(hs, id, all, n, acts);
    forall i | 0 <= i < |Heard(hs, id, all, n, acts)| ensures Heard(hs, id, all, n, acts)[i].h < |hs| {
      assert Heard(hs, id, all, n, acts)[i] in acts;
    }
  }

  lemma RowRunSnoc(hs: seq<Event>, log: Log, acts: seq<Action>, a: Action)
    requires Handlers(hs) && (forall i :: 0 <= i < |acts| ==> acts[i].h < |hs|) && a.h < |hs|
    ensures RowRun(hs, log, acts + [a]) == RowStep(hs, RowRun(hs, log, acts), a)
  {
    assert (acts + [a])[..|acts|] == acts;
  }

  /** The rows of the schedule without the early handlers, on the log that has the record. */
  function HeardRun(hs: seq<Event>, log: Log, id: string, tx: Tx, all: seq<Action>, n: nat, m: nat): Rows
    requires Handlers(hs) && n <= |all| && m <= |all| && forall i :: 0 <= i < |all| ==> all[i].h < |hs|
  {
    HeardBounds(hs, id, all, n, all[..m]);
    RowRun(hs, log[Some(id) := tx], Heard(hs, id, all, n, all[..m]))
  }

  lemma HeardRunStep(hs: seq<Event>, log: Log, id: string, tx: Tx, all: seq<Action>, n: nat, m: nat)
    requires Handlers(hs) && n <= |all| && 0 < m <= |all| && forall i :: 0 <= i < |all| ==> all[i].h < |hs|
    ensures var before, a := HeardRun(hs, log, id, tx, all, n, m - 1), all[m - 1];
      HeardRun(hs, log, id, tx, all, n, m) == if Early(hs, id, all, n, a.h) then before else RowStep(hs, before, a)
  {
    hide Early, Heard, RowRun, RowStep;
    HeardBounds(hs, id, all, n, all[..m - 1]);
    HeardStep(hs, id, all, n, m);
    if !Early(hs, id, all, n, all[m - 1].h) {
      RowRunSnoc(hs, log[Some(id) := tx], Heard(hs, id, all, n, all[..m - 1]), all[m - 1]);
    }
  }

  lemma PrefixAction(hs: seq<Event>, all: seq<Action>, n: nat, m: nat)
    requires Schedule(hs, all) && 0 < m <= n <= |all|
    ensures all[m - 1].h < |hs| && Read(all[m - 1].h) in all[..n]
  {
    assert all[..n][m - 1] == all[m - 1];
    if all[m - 1].Save? {
      var i := ReadBefore(hs, all, m);
      assert all[..n][i] == all[i];
    }
  }

  /** Until the save. */
  lemma {:induction false} MissingRun(hs: seq<Event>, log: Log, id: string, tx: Tx, all: seq<Action>, n: nat, m: nat)
    requires Handlers(hs) && Schedule(hs, all) && m <= n <= |all| && Some(id) !in log
    ensures Missing(hs, id, tx, all, n, RowRun(hs, log, all[..m]), HeardRun(hs, log, id, tx, all, n, m))
  {
    hide Missing, Schedule, RowStep, Early, HeardRun;
    ScheduleBounds(hs, all);
    if m == 0 {
      MissingStart(hs, log, id, tx, all, n);
    } else {
      MissingRun(hs, log, id, tx, all, n, m - 1);
      RowRunStep(hs, log, all, m);
      HeardRunStep(hs, log, id, tx, all, n, m);
      PrefixAction(hs, all, n, m);
      MissingStep(hs, id, tx, all, n, all[m - 1], RowRun(hs, log, all[..m - 1]), HeardRun(hs, log, id, tx, all, n, m - 1));
    }
  }

  lemma MissingStart(hs: seq<Event>, log: Log, id: string, tx: Tx, all: seq<Action>, n: nat)
    requires Handlers(hs) && n <= |all| && Some(id) !in log && forall i :: 0 <= i < |all| ==> all[i].h < |hs|
    ensures Missing(hs, id, tx, all, n, RowRun(hs, log, all[..0]), HeardRun(hs, log, id, tx, all, n, 0))
  {
    hide Early;
    assert all[..0] == [];
    assert RowRun(hs, log, []) == Rows(log, map[]);
    assert HeardRun(hs, log, id, tx, all, n, 0) == Rows(log[Some(id) := tx], map[]);
  }

  /** A handler reads once, so a read after the save is not an early one's. */
  lemma LateRead(hs: seq<Event>, id: string, all: seq<Action>, n: nat, m: nat)
    requires Handlers(hs) && Schedule(hs, all) && n < m <= |all| && all[m - 1].Read?
    ensures !Early(hs, id, all, n, all[m - 1].h)
  {
  }

  lemma RaceRunStep(hs: seq<Event>, log: Log, id: string, tx: Tx, all: seq<Action>, n: nat, m: nat)
    requires Handlers(hs) && n < m <= |all| && forall i :: 0 <= i < |all| ==> all[i].h < |hs|
    ensures RaceRun(hs, log, id, tx, all[..m], n) == RowStep(hs, RaceRun(hs, log, id, tx, all[..m - 1], n), all[m - 1])
  {
    assert all[..m][..m - 1] == all[..m - 1];
  }

  /** From the save on. */
  lemma {:induction false} AlikeRun(hs: seq<Event>, log: Log, id: string, tx: Tx, all: seq<Action>, n: nat, m: nat)
    requires Handlers(hs) && Schedule(hs, all) && n <= m <= |all| && Some(id) !in log
    ensures all[..m][..n] == all[..n]
    ensures forall i :: 0 <= i < |all| ==> all[i].h < |hs|
    ensures var race, run := RaceRun(hs, log, id, tx, all[..m], n), HeardRun(hs, log, id, tx, all, n, m);
      race.log == run.log && Alike(hs, id, all, n, race, run)
  {
    hide Schedule, RowStep, Early, HeardRun, Alike, RowRun, Once;
    ScheduleBounds(hs, all);
    if m == n {
      MissingRun(hs, log, id, tx, all, n, n);
      SaveComes(hs, id, tx, all, n, RowRun(hs, log, all[..n]), HeardRun(hs, log, id, tx, all, n, n));
    } else {
      AlikeRun(hs, log, id, tx, all, n, m - 1);
      RaceRunStep(hs, log, id, tx, all, n, m);
      HeardRunStep(hs, log, id, tx, all, n, m);
      if all[m - 1].Read? {
        LateRead(hs, id, all, n, m);
      }
      AlikeStep(hs, id, all, n, all[m - 1], RaceRun(hs, log, id, tx, all[..m - 1], n), HeardRun(hs, log, id, tx, all, n, m - 1));
    }
  }

  lemma SaveComes(hs: seq<Event>, id: string, tx: Tx, all: seq<Action>, n: nat, race: Rows, run: Rows)
    requires Handlers(hs) && n <= |all| && Missing(hs, id, tx, all, n, race, run)
    ensures var saved := race.(log := race.log[Some(id) := tx]); saved.log == run.log && Alike(hs, id, all, n, saved, run)
  {
    hide Early;
  }

  /**
   * Wherever the send's save comes: the log is that of the schedule in which the record was there from the start and the
   * handlers that read too early never ran.
   */
  lemma SaveAnywhere(hs: seq<Event>, log: Log, id: string, tx: Tx, acts: seq<Action>, n: nat)
    requires Handlers(hs) && Schedule(hs, acts) && n <= |acts| && Some(id) !in log
    ensures Schedule(hs, Heard(hs, id, acts, n, acts))
    ensures RaceRun(hs, log, id, tx, acts, n).log == RowRun(hs, log[Some(id) := tx], Heard(hs, id, acts, n, acts)).log
  {
    hide Schedule, Heard, RowRun, Early;
    HeardSchedule(hs, id, acts, n, acts);
    AlikeRun(hs, log, id, tx, acts, n, |acts|);
    assert acts[..|acts|] == acts;
  }

  /** When handlers of one reference do not overlap: exactly the signals whose handlers read too early are lost. */
  lemma EarlySignalsLost(hs: seq<Event>, log: Log, id: string, tx: Tx, acts: seq<Action>, n: nat)
    requires Handlers(hs) && Schedule(hs, acts) && Separate(hs, acts) && n <= |acts| && Some(id) !in log
    ensures Schedule(hs, Heard(hs, id, acts, n, acts))
    ensures RaceRun(hs, log, id, tx, acts, n).log == Run(log[Some(id) := tx], Saved(hs, Heard(hs, id, acts, n, acts)))
  {
    hide Schedule, Separate, Heard, RaceRun, RowRun, Run, Saved, Early, Once;
    SaveAnywhere(hs, log, id, tx, acts, n);
    HeardSeparate(hs, id, acts, n);
    var heard := Heard(hs, id, acts, n, acts);
    RowsAreSequential(hs, log[Some(id) := tx], heard, |heard|);
    assert heard[..|heard|] == heard;
  }

  // ----- when nothing is lost

  /** These signals, arriving in this order, leave the log. */
  ghost predicate Arriving(result: Log, start: Log, signals: seq<Event>, order: seq<Event>) {
    multiset(order) == multiset(signals) && result == Run(start, order)
  }

  ghost predicate Arrived(result: Log, start: Log, signals: seq<Event>) {
    exists order: seq<Event> :: Arriving(result, start, signals, order)
  }

  /** The save and then every signal, in some order. */
  ghost predicate AllArrive(hs: seq<Event>, log: Log, id: string, tx: Tx, acts: seq<Action>, n: nat)
    requires Handlers(hs) && n <= |acts| && forall i :: 0 <= i < |acts| ==> acts[i].h < |hs|
  {
    Arrived(RaceRun(hs, log, id, tx, acts, n).log, log[Some(id) := tx], Saved(hs, acts))
  }

  /** So with any signals of these references, on any log and with any record. */
  ghost predicate NothingLost(hs: seq<Event>, id: string, acts: seq<Action>, n: nat)
    requires Handlers(hs) && n <= |acts| && forall i :: 0 <= i < |acts| ==> acts[i].h < |hs|
  {
    forall es: seq<Event>, log: Log, tx: Tx :: Handlers(es) && SameRefs(es, hs) && Some(id) !in log ==>
      AllArrive(es, log, id, tx, acts, n)
  }

  lemma {:induction false} AllHeard(hs: seq<Event>, id: string, all: seq<Action>, n: nat, acts: seq<Action>)
    requires Handlers(hs) && n <= |all| && (forall i :: 0 <= i < |acts| ==> acts[i].h < |hs|)
    requires forall a <- acts :: a.Save? ==> !Early(hs, id, all, n, a.h)
    ensures forall i :: 0 <= i < |Heard(hs, id, all, n, acts)| ==> Heard(hs, id, all, n, acts)[i].h < |hs|
    ensures Saved(hs, Heard(hs, id, all, n, acts)) == Saved(hs, acts)
  {
    hide Early;
    if acts != [] {
      var front, a := acts[..|acts| - 1], acts[|acts| - 1];
      AllHeard(hs, id, all, n, front);
      var heard := Heard(hs, id, all, n, front);
      if Early(hs, id, all, n, a.h) {
        assert Heard(hs, id, all, n, acts) == heard;
      } else {
        assert (heard + [a])[..|heard|] == heard;
      }
    }
  }

  /** Errors only leave no receipt. */
  lemma {:induction false} NoReceipt(ref: string, events: seq<Event>)
    requires forall e <- events :: e.GotError?
    ensures Some(ref) in Run(OneRecord(ref), events) && Run(OneRecord(ref), events)[Some(ref)].receiptXml == None
  {
    if events != [] {
      NoReceipt(ref, events[..|events| - 1]);
      assert events[|events| - 1].GotError?;
    }
  }

  lemma SameEarly(es: seq<Event>, hs: seq<Event>, id: string, acts: seq<Action>, n: nat, h: nat)
    requires Handlers(es) && Handlers(hs) && SameRefs(es, hs) && n <= |acts|
    ensures Early(es, id, acts, n, h) <==> Early(hs, id, acts, n, h)
  {
  }

  lemma {:induction false} SavedErrors(hs: seq<Event>, m: nat, acts: seq<Action>)
    requires Handlers(hs) && (forall i :: 0 <= i < |acts| ==> acts[i].h < |hs|) && Save(m) !in acts
    ensures forall e <- Saved(Probe(hs, m), acts) :: e.GotError?
  {
    if acts != [] {
      var front, a := acts[..|acts| - 1], acts[|acts| - 1];
      assert acts == front + [a];
      SavedErrors(hs, m, front);
    }
  }

  /** The receipt of an early handler is lost, which it is in no order of the signals. */
  lemma EarlyLost(hs: seq<Event>, id: string, acts: seq<Action>, n: nat, m: nat)
    requires Handlers(hs) && Schedule(hs, acts) && Separate(hs, acts) && n <= |acts| && id != ""
    requires Save(m) in acts && Early(hs, id, acts, n, m)
    ensures !NothingLost(hs, id, acts, n)
  {
    hide Schedule, Separate, Heard, RaceRun, Run, Saved, Once;
    var es := Probe(hs, m);
    ScheduleBounds(hs, acts);
    SameSchedule(es, hs, acts);
    SameSeparate(es, hs, acts);
    EarlySignalsLost(es, map[], id, Blank(), acts, n);
    var heard := Heard(es, id, acts, n, acts);
    SameEarly(es, hs, id, acts, n, m);
    HeardIn(es, id, acts, n, acts);
    ScheduleBounds(es, heard);
    SavedErrors(hs, m, heard);
    NoReceipt(id, Saved(es, heard));
    ProbesOnly(hs, acts, m);
    forall order: seq<Event>
      ensures !Arriving(RaceRun(es, map[], id, Blank(), acts, n).log, OneRecord(id), Saved(es, acts), order) {
      if multiset(order) == multiset(Saved(es, acts)) {
        SameMembers(order, Saved(es, acts));
        ReceiptStays(id, order);
      }
    }
    assert !AllArrive(es, map[], id, Blank(), acts, n);
  }

  /**
   * Whatever the signals, the send and its signals leave what the save and then all signals leave if and only if none of
   * the handlers that run to their end reads before the save.
   */
  lemma NothingLostExactly(hs: seq<Event>, id: string, acts: seq<Action>, n: nat)
    requires Handlers(hs) && Schedule(hs, acts) && Separate(hs, acts) && n <= |acts| && id != ""
    ensures NothingLost(hs, id, acts, n) <==> forall a <- acts :: a.Save? ==> !Early(hs, id, acts, n, a.h)
  {
    hide Schedule, Separate, Heard, RaceRun, Run, Saved, Once, Early;
    ScheduleBounds(hs, acts);
    if forall a <- acts :: a.Save? ==> !Early(hs, id, acts, n, a.h) {
      forall es: seq<Event>, log: Log, tx: Tx | Handlers(es) && SameRefs(es, hs) && Some(id) !in log
        ensures AllArrive(es, log, id, tx, acts, n) {
        SameSchedule(es, hs, acts);
        SameSeparate(es, hs, acts);
        EarlySignalsLost(es, log, id, tx, acts, n);
        forall h: nat ensures Early(es, id, acts, n, h) <==> Early(hs, id, acts, n, h) {
          SameEarly(es, hs, id, acts, n, h);
        }
        AllHeard(es, id, acts, n, acts);
        assert Arriving(RaceRun(es, log, id, tx, acts, n).log, log[Some(id) := tx], Saved(es, acts), Saved(es, acts));
      }
    } else {
      var a :| a in acts && a.Save? && Early(hs, id, acts, n, a.h);
      EarlyLost(hs, id, acts, n, a.h);
    }
  }

  /** One send and one receipt: the receipt arrives if its handler reads after the save and is lost otherwise. */
  lemma OneReceipt(log: Log, id: string, tx: Tx, text: string, n: nat)
    requires Some(id) !in log && id != "" && n <= 2
    ensures RaceRun([GotReceipt(id, text)], log, id, tx, [Read(0), Save(0)], n).log
      == log[Some(id) := if n == 0 then tx.(status := ReceiptReceived, receiptXml := Some(text)) else tx]
  {
    var hs, read, acts := [GotReceipt(id, text)], [Read(0)], [Read(0), Save(0)];
    assert acts[..1] == read && read[..0] == [] && acts[..2] == acts;
    assert RowRun(hs, log, []) == Rows(log, map[]);
    var found := if n == 0 then Some(tx) else None;
    assert n <= 1 ==> RaceRun(hs, log, id, tx, read, n) == Rows(log[Some(id) := tx], map[0 := found]);
    assert n == 2 ==> RowRun(hs, log, read) == Rows(log, map[0 := found]) && RowRun(hs, log, acts).log == log;
  }
}
