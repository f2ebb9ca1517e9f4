/**
 * Signal handlers split at their awaits: each reads the record, and later changes and saves it. The table adapter hands
 * out a copy of the row; `SharedObjects` is about the in-memory adapter, which hands out the stored object itself.
 */
module Interleaving {
  import opened Options
  import opened TxLog

  /** Handler h reads, or changes and saves. */
  datatype Action = Read(h: nat) | Save(h: nat)

  /** What a handler finds; an absent reference is not looked up. */
  function Seen(log: Log, e: Event): Option<Tx>
    requires !e.Recorded?
  {
    if e.ref == "" then None else Lookup(log, Some(e.ref))
  }

  function Write(log: Log, e: Event, seen: Option<Tx>): Log
    requires !e.Recorded?
  {
    match Update(seen, e)
    case None => log
    case Some(t) => log[Some(e.ref) := t]
  }

  /** A handler that saves what it just read does what one step of the log does. */
  lemma FreshWrite(log: Log, e: Event)
    requires !e.Recorded?
    ensures Write(log, e, Seen(log, e)) == Step(log, e)
  {
  }

  // ----- schedules

  predicate Handlers(hs: seq<Event>) {
    forall e <- hs :: !e.Recorded?
  }

  /** No action happens twice, and a handler saves only after it has read. */
  predicate Schedule(hs: seq<Event>, acts: seq<Action>) {
    && (forall i :: 0 <= i < |acts| ==> acts[i].h < |hs|)
    && Once(acts)
    && (forall k :: 0 <= k < |acts| && acts[k].Save? ==> Read(acts[k].h) in acts[..k])
  }

  /** Handlers of one (present) reference do not overlap: none saves between another's read and save. */
  predicate Separate(hs: seq<Event>, acts: seq<Action>)
    requires Handlers(hs) && Schedule(hs, acts)
  {
    forall i, j, k :: 0 <= i < j < k < |acts| && acts[i].Read? && acts[j].Save? && acts[k] == Save(acts[i].h)
      ==> Apart(hs[acts[j].h].ref, hs[acts[i].h].ref)
  }

  /** Handlers of absent references look nothing up, so they never meet. */
  predicate Apart(ref: string, other: string) {
    ref != other || other == ""
  }

  lemma SeparateAt(hs: seq<Event>, acts: seq<Action>, i: nat, j: nat, k: nat)
    requires Handlers(hs) && Schedule(hs, acts) && Separate(hs, acts)
    requires i < j < k < |acts| && acts[i].Read? && acts[k] == Save(acts[i].h)
    ensures acts[j] != acts[i] && (acts[j].Save? ==> Apart(hs[acts[j].h].ref, hs[acts[i].h].ref))
  {
  }

  /** The handlers' signals in the order in which they save. */
  function Saved(hs: seq<Event>, acts: seq<Action>): seq<Event>
    requires forall i :: 0 <= i < |acts| ==> acts[i].h < |hs|
  {
    if acts == [] then []
    else
      var n := |acts| - 1;
      Saved(hs, acts[..n]) + if acts[n].Save? then [hs[acts[n].h]] else []
  }

  /** An action's signal, if it is the save of one of the first n handlers. */
  function Part(hs: seq<Event>, a: Action, n: nat): seq<Event>
    requires n <= |hs|
  {
    if a.Save? && a.h < n then [hs[a.h]] else []
  }

  function SavedBelow(hs: seq<Event>, acts: seq<Action>, n: nat): seq<Event>
    requires n <= |hs|
  {
    if acts == [] then [] else SavedBelow(hs, acts[..|acts| - 1], n) + Part(hs, acts[|acts| - 1], n)
  }

  predicate Once(acts: seq<Action>) {
    forall i, j :: 0 <= i < j < |acts| ==> acts[i] != acts[j]
  }

  function Extra(hs: seq<Event>, c: bool, n: nat): multiset<Event>
    requires n < |hs|
  {
    if c then multiset{hs[n]} else multiset{}
  }

  lemma PartAdds(hs: seq<Event>, a: Action, n: nat)
    requires n < |hs|
    ensures multiset(Part(hs, a, n + 1)) == multiset(Part(hs, a, n)) + Extra(hs, a == Save(n), n)
  {
  }

  lemma OnceFront(acts: seq<Action>, a: Action)
    requires acts != [] && Once(acts)
    ensures Once(acts[..|acts| - 1])
    ensures a in acts <==> a in acts[..|acts| - 1] || a == acts[|acts| - 1]
    ensures !(a in acts[..|acts| - 1] && a == acts[|acts| - 1])
  {
    assert acts == acts[..|acts| - 1] + [acts[|acts| - 1]];
  }

  lemma {:induction false} SavedAdds(hs: seq<Event>, acts: seq<Action>, n: nat)
    requires n < |hs| && Once(acts)
    ensures multiset(SavedBelow(hs, acts, n + 1)) == multiset(SavedBelow(hs, acts, n)) + Extra(hs, Save(n) in acts, n)
  {
    hide Part, Once;
    if acts != [] {
      var k := |acts| - 1;
      OnceFront(acts, Save(n));
      SavedAdds(hs, acts[..k], n);
      PartAdds(hs, acts[k], n);
    }
  }

  lemma {:induction false} SavedPrefix(hs: seq<Event>, acts: seq<Action>, n: nat)
    requires n <= |hs| && Once(acts) && forall h | 0 <= h < n :: Save(h) in acts
    ensures multiset(SavedBelow(hs, acts, n)) == multiset(hs[..n])
  {
    hide Part, Once, SavedBelow;
    if n == 0 {
      NoneBelow(hs, acts);
    } else {
      SavedPrefix(hs, acts, n - 1);
      SavedAdds(hs, acts, n - 1);
      assert hs[..n] == hs[..n - 1] + [hs[n - 1]];
    }
  }

  lemma {:induction false} NoneBelow(hs: seq<Event>, acts: seq<Action>)
    ensures SavedBelow(hs, acts, 0) == []
  {
    if acts != [] {
      NoneBelow(hs, acts[..|acts| - 1]);
    }
  }

  lemma {:induction false} SavedAll(hs: seq<Event>, acts: seq<Action>)
    requires forall i :: 0 <= i < |acts| ==> acts[i].h < |hs|
    ensures SavedBelow(hs, acts, |hs|) == Saved(hs, acts)
  {
    if acts != [] {
      SavedAll(hs, acts[..|acts| - 1]);
    }
  }

  /** When every handler runs to its end, its signal is saved exactly once. */
  lemma EverySignalOnce(hs: seq<Event>, acts: seq<Action>)
    requires Schedule(hs, acts) && forall h | 0 <= h < |hs| :: Save(h) in acts
    ensures multiset(Saved(hs, acts)) == multiset(hs)
  {
    SavedPrefix(hs, acts, |hs|);
    SavedAll(hs, acts);
    assert hs[..|hs|] == hs;
  }

  // ----- rows: a read copies

  datatype Rows = Rows(log: Log, held: map<nat, Option<Tx>>)

  function RowStep(hs: seq<Event>, s: Rows, a: Action): Rows
    requires Handlers(hs) && a.h < |hs|
  {
    match a
    case Read(h) => s.(held := s.held[h := Seen(s.log, hs[h])])
    case Save(h) => if h in s.held then s.(log := Write(s.log, hs[h], s.held[h])) else s
  }

  function RowRun(hs: seq<Event>, log: Log, acts: seq<Action>): Rows
    requires Handlers(hs) && forall i :: 0 <= i < |acts| ==> acts[i].h < |hs|
  {
    if acts == [] then Rows(log, map[]) else RowStep(hs, RowRun(hs, log, acts[..|acts| - 1]), acts[|acts| - 1])
  }

  /** What the handler holds is what the log says. */
  predicate Fresh(hs: seq<Event>, s: Rows, h: nat)
    requires Handlers(hs) && h < |hs|
  {
    h in s.held && s.held[h] == Seen(s.log, hs[h])
  }

  lemma ReadFresh(hs: seq<Event>, s: Rows, h: nat)
    requires Handlers(hs) && h < |hs|
    ensures Fresh(hs, RowStep(hs, s, Read(h)), h)
  {
  }

  lemma StaysFresh(hs: seq<Event>, s: Rows, a: Action, h: nat)
    requires Handlers(hs) && h < |hs| && a.h < |hs| && Fresh(hs, s, h)
    requires a != Read(h) && (a.Save? ==> Apart(hs[a.h].ref, hs[h].ref))
    ensures Fresh(hs, RowStep(hs, s, a), h)
  {
    if a.Save? && a.h in s.held {
      WriteElsewhere(s.log, hs[a.h], s.held[a.h], hs[h]);
    }
  }

  lemma WriteElsewhere(log: Log, e: Event, seen: Option<Tx>, other: Event)
    requires !e.Recorded? && !other.Recorded? && Apart(e.ref, other.ref)
    ensures Seen(Write(log, e, seen), other) == Seen(log, other)
  {
  }

  /** Between a handler's read and its save, what it holds is what the log says. */
  lemma {:induction false} HeldIsFresh(hs: seq<Event>, log: Log, acts: seq<Action>, i: nat, n: nat, k: nat)
    requires Handlers(hs) && Schedule(hs, acts) && Separate(hs, acts)
    requires i < n <= k < |acts| && acts[i].Read? && acts[k] == Save(acts[i].h)
    ensures Fresh(hs, RowRun(hs, log, acts[..n]), acts[i].h)
  {
    hide Fresh, RowStep, Separate;
    assert acts[..n][..n - 1] == acts[..n - 1];
    var h, s := acts[i].h, RowRun(hs, log, acts[..n - 1]);
    if i == n - 1 {
      ReadFresh(hs, s, h);
    } else {
      HeldIsFresh(hs, log, acts, i, n - 1, k);
      SeparateAt(hs, acts, i, n - 1, k);
      StaysFresh(hs, s, acts[n - 1], h);
    }
  }

  lemma RunAppend(log: Log, events: seq<Event>, e: Event)
    ensures Run(log, events + [e]) == Step(Run(log, events), e)
  {
    assert (events + [e])[..|events|] == events;
  }

  /** What one more action adds to the saved signals. */
  lemma SavedStep(hs: seq<Event>, acts: seq<Action>, n: nat)
    requires 0 < n <= |acts| && forall i :: 0 <= i < |acts| ==> acts[i].h < |hs|
    ensures Saved(hs, acts[..n])
      == if acts[n - 1].Save? then Saved(hs, acts[..n - 1]) + [hs[acts[n - 1].h]] else Saved(hs, acts[..n - 1])
  {
    assert acts[..n][..n - 1] == acts[..n - 1];
    assert Saved(hs, acts[..n - 1]) + [] == Saved(hs, acts[..n - 1]);
  }

  lemma RowRunStep(hs: seq<Event>, log: Log, acts: seq<Action>, n: nat)
    requires Handlers(hs) && 0 < n <= |acts| && forall i :: 0 <= i < |acts| ==> acts[i].h < |hs|
    ensures RowRun(hs, log, acts[..n]) == RowStep(hs, RowRun(hs, log, acts[..n - 1]), acts[n - 1])
  {
    assert acts[..n][..n - 1] == acts[..n - 1];
  }

  /** A handler that saves has read before. */
  lemma ReadBefore(hs: seq<Event>, acts: seq<Action>, n: nat) returns (i: nat)
    requires Schedule(hs, acts) && 0 < n <= |acts| && acts[n - 1].Save?
    ensures i < n - 1 && acts[i] == Read(acts[n - 1].h)
  {
    i :| 0 <= i < n - 1 && acts[..n - 1][i] == Read(acts[n - 1].h);
  }

  lemma ScheduleBounds(hs: seq<Event>, acts: seq<Action>)
    requires Schedule(hs, acts)
    ensures forall i :: 0 <= i < |acts| ==> acts[i].h < |hs|
  {
  }

  lemma RowSave(hs: seq<Event>, s: Rows, h: nat)
    requires Handlers(hs) && h < |hs| && Fresh(hs, s, h)
    ensures RowStep(hs, s, Save(h)).log == Step(s.log, hs[h])
  {
    FreshWrite(s.log, hs[h]);
  }

  /**
   * Every schedule in which handlers of one reference do not overlap leaves the log that running the handlers one after
   * another leaves, in the order of their saves.
   */
  lemma {:induction false} RowsAreSequential(hs: seq<Event>, log: Log, acts: seq<Action>, n: nat)
    requires Handlers(hs) && Schedule(hs, acts) && Separate(hs, acts) && n <= |acts|
    ensures RowRun(hs, log, acts[..n]).log == Run(log, Saved(hs, acts[..n]))
  {
    hide *;
    if n == 0 {
      StartRows(hs, log);
      assert acts[..0] == [];
    } else {
      ScheduleBounds(hs, acts);
      RowsAreSequential(hs, log, acts, n - 1);
      SavedStep(hs, acts, n);
      RowRunStep(hs, log, acts, n);
      var a, s := acts[n - 1], RowRun(hs, log, acts[..n - 1]);
      match a
      case Read(h) => ReadKeepsLog(hs, s, h);
      case Save(h) =>
        var i := ReadBefore(hs, acts, n);
        HeldIsFresh(hs, log, acts, i, n - 1, n - 1);
        RowSave(hs, s, h);
        RunAppend(log, Saved(hs, acts[..n - 1]), hs[h]);
    }
  }

  lemma StartRows(hs: seq<Event>, log: Log)
    requires Handlers(hs)
    ensures RowRun(hs, log, []).log == Run(log, Saved(hs, []))
  {
  }

  lemma ReadKeepsLog(hs: seq<Event>, s: Rows, h: nat)
    requires Handlers(hs) && h < |hs|
    ensures RowStep(hs, s, Read(h)).log == s.log
  {
  }

  // ----- what overlap does

  /** Two handlers that overlap: both read before either saves. */
  function OverlapRows(log: Log, hs: seq<Event>): Rows
    requires |hs| == 2 && Handlers(hs)
  {
    RowStep(hs, RowStep(hs, RowStep(hs, RowStep(hs, Rows(log, map[]), Read(0)), Read(1)), Save(0)), Save(1))
  }

  lemma RunTwo(log: Log, a: Event, b: Event)
    ensures Run(log, [a, b]) == Step(Step(log, a), b)
  {
    assert [a, b][..1] == [a] && [a][..0] == [];
    assert Run(log, [a]) == Step(Run(log, []), a);
  }

  /** The record already says what the signal would write, but for its status. */
  predicate Redundant(r: Tx, e: Event)
    requires !e.Recorded?
  {
    match e
    case GotReceipt(_, text) => r.receiptXml == Some(text)
    case GotError(_, code, message) => r.errorMessage == Some(ErrorText(code, message))
  }

  /** The signals name different records or none, are of the same kind, or the first has nothing to add. */
  predicate Harmless(log: Log, a: Event, b: Event)
    requires !a.Recorded? && !b.Recorded?
  {
    || Apart(a.ref, b.ref) || Some(a.ref) !in log || (a.GotReceipt? <==> b.GotReceipt?)
    || Redundant(log[Some(a.ref)], a)
  }

  /** The overlap writes the second signal over what was read before the first one was saved. */
  lemma OverlapWrites(log: Log, hs: seq<Event>)
    requires |hs| == 2 && Handlers(hs)
    ensures OverlapRows(log, hs).log == Write(Write(log, hs[0], Seen(log, hs[0])), hs[1], Seen(log, hs[1]))
  {
    hide Seen, Write;
  }

  /**
   * With rows, two overlapping handlers leave the log of one of the two sequential orders if and only if they are
   * harmless to one another; otherwise the first save is lost.
   */
  lemma RowsLoseTheFirst(log: Log, hs: seq<Event>)
    requires |hs| == 2 && Handlers(hs)
    ensures OverlapRows(log, hs).log in [Run(log, [hs[0], hs[1]]), Run(log, [hs[1], hs[0]])] <==> Harmless(log, hs[0], hs[1])
  {
    hide Run, OverlapRows, ErrorText;
    RunTwo(log, hs[0], hs[1]);
    RunTwo(log, hs[1], hs[0]);
    OverlapWrites(log, hs);
    var a, b := hs[0], hs[1];
    if Apart(a.ref, b.ref) || Some(a.ref) !in log {
      OverlapApart(log, a, b);
    } else {
      OverlapOne(log, a, b, log[Some(a.ref)]);
    }
  }

  lemma OverlapApart(log: Log, a: Event, b: Event)
    requires !a.Recorded? && !b.Recorded? && (Apart(a.ref, b.ref) || Some(a.ref) !in log)
    ensures Write(Write(log, a, Seen(log, a)), b, Seen(log, b)) == Step(Step(log, a), b)
  {
  }

  /** The result of an update, as it is stored. */
  function Changed(r: Tx, e: Event): Tx {
    Update(Some(r), e).value
  }

  lemma OverlapOne(log: Log, a: Event, b: Event, r: Tx)
    requires !a.Recorded? && !b.Recorded? && a.ref == b.ref != "" && Some(a.ref) in log && r == log[Some(a.ref)]
    ensures var id, both := Some(a.ref), Write(Write(log, a, Seen(log, a)), b, Seen(log, b));
      && both == log[id := Changed(r, b)]
      && Step(Step(log, a), b) == log[id := Changed(Changed(r, a), b)]
      && Step(Step(log, b), a) == log[id := Changed(Changed(r, b), a)]
      && both[id] == Changed(r, b) && Step(Step(log, a), b)[id] == Changed(Changed(r, a), b)
      && Step(Step(log, b), a)[id] == Changed(Changed(r, b), a)
    ensures (Changed(r, b) == Changed(Changed(r, a), b) || Changed(r, b) == Changed(Changed(r, b), a))
      <==> (a.GotReceipt? <==> b.GotReceipt?) || Redundant(r, a)
  {
  }

  // ----- no weaker condition on schedules will do

  /** The handlers whose signals are in the record of a reference, and in what each handler of it holds. */
  datatype Source = Source(current: set<nat>, held: map<nat, set<nat>>)

  function SourceStep(hs: seq<Event>, ref: string, s: Source, a: Action): Source
    requires Handlers(hs) && a.h < |hs|
  {
    if hs[a.h].ref != ref then s
    else
      match a
      case Read(h) => s.(held := s.held[h := s.current])
      case Save(h) => if h in s.held then s.(current := s.held[h] + {h}) else s
  }

  function Sources(hs: seq<Event>, ref: string, acts: seq<Action>): Source
    requires Handlers(hs) && forall i :: 0 <= i < |acts| ==> acts[i].h < |hs|
  {
    if acts == [] then Source({}, map[])
    else SourceStep(hs, ref, Sources(hs, ref, acts[..|acts| - 1]), acts[|acts| - 1])
  }

  /** Handlers of the same references: one receives a receipt, all others an error. */
  function Probe(hs: seq<Event>, m: nat): (es: seq<Event>)
    requires Handlers(hs)
    ensures |es| == |hs| && Handlers(es) && forall h :: 0 <= h < |hs| ==> es[h].ref == hs[h].ref
  {
    seq(|hs|, h requires 0 <= h < |hs| => if h == m then GotReceipt(hs[h].ref, "") else GotError(hs[h].ref, "", ""))
  }

  function Blank(): Tx {
    Tx(Send, Sent, "", "", "", None, None, "", None)
  }

  function OneRecord(ref: string): Log {
    map[Some(ref) := Blank()]
  }

  /** The receipt is in a record exactly when its handler is among the sources. */
  predicate Marked(t: Tx, from: set<nat>, m: nat) {
    t.receiptXml == if m in from then Some("") else None
  }

  predicate Traced(hs: seq<Event>, ref: string, m: nat, s: Rows, p: Source)
    requires Handlers(hs)
  {
    && Some(ref) in s.log && Marked(s.log[Some(ref)], p.current, m)
    && forall h :: 0 <= h < |hs| && hs[h].ref == ref ==>
      && (h in s.held <==> h in p.held)
      && (h in s.held ==> s.held[h].Some? && Marked(s.held[h].value, p.held[h], m))
  }

  lemma StepTraced(hs: seq<Event>, ref: string, m: nat, s: Rows, p: Source, a: Action)
    requires Handlers(hs) && a.h < |hs| && m < |hs| && ref != "" && hs[m].ref == ref && Traced(hs, ref, m, s, p)
    ensures Traced(hs, ref, m, RowStep(Probe(hs, m), s, a), SourceStep(hs, ref, p, a))
  {
    var es := Probe(hs, m);
    if a.Save? && hs[a.h].ref != ref && a.h in s.held {
      assert Some(hs[a.h].ref) != Some(ref);
    }
  }

  lemma {:induction false} RunTraced(hs: seq<Event>, ref: string, m: nat, acts: seq<Action>)
    requires Handlers(hs) && (forall i :: 0 <= i < |acts| ==> acts[i].h < |hs|) && m < |hs| && ref != "" && hs[m].ref == ref
    ensures Traced(hs, ref, m, RowRun(Probe(hs, m), OneRecord(ref), acts), Sources(hs, ref, acts))
  {
    hide Traced, RowStep, SourceStep, Probe;
    if acts == [] {
      StartTraced(hs, ref, m);
    } else {
      RunTraced(hs, ref, m, acts[..|acts| - 1]);
      StepTraced(hs, ref, m, RowRun(Probe(hs, m), OneRecord(ref), acts[..|acts| - 1]), Sources(hs, ref, acts[..|acts| - 1]), acts[|acts| - 1]);
    }
  }

  lemma StartTraced(hs: seq<Event>, ref: string, m: nat)
    requires Handlers(hs)
    ensures Traced(hs, ref, m, Rows(OneRecord(ref), map[]), Source({}, map[]))
  {
  }

  /** Handler b saves between a's read and a's save. */
  predicate Crossing(hs: seq<Event>, acts: seq<Action>, i: nat, j: nat, k: nat)
    requires Handlers(hs) && Schedule(hs, acts)
  {
    && i < j < k < |acts| && acts[i].Read? && acts[j].Save? && acts[k] == Save(acts[i].h)
    && !Apart(hs[acts[j].h].ref, hs[acts[i].h].ref)
  }

  predicate Lacks(p: Source, h: nat) {
    h !in p.current && forall g <- p.held :: h !in p.held[g]
  }

  predicate NeverBoth(p: Source, a: nat, b: nat) {
    !(a in p.current && b in p.current) && forall g <- p.held :: !(a in p.held[g] && b in p.held[g])
  }

  /** What is known after n actions about the sources of two crossing handlers. */
  predicate CrossState(p: Source, a: nat, b: nat, i: nat, j: nat, k: nat, n: nat) {
    && (n <= j ==> Lacks(p, b)) && (n <= k ==> Lacks(p, a)) && NeverBoth(p, a, b)
    && (i < n ==> a in p.held && b !in p.held[a])
  }

  lemma CrossStep(hs: seq<Event>, acts: seq<Action>, i: nat, j: nat, k: nat, n: nat, p: Source)
    requires Handlers(hs) && Schedule(hs, acts) && Crossing(hs, acts, i, j, k) && n < |acts|
    requires CrossState(p, acts[i].h, acts[j].h, i, j, k, n)
    ensures CrossState(SourceStep(hs, hs[acts[i].h].ref, p, acts[n]), acts[i].h, acts[j].h, i, j, k, n + 1)
  {
    var a, b := acts[i].h, acts[j].h;
    assert a != b && (n != i ==> acts[n] != acts[i]) && (n != j ==> acts[n] != acts[j]) && (n != k ==> acts[n] != acts[k]);
    assert acts[n] == Save(a) ==> n == k;
    assert acts[n] == Save(b) ==> n == j;
    assert acts[n] == Read(a) ==> n == i;
  }

  lemma CrossFacts(hs: seq<Event>, acts: seq<Action>, i: nat, j: nat, k: nat)
    requires Handlers(hs) && Schedule(hs, acts) && Crossing(hs, acts, i, j, k)
    ensures i < |acts| && j < |acts| && forall x :: 0 <= x < |acts| ==> acts[x].h < |hs|
  {
  }

  lemma SourcesStep(hs: seq<Event>, ref: string, acts: seq<Action>, n: nat)
    requires Handlers(hs) && (forall i :: 0 <= i < |acts| ==> acts[i].h < |hs|) && 0 < n <= |acts|
    ensures Sources(hs, ref, acts[..n]) == SourceStep(hs, ref, Sources(hs, ref, acts[..n - 1]), acts[n - 1])
  {
    assert acts[..n][..n - 1] == acts[..n - 1];
  }

  lemma {:induction false} CrossRun(hs: seq<Event>, acts: seq<Action>, i: nat, j: nat, k: nat, n: nat)
    requires Handlers(hs) && Schedule(hs, acts) && Crossing(hs, acts, i, j, k) && n <= |acts|
    ensures CrossState(Sources(hs, hs[acts[i].h].ref, acts[..n]), acts[i].h, acts[j].h, i, j, k, n)
  {
    hide CrossState, SourceStep, Sources, Crossing, Schedule, Once;
    CrossFacts(hs, acts, i, j, k);
    var ref := hs[acts[i].h].ref;
    if n == 0 {
      assert acts[..0] == [];
      CrossStart(acts[i].h, acts[j].h, i, j, k);
      NoSources(hs, ref);
    } else {
      CrossRun(hs, acts, i, j, k, n - 1);
      SourcesStep(hs, ref, acts, n);
      CrossStep(hs, acts, i, j, k, n - 1, Sources(hs, ref, acts[..n - 1]));
    }
  }

  lemma NoSources(hs: seq<Event>, ref: string)
    requires Handlers(hs)
    ensures Sources(hs, ref, []) == Source({}, map[])
  {
  }

  lemma CrossStart(a: nat, b: nat, i: nat, j: nat, k: nat)
    ensures CrossState(Source({}, map[]), a, b, i, j, k, 0)
  {
  }

  /** One after another, a receipt once saved stays in the record. */
  lemma {:induction false} ReceiptStays(ref: string, events: seq<Event>)
    requires ref != "" && (forall e <- events :: !e.Recorded? && (e.GotReceipt? ==> e.text == "")) && GotReceipt(ref, "") in events
    ensures Some(ref) in Run(OneRecord(ref), events) && Run(OneRecord(ref), events)[Some(ref)].receiptXml == Some("")
  {
    var n := |events| - 1;
    SignalsKeepRecords(OneRecord(ref), events[..n]);
    assert events == events[..n] + [events[n]];
    if GotReceipt(ref, "") in events[..n] {
      ReceiptStays(ref, events[..n]);
    }
  }

  lemma {:induction false} SavedHas(hs: seq<Event>, acts: seq<Action>)
    requires forall i :: 0 <= i < |acts| ==> acts[i].h < |hs|
    ensures forall a <- acts :: a.Save? ==> hs[a.h] in Saved(hs, acts)
    ensures forall e <- Saved(hs, acts) :: e in hs
  {
    if acts != [] {
      SavedHas(hs, acts[..|acts| - 1]);
      assert acts == acts[..|acts| - 1] + [acts[|acts| - 1]];
    }
  }

  predicate SameRefs(es: seq<Event>, hs: seq<Event>)
    requires Handlers(es) && Handlers(hs)
  {
    |es| == |hs| && forall h :: 0 <= h < |hs| ==> es[h].ref == hs[h].ref
  }

  /** Handlers of these references, on any log and with any signals, do as if run one after another. */
  ghost predicate AlwaysSequential(hs: seq<Event>, acts: seq<Action>)
    requires Handlers(hs) && forall i :: 0 <= i < |acts| ==> acts[i].h < |hs|
  {
    forall es: seq<Event>, log: Log :: Handlers(es) && SameRefs(es, hs) ==> RowRun(es, log, acts).log == Run(log, Saved(es, acts))
  }

  /** The log is one that the saved signals leave when they arrive one after another in some order. */
  ghost predicate InSomeOrder(es: seq<Event>, log: Log, acts: seq<Action>)
    requires Handlers(es) && forall i :: 0 <= i < |acts| ==> acts[i].h < |es|
  {
    exists order: seq<Event> :: multiset(order) == multiset(Saved(es, acts)) && RowRun(es, log, acts).log == Run(log, order)
  }

  ghost predicate AlwaysInSomeOrder(hs: seq<Event>, acts: seq<Action>)
    requires Handlers(hs) && forall i :: 0 <= i < |acts| ==> acts[i].h < |hs|
  {
    forall es: seq<Event>, log: Log :: Handlers(es) && SameRefs(es, hs) ==> InSomeOrder(es, log, acts)
  }

  lemma ProbesOnly(hs: seq<Event>, acts: seq<Action>, m: nat)
    requires Handlers(hs) && Schedule(hs, acts) && m < |hs| && Save(m) in acts
    ensures GotReceipt(hs[m].ref, "") in Saved(Probe(hs, m), acts)
    ensures forall e <- Saved(Probe(hs, m), acts) :: !e.Recorded? && (e.GotReceipt? ==> e.text == "")
  {
    hide Saved;
    var es := Probe(hs, m);
    SavedHas(es, acts);
    assert es[m] == GotReceipt(hs[m].ref, "");
    forall e | e in Saved(es, acts) ensures !e.Recorded? && (e.GotReceipt? ==> e.text == "") {
      var h :| 0 <= h < |es| && es[h] == e;
    }
  }

  /** A receipt whose handler is not among the record's sources is lost, which it is in no order of the signals. */
  lemma ProbeLost(hs: seq<Event>, acts: seq<Action>, ref: string, m: nat)
    requires Handlers(hs) && Schedule(hs, acts) && m < |hs| && ref != "" && hs[m].ref == ref && Save(m) in acts
    requires m !in Sources(hs, ref, acts).current
    ensures !InSomeOrder(Probe(hs, m), OneRecord(ref), acts)
  {
    hide RowRun, Run, Saved, Sources;
    var es := Probe(hs, m);
    RunTraced(hs, ref, m, acts);
    ProbesOnly(hs, acts, m);
    forall order: seq<Event> | multiset(order) == multiset(Saved(es, acts))
      ensures RowRun(es, OneRecord(ref), acts).log != Run(OneRecord(ref), order) {
      SameMembers(order, Saved(es, acts));
      ReceiptStays(ref, order);
    }
  }

  lemma SameMembers(a: seq<Event>, b: seq<Event>)
    requires multiset(a) == multiset(b)
    ensures forall e :: e in a <==> e in b
  {
    forall e ensures e in a <==> e in b {
      assert e in multiset(a) <==> e in multiset(b);
    }
  }

  lemma CrossingLoses(hs: seq<Event>, acts: seq<Action>, i: nat, j: nat, k: nat)
    requires Handlers(hs) && Schedule(hs, acts) && Crossing(hs, acts, i, j, k)
    ensures !AlwaysInSomeOrder(hs, acts)
  {
    hide InSomeOrder, Sources;
    var ref, a, b := hs[acts[i].h].ref, acts[i].h, acts[j].h;
    CrossRun(hs, acts, i, j, k, |acts|);
    assert acts[..|acts|] == acts;
    assert acts[j] in acts && acts[k] in acts;
    var m := if a in Sources(hs, ref, acts).current then b else a;
    ProbeLost(hs, acts, ref, m);
    assert SameRefs(Probe(hs, m), hs);
  }

  lemma SequentialInOrder(hs: seq<Event>, acts: seq<Action>)
    requires Handlers(hs) && Schedule(hs, acts) && AlwaysSequential(hs, acts)
    ensures AlwaysInSomeOrder(hs, acts)
  {
    hide RowRun, Run, Saved;
    forall es: seq<Event>, log: Log | Handlers(es) && SameRefs(es, hs) ensures InSomeOrder(es, log, acts) {
      assert RowRun(es, log, acts).log == Run(log, Saved(es, acts));
    }
  }

  /**
   * So not overlapping is exactly what it takes. The schedules that always leave the log of the handlers run one after
   * another, in the order of their saves or in any order whatever, are those in which no handler of a reference saves
   * between another's read and save.
   */
  lemma SeparateExactly(hs: seq<Event>, acts: seq<Action>)
    requires Handlers(hs) && Schedule(hs, acts)
    ensures Separate(hs, acts) <==> AlwaysSequential(hs, acts)
    ensures Separate(hs, acts) <==> AlwaysInSomeOrder(hs, acts)
  {
    hide AlwaysInSomeOrder, RowRun, Run, Saved, Once;
    if Separate(hs, acts) {
      forall es: seq<Event>, log: Log | Handlers(es) && SameRefs(es, hs) ensures RowRun(es, log, acts).log == Run(log, Saved(es, acts)) {
        SeparateRuns(es, hs, log, acts);
      }
    } else {
      var i, j, k := Overlap(hs, acts);
      CrossingLoses(hs, acts, i, j, k);
    }
    if AlwaysSequential(hs, acts) {
      SequentialInOrder(hs, acts);
    }
  }

  lemma Overlap(hs: seq<Event>, acts: seq<Action>) returns (i: nat, j: nat, k: nat)
    requires Handlers(hs) && Schedule(hs, acts) && !Separate(hs, acts)
    ensures Crossing(hs, acts, i, j, k)
  {
    i, j, k :| 0 <= i < j < k < |acts| && acts[i].Read? && acts[j].Save? && acts[k] == Save(acts[i].h)
      && !Apart(hs[acts[j].h].ref, hs[acts[i].h].ref);
  }

  lemma SeparateRuns(es: seq<Event>, hs: seq<Event>, log: Log, acts: seq<Action>)
    requires Handlers(es) && Handlers(hs) && SameRefs(es, hs) && Schedule(hs, acts) && Separate(hs, acts)
    ensures RowRun(es, log, acts).log == Run(log, Saved(es, acts))
  {
    hide Separate, RowRun, Saved, Run;
    SameSchedule(es, hs, acts);
    SameSeparate(es, hs, acts);
    RowsAreSequential(es, log, acts, |acts|);
    assert acts[..|acts|] == acts;
  }

  lemma SameSchedule(es: seq<Event>, hs: seq<Event>, acts: seq<Action>)
    requires Handlers(es) && Handlers(hs) && SameRefs(es, hs) && Schedule(hs, acts)
    ensures Schedule(es, acts)
  {
  }

  lemma SameSeparate(es: seq<Event>, hs: seq<Event>, acts: seq<Action>)
    requires Handlers(es) && Handlers(hs) && SameRefs(es, hs) && Schedule(es, acts) && Schedule(hs, acts) && Separate(hs, acts)
    ensures Separate(es, acts)
  {
  }
}
