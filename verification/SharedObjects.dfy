/** Signal handlers split at their awaits over the in-memory adapter: a read hands out the stored object itself. */
module SharedObjects {
  import opened Options
  import opened TxLog
  import opened Interleaving

  // ----- objects: a read shares

  /** The stored objects, the object of each id, and the objects the handlers hold. */
  datatype Live = Live(objects: seq<Tx>, index: map<Id, nat>, held: map<nat, Option<nat>>)

  predicate Indexed(s: Live) {
    && (forall id <- s.index :: s.index[id] < |s.objects|)
    && (forall a, b :: a in s.index && b in s.index && a != b ==> s.index[a] != s.index[b])
  }

  function View(s: Live): Log
    requires Indexed(s)
  {
    map id | id in s.index :: s.objects[s.index[id]]
  }

  function Found(s: Live, e: Event): Option<nat>
    requires !e.Recorded?
  {
    if e.ref != "" && Some(e.ref) in s.index then Some(s.index[Some(e.ref)]) else None
  }

  /** The change is made to the object held; saving stores a copy of it. */
  function LiveStep(hs: seq<Event>, s: Live, a: Action): Live
    requires Handlers(hs) && a.h < |hs|
  {
    match a
    case Read(h) => s.(held := s.held[h := Found(s, hs[h])])
    case Save(h) =>
      if h in s.held && s.held[h].Some? && s.held[h].value < |s.objects| then
        var o, e := s.held[h].value, hs[h];
        var t := Update(Some(s.objects[o]), e).value;
        Live(s.objects[o := t] + [t], s.index[Some(e.ref) := |s.objects|], s.held)
      else s
  }

  function LiveRun(hs: seq<Event>, start: Live, acts: seq<Action>): Live
    requires Handlers(hs) && forall i :: 0 <= i < |acts| ==> acts[i].h < |hs|
  {
    if acts == [] then start.(held := map[]) else LiveStep(hs, LiveRun(hs, start, acts[..|acts| - 1]), acts[|acts| - 1])
  }

  lemma LiveStepIndexed(hs: seq<Event>, s: Live, a: Action)
    requires Handlers(hs) && a.h < |hs| && Indexed(s)
    ensures Indexed(LiveStep(hs, s, a))
  {
  }

  lemma {:induction false} LiveRunIndexed(hs: seq<Event>, start: Live, acts: seq<Action>)
    requires Handlers(hs) && (forall i :: 0 <= i < |acts| ==> acts[i].h < |hs|) && Indexed(start)
    ensures Indexed(LiveRun(hs, start, acts))
  {
    if acts != [] {
      LiveRunIndexed(hs, start, acts[..|acts| - 1]);
      LiveStepIndexed(hs, LiveRun(hs, start, acts[..|acts| - 1]), acts[|acts| - 1]);
    }
  }

  /** The handler holds an object that says what the record says and that no other id uses. */
  predicate Owns(hs: seq<Event>, s: Live, h: nat)
    requires Handlers(hs) && h < |hs| && Indexed(s)
  {
    && h in s.held && s.held[h].Some? && s.held[h].value < |s.objects|
    && hs[h].ref != "" && Some(hs[h].ref) in s.index
    && s.objects[s.held[h].value] == s.objects[s.index[Some(hs[h].ref)]]
    && forall id <- s.index :: id != Some(hs[h].ref) ==> s.index[id] != s.held[h].value
  }

  /** Saving such an object is one step of the log: the other ids' objects are untouched. */
  lemma OwnedSave(hs: seq<Event>, s: Live, h: nat)
    requires Handlers(hs) && h < |hs| && Indexed(s) && Owns(hs, s, h)
    ensures Indexed(LiveStep(hs, s, Save(h))) && View(LiveStep(hs, s, Save(h))) == Step(View(s), hs[h])
  {
    LiveStepIndexed(hs, s, Save(h));
    var after, o, id := LiveStep(hs, s, Save(h)), s.held[h].value, Some(hs[h].ref);
    var t := Update(Some(s.objects[o]), hs[h]).value;
    assert after.objects == s.objects[o := t] + [t] && after.index == s.index[id := |s.objects|];
    assert Step(View(s), hs[h]) == View(s)[id := t];
    assert View(after)[id] == t;
  }

  lemma LiveRunStep(hs: seq<Event>, start: Live, acts: seq<Action>, n: nat)
    requires Handlers(hs) && 0 < n <= |acts| && forall i :: 0 <= i < |acts| ==> acts[i].h < |hs|
    ensures LiveRun(hs, start, acts[..n]) == LiveStep(hs, LiveRun(hs, start, acts[..n - 1]), acts[n - 1])
  {
    assert acts[..n][..n - 1] == acts[..n - 1];
  }

  lemma ReadKeepsView(hs: seq<Event>, s: Live, h: nat)
    requires Handlers(hs) && h < |hs| && Indexed(s)
    ensures Indexed(LiveStep(hs, s, Read(h))) && View(LiveStep(hs, s, Read(h))) == View(s)
  {
  }

  lemma StartView(hs: seq<Event>, start: Live)
    requires Handlers(hs) && Indexed(start)
    ensures Indexed(LiveRun(hs, start, [])) && View(LiveRun(hs, start, [])) == Run(View(start), Saved(hs, []))
  {
  }

  // ----- whose object is whose

  /** What a handler holds belongs to its own reference: no other id uses it, and no handler of another reference holds it. */
  predicate Tidy(hs: seq<Event>, s: Live)
    requires Handlers(hs)
  {
    && Indexed(s)
    && (forall h <- s.held :: h < |hs|)
    && (forall h <- s.held :: s.held[h].None? <==> hs[h].ref == "" || Some(hs[h].ref) !in s.index)
    && (forall h <- s.held :: s.held[h].Some? ==> s.held[h].value < |s.objects|)
    && (forall h <- s.held, id <- s.index :: s.held[h] == Some(s.index[id]) ==> id == Some(hs[h].ref))
    && (forall g <- s.held, h <- s.held :: s.held[g] == s.held[h] && s.held[h].Some? ==> hs[g].ref == hs[h].ref)
  }

  lemma ReadTidy(hs: seq<Event>, s: Live, h: nat)
    requires Handlers(hs) && h < |hs| && Tidy(hs, s)
    ensures Tidy(hs, LiveStep(hs, s, Read(h)))
  {
  }

  lemma SaveTidy(hs: seq<Event>, s: Live, h: nat)
    requires Handlers(hs) && h < |hs| && Tidy(hs, s)
    ensures Tidy(hs, LiveStep(hs, s, Save(h)))
  {
    LiveStepIndexed(hs, s, Save(h));
  }

  lemma {:induction false} RunTidy(hs: seq<Event>, start: Live, acts: seq<Action>)
    requires Handlers(hs) && (forall i :: 0 <= i < |acts| ==> acts[i].h < |hs|) && Indexed(start)
    ensures Tidy(hs, LiveRun(hs, start, acts))
  {
    hide Tidy, LiveStep;
    if acts == [] {
      StartTidy(hs, start);
    } else {
      var front, a := acts[..|acts| - 1], acts[|acts| - 1];
      RunTidy(hs, start, front);
      match a
      case Read(h) => ReadTidy(hs, LiveRun(hs, start, front), h);
      case Save(h) => SaveTidy(hs, LiveRun(hs, start, front), h);
    }
  }

  lemma StartTidy(hs: seq<Event>, start: Live)
    requires Handlers(hs) && Indexed(start)
    ensures Tidy(hs, start.(held := map[]))
  {
  }

  /** What a handler holds says what the record says. */
  predicate Agrees(hs: seq<Event>, s: Live, h: nat)
    requires Handlers(hs) && h < |hs| && Tidy(hs, s)
  {
    h in s.held && (s.held[h].Some? ==> s.objects[s.held[h].value] == s.objects[s.index[Some(hs[h].ref)]])
  }

  lemma ReadAgrees(hs: seq<Event>, s: Live, h: nat)
    requires Handlers(hs) && h < |hs| && Tidy(hs, s)
    ensures Tidy(hs, LiveStep(hs, s, Read(h))) && Agrees(hs, LiveStep(hs, s, Read(h)), h)
  {
    ReadTidy(hs, s, h);
  }

  lemma OtherReadAgrees(hs: seq<Event>, s: Live, g: nat, h: nat)
    requires Handlers(hs) && g < |hs| && h < |hs| && g != h && Tidy(hs, s) && Agrees(hs, s, h)
    ensures Tidy(hs, LiveStep(hs, s, Read(g))) && Agrees(hs, LiveStep(hs, s, Read(g)), h)
  {
    ReadTidy(hs, s, g);
  }

  /** A save keeps another handler in agreement, if the two hold the same object or are of different references. */
  lemma SaveAgrees(hs: seq<Event>, s: Live, g: nat, h: nat)
    requires Handlers(hs) && g < |hs| && h < |hs| && Tidy(hs, s) && Agrees(hs, s, h)
    requires Apart(hs[g].ref, hs[h].ref) || (g in s.held && s.held[g] == s.held[h])
    ensures Tidy(hs, LiveStep(hs, s, Save(g))) && Agrees(hs, LiveStep(hs, s, Save(g)), h)
  {
    SaveTidy(hs, s, g);
    if g in s.held && s.held[g].Some? && s.held[h].Some? {
      SavedObjects(hs, s, g);
      if s.held[g] != s.held[h] {
        assert Some(hs[g].ref) != Some(hs[h].ref);
        assert s.held[g] != Some(s.index[Some(hs[h].ref)]);
      }
    }
  }

  /** A save writes the object held and one new one, which becomes the record's. */
  lemma SavedObjects(hs: seq<Event>, s: Live, g: nat)
    requires Handlers(hs) && g < |hs| && Tidy(hs, s) && g in s.held && s.held[g].Some?
    ensures var o := s.held[g].value; var t, after := Update(Some(s.objects[o]), hs[g]).value, LiveStep(hs, s, Save(g));
      && after.objects == s.objects[o := t] + [t] && after.index == s.index[Some(hs[g].ref) := |s.objects|] && after.held == s.held
  {
  }

  /** In agreement, a save is one step of the log. */
  lemma AgreedSave(hs: seq<Event>, s: Live, h: nat)
    requires Handlers(hs) && h < |hs| && Tidy(hs, s) && Agrees(hs, s, h)
    ensures Indexed(LiveStep(hs, s, Save(h))) && View(LiveStep(hs, s, Save(h))) == Step(View(s), hs[h])
  {
    if s.held[h].Some? {
      OwnedSave(hs, s, h);
    }
  }

  // ----- the schedules that work

  /** No handler of the reference saves between two places. */
  predicate Undisturbed(hs: seq<Event>, acts: seq<Action>, p: nat, q: nat, ref: string)
    requires Handlers(hs) && forall i :: 0 <= i < |acts| ==> acts[i].h < |hs|
  {
    forall s :: p <= s < q && s < |acts| && acts[s].Save? ==> hs[acts[s].h].ref != ref
  }

  /** A handler that read at i saves at k, and one of the same (present) reference, that read at r, saves in between, at j. */
  predicate Meets(hs: seq<Event>, acts: seq<Action>, i: nat, j: nat, k: nat, r: nat)
    requires Handlers(hs) && forall x :: 0 <= x < |acts| ==> acts[x].h < |hs|
  {
    && i < j < k < |acts| && r < j && acts[i].Read? && acts[k] == Save(acts[i].h)
    && acts[j].Save? && acts[r] == Read(acts[j].h) && !Apart(hs[acts[j].h].ref, hs[acts[i].h].ref)
  }

  /** Between two reads no handler of the reference saves: they read the same object. */
  predicate Together(hs: seq<Event>, acts: seq<Action>, i: nat, r: nat)
    requires Handlers(hs) && (forall x :: 0 <= x < |acts| ==> acts[x].h < |hs|) && i < |acts|
  {
    Undisturbed(hs, acts, if i < r then i else r, if i < r then r else i, hs[acts[i].h].ref)
  }

  /** Handlers of one reference that overlap have read the same object. */
  ghost predicate Paired(hs: seq<Event>, acts: seq<Action>)
    requires Handlers(hs) && forall x :: 0 <= x < |acts| ==> acts[x].h < |hs|
  {
    forall i: nat, j: nat, k: nat, r: nat :: Meets(hs, acts, i, j, k, r) ==> Together(hs, acts, i, r)
  }

  /** What the index says of a reference changes only when one of its handlers saves. */
  lemma {:induction false} IndexStays(hs: seq<Event>, start: Live, acts: seq<Action>, p: nat, q: nat, h: nat)
    requires Handlers(hs) && (forall i :: 0 <= i < |acts| ==> acts[i].h < |hs|) && h < |hs| && p <= q <= |acts|
    requires Undisturbed(hs, acts, p, q, hs[h].ref)
    ensures Found(LiveRun(hs, start, acts[..p]), hs[h]) == Found(LiveRun(hs, start, acts[..q]), hs[h])
  {
    if p < q {
      IndexStays(hs, start, acts, p, q - 1, h);
      LiveRunStep(hs, start, acts, q);
      IndexStep(hs, LiveRun(hs, start, acts[..q - 1]), acts[q - 1], h);
    }
  }

  lemma IndexStep(hs: seq<Event>, s: Live, a: Action, h: nat)
    requires Handlers(hs) && a.h < |hs| && h < |hs| && (a.Save? ==> hs[a.h].ref != hs[h].ref)
    ensures Found(LiveStep(hs, s, a), hs[h]) == Found(s, hs[h])
  {
  }

  /** From its read on, a handler holds what the index said then. */
  lemma {:induction false} HeldSince(hs: seq<Event>, start: Live, acts: seq<Action>, i: nat, n: nat)
    requires Handlers(hs) && Schedule(hs, acts) && i < n <= |acts| && acts[i].Read?
    ensures var s := LiveRun(hs, start, acts[..n]); acts[i].h in s.held && s.held[acts[i].h] == Found(LiveRun(hs, start, acts[..i]), hs[acts[i].h])
  {
    hide LiveStep, LiveRun, Found;
    LiveRunStep(hs, start, acts, n);
    var s := LiveRun(hs, start, acts[..n - 1]);
    if i < n - 1 {
      HeldSince(hs, start, acts, i, n - 1);
      assert acts[n - 1] != acts[i];
      HeldStep(hs, s, acts[n - 1], acts[i].h);
    } else {
      ReadHolds(hs, s, acts[i].h);
    }
  }

  lemma ReadHolds(hs: seq<Event>, s: Live, h: nat)
    requires Handlers(hs) && h < |hs|
    ensures var t := LiveStep(hs, s, Read(h)); h in t.held && t.held[h] == Found(s, hs[h])
  {
  }

  lemma HeldStep(hs: seq<Event>, s: Live, a: Action, h: nat)
    requires Handlers(hs) && a.h < |hs| && a != Read(h) && h in s.held
    ensures var t := LiveStep(hs, s, a); h in t.held && t.held[h] == s.held[h]
  {
  }

  lemma SameObject(hs: seq<Event>, start: Live, acts: seq<Action>, i: nat, r: nat, n: nat)
    requires Handlers(hs) && Schedule(hs, acts) && i < n <= |acts| && r < n && acts[i].Read? && acts[r].Read?
    requires hs[acts[i].h].ref == hs[acts[r].h].ref
    requires Together(hs, acts, i, r)
    ensures var s := LiveRun(hs, start, acts[..n]); acts[i].h in s.held && acts[r].h in s.held && s.held[acts[i].h] == s.held[acts[r].h]
  {
    hide LiveRun, Undisturbed, Found;
    HeldSince(hs, start, acts, i, n);
    HeldSince(hs, start, acts, r, n);
    if i < r {
      IndexStays(hs, start, acts, i, r, acts[i].h);
    } else {
      IndexStays(hs, start, acts, r, i, acts[i].h);
    }
    SameFound(LiveRun(hs, start, acts[..r]), hs[acts[i].h], hs[acts[r].h]);
  }

  lemma SameFound(s: Live, e: Event, f: Event)
    requires !e.Recorded? && !f.Recorded? && e.ref == f.ref
    ensures Found(s, e) == Found(s, f)
  {
  }

  /** Between a handler's read and its save, what it holds says what the record says. */
  lemma {:induction false} HeldAgrees(hs: seq<Event>, start: Live, acts: seq<Action>, i: nat, n: nat, k: nat)
    requires Handlers(hs) && Schedule(hs, acts) && Paired(hs, acts) && Indexed(start)
    requires i < n <= k < |acts| && acts[i].Read? && acts[k] == Save(acts[i].h)
    ensures Tidy(hs, LiveRun(hs, start, acts[..n])) && Agrees(hs, LiveRun(hs, start, acts[..n]), acts[i].h)
  {
    hide Agrees, LiveStep, Tidy, LiveRun, Together;
    var h, s, a := acts[i].h, LiveRun(hs, start, acts[..n - 1]), acts[n - 1];
    RunTidy(hs, start, acts[..n - 1]);
    LiveRunStep(hs, start, acts, n);
    if i == n - 1 {
      ReadAgrees(hs, s, h);
    } else {
      HeldAgrees(hs, start, acts, i, n - 1, k);
      match a
      case Read(g) =>
        assert acts[n - 1] != acts[i];
        OtherReadAgrees(hs, s, g, h);
      case Save(g) =>
        if !Apart(hs[g].ref, hs[h].ref) {
          var r := ReadBefore(hs, acts, n);
          assert Meets(hs, acts, i, n - 1, k, r);
          SameObject(hs, start, acts, i, r, n - 1);
        }
        SaveAgrees(hs, s, g, h);
    }
  }

  lemma SaveHeld(hs: seq<Event>, start: Live, acts: seq<Action>, n: nat)
    requires Handlers(hs) && Schedule(hs, acts) && Paired(hs, acts) && Indexed(start) && 0 < n <= |acts| && acts[n - 1].Save?
    ensures var s := LiveRun(hs, start, acts[..n - 1]); Tidy(hs, s) && Agrees(hs, s, acts[n - 1].h)
  {
    hide Agrees, LiveRun, Paired, Tidy;
    var i := ReadBefore(hs, acts, n);
    HeldAgrees(hs, start, acts, i, n - 1, n - 1);
  }

  /** On such a schedule sharing the objects is not observable. */
  lemma {:induction false} ObjectsAreSequential(hs: seq<Event>, start: Live, acts: seq<Action>, n: nat)
    requires Handlers(hs) && Schedule(hs, acts) && Paired(hs, acts) && n <= |acts| && Indexed(start)
    ensures Indexed(LiveRun(hs, start, acts[..n]))
    ensures View(LiveRun(hs, start, acts[..n])) == Run(View(start), Saved(hs, acts[..n]))
  {
    hide *;
    if n == 0 {
      StartView(hs, start);
      assert acts[..0] == [];
    } else {
      ScheduleBounds(hs, acts);
      ObjectsAreSequential(hs, start, acts, n - 1);
      SavedStep(hs, acts, n);
      LiveRunStep(hs, start, acts, n);
      var s, a := LiveRun(hs, start, acts[..n - 1]), acts[n - 1];
      match a
      case Read(h) => ReadKeepsView(hs, s, h);
      case Save(h) =>
        SaveHeld(hs, start, acts, n);
        AgreedSave(hs, s, h);
        RunAppend(View(start), Saved(hs, acts[..n - 1]), hs[h]);
    }
  }

  /** Handlers that do not overlap are paired with themselves only. */
  lemma SeparateIsPaired(hs: seq<Event>, acts: seq<Action>)
    requires Handlers(hs) && Schedule(hs, acts) && Separate(hs, acts)
    ensures Paired(hs, acts)
  {
    hide Together;
  }

  // ----- two overlapping handlers

  function OverlapLive(s: Live, hs: seq<Event>): Live
    requires |hs| == 2 && Handlers(hs)
  {
    LiveStep(hs, LiveStep(hs, LiveStep(hs, LiveStep(hs, s, Read(0)), Read(1)), Save(0)), Save(1))
  }

  /** With objects, two overlapping handlers always leave what the first and then the second would. */
  lemma ObjectsKeepBoth(s: Live, hs: seq<Event>)
    requires |hs| == 2 && Handlers(hs) && Indexed(s) && s.held == map[]
    ensures Indexed(OverlapLive(s, hs)) && View(OverlapLive(s, hs)) == Run(View(s), [hs[0], hs[1]])
  {
    hide Run, Tidy, Agrees, View, LiveStep;
    RunTwo(View(s), hs[0], hs[1]);
    var s1 := LiveStep(hs, s, Read(0));
    var s2 := LiveStep(hs, s1, Read(1));
    var s3 := LiveStep(hs, s2, Save(0));
    StartTidy(hs, s);
    ReadAgrees(hs, s, 0);
    ReadTidy(hs, s1, 1);
    OtherReadAgrees(hs, s1, 1, 0);
    ReadAgrees(hs, s1, 1);
    ReadsKeepView(hs, s, s1, s2);
    AgreedSave(hs, s2, 0);
    BothHold(hs, s);
    SaveAgrees(hs, s2, 0, 1);
    AgreedSave(hs, s3, 1);
  }

  lemma ReadsKeepView(hs: seq<Event>, s: Live, s1: Live, s2: Live)
    requires |hs| == 2 && Handlers(hs) && Indexed(s) && s1 == LiveStep(hs, s, Read(0)) && s2 == LiveStep(hs, s1, Read(1))
    ensures Indexed(s2) && View(s2) == View(s)
  {
    hide View, LiveStep;
    ReadKeepsView(hs, s, 0);
    ReadKeepsView(hs, s1, 1);
  }

  lemma BothHold(hs: seq<Event>, s: Live)
    requires |hs| == 2 && Handlers(hs)
    ensures var s2 := LiveStep(hs, LiveStep(hs, s, Read(0)), Read(1));
      0 in s2.held && 1 in s2.held && (hs[0].ref == hs[1].ref ==> s2.held[0] == s2.held[1])
  {
  }

  // ----- a third one

  function OverlapThree(s: Live, hs: seq<Event>): Live
    requires |hs| == 3 && Handlers(hs)
  {
    var both := LiveStep(hs, LiveStep(hs, s, Read(0)), Read(1));
    LiveStep(hs, LiveStep(hs, LiveStep(hs, LiveStep(hs, both, Save(0)), Read(2)), Save(1)), Save(2))
  }

  /** An error, a receipt and an error for one message. */
  function Three(ref: string): (hs: seq<Event>)
    ensures |hs| == 3 && Handlers(hs)
  {
    [GotError(ref, "", ""), GotReceipt(ref, ""), GotError(ref, "", "")]
  }

  /**
   * Objects do not help against a third handler that reads between the two saves: it holds the copy the first one stored,
   * and the receipt is lost, which no sequential order loses.
   */
  lemma ObjectsCanLose(ref: string, events: seq<Event>)
    requires ref != "" && multiset(events) == multiset(Three(ref))
    ensures var t := OverlapThree(Live([Blank()], map[Some(ref) := 0], map[]), Three(ref));
      Indexed(t) && Some(ref) in View(t) && View(t)[Some(ref)].receiptXml == None
    ensures Some(ref) in Run(OneRecord(ref), events) && Run(OneRecord(ref), events)[Some(ref)].receiptXml == Some("")
  {
    forall e | e in events ensures e in Three(ref) {
      assert e in multiset(events);
    }
    assert GotReceipt(ref, "") == Three(ref)[1];
    assert GotReceipt(ref, "") in multiset(Three(ref));
    assert GotReceipt(ref, "") in events;
    ReceiptStays(ref, events);
    ThreeSteps(ref);
  }

  lemma ThreeSteps(ref: string)
    requires ref != ""
    ensures var t := OverlapThree(Live([Blank()], map[Some(ref) := 0], map[]), Three(ref));
      Indexed(t) && Some(ref) in View(t) && View(t)[Some(ref)].receiptXml == None
  {
    var hs, s, id := Three(ref), Live([Blank()], map[Some(ref) := 0], map[]), Some(ref);
    var s1 := LiveStep(hs, LiveStep(hs, LiveStep(hs, s, Read(0)), Read(1)), Save(0));
    assert |s1.objects| == 2 && s1.index == map[id := 1] && s1.held[1] == Some(0) && s1.objects[1].receiptXml == None;
    var s2 := LiveStep(hs, LiveStep(hs, s1, Read(2)), Save(1));
    assert |s2.objects| == 3 && s2.index == map[id := 2] && s2.held[2] == Some(1) && s2.objects[1].receiptXml == None;
    var s3 := LiveStep(hs, s2, Save(2));
    assert |s3.objects| == 4 && s3.index == map[id := 3] && s3.objects[3].receiptXml == None;
  }

  // ----- no weaker condition will do

  /** The handlers whose signals are in each object of one record, the last one the record's own, and who holds which. */
  datatype Pool = Pool(objs: seq<set<nat>>, held: map<nat, nat>)

  predicate PoolOk(p: Pool) {
    p.objs != [] && forall h <- p.held :: p.held[h] < |p.objs|
  }

  function PoolStep(hs: seq<Event>, ref: string, p: Pool, a: Action): (q: Pool)
    requires Handlers(hs) && a.h < |hs| && PoolOk(p)
    ensures PoolOk(q)
  {
    if hs[a.h].ref != ref then p
    else
      match a
      case Read(h) => p.(held := p.held[h := |p.objs| - 1])
      case Save(h) =>
        if h in p.held then
          var t := p.objs[p.held[h]] + {h};
          p.(objs := p.objs[p.held[h] := t] + [t])
        else p
  }

  function Pools(hs: seq<Event>, ref: string, acts: seq<Action>): (p: Pool)
    requires Handlers(hs) && forall i :: 0 <= i < |acts| ==> acts[i].h < |hs|
    ensures PoolOk(p)
  {
    if acts == [] then Pool([{}], map[]) else PoolStep(hs, ref, Pools(hs, ref, acts[..|acts| - 1]), acts[|acts| - 1])
  }

  function OneObject(ref: string): Live {
    Live([Blank()], map[Some(ref) := 0], map[])
  }

  predicate PoolTraced(hs: seq<Event>, ref: string, m: nat, s: Live, p: Pool)
    requires Handlers(hs)
  {
    && PoolOk(p) && |s.objects| == |p.objs| && s.index == map[Some(ref) := |s.objects| - 1]
    && (forall q :: 0 <= q < |p.objs| ==> Marked(s.objects[q], p.objs[q], m))
    && (forall h :: 0 <= h < |hs| && hs[h].ref == ref ==> (h in s.held <==> h in p.held))
    && (forall h :: 0 <= h < |hs| && hs[h].ref == ref && h in s.held ==> s.held[h] == Some(p.held[h]))
    && (forall h :: 0 <= h < |hs| && hs[h].ref != ref && h in s.held ==> s.held[h] == None)
  }

  lemma PoolStepTraced(hs: seq<Event>, ref: string, m: nat, s: Live, p: Pool, a: Action)
    requires Handlers(hs) && a.h < |hs| && m < |hs| && ref != "" && hs[m].ref == ref && PoolTraced(hs, ref, m, s, p)
    ensures PoolTraced(hs, ref, m, LiveStep(Probe(hs, m), s, a), PoolStep(hs, ref, p, a))
  {
    if a.Save? && hs[a.h].ref == ref && a.h in p.held {
      SaveTraced(hs, ref, m, s, p, a.h);
    }
  }

  lemma SaveTraced(hs: seq<Event>, ref: string, m: nat, s: Live, p: Pool, h: nat)
    requires Handlers(hs) && h < |hs| && m < |hs| && ref != "" && hs[m].ref == ref && PoolTraced(hs, ref, m, s, p)
    requires hs[h].ref == ref && h in p.held
    ensures PoolTraced(hs, ref, m, LiveStep(Probe(hs, m), s, Save(h)), PoolStep(hs, ref, p, Save(h)))
  {
    var es, o := Probe(hs, m), p.held[h];
    var t, from := Update(Some(s.objects[o]), es[h]).value, p.objs[o] + {h};
    assert s.held[h] == Some(o);
    assert Marked(t, from, m);
    var after := LiveStep(es, s, Save(h));
    assert after.objects == s.objects[o := t] + [t] && after.held == s.held;
    assert after.index == map[Some(ref) := |s.objects|];
  }

  lemma {:induction false} PoolRunTraced(hs: seq<Event>, ref: string, m: nat, acts: seq<Action>)
    requires Handlers(hs) && (forall i :: 0 <= i < |acts| ==> acts[i].h < |hs|) && m < |hs| && ref != "" && hs[m].ref == ref
    ensures PoolTraced(hs, ref, m, LiveRun(Probe(hs, m), OneObject(ref), acts), Pools(hs, ref, acts))
  {
    hide PoolTraced, LiveStep, PoolStep, Probe;
    if acts == [] {
      PoolStartTraced(hs, ref, m);
    } else {
      var front := acts[..|acts| - 1];
      PoolRunTraced(hs, ref, m, front);
      PoolStepTraced(hs, ref, m, LiveRun(Probe(hs, m), OneObject(ref), front), Pools(hs, ref, front), acts[|acts| - 1]);
    }
  }

  lemma PoolStartTraced(hs: seq<Event>, ref: string, m: nat)
    requires Handlers(hs)
    ensures PoolTraced(hs, ref, m, OneObject(ref).(held := map[]), Pool([{}], map[]))
  {
  }

  lemma {:induction false} PoolHas(hs: seq<Event>, ref: string, acts: seq<Action>, n: nat, r: nat)
    requires Handlers(hs) && (forall i :: 0 <= i < |acts| ==> acts[i].h < |hs|)
    requires r < n <= |acts| && acts[r].Read? && hs[acts[r].h].ref == ref
    ensures acts[r].h in Pools(hs, ref, acts[..n]).held
  {
    assert acts[..n][..n - 1] == acts[..n - 1];
    if r < n - 1 {
      PoolHas(hs, ref, acts, n - 1, r);
    }
  }

  /** Handler b saves between a's read and a's save, and a third save comes between the two reads. */
  predicate Straddled(hs: seq<Event>, acts: seq<Action>, i: nat, j: nat, k: nat, r: nat, t: nat)
    requires Handlers(hs) && Schedule(hs, acts)
  {
    Meets(hs, acts, i, j, k, r) && t < |acts| && acts[t].Save? && hs[acts[t].h].ref == hs[acts[i].h].ref && (i < t < r || r < t < i)
  }

  predicate NowhereBoth(p: Pool, a: nat, b: nat) {
    forall q :: 0 <= q < |p.objs| ==> !(a in p.objs[q] && b in p.objs[q])
  }

  predicate Nowhere(p: Pool, a: nat) {
    forall q :: 0 <= q < |p.objs| ==> a !in p.objs[q]
  }

  /** A handler holds an object without the other's signal. */
  predicate Without(p: Pool, a: nat, b: nat) {
    a in p.held && p.held[a] < |p.objs| && b !in p.objs[p.held[a]]
  }

  /** What is known after n actions: first and second are the reads in their order, and t the save between them. */
  predicate StraddleState(p: Pool, a: nat, b: nat, i: nat, j: nat, k: nat, r: nat, t: nat, n: nat) {
    && PoolOk(p) && (n <= j ==> Nowhere(p, b)) && (n <= k ==> Nowhere(p, a)) && NowhereBoth(p, a, b)
    && (i < n ==> Without(p, a, b)) && (r < n ==> Without(p, b, a))
    && (i < t < n ==> p.held[a] < |p.objs| - 1) && (r < t < n ==> p.held[b] < |p.objs| - 1)
    && (i < n && r < n ==> p.held[a] != p.held[b])
  }

  lemma StraddleRead(hs: seq<Event>, acts: seq<Action>, i: nat, j: nat, k: nat, r: nat, t: nat, n: nat, p: Pool)
    requires Handlers(hs) && Schedule(hs, acts) && Straddled(hs, acts, i, j, k, r, t) && n < |acts| && acts[n].Read?
    requires StraddleState(p, acts[i].h, acts[j].h, i, j, k, r, t, n)
    ensures StraddleState(PoolStep(hs, hs[acts[i].h].ref, p, acts[n]), acts[i].h, acts[j].h, i, j, k, r, t, n + 1)
  {
    assert n != j && n != k && n != t;
    assert (n != i ==> acts[n] != acts[i]) && (n != r ==> acts[n] != acts[r]);
    assert acts[j] != acts[k];
  }

  lemma StraddleSave(hs: seq<Event>, acts: seq<Action>, i: nat, j: nat, k: nat, r: nat, t: nat, n: nat, p: Pool)
    requires Handlers(hs) && Schedule(hs, acts) && Straddled(hs, acts, i, j, k, r, t) && n < |acts| && acts[n].Save?
    requires StraddleState(p, acts[i].h, acts[j].h, i, j, k, r, t, n)
    requires n == t ==> acts[t].h in p.held
    ensures StraddleState(PoolStep(hs, hs[acts[i].h].ref, p, acts[n]), acts[i].h, acts[j].h, i, j, k, r, t, n + 1)
  {
    assert n != i && n != r;
    assert (n != j ==> acts[n] != acts[j]) && (n != k ==> acts[n] != acts[k]);
    assert acts[j] != acts[k];
  }

  lemma PoolsStep(hs: seq<Event>, ref: string, acts: seq<Action>, n: nat)
    requires Handlers(hs) && (forall i :: 0 <= i < |acts| ==> acts[i].h < |hs|) && 0 < n <= |acts|
    ensures Pools(hs, ref, acts[..n]) == PoolStep(hs, ref, Pools(hs, ref, acts[..n - 1]), acts[n - 1])
  {
    assert acts[..n][..n - 1] == acts[..n - 1];
  }

  /** The handler that saves between the reads has read before. */
  lemma MiddleHolds(hs: seq<Event>, acts: seq<Action>, t: nat)
    requires Handlers(hs) && Schedule(hs, acts) && t < |acts| && acts[t].Save?
    ensures acts[t].h in Pools(hs, hs[acts[t].h].ref, acts[..t]).held
  {
    hide Pools;
    var x := ReadBefore(hs, acts, t + 1);
    PoolHas(hs, hs[acts[t].h].ref, acts, t, x);
  }

  lemma StraddleFacts(hs: seq<Event>, acts: seq<Action>, i: nat, j: nat, k: nat, r: nat, t: nat)
    requires Handlers(hs) && Schedule(hs, acts) && Straddled(hs, acts, i, j, k, r, t)
    ensures i < |acts| && j < |acts| && t < |acts| && acts[t].Save? && hs[acts[t].h].ref == hs[acts[i].h].ref
    ensures forall x :: 0 <= x < |acts| ==> acts[x].h < |hs|
  {
  }

  lemma {:induction false} StraddleRun(hs: seq<Event>, acts: seq<Action>, i: nat, j: nat, k: nat, r: nat, t: nat, n: nat)
    requires Handlers(hs) && Schedule(hs, acts) && Straddled(hs, acts, i, j, k, r, t) && n <= |acts|
    ensures StraddleState(Pools(hs, hs[acts[i].h].ref, acts[..n]), acts[i].h, acts[j].h, i, j, k, r, t, n)
  {
    hide Straddled, Schedule, StraddleState, PoolStep, Pools, Once;
    StraddleFacts(hs, acts, i, j, k, r, t);
    var ref := hs[acts[i].h].ref;
    if n == 0 {
      assert acts[..0] == [];
      StraddleStart(acts[i].h, acts[j].h, i, j, k, r, t);
      NoPools(hs, ref);
    } else {
      StraddleRun(hs, acts, i, j, k, r, t, n - 1);
      PoolsStep(hs, ref, acts, n);
      if acts[n - 1].Read? {
        StraddleRead(hs, acts, i, j, k, r, t, n - 1, Pools(hs, ref, acts[..n - 1]));
      } else {
        if n - 1 == t {
          MiddleHolds(hs, acts, t);
        }
        StraddleSave(hs, acts, i, j, k, r, t, n - 1, Pools(hs, ref, acts[..n - 1]));
      }
    }
  }

  lemma NoPools(hs: seq<Event>, ref: string)
    requires Handlers(hs)
    ensures Pools(hs, ref, []) == Pool([{}], map[])
  {
  }

  lemma StraddleStart(a: nat, b: nat, i: nat, j: nat, k: nat, r: nat, t: nat)
    ensures StraddleState(Pool([{}], map[]), a, b, i, j, k, r, t, 0)
  {
  }

  /** Handlers of these references, on any stored objects and with any signals, do as if run one after another. */
  ghost predicate AlwaysSequentialObjects(hs: seq<Event>, acts: seq<Action>)
    requires Handlers(hs) && forall i :: 0 <= i < |acts| ==> acts[i].h < |hs|
  {
    forall es: seq<Event>, start: Live :: Handlers(es) && SameRefs(es, hs) && Indexed(start) ==>
      Indexed(LiveRun(es, start, acts)) && View(LiveRun(es, start, acts)) == Run(View(start), Saved(es, acts))
  }

  /** The objects hold the log that the saved signals leave when they arrive one after another in some order. */
  ghost predicate ObjectsInSomeOrder(es: seq<Event>, start: Live, acts: seq<Action>)
    requires Handlers(es) && (forall i :: 0 <= i < |acts| ==> acts[i].h < |es|) && Indexed(start)
  {
    && Indexed(LiveRun(es, start, acts))
    && exists order: seq<Event> ::
         multiset(order) == multiset(Saved(es, acts)) && View(LiveRun(es, start, acts)) == Run(View(start), order)
  }

  ghost predicate AlwaysObjectsInSomeOrder(hs: seq<Event>, acts: seq<Action>)
    requires Handlers(hs) && forall i :: 0 <= i < |acts| ==> acts[i].h < |hs|
  {
    forall es: seq<Event>, start: Live :: Handlers(es) && SameRefs(es, hs) && Indexed(start) ==> ObjectsInSomeOrder(es, start, acts)
  }

  lemma SequentialObjectsInOrder(hs: seq<Event>, acts: seq<Action>)
    requires Handlers(hs) && Schedule(hs, acts) && AlwaysSequentialObjects(hs, acts)
    ensures AlwaysObjectsInSomeOrder(hs, acts)
  {
    hide LiveRun, Run, Saved, View, Indexed;
    forall es: seq<Event>, start: Live | Handlers(es) && SameRefs(es, hs) && Indexed(start) ensures ObjectsInSomeOrder(es, start, acts) {
      assert View(LiveRun(es, start, acts)) == Run(View(start), Saved(es, acts));
    }
  }

  lemma ProbeLostObjects(hs: seq<Event>, acts: seq<Action>, ref: string, m: nat)
    requires Handlers(hs) && Schedule(hs, acts) && m < |hs| && ref != "" && hs[m].ref == ref && Save(m) in acts
    requires var p := Pools(hs, ref, acts); m !in p.objs[|p.objs| - 1]
    ensures !AlwaysObjectsInSomeOrder(hs, acts)
  {
    hide LiveRun, Run, Saved, Pools;
    var es, start := Probe(hs, m), OneObject(ref);
    PoolRunTraced(hs, ref, m, acts);
    ProbesOnly(hs, acts, m);
    assert View(start) == OneRecord(ref);
    forall order: seq<Event> | multiset(order) == multiset(Saved(es, acts))
      ensures !(Indexed(LiveRun(es, start, acts)) && View(LiveRun(es, start, acts)) == Run(View(start), order)) {
      SameMembers(order, Saved(es, acts));
      ReceiptStays(ref, order);
    }
    assert SameRefs(es, hs) && Indexed(start) && !ObjectsInSomeOrder(es, start, acts);
  }

  lemma StraddleLoses(hs: seq<Event>, acts: seq<Action>, i: nat, j: nat, k: nat, r: nat, t: nat)
    requires Handlers(hs) && Schedule(hs, acts) && Straddled(hs, acts, i, j, k, r, t)
    ensures !AlwaysObjectsInSomeOrder(hs, acts)
  {
    hide Pools, AlwaysObjectsInSomeOrder;
    var ref, a, b := hs[acts[i].h].ref, acts[i].h, acts[j].h;
    StraddleRun(hs, acts, i, j, k, r, t, |acts|);
    assert acts[..|acts|] == acts;
    assert acts[j] in acts && acts[k] in acts;
    var p := Pools(hs, ref, acts);
    var m := if a in p.objs[|p.objs| - 1] then b else a;
    ProbeLostObjects(hs, acts, ref, m);
  }

  lemma SameMeets(es: seq<Event>, hs: seq<Event>, acts: seq<Action>, i: nat, j: nat, k: nat, r: nat)
    requires Handlers(es) && Handlers(hs) && SameRefs(es, hs) && forall x :: 0 <= x < |acts| ==> acts[x].h < |hs|
    ensures Meets(es, acts, i, j, k, r) <==> Meets(hs, acts, i, j, k, r)
    ensures i < |acts| ==> (Together(es, acts, i, r) <==> Together(hs, acts, i, r))
  {
  }

  lemma SamePaired(es: seq<Event>, hs: seq<Event>, acts: seq<Action>)
    requires Handlers(es) && Handlers(hs) && SameRefs(es, hs) && (forall x :: 0 <= x < |acts| ==> acts[x].h < |hs|) && Paired(hs, acts)
    ensures Paired(es, acts)
  {
    hide Together;
    forall i: nat, j: nat, k: nat, r: nat | Meets(es, acts, i, j, k, r) ensures Together(es, acts, i, r) {
      SameMeets(es, hs, acts, i, j, k, r);
    }
  }

  /** Two handlers that overlap without having read the same object. */
  lemma NotTogether(hs: seq<Event>, acts: seq<Action>, i: nat, j: nat, k: nat, r: nat)
    requires Handlers(hs) && Schedule(hs, acts) && Meets(hs, acts, i, j, k, r) && !Together(hs, acts, i, r)
    ensures !AlwaysObjectsInSomeOrder(hs, acts)
  {
    hide AlwaysObjectsInSomeOrder;
    var t :| (if i < r then i else r) <= t < (if i < r then r else i) && t < |acts| && acts[t].Save? && hs[acts[t].h].ref == hs[acts[i].h].ref;
    StraddleLoses(hs, acts, i, j, k, r, t);
  }

  /**
   * The schedules on which shared objects always leave the log of the handlers run one after another, in the order of
   * their saves or in any order whatever, are the paired ones.
   */
  lemma PairedExactly(hs: seq<Event>, acts: seq<Action>)
    requires Handlers(hs) && Schedule(hs, acts)
    ensures Paired(hs, acts) <==> AlwaysSequentialObjects(hs, acts)
    ensures Paired(hs, acts) <==> AlwaysObjectsInSomeOrder(hs, acts)
  {
    hide Together, LiveRun, View, Indexed, Run, Saved, AlwaysObjectsInSomeOrder;
    ScheduleBounds(hs, acts);
    if Paired(hs, acts) {
      forall es: seq<Event>, start: Live | Handlers(es) && SameRefs(es, hs) && Indexed(start)
        ensures Indexed(LiveRun(es, start, acts)) && View(LiveRun(es, start, acts)) == Run(View(start), Saved(es, acts))
      {
        PairedRuns(es, hs, start, acts);
      }
    } else {
      var i: nat, j: nat, k: nat, r: nat :| Meets(hs, acts, i, j, k, r) && i < |acts| && !Together(hs, acts, i, r);
      NotTogether(hs, acts, i, j, k, r);
    }
    if AlwaysSequentialObjects(hs, acts) {
      SequentialObjectsInOrder(hs, acts);
    }
  }

  lemma PairedRuns(es: seq<Event>, hs: seq<Event>, start: Live, acts: seq<Action>)
    requires Handlers(es) && Handlers(hs) && SameRefs(es, hs) && Schedule(hs, acts) && Paired(hs, acts) && Indexed(start)
    ensures Indexed(LiveRun(es, start, acts)) && View(LiveRun(es, start, acts)) == Run(View(start), Saved(es, acts))
  {
    hide Paired, LiveRun, Saved, Run;
    assert Schedule(es, acts);
    SamePaired(es, hs, acts);
    ObjectsAreSequential(es, start, acts, |acts|);
    assert acts[..|acts|] == acts;
  }
}
