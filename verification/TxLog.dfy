/** The transaction log as a fold of events, and what every run of events leaves of one record. */
module TxLog {
  import opened Options

  datatype Direction = Send | Receive

  /** `Failed` is the stored status 'error'. */
  datatype Status = Delivered | Sent | Received | Failed | ReceiptReceived

  /** The message id is null when a user message carries none. */
  type Id = Option<string>

  /** The columns both adapters keep. */
  datatype Tx = Tx(
    direction: Direction, status: Status, senderId: string, receiverId: string, docTypeId: string,
    receiptXml: Option<string>, errorMessage: Option<string>, timestamp: string, completedAt: Option<string>)

  type Log = map<Id, Tx>

  /** What reaches the log: a recorded send or user message, a receipt signal, an error signal. */
  datatype Event =
    | Recorded(id: Id, tx: Tx)
    | GotReceipt(ref: string, text: string)
    | GotError(ref: string, code: string, message: string)

  /** A record is written with its outcome, never as already acknowledged. */
  predicate Proper(e: Event) {
    e.Recorded? ==> !e.tx.status.ReceiptReceived?
  }

  /** An absent reference ("") names nothing. */
  predicate Names(e: Event, id: Id) {
    match e
    case Recorded(i, _) => i == id
    case GotReceipt(ref, _) => ref != "" && id == Some(ref)
    case GotError(ref, _, _) => ref != "" && id == Some(ref)
  }

  function ErrorText(code: string, message: string): string {
    if message != "" then "[" + code + "] " + message else "[" + code + "]"
  }

  /** What an event makes of the record it names. */
  function Update(r: Option<Tx>, e: Event): Option<Tx> {
    match e
    case Recorded(_, tx) => Some(tx)
    case GotReceipt(_, text) =>
      (match r case None => None case Some(t) => Some(t.(status := ReceiptReceived, receiptXml := Some(text))))
    case GotError(_, code, message) =>
      (match r case None => None case Some(t) => Some(t.(status := Failed, errorMessage := Some(ErrorText(code, message)))))
  }

  function Lookup(log: Log, id: Id): Option<Tx> {
    if id in log then Some(log[id]) else None
  }

  /** One handled event: the record is read, changed and saved; an unknown or absent reference changes nothing. */
  function Step(log: Log, e: Event): Log {
    match e
    case Recorded(id, tx) => log[id := tx]
    case GotReceipt(ref, text) =>
      if ref != "" && Some(ref) in log then log[Some(ref) := log[Some(ref)].(status := ReceiptReceived, receiptXml := Some(text))] else log
    case GotError(ref, code, message) =>
      if ref != "" && Some(ref) in log
      then log[Some(ref) := log[Some(ref)].(status := Failed, errorMessage := Some(ErrorText(code, message)))]
      else log
  }

  function Run(log: Log, events: seq<Event>): Log {
    if events == [] then log else Step(Run(log, events[..|events| - 1]), events[|events| - 1])
  }

  function Naming(events: seq<Event>, id: Id): seq<Event> {
    if events == [] then []
    else
      var n := |events| - 1;
      Naming(events[..n], id) + if Names(events[n], id) then [events[n]] else []
  }

  function Fold(r: Option<Tx>, events: seq<Event>): Option<Tx> {
    if events == [] then r else Update(Fold(r, events[..|events| - 1]), events[|events| - 1])
  }

  lemma StepIsUpdate(log: Log, e: Event, id: Id)
    ensures Lookup(Step(log, e), id) == if Names(e, id) then Update(Lookup(log, id), e) else Lookup(log, id)
  {
  }

  /** After any run the record of an id is the fold of the events that name it, and of no others. */
  lemma {:induction false} RecordIsFold(log: Log, events: seq<Event>, id: Id)
    ensures Lookup(Run(log, events), id) == Fold(Lookup(log, id), Naming(events, id))
  {
    if events == [] {
    } else {
      var n := |events| - 1;
      RecordIsFold(log, events[..n], id);
      StepIsUpdate(Run(log, events[..n]), events[n], id);
      if Names(events[n], id) {
        var named := Naming(events, id);
        assert named[..|named| - 1] == Naming(events[..n], id);
      } else {
        assert Naming(events, id) == Naming(events[..n], id);
      }
    }
  }

  /** Two runs in which the same events name an id leave the same record of it, however they are interleaved with others. */
  lemma OthersIrrelevant(log: Log, a: seq<Event>, b: seq<Event>, id: Id)
    requires Naming(a, id) == Naming(b, id)
    ensures Lookup(Run(log, a), id) == Lookup(Run(log, b), id)
  {
    RecordIsFold(log, a, id);
    RecordIsFold(log, b, id);
  }

  lemma {:induction false} NamingConcat(a: seq<Event>, b: seq<Event>, id: Id)
    ensures Naming(a + b, id) == Naming(a, id) + Naming(b, id)
  {
    hide Names;
    if b == [] {
      assert a + b == a;
      assert Naming(a, id) + [] == Naming(a, id);
    } else {
      var n := |b| - 1;
      assert (a + b)[..|a + b| - 1] == a + b[..n];
      NamingConcat(a, b[..n], id);
    }
  }

  lemma {:induction false} FoldConcat(r: Option<Tx>, a: seq<Event>, b: seq<Event>)
    ensures Fold(r, a + b) == Fold(Fold(r, a), b)
  {
    hide Update;
    if b == [] {
      assert a + b == a;
    } else {
      var n := |b| - 1;
      assert (a + b)[..|a + b| - 1] == a + b[..n];
      FoldConcat(r, a, b[..n]);
    }
  }

  /** A record and the signals that came after it: the last one decides, and what was sent or received stays. */
  predicate AfterSignals(tx: Tx, signals: seq<Event>, now: Tx) {
    && SameMessage(now, tx)
    && (signals == [] ==> now == tx)
    && (signals != [] ==>
          match signals[|signals| - 1]
          case Recorded(_, _) => false
          case GotReceipt(_, text) => now.status == ReceiptReceived && now.receiptXml == Some(text)
          case GotError(_, code, message) => now.status == Failed && now.errorMessage == Some(ErrorText(code, message)))
  }

  lemma {:induction false} FoldSignals(tx: Tx, signals: seq<Event>)
    requires forall e <- signals :: !e.Recorded?
    ensures Fold(Some(tx), signals).Some? && AfterSignals(tx, signals, Fold(Some(tx), signals).value)
  {
    if signals != [] {
      assert signals[|signals| - 1] in signals;
      FoldSignals(tx, signals[..|signals| - 1]);
    }
  }

  /** Wherever in a run a message is recorded under an id that is not recorded again, the log says what became of it. */
  lemma RecordedThenSignals(log: Log, before: seq<Event>, id: Id, tx: Tx, after: seq<Event>)
    requires forall e <- after :: e.Recorded? ==> e.id != id
    ensures var now := Lookup(Run(log, before + [Recorded(id, tx)] + after), id);
      now.Some? && AfterSignals(tx, Naming(after, id), now.value)
  {
    hide AfterSignals, Update;
    var e := Recorded(id, tx);
    RecordIsFold(log, before + [e] + after, id);
    NamingConcat(before + [e], after, id);
    NamingConcat(before, [e], id);
    NamingOne(e, id);
    var r := Lookup(log, id);
    FoldConcat(r, Naming(before, id) + [e], Naming(after, id));
    FoldRecorded(r, Naming(before, id), id, tx);
    NamingProper(after, id);
    FoldSignals(tx, Naming(after, id));
  }

  lemma NamingOne(e: Event, id: Id)
    requires Names(e, id)
    ensures Naming([e], id) == [e]
  {
    assert [e][..0] == [];
    assert Naming([], id) == [];
  }

  lemma FoldRecorded(r: Option<Tx>, events: seq<Event>, id: Id, tx: Tx)
    ensures Fold(r, events + [Recorded(id, tx)]) == Some(tx)
  {
    assert (events + [Recorded(id, tx)])[..|events|] == events;
  }

  // ----- what signals leave alone

  predicate SameMessage(a: Tx, b: Tx) {
    && a.direction == b.direction && a.senderId == b.senderId && a.receiverId == b.receiverId
    && a.docTypeId == b.docTypeId && a.timestamp == b.timestamp && a.completedAt == b.completedAt
  }

  /** However many signals arrive, no record appears, disappears or changes direction, parties or times. */
  lemma {:induction false} SignalsKeepRecords(log: Log, events: seq<Event>)
    requires forall e <- events :: !e.Recorded?
    ensures Run(log, events).Keys == log.Keys
    ensures forall id <- log :: SameMessage(Run(log, events)[id], log[id])
  {
    if events != [] {
      var n := |events| - 1;
      SignalsKeepRecords(log, events[..n]);
      assert events[n] in events;
    }
  }

  // ----- acknowledged records

  /** The last event naming the id, on a record that exists by then. */
  predicate LastIsReceipt(events: seq<Event>, text: string) {
    && events != [] && events[|events| - 1].GotReceipt? && events[|events| - 1].text == text
    && exists e <- events :: e.Recorded?
  }

  lemma {:induction false} FoldExists(events: seq<Event>)
    ensures Fold(None, events).Some? <==> exists e <- events :: e.Recorded?
  {
    if events == [] {
    } else {
      var n := |events| - 1;
      FoldExists(events[..n]);
      assert events[n] in events;
      assert forall e :: e in events <==> e in events[..n] || e == events[n];
    }
  }

  /**
   * Starting empty, a record is acknowledged exactly when the last event that names it is a receipt, and then the
   * stored receipt is that one.
   */
  lemma AcknowledgedByLast(events: seq<Event>, id: Id)
    requires forall e <- events :: Proper(e)
    ensures var r := Lookup(Run(map[], events), id);
      && (r.Some? && r.value.status.ReceiptReceived? <==> exists text :: LastIsReceipt(Naming(events, id), text))
      && (r.Some? && r.value.status.ReceiptReceived? ==> r.value.receiptXml.Some? && LastIsReceipt(Naming(events, id), r.value.receiptXml.value))
  {
    var named := Naming(events, id);
    RecordIsFold(map[], events, id);
    NamingProper(events, id);
    FoldExists(named);
    if named != [] {
      var n := |named| - 1;
      FoldExists(named[..n]);
      var last := named[n];
      assert last in named;
      if last.GotReceipt? && Fold(None, named).Some? {
        assert LastIsReceipt(named, last.text);
      }
    }
  }

  lemma {:induction false} NamingProper(events: seq<Event>, id: Id)
    ensures forall e <- Naming(events, id) :: e in events && Names(e, id)
  {
    if events != [] {
      NamingProper(events[..|events| - 1], id);
    }
  }
}
