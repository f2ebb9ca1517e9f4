/** The access point: sends, incoming messages, and the log and counters they keep. */
module ApCore {
  import opened Options
  import opened As4Envelope
  import opened As4Signals
  import opened TxLog

  // ----- counters

  type Counts = map<(Direction, Status), nat>

  function CountOf(counts: Counts, d: Direction, s: Status): nat {
    if (d, s) in counts then counts[(d, s)] else 0
  }

  function DirectionTotal(counts: Counts, d: Direction): nat {
    CountOf(counts, d, Delivered) + CountOf(counts, d, Sent) + CountOf(counts, d, Received) + CountOf(counts, d, Failed)
    + CountOf(counts, d, ReceiptReceived)
  }

  /** The sum of all (direction, status) counters. */
  function Total(counts: Counts): nat {
    DirectionTotal(counts, Send) + DirectionTotal(counts, Receive)
  }

  function Increment(counts: Counts, d: Direction, s: Status): Counts {
    counts[(d, s) := CountOf(counts, d, s) + 1]
  }

  lemma IncrementTotal(counts: Counts, d: Direction, s: Status)
    ensures Total(Increment(counts, d, s)) == Total(counts) + 1
  {
    var after := Increment(counts, d, s);
    forall d0: Direction, s0: Status | (d0, s0) != (d, s) ensures CountOf(after, d0, s0) == CountOf(counts, d0, s0) {
    }
    match d
    case Send => CountSteps(counts, after, Send, s);
    case Receive => CountSteps(counts, after, Receive, s);
  }

  lemma CountSteps(counts: Counts, after: Counts, d: Direction, s: Status)
    requires CountOf(after, d, s) == CountOf(counts, d, s) + 1
    requires forall s0: Status | s0 != s :: CountOf(after, d, s0) == CountOf(counts, d, s0)
    ensures DirectionTotal(after, d) == DirectionTotal(counts, d) + 1
  {
    hide CountOf;
    match s
    case Delivered =>
    case Sent =>
    case Received =>
    case Failed =>
    case ReceiptReceived =>
  }

  function Labelled(events: seq<Event>, d: Direction, s: Status): nat {
    if events == [] then 0
    else
      var e := events[|events| - 1];
      Labelled(events[..|events| - 1], d, s) + if e.Recorded? && e.tx.direction == d && e.tx.status == s then 1 else 0
  }

  function Records(events: seq<Event>): nat {
    if events == [] then 0 else Records(events[..|events| - 1]) + if events[|events| - 1].Recorded? then 1 else 0
  }

  /** One more recorded event moves its own counter and no other. */
  lemma LabelledStep(events: seq<Event>, e: Event, d: Direction, s: Status)
    ensures Labelled(events + [e], d, s) == Labelled(events, d, s) + if e.Recorded? && e.tx.direction == d && e.tx.status == s then 1 else 0
    ensures Records(events + [e]) == Records(events) + if e.Recorded? then 1 else 0
    ensures forall log :: Run(log, events + [e]) == Step(Run(log, events), e)
  {
    assert (events + [e])[..|events|] == events;
  }

  // ----- sending

  /** `at` is the instant the text names. */
  datatype Expiry = Expiry(text: string, at: int)

  datatype Cert = Cert(certId: string, expiresAt: Option<Expiry>)

  /** The simulator's result. */
  datatype Simulated = Simulated(messageId: string, receipt: string, timestamp: string)

  /** The transport's result; a send is delivered when a signal came back with it. */
  datatype Delivery = Accepted(messageId: string, signal: string, timestamp: string) | Refused(message: string)

  datatype SendRequest = SendRequest(
    valid: bool, simulation: bool, senderId: string, receiverId: string, docTypeId: string, generatedId: string,
    timestamp: string, now: int, simulated: Simulated, cert: Option<Cert>, delivery: Delivery)

  datatype SendResult = ValidationFailed | Done(messageId: string, status: Status, receipt: Option<string>)

  function Given(s: string): Option<string> {
    if s != "" then Some(s) else None
  }

  function SendTx(r: SendRequest, status: Status, receipt: Option<string>, error: Option<string>, timestamp: string, completedAt: Option<string>): Tx {
    Tx(Send, status, r.senderId, r.receiverId, r.docTypeId, receipt, error, timestamp, completedAt)
  }

  function FailedSend(r: SendRequest, message: string): Event {
    Recorded(Some(r.generatedId), SendTx(r, Failed, None, Some(message), r.timestamp, None))
  }

  /** What a send leaves in the log: nothing when validation fails, otherwise one record of its outcome. */
  function SendEvent(r: SendRequest): Option<Event> {
    if !r.valid then None
    else if r.simulation then
      var s := r.simulated;
      Some(Recorded(Some(s.messageId), SendTx(r, Delivered, Some(s.receipt), None, s.timestamp, Some(s.timestamp))))
    else
      match r.cert
      case None => Some(FailedSend(r, "No active certificate found in identity store"))
      case Some(c) =>
        if c.expiresAt.Some? && c.expiresAt.value.at <= r.now then
          Some(FailedSend(r, "Certificate " + c.certId + " expired at " + c.expiresAt.value.text))
        else
          match r.delivery
          case Refused(message) => Some(FailedSend(r, message))
          case Accepted(id, signal, at) =>
            Some(Recorded(Some(id), SendTx(r, if signal != "" then Delivered else Sent, Given(signal), None, r.timestamp,
              Some(if at != "" then at else r.timestamp))))
  }

  // ----- receiving

  /** What the world adds to an incoming SOAP text: payload, decryption, signature check, SBDH parties, UBL verdict. */
  datatype Incoming = Incoming(
    payload: bool, decrypted: bool, verified: bool, senderId: string, receiverId: string,
    validation: Option<string>, valid: bool, docTypeId: string, receiptId: string, mdnTimestamp: string, now: string)

  datatype Reply =
    | Thrown
    | SignalReply(id: string, found: bool, signal: Signal)
    | UserReply(messageId: Option<string>, status: Status, mdnReceipt: string)

  function Written(id: Option<string>): string {
    match id
    case None => "null"
    case Some(s) => s
  }

  /** The receipt for a user message. */
  function ReceiptFor(id: Option<string>, w: Incoming): string {
    BuildMdn(Mdn(Written(id), w.receiptId, w.mdnTimestamp))
  }

  function OrElse(a: string, b: Option<string>): string {
    if a != "" then a else match b { case None => "" case Some(s) => s }
  }

  /** The record of a user message: received if its UBL is there and valid, an error otherwise. */
  function UserTx(soap: Soap, w: Incoming): Tx {
    Tx(Receive, if w.validation.Some? && w.valid then Received else Failed,
      OrElse(w.senderId, soap.senderParticipantId), OrElse(w.receiverId, soap.receiverParticipantId), w.docTypeId,
      Some(ReceiptFor(soap.messageId, w)), if w.validation.Some? && !w.valid then w.validation else None, w.now, None)
  }

  function SignalEvent(s: Signal, raw: string): Option<Event> {
    match s
    case ReceiptSignal(ref) => Some(GotReceipt(ref, raw))
    case ErrorSignal(ref, code, message) => Some(GotError(ref, code, message))
    case UnknownSignal(_) => None
  }

  /** What an incoming message does to the log. */
  function IncomingEvent(raw: string, w: Incoming): Option<Event> {
    match ReadSoap(raw)
    case Rejected(_) => None
    case Parsed(soap) =>
      if soap.signalType == IsSignal then SignalEvent(ReadSignal(raw, soap.refMessageId), raw)
      else if !w.payload || !w.decrypted || !w.verified then None
      else Some(Recorded(soap.messageId, UserTx(soap, w)))
  }

  predicate Known(log: Log, ref: string) {
    ref != "" && Some(ref) in log
  }

  /** What the caller is told: a signal whose reference is not in the log gets a warning, not an error. */
  function ReplyTo(raw: string, w: Incoming, log: Log): Reply {
    match ReadSoap(raw)
    case Rejected(_) => Thrown
    case Parsed(soap) =>
      if soap.signalType == IsSignal then
        var s := ReadSignal(raw, soap.refMessageId);
        SignalReply(OrElse(Present(soap.messageId), soap.refMessageId), !s.UnknownSignal? && Known(log, s.ref), s)
      else if !w.payload || !w.decrypted || !w.verified then Thrown
      else UserReply(soap.messageId, UserTx(soap, w).status, ReceiptFor(soap.messageId, w))
  }

  function Apply(log: Log, e: Option<Event>): Log {
    match e
    case None => log
    case Some(x) => Step(log, x)
  }

  // ----- what the caller of `getStatus` sees

  datatype StatusReport = Unknown | Report(status: Status, receipt: Option<string>, error: Option<string>, updatedAt: string)

  function NonEmpty(o: Option<string>): Option<string> {
    if o == Some("") then None else o
  }

  function GetStatus(log: Log, id: string): StatusReport {
    match Lookup(log, Some(id))
    case None => Unknown
    case Some(tx) =>
      Report(tx.status, NonEmpty(tx.receiptXml), NonEmpty(tx.errorMessage), OrElse(Present(tx.completedAt), Some(tx.timestamp)))
  }

  // ----- runs of an access point

  /** What a running access point is asked to do. */
  datatype Input = Sending(r: SendRequest) | Arriving(raw: string, w: Incoming)

  function InputEvent(i: Input): Option<Event> {
    match i
    case Sending(r) => SendEvent(r)
    case Arriving(raw, w) => IncomingEvent(raw, w)
  }

  /** What a run of inputs puts into the log. */
  function EventsOf(inputs: seq<Input>): seq<Event> {
    if inputs == [] then []
    else EventsOf(inputs[..|inputs| - 1]) + match InputEvent(inputs[|inputs| - 1]) { case None => [] case Some(e) => [e] }
  }

  function LogAfter(inputs: seq<Input>): Log {
    Run(map[], EventsOf(inputs))
  }

  lemma {:induction false} EventsConcat(a: seq<Input>, b: seq<Input>)
    ensures EventsOf(a + b) == EventsOf(a) + EventsOf(b)
  {
    hide InputEvent;
    if b == [] {
      assert a + b == a;
    } else {
      var n := |b| - 1;
      assert (a + b)[..|a + b| - 1] == a + b[..n];
      EventsConcat(a, b[..n]);
    }
  }

  lemma EventsAround(a: seq<Input>, i: Input, e: Event, b: seq<Input>)
    requires InputEvent(i) == Some(e)
    ensures EventsOf(a + [i] + b) == EventsOf(a) + [e] + EventsOf(b)
  {
    hide InputEvent;
    EventsConcat(a + [i], b);
    EventsConcat(a, [i]);
    assert [i][..0] == [];
    assert EventsOf([]) == [];
  }

  /** No later input is recorded under the id. */
  predicate NotAgain(inputs: seq<Input>, id: Id) {
    forall e <- EventsOf(inputs) :: e.Recorded? ==> e.id != id
  }

  /** Some input of the run is recorded under the id and never overwritten: its record tells the last signal's story. */
  lemma RecordTells(a: seq<Input>, i: Input, b: seq<Input>, id: Id, tx: Tx)
    requires InputEvent(i) == Some(Recorded(id, tx)) && NotAgain(b, id)
    ensures var log := LogAfter(a + [i] + b); id in log && AfterSignals(tx, Naming(EventsOf(b), id), log[id])
  {
    hide AfterSignals, InputEvent;
    EventsAround(a, i, Recorded(id, tx), b);
    RecordedThenSignals(map[], EventsOf(a), id, tx, EventsOf(b));
  }

  /** Nothing stands in the way of a production send: there is a certificate, and it has not expired. */
  predicate Certified(r: SendRequest) {
    r.cert.Some? && match r.cert.value.expiresAt case None => true case Some(e) => e.at > r.now
  }

  /** Why a production send fails. */
  predicate FailsWith(r: SendRequest, message: string) {
    match r.cert
    case None => message == "No active certificate found in identity store"
    case Some(c) =>
      if Certified(r) then r.delivery == Refused(message)
      else c.expiresAt.Some? && message == "Certificate " + c.certId + " expired at " + c.expiresAt.value.text
  }

  /** The record of a send, field by field: simulated, gone out, or failed. */
  predicate IsSent(r: SendRequest, id: string, tx: Tx) {
    && tx.direction == Send && tx.senderId == r.senderId && tx.receiverId == r.receiverId && tx.docTypeId == r.docTypeId
    && if r.simulation then
         && id == r.simulated.messageId && tx.status == Delivered && tx.receiptXml == Some(r.simulated.receipt)
         && tx.errorMessage == None && tx.timestamp == r.simulated.timestamp && tx.completedAt == Some(r.simulated.timestamp)
       else if Certified(r) && r.delivery.Accepted? then
         && id == r.delivery.messageId && tx.errorMessage == None && tx.timestamp == r.timestamp
         && (tx.status == Delivered <==> r.delivery.signal != "") && (tx.status == Sent <==> r.delivery.signal == "")
         && tx.receiptXml == (if r.delivery.signal == "" then None else Some(r.delivery.signal))
         && tx.completedAt == Some(if r.delivery.timestamp == "" then r.timestamp else r.delivery.timestamp)
       else
         && id == r.generatedId && tx.status == Failed && tx.receiptXml == None && tx.timestamp == r.timestamp
         && tx.completedAt == None && tx.errorMessage.Some? && FailsWith(r, tx.errorMessage.value)
  }

  /** What a valid send saves; an invalid one saves nothing. */
  lemma SentRecord(r: SendRequest)
    ensures !r.valid ==> SendEvent(r) == None
    ensures r.valid ==> SendEvent(r).Some? && SendEvent(r).value.Recorded? && SendEvent(r).value.id.Some?
    ensures r.valid ==> IsSent(r, SendEvent(r).value.id.value, SendEvent(r).value.tx)
  {
  }

  /** So a valid production send goes out if and only if it is certified and the transport accepts it. */
  lemma GoesOut(r: SendRequest)
    requires r.valid && !r.simulation
    ensures SendEvent(r).Some? && SendEvent(r).value.Recorded?
    ensures SendEvent(r).value.tx.status in {Delivered, Sent} <==> Certified(r) && r.delivery.Accepted?
    ensures SendEvent(r).value.tx.status != Failed <==> Certified(r) && r.delivery.Accepted?
  {
    hide SendEvent;
    SentRecord(r);
  }

  /** What the caller of `getStatus` is told of a record nobody has touched since. */
  predicate Outcome(r: SendRequest, id: string, s: StatusReport)
    requires s.Report?
  {
    if r.simulation then
      && id == r.simulated.messageId && s.status == Delivered && s.error == None && s.updatedAt == r.simulated.timestamp
      && s.receipt == (if r.simulated.receipt == "" then None else Some(r.simulated.receipt))
    else if Certified(r) && r.delivery.Accepted? then
      && id == r.delivery.messageId && s.error == None
      && s.status == (if r.delivery.signal == "" then Sent else Delivered)
      && s.receipt == (if r.delivery.signal == "" then None else Some(r.delivery.signal))
      && s.updatedAt == (if r.delivery.timestamp == "" then r.timestamp else r.delivery.timestamp)
    else
      && id == r.generatedId && s.status == Failed && s.receipt == None && s.updatedAt == r.timestamp
      && FailsWith(r, match s.error case None => "" case Some(text) => text)
  }

  /** What the caller is told once the signals have named the record of the send. */
  predicate StatusTells(r: SendRequest, id: string, signals: seq<Event>, s: StatusReport) {
    && s.Report?
    && (signals == [] ==> Outcome(r, id, s))
    && (signals != [] ==>
          match signals[|signals| - 1]
          case Recorded(_, _) => false
          case GotReceipt(_, text) => s.status == ReceiptReceived && s.receipt == Given(text)
          case GotError(_, code, message) =>
            s.status == Failed && s.error == Some(if message == "" then "[" + code + "]" else "[" + code + "] " + message))
  }

  /**
   * In every run, after a valid send its status can be asked for under the returned id for good (until that id is used
   * again): it is the outcome of the send as long as no signal names it, and from then on what the last signal says.
   */
  lemma SendThenStatus(a: seq<Input>, r: SendRequest, b: seq<Input>)
    requires r.valid
    ensures SendEvent(r).Some? && SendEvent(r).value.Recorded? && SendEvent(r).value.id.Some?
    ensures var id := SendEvent(r).value.id; NotAgain(b, id) ==>
      var log := LogAfter(a + [Sending(r)] + b);
      && StatusTells(r, id.value, Naming(EventsOf(b), id), GetStatus(log, id.value))
      && log[id].direction == Send && log[id].senderId == r.senderId && log[id].receiverId == r.receiverId
  {
    hide LogAfter, EventsOf, Naming, AfterSignals, StatusTells, SendEvent, GetStatus;
    SentRecord(r);
    var e := SendEvent(r).value;
    if NotAgain(b, e.id) {
      RecordTells(a, Sending(r), b, e.id, e.tx);
      var log, signals := LogAfter(a + [Sending(r)] + b), Naming(EventsOf(b), e.id);
      PartiesKept(e.tx, signals, log[e.id]);
      if signals == [] {
        ToldOutcome(r, e.tx, log, e.id.value);
      } else {
        ToldSignal(r, e.tx, signals, log, e.id.value);
      }
    }
  }

  lemma ToldOutcome(r: SendRequest, tx: Tx, log: Log, id: string)
    requires r.valid && SendEvent(r) == Some(Recorded(Some(id), tx))
    requires Some(id) in log && AfterSignals(tx, [], log[Some(id)])
    ensures StatusTells(r, id, [], GetStatus(log, id))
  {
    hide SendEvent;
    SentRecord(r);
    assert log[Some(id)] == tx;
  }

  lemma ToldSignal(r: SendRequest, tx: Tx, signals: seq<Event>, log: Log, id: string)
    requires signals != [] && Some(id) in log && AfterSignals(tx, signals, log[Some(id)])
    ensures StatusTells(r, id, signals, GetStatus(log, id))
  {
    hide SameMessage, Outcome;
  }

  lemma PartiesKept(tx: Tx, signals: seq<Event>, now: Tx)
    requires AfterSignals(tx, signals, now)
    ensures now.direction == tx.direction && now.senderId == tx.senderId && now.receiverId == tx.receiverId
  {
  }

  /** In the log of a running access point a record is acknowledged exactly when the last event that names it is a receipt. */
  lemma AcknowledgedInLog(ap: AccessPoint, id: Id)
    requires ap.Valid()
    ensures id in ap.log && ap.log[id].status.ReceiptReceived? <==> exists text :: LastIsReceipt(Naming(ap.history, id), text)
  {
    AcknowledgedByLast(ap.history, id);
  }

  class AccessPoint {
    var log: Log
    var txCount: nat
    var counts: Counts
    ghost var history: seq<Event>

    /** The log and the counters are what the history of events makes of an empty access point. */
    ghost predicate Valid()
      reads this
    {
      && log == Run(map[], history)
      && (forall e <- history :: Proper(e))
      && txCount == Records(history)
      && Total(counts) == txCount
      && forall d: Direction, s: Status :: CountOf(counts, d, s) == Labelled(history, d, s)
    }

    constructor ()
      ensures Valid() && history == []
    {
      log, txCount, counts, history := map[], 0, map[], [];
    }

    /** `transactionStore.save` of a new record, `_txCount++` and `recordTransaction`. */
    method Record(id: Id, tx: Tx)
      requires Valid() && !tx.status.ReceiptReceived?
      modifies this
      ensures Valid() && history == old(history) + [Recorded(id, tx)]
      ensures log == Step(old(log), Recorded(id, tx)) && txCount == old(txCount) + 1
      ensures counts == Increment(old(counts), tx.direction, tx.status)
    {
      hide Total;
      IncrementTotal(counts, tx.direction, tx.status);
      var e := Recorded(id, tx);
      forall d: Direction, s: Status
        ensures CountOf(Increment(counts, tx.direction, tx.status), d, s) == Labelled(history + [e], d, s)
      {
        LabelledStep(history, e, d, s);
      }
      LabelledStep(history, e, tx.direction, tx.status);
      log := log[id := tx];
      txCount := txCount + 1;
      counts := Increment(counts, tx.direction, tx.status);
      history := history + [e];
    }

    /** A signal's read, change and save. */
    method Signalled(e: Event) returns (found: bool)
      requires Valid() && !e.Recorded?
      modifies this`log, this`history
      ensures Valid() && history == old(history) + [e]
      ensures log == Step(old(log), e)
      ensures found == Known(old(log), e.ref)
    {
      found := false;
      assert (history + [e])[..|history|] == history;
      match e {
        case GotReceipt(ref, text) =>
          if ref != "" && Some(ref) in log {
            var tx := log[Some(ref)];
            tx := tx.(status := ReceiptReceived);
            tx := tx.(receiptXml := Some(text));
            log := log[Some(ref) := tx];
            found := true;
          }
        case GotError(ref, code, message) =>
          if ref != "" && Some(ref) in log {
            var tx := log[Some(ref)];
            tx := tx.(status := Failed);
            tx := tx.(errorMessage := Some(TxLog.ErrorText(code, message)));
            log := log[Some(ref) := tx];
            found := true;
          }
      }
      history := history + [e];
    }

    method SendInvoice(r: SendRequest) returns (result: SendResult)
      requires Valid()
      modifies this
      ensures Valid() && log == Apply(old(log), SendEvent(r))
      ensures history == old(history) + match SendEvent(r) { case None => [] case Some(e) => [e] }
      ensures result == match SendEvent(r) { case None => ValidationFailed case Some(e) => Done(Written(e.id), e.tx.status, e.tx.receiptXml) }
    {
      hide Run, Total, Labelled, Records, CountOf;
      if !r.valid {
        return ValidationFailed;
      }
      if r.simulation {
        var s := r.simulated;
        Record(Some(s.messageId), SendTx(r, Delivered, Some(s.receipt), None, s.timestamp, Some(s.timestamp)));
        return Done(s.messageId, Delivered, Some(s.receipt));
      }
      if r.cert.None? {
        Record(Some(r.generatedId), SendTx(r, Failed, None, Some("No active certificate found in identity store"), r.timestamp, None));
        return Done(r.generatedId, Failed, None);
      }
      var expiry := r.cert.value.expiresAt;
      if expiry.Some? && expiry.value.at <= r.now {
        var message := "Certificate " + r.cert.value.certId + " expired at " + expiry.value.text;
        Record(Some(r.generatedId), SendTx(r, Failed, None, Some(message), r.timestamp, None));
        return Done(r.generatedId, Failed, None);
      }
      match r.delivery {
        case Refused(message) =>
          Record(Some(r.generatedId), SendTx(r, Failed, None, Some(message), r.timestamp, None));
          return Done(r.generatedId, Failed, None);
        case Accepted(id, signal, at) =>
          var status := if signal != "" then Delivered else Sent;
          Record(Some(id), SendTx(r, status, Given(signal), None, r.timestamp, Some(if at != "" then at else r.timestamp)));
          return Done(id, status, Given(signal));
      }
    }

    method HandleIncomingMessage(raw: string, w: Incoming) returns (reply: Reply)
      requires Valid()
      modifies this
      ensures Valid() && log == Apply(old(log), IncomingEvent(raw, w))
      ensures history == old(history) + match IncomingEvent(raw, w) { case None => [] case Some(e) => [e] }
      ensures reply == ReplyTo(raw, w, old(log))
    {
      hide Run, Total, Labelled, Records, CountOf, ReadSoap, ReadSignal, BuildMdn;
      var out := ParseSoap(raw);
      if out.Rejected? {
        return Thrown;
      }
      var soap := out.soap;
      if soap.signalType == IsSignal {
        var signal := ReadSignal(raw, soap.refMessageId);
        var found := false;
        match signal {
          case ReceiptSignal(ref) => found := Signalled(GotReceipt(ref, raw));
          case ErrorSignal(ref, code, message) => found := Signalled(GotError(ref, code, message));
          case UnknownSignal(_) =>
        }
        return SignalReply(OrElse(Present(soap.messageId), soap.refMessageId), found, signal);
      }
      if !w.payload || !w.decrypted || !w.verified {
        return Thrown;
      }
      var tx := UserTx(soap, w);
      Record(soap.messageId, tx);
      return UserReply(soap.messageId, tx.status, ReceiptFor(soap.messageId, w));
    }
  }
}
