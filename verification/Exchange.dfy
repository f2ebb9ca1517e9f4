/** Two access points: what the sender's log says once the receiver has answered. */
module Exchange {
  import opened Options
  import opened Strings
  import opened XmlText
  import opened TextSearch
  import opened As4Envelope
  import opened As4Reading
  import opened As4RoundTrip
  import opened As4ErrorCode
  import opened As4RawText
  import opened As4Signals
  import opened TxLog
  import opened ApCore

  /** Nothing stops the receiver from recording the message. */
  predicate Processable(w: Incoming) {
    w.payload && w.decrypted && w.verified
  }

  /** The receipt's own id and time are generated without markup. */
  predicate CleanReceipt(w: Incoming) {
    Bracketless(w.receiptId) && Bracketless(w.mdnTimestamp)
  }

  /** An id that is not rejected: well formed, or out of the reader's sight for its line terminator. */
  predicate Admitted(f: Fields) {
    Uuid(f.messageId) || !LineFree(f.messageId)
  }

  function IdSeen(f: Fields): Id {
    if LineFree(f.messageId) then Some(f.messageId) else None
  }

  lemma AdmittedReads(f: Fields)
    ensures ReadSoap(BuildUserMessage(f)).Parsed? <==> Admitted(f)
    ensures Admitted(f) ==> var soap := ReadSoap(BuildUserMessage(f)).soap; soap.signalType == IsUser && soap.messageId == IdSeen(f)
  {
    hide BuildUserMessage, ReadSoap, DocTypeIdentifier, Uuid, LineFree, Esc;
    UserMessageReads(f);
    MessageIdAccepted(f);
    if Uuid(f.messageId) {
      UuidSimple(f.messageId);
    }
  }

  /** What the log says of a party: what the business header said, or else what the envelope carried, escaped and on one line. */
  function PartySeen(header: string, sent: string): string {
    if header != "" then header else if LineFree(sent) then Esc(sent) else ""
  }

  /** The record of a received message, field by field. */
  predicate IsReceived(tx: Tx, sender: string, receiver: string, receipt: string, w: Incoming) {
    && tx.direction == Receive && tx.senderId == sender && tx.receiverId == receiver && tx.docTypeId == w.docTypeId
    && (tx.status == Received <==> w.validation.Some? && w.valid) && (tx.status == Failed <==> w.validation.None? || !w.valid)
    && tx.errorMessage == (if w.valid then None else w.validation)
    && tx.receiptXml == Some(receipt) && tx.timestamp == w.now && tx.completedAt == None
  }

  /**
   * The receiver records an admitted message under the id it sees, with the receipt it sends back: the sender is the
   * sender, the receiver the receiver.
   */
  lemma AcceptedByReceiver(f: Fields, w: Incoming)
    requires Admitted(f) && Processable(w)
    ensures var e := IncomingEvent(BuildUserMessage(f), w);
      && e.Some? && e.value.Recorded? && e.value.id == IdSeen(f)
      && IsReceived(e.value.tx, PartySeen(w.senderId, f.senderParticipantId), PartySeen(w.receiverId, f.receiverParticipantId),
                    ReceiptFor(IdSeen(f), w), w)
  {
    hide BuildUserMessage, ReadSoap, ReadSignal, BuildMdn, DocTypeIdentifier, Uuid, LineFree, Esc;
    AdmittedReads(f);
    UserMessageReads(f);
  }

  /** A message with a malformed id, or one that cannot be processed, is not recorded. */
  lemma RefusedByReceiver(f: Fields, w: Incoming)
    requires !Admitted(f) || !Processable(w)
    ensures IncomingEvent(BuildUserMessage(f), w) == None && forall log :: ReplyTo(BuildUserMessage(f), w, log) == Thrown
  {
    hide BuildUserMessage, ReadSoap, ReadSignal, BuildMdn, Uuid, LineFree;
    AdmittedReads(f);
  }

  /**
   * Whatever message the receipt is for, the sender reads it as a receipt for exactly that id if and only if the id is one
   * a receipt can carry.
   */
  lemma ReceiptReachesSender(id: string, w: Incoming, a: Incoming)
    requires CleanReceipt(w)
    ensures IncomingEvent(ReceiptFor(Some(id), w), a) == Some(GotReceipt(id, ReceiptFor(Some(id), w))) <==> Carried(id)
  {
    hide ReadSoap, ReadSignal, BuildMdn, Bracketless, LineFree, Esc, Occurs;
    MdnReads(Mdn(id, w.receiptId, w.mdnTimestamp));
    EmptyCarried();
  }

  lemma EmptyCarried()
    ensures Carried("")
  {
    PlainCarried("");
  }

  lemma UuidCarried(id: string)
    requires Uuid(id)
    ensures id != "" && Carried(id)
  {
    hide Carried, LineFree, Bracketless;
    UuidSimple(id);
    PlainCarried(id);
  }

  /** A message without an id is acknowledged as "null". */
  lemma NullReceipt(w: Incoming, a: Incoming)
    requires CleanReceipt(w)
    ensures IncomingEvent(ReceiptFor(None, w), a) == Some(GotReceipt("null", ReceiptFor(None, w)))
  {
    hide IncomingEvent, BuildMdn, Occurs;
    PlainCarried("null");
    ReceiptReachesSender("null", w, a);
  }

  // ----- the receipts an access point keeps

  /** A received message is in the log, with the parties its header or else its envelope named, and a receipt. */
  predicate HoldsReceived(log: Log, m: string, soap: Soap, w: Incoming) {
    && Some(m) in log
    && IsReceived(log[Some(m)], if w.senderId != "" then w.senderId else Present(soap.senderParticipantId),
                  if w.receiverId != "" then w.receiverId else Present(soap.receiverParticipantId), ReceiptFor(Some(m), w), w)
  }

  /**
   * In every run, a received message that no signal and no other message has touched since is `received` exactly when its
   * UBL was there and valid, and its record holds a receipt for its own id: whoever gets that text reads a receipt for
   * exactly this record, if and only if the id does not contain the end tag it is written before. Ids of user messages
   * are checked and never do; those of envelopes that are neither signal nor user message are not checked.
   */
  lemma StoredReceiptNames(a: seq<Input>, raw: string, w: Incoming, b: seq<Input>, m: string, tx: Tx, reader: Incoming)
    requires IncomingEvent(raw, w) == Some(Recorded(Some(m), tx)) && CleanReceipt(w)
    requires NotAgain(b, Some(m)) && Naming(EventsOf(b), Some(m)) == []
    ensures ReadSoap(raw).Parsed?
    ensures HoldsReceived(LogAfter(a + [Arriving(raw, w)] + b), m, ReadSoap(raw).soap, w)
    ensures var text := LogAfter(a + [Arriving(raw, w)] + b)[Some(m)].receiptXml.value;
      && (IncomingEvent(text, reader) == Some(GotReceipt(m, text)) <==> !Occurs(RefEnd(), m))
      && (ReadSoap(raw).soap.signalType == IsUser ==> IncomingEvent(text, reader) == Some(GotReceipt(m, text)))
  {
    hide LogAfter, EventsOf, Naming, ReadSoap, ReadSignal, BuildMdn, Occurs, LineFree, Uuid;
    RecordTells(a, Arriving(raw, w), b, Some(m), tx);
    SeenId(raw);
    ReceiptReachesSender(m, w, reader);
    if ReadSoap(raw).soap.signalType == IsUser {
      UuidCarried(m);
    }
  }

  /** The same for a message as it was built: in every run its record names the parties it was sent between. */
  lemma StoredParties(a: seq<Input>, f: Fields, w: Incoming, b: seq<Input>)
    requires Uuid(f.messageId) && Processable(w)
    requires NotAgain(b, Some(f.messageId)) && Naming(EventsOf(b), Some(f.messageId)) == []
    ensures var log, m := LogAfter(a + [Arriving(BuildUserMessage(f), w)] + b), f.messageId;
      && Some(m) in log
      && IsReceived(log[Some(m)], PartySeen(w.senderId, f.senderParticipantId), PartySeen(w.receiverId, f.receiverParticipantId),
                    ReceiptFor(Some(m), w), w)
  {
    hide LogAfter, EventsOf, Naming, IncomingEvent, BuildUserMessage, BuildMdn, Uuid, LineFree, IsReceived, PartySeen, Esc;
    UuidSimple(f.messageId);
    AcceptedByReceiver(f, w);
    var tx := IncomingEvent(BuildUserMessage(f), w).value.tx;
    RecordTells(a, Arriving(BuildUserMessage(f), w), b, Some(f.messageId), tx);
  }

  /** An id that contains the end tag: the sender takes the receipt for one of another message. */
  lemma CutReceipt(p: string, q: string, w: Incoming, a: Incoming)
    requires CleanReceipt(w) && Carried(p)
    ensures var receipt := ReceiptFor(Some(p + RefEnd() + q), w); IncomingEvent(receipt, a) == Some(GotReceipt(p, receipt))
  {
    hide ReadSoap, ReadSignal, BuildMdn, Bracketless, LineFree, Esc, Occurs, RefEnd;
    var r := Mdn(p + RefEnd() + q, w.receiptId, w.mdnTimestamp);
    MdnReads(r);
    MdnCut(r, p, q);
  }

  /** The sender reads an error as an error for the escaped reference, with the escaped texts. */
  lemma ErrorReachesSender(e: Failure, a: Incoming)
    ensures var ref := if e.refMessageId == "" then None else Back(e.refMessageId);
      IncomingEvent(BuildError(e), a) == Some(GotError(Present(ref), CodeOf(BuildError(e)), Trim(DescriptionText(e))))
  {
    hide ReadSoap, ReadSignal, BuildError, CodeOf, Back, Trim, DescriptionText;
    ErrorReads(e);
  }

  /** The record of the message after its receipt arrived. */
  function Acknowledged(log: Log, id: string, receipt: string): Log {
    if Some(id) in log then log[Some(id) := log[Some(id)].(status := ReceiptReceived, receiptXml := Some(receipt))] else log
  }

  /** The record of the message after an error arrived for it: the code and the description in their escaped form. */
  function Refuted(log: Log, id: string, code: string, description: string): Log {
    if Some(id) in log
    then log[Some(id) := log[Some(id)].(status := Failed, errorMessage := Some(
      if description != "" then "[" + code + "] " + description else "[" + code + "]"))]
    else log
  }

  /** Message and details, each on a line of its own, escaped. */
  function Described(e: Failure): string {
    if e.details == "" then Trim(Esc(e.message)) else Trim(Esc(e.message) + "\n" + Esc(e.details))
  }

  lemma DescribedIs(e: Failure)
    ensures Trim(DescriptionText(e)) == Described(e)
  {
    hide Esc, Trim;
    assert Esc(e.message) + "" == Esc(e.message);
    assert Esc(e.message) + ("\n" + Esc(e.details)) == Esc(e.message) + "\n" + Esc(e.details);
  }

  /** An error that names a message the sender sent changes that record only; one that names none changes nothing. */
  lemma ErrorExchange(log: Log, e: Failure, a: Incoming)
    requires e.refMessageId == "" || Uuid(e.refMessageId)
    ensures var after := Apply(log, IncomingEvent(BuildError(e), a));
      && (e.refMessageId == "" ==> after == log)
      && (e.refMessageId != "" && e.code != "" && !CodeTail(e.code)
        ==> after == Refuted(log, e.refMessageId, Esc(e.code), Described(e)))
  {
    hide IncomingEvent, BuildError, CodeOf, Trim, DescriptionText, Described, Esc, Uuid, LineFree, CodeTail, Bracketless;
    ErrorReachesSender(e, a);
    DescribedIs(e);
    CodeRecovered(e);
    if e.refMessageId != "" {
      UuidSimple(e.refMessageId);
    }
  }

  /** What the receiver answers. */
  lemma AnswerOfReceiver(f: Fields, w: Incoming, log: Log)
    requires Admitted(f) && Processable(w)
    ensures var r := ReplyTo(BuildUserMessage(f), w, log);
      && r.UserReply? && r.messageId == IdSeen(f) && r.mdnReceipt == ReceiptFor(IdSeen(f), w)
      && r.status == if w.validation.Some? && w.valid then Received else Failed
  {
    hide BuildUserMessage, ReadSoap, ReadSignal, BuildMdn, DocTypeIdentifier, Uuid, LineFree;
    AdmittedReads(f);
  }

  /** What the sender makes of a receipt: it answers under the receipt's own id, and warns if it knows no such message. */
  lemma AnswerOfSender(id: string, w: Incoming, a: Incoming, log: Log)
    requires CleanReceipt(w) && Carried(id) && w.receiptId != "" && LineFree(w.receiptId)
    ensures ReplyTo(ReceiptFor(Some(id), w), a, log) == SignalReply(w.receiptId, id != "" && Some(id) in log, ReceiptSignal(id))
  {
    hide ReadSoap, ReadSignal, BuildMdn, Bracketless, LineFree, Esc, Occurs;
    MdnReads(Mdn(id, w.receiptId, w.mdnTimestamp));
  }

  /** The record the answer is for: a message whose id was not seen is acknowledged as "null". */
  function AnsweredId(f: Fields): string {
    Written(IdSeen(f))
  }

  lemma AnswerReaches(f: Fields, w: Incoming, back: Incoming)
    requires Admitted(f) && CleanReceipt(w)
    ensures AnsweredId(f) != "" && IncomingEvent(ReceiptFor(IdSeen(f), w), back) == Some(GotReceipt(AnsweredId(f), ReceiptFor(IdSeen(f), w)))
  {
    hide IncomingEvent, BuildMdn, Occurs, Uuid, LineFree;
    if LineFree(f.messageId) {
      UuidCarried(f.messageId);
      ReceiptReachesSender(f.messageId, w, back);
    } else {
      NullReceipt(w, back);
    }
  }

  /**
   * One message from `a` to `b` and the answer back, in every case. An admitted message that can be processed ends with
   * the receiver's stored receipt in the sender's record of the answered id; one that is refused, for its id or because
   * payload, decryption or signature fail, is answered by an error without a reference and leaves both logs alone.
   */
  method SendAndAnswer(a: AccessPoint, b: AccessPoint, f: Fields, w: Incoming, back: Incoming, failure: Failure)
    requires a != b && a.Valid() && b.Valid() && CleanReceipt(w) && failure.refMessageId == ""
    modifies a, b
    ensures a.Valid() && b.Valid()
    ensures Admitted(f) && Processable(w) ==>
      && IdSeen(f) in b.log && b.log[IdSeen(f)].receiptXml.Some?
      && a.log == Acknowledged(old(a.log), AnsweredId(f), b.log[IdSeen(f)].receiptXml.value)
    ensures !Admitted(f) || !Processable(w) ==> a.log == old(a.log) && b.log == old(b.log)
  {
    hide IncomingEvent, ReplyTo, BuildUserMessage, BuildError, BuildMdn, ReadSoap, TxLog.Run, Records, Labelled, Total, CountOf, CodeTail, Admitted, AnsweredId, IdSeen, Bracketless, Esc;
    var reply := b.HandleIncomingMessage(BuildUserMessage(f), w);
    if Admitted(f) && Processable(w) {
      AcceptedByReceiver(f, w);
      AnswerOfReceiver(f, w, old(b.log));
    } else {
      RefusedByReceiver(f, w);
      ErrorExchange(a.log, failure, back);
    }
    match reply {
      case UserReply(id, _, receipt) =>
        var answer := a.HandleIncomingMessage(receipt, back);
        if Admitted(f) && Processable(w) {
          AnswerReaches(f, w, back);
        }
      case Thrown =>
        var answer := a.HandleIncomingMessage(BuildError(failure), back);
      case SignalReply(_, _, _) =>
    }
  }
}
