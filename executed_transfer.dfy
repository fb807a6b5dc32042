/**
 * The Receipt participant's domain: `ExecutedTransfer`, the aggregate that
 * issues a receipt for a transfer, signed with the SHA-256 digest of its own
 * text.
 */
module ExecutedTransferModel {
  import opened Basics
  import opened Messaging
  import opened Encodings
  import Sha256
  import Events = ReceiptServiceEventFactory

  datatype ExecutedTransferState = NONE | ISSUED
  {
    /** The enum member's `ToString()`. */
    function Name(): string
    {
      match this
      case NONE => "NONE"
      case ISSUED => "ISSUED"
    }
  }

  /** The aggregate as a value: what the repository keeps of it. */
  datatype ExecutedTransferRecord = ExecutedTransferRecord(
    transactionId: Option<string>,
    transferDate: DateTime,
    state: ExecutedTransferState,
    receiptSignature: string)

  /** `new ExecutedTransfer(transactionId)`, with `now` the reading of `SystemTime.Now`. */
  function NewExecutedTransfer(transactionId: Option<string>, now: DateTime): (t: ExecutedTransferRecord)
    ensures t.transactionId == transactionId && t.transferDate == now
    ensures t.state == NONE && t.receiptSignature == ""
  {
    ExecutedTransferRecord(transactionId, now, NONE, "")
  }

  /**
   * `ToString()`: "id=<id>,date=<date>,state=<state>", a null id written as
   * nothing. `formatDate` is the culture-dependent `DateTime.ToString()`.
   */
  function Describe(t: ExecutedTransferRecord, formatDate: DateTime -> string): string
  {
    "id=" + Render(t.transactionId) + ",date=" + formatDate(t.transferDate) + ",state=" + t.state.Name()
  }

  /** `Hash()`: the SHA-256 digest of the ASCII bytes of `ToString()`, in lower-case hexadecimal. */
  function Signature(t: ExecutedTransferRecord, formatDate: DateTime -> string): string
  {
    Hex(Sha256.Digest(Ascii(Describe(t, formatDate))))
  }

  /** The aggregate after an operation, with the event it returns. */
  datatype Issued = Issued(record: ExecutedTransferRecord, event: Event)

  /**
   * `IssueReceipt()` as a value: the state becomes ISSUED first, so the text
   * signed names the ISSUED state; the signature is stored and returned in a
   * ReceiptIssuedEvent for the transaction.
   */
  function Issue(t: ExecutedTransferRecord, formatDate: DateTime -> string, eventId: string, now: DateTime): Issued
  {
    var issued := t.(state := ISSUED);
    var signature := Signature(issued, formatDate);
    Issued(issued.(receiptSignature := signature), Events.BuildReceiptIssuedEvent(t.transactionId, signature, eventId, now))
  }

  /**
   * A signature is 64 lower-case hexadecimal digits that decode to the
   * 32-byte digest of the aggregate's text.
   */
  lemma SignatureShape(t: ExecutedTransferRecord, formatDate: DateTime -> string)
    ensures |Signature(t, formatDate)| == 64 && IsLowerHex(Signature(t, formatDate))
    ensures Unhex(Signature(t, formatDate)) == Sha256.Digest(Ascii(Describe(t, formatDate)))
  {
    HexRoundTrip(Sha256.Digest(Ascii(Describe(t, formatDate))));
  }

  /**
   * Issuing leaves the aggregate ISSUED with id and date unchanged, stores a
   * signature of its ISSUED text, and returns a ReceiptIssuedEvent from the
   * Receipt service for the same transaction carrying that same signature.
   */
  lemma IssueSignsIssuedText(t: ExecutedTransferRecord, formatDate: DateTime -> string, eventId: string, now: DateTime)
    ensures var r := Issue(t, formatDate, eventId, now);
      && r.record.state == ISSUED
      && r.record.transactionId == t.transactionId && r.record.transferDate == t.transferDate
      && r.record.receiptSignature == Signature(r.record, formatDate)
      && |Describe(r.record, formatDate)| >= 13
      && Describe(r.record, formatDate)[|Describe(r.record, formatDate)| - 13..] == ",state=ISSUED"
      && r.event.kind == ReceiptIssuedEvent
      && r.event.content == ReceiptContent(r.record.receiptSignature)
      && Stamped(r.event, Receipt, t.transactionId, eventId, now)
  {
    var issued := t.(state := ISSUED);
    var text := Describe(issued, formatDate);
    var prefix := "id=" + Render(t.transactionId) + ",date=" + formatDate(t.transferDate);
    assert text == prefix + ",state=ISSUED";
    assert text[|text| - 13..] == ",state=ISSUED";
    Events.ReceiptEventsWellFormed(t.transactionId, Signature(issued, formatDate), NullDereference, eventId, now);
  }

  /**
   * The receipt depends only on the transaction id and the transfer date:
   * neither the earlier state nor an earlier signature changes it, so
   * issuing twice gives the same aggregate and the same event.
   */
  lemma IssueDependsOnlyOnIdAndDate(t1: ExecutedTransferRecord, t2: ExecutedTransferRecord,
                                    formatDate: DateTime -> string, eventId: string, now: DateTime)
    requires t1.transactionId == t2.transactionId && t1.transferDate == t2.transferDate
    ensures Issue(t1, formatDate, eventId, now) == Issue(t2, formatDate, eventId, now)
    ensures Issue(Issue(t1, formatDate, eventId, now).record, formatDate, eventId, now) == Issue(t1, formatDate, eventId, now)
  {
    assert Describe(t1.(state := ISSUED), formatDate) == Describe(t2.(state := ISSUED), formatDate);
  }

  /** The `foreach` over the digest: each byte appended to the builder as two lower-case hexadecimal digits. */
  method AppendHexDigits(hashBytes: seq<byte>) returns (sb: string)
    ensures sb == Hex(hashBytes)
  {
    sb := "";
    var i := 0;
    while i < |hashBytes|
      invariant 0 <= i <= |hashBytes|
      invariant sb == Hex(hashBytes[..i])
    {
      assert hashBytes[..i + 1] == hashBytes[..i] + [hashBytes[i]];
      HexAppend(hashBytes[..i], hashBytes[i]);
      sb := sb + HexByte(hashBytes[i]);
      i := i + 1;
    }
    assert hashBytes[..i] == hashBytes;
  }

  /** The digest of `commandBytes`, written out in hexadecimal: 64 lower-case digits. */
  method HexDigest(commandBytes: seq<byte>) returns (s: string)
    ensures s == Hex(Sha256.Digest(commandBytes))
    ensures |s| == 64 && IsLowerHex(s)
  {
    var hashBytes := Sha256.Digest(commandBytes);
    s := AppendHexDigits(hashBytes);
    HexRoundTrip(hashBytes);
  }

  /** The aggregate, changed in place by `IssueReceipt`. */
  class ExecutedTransfer {
    const transactionId: Option<string>
    const transferDate: DateTime
    var state: ExecutedTransferState
    var receiptSignature: string

    /** `new ExecutedTransfer(transactionId)`: state NONE, empty signature, dated `now`. */
    constructor (id: Option<string>, now: DateTime)
      ensures Snapshot() == NewExecutedTransfer(id, now)
    {
      transactionId := id;
      transferDate := now;
      state := NONE;
      receiptSignature := "";
    }

    /** The aggregate as a value. */
    function Snapshot(): ExecutedTransferRecord
      reads this
    {
      ExecutedTransferRecord(transactionId, transferDate, state, receiptSignature)
    }

    /** `Hash()`: the ASCII bytes of the current text, hashed and written out. */
    method Hash(formatDate: DateTime -> string) returns (s: string)
      ensures s == Signature(Snapshot(), formatDate)
    {
      var serialized := Describe(Snapshot(), formatDate);
      var commandBytes := Ascii(serialized);
      s := HexDigest(commandBytes);
    }

    /** `IssueReceipt()`: ISSUED, then signed, then the event. */
    method IssueReceipt(formatDate: DateTime -> string, eventId: string, now: DateTime) returns (e: Event)
      modifies this
      ensures Issued(Snapshot(), e) == Issue(old(Snapshot()), formatDate, eventId, now)
    {
      state := ISSUED;
      receiptSignature := Hash(formatDate);
      e := Events.BuildReceiptIssuedEvent(transactionId, receiptSignature, eventId, now);
    }
  }
}
