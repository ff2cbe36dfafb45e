/** Chat records shared by the customer chat on the product page and the
    session history page, with the by-id read-flag updates both apply. */
module Chat {
  import opened Wrappers

  type SessionId = string
  type MessageId = string

  /** A stored message. `sender` is `'user'` or `'admin'`. */
  datatype Message = Message(
    id: MessageId, sessionId: SessionId, sender: string, body: string,
    isReadByUser: bool, isReadByAdmin: bool)

  /** Which read flag a sender pre-sets on its own outgoing message. */
  datatype Reader = ByUser | ByAdmin

  /** The payload of a `sendMessage` emit: `{sessionId, sender, message, isReadBy...: true}`. */
  datatype Outgoing = Outgoing(sessionId: SessionId, sender: string, body: string, readBy: Reader)

  /** HTTP calls to the chat API; `None` stands for an `undefined` session id. */
  datatype Request =
    | StartSession(userId: string, productId: string)
    | Seen(seenSession: Option<SessionId>)
    | DeleteSession(deleted: Option<SessionId>)
    | EndSession(ended: Option<SessionId>)

  /** What a chat view sends out: socket emits and HTTP requests, in order. */
  datatype ChatEvent =
    | SendMessage(outgoing: Outgoing)
    | AdminReadsMessage(session: Option<SessionId>, messageId: MessageId)
    | NewSessionCreated(created: SessionId)
    | Http(request: Request)

  /** A message with its two read flags cleared: what it says, and by whom. */
  function Content(m: Message): Message {
    m.(isReadByUser := false, isReadByAdmin := false)
  }

  /** The transcript with read flags ignored. */
  function Contents(ms: seq<Message>): (r: seq<Message>)
    ensures |r| == |ms|
  {
    seq(|ms|, i requires 0 <= i < |ms| => Content(ms[i]))
  }

  /** Read flags only ever go from false to true. */
  predicate FlagsGrow(before: seq<Message>, after: seq<Message>) {
    |after| == |before| &&
    forall i :: 0 <= i < |before| ==>
      (before[i].isReadByUser ==> after[i].isReadByUser) &&
      (before[i].isReadByAdmin ==> after[i].isReadByAdmin)
  }

  /** The `adminReadMessage` update: set `isReadByAdmin` on the message(s) whose id matches. */
  function MarkReadByAdmin(ms: seq<Message>, id: MessageId): (r: seq<Message>)
    ensures Contents(r) == Contents(ms) && FlagsGrow(ms, r)
    ensures forall i :: 0 <= i < |ms| ==>
      r[i].isReadByUser == ms[i].isReadByUser &&
      r[i].isReadByAdmin == (ms[i].isReadByAdmin || ms[i].id == id)
  {
    seq(|ms|, i requires 0 <= i < |ms| =>
      if ms[i].id == id then ms[i].(isReadByAdmin := true) else ms[i])
  }

  /** The `userReadMessage` update: set `isReadByUser` on the message(s) whose id matches. */
  function MarkReadByUser(ms: seq<Message>, id: MessageId): (r: seq<Message>)
    ensures Contents(r) == Contents(ms) && FlagsGrow(ms, r)
    ensures forall i :: 0 <= i < |ms| ==>
      r[i].isReadByAdmin == ms[i].isReadByAdmin &&
      r[i].isReadByUser == (ms[i].isReadByUser || ms[i].id == id)
  {
    seq(|ms|, i requires 0 <= i < |ms| =>
      if ms[i].id == id then ms[i].(isReadByUser := true) else ms[i])
  }

  /** Selecting a session: every message becomes read by the admin side. */
  function MarkAllReadByAdmin(ms: seq<Message>): (r: seq<Message>)
    ensures Contents(r) == Contents(ms) && FlagsGrow(ms, r)
    ensures forall i :: 0 <= i < |ms| ==> r[i].isReadByAdmin && r[i].isReadByUser == ms[i].isReadByUser
  {
    seq(|ms|, i requires 0 <= i < |ms| => ms[i].(isReadByAdmin := true))
  }

  /** A receipt is targeted: messages with other ids are untouched, and a
      second identical receipt changes nothing. */
  lemma ReceiptsAreTargetedAndIdempotent(ms: seq<Message>, id: MessageId)
    ensures forall i :: 0 <= i < |ms| && ms[i].id != id ==>
      MarkReadByAdmin(ms, id)[i] == ms[i] && MarkReadByUser(ms, id)[i] == ms[i]
    ensures MarkReadByAdmin(MarkReadByAdmin(ms, id), id) == MarkReadByAdmin(ms, id)
    ensures MarkReadByUser(MarkReadByUser(ms, id), id) == MarkReadByUser(ms, id)
  {
  }

  /** The number of messages not yet read by the admin side. */
  function UnreadByAdmin(ms: seq<Message>): (n: nat)
    ensures n <= |ms|
    ensures n == 0 <==> forall i :: 0 <= i < |ms| ==> ms[i].isReadByAdmin
    ensures n == |ms| <==> forall i :: 0 <= i < |ms| ==> !ms[i].isReadByAdmin
  {
    if ms == [] then 0 else (if ms[0].isReadByAdmin then 0 else 1) + UnreadByAdmin(ms[1..])
  }

  /** One `adminReadsMessage(sessionId, id)` per message not yet read by the
      admin side, in transcript order. */
  function Receipts(session: Option<SessionId>, ms: seq<Message>): (r: seq<ChatEvent>)
    ensures |r| == UnreadByAdmin(ms)
    ensures forall e :: e in r ==> e.AdminReadsMessage? && e.session == session
  {
    if ms == [] then [] else ReceiptOf(session, ms[0]) + Receipts(session, ms[1..])
  }

  /** The receipt one message calls for: none once the admin side has read it. */
  function ReceiptOf(session: Option<SessionId>, m: Message): seq<ChatEvent> {
    if m.isReadByAdmin then [] else [AdminReadsMessage(session, m.id)]
  }

  /** Receipts follow the transcript: those of a concatenation are those of
      its parts, in order. */
  lemma {:induction false} ReceiptsConcat(session: Option<SessionId>, a: seq<Message>, b: seq<Message>)
    ensures Receipts(session, a + b) == Receipts(session, a) + Receipts(session, b)
  {
    if a == [] {
      assert a + b == b;
    } else {
      calc {
        Receipts(session, a + b);
        { assert (a + b)[0] == a[0] && (a + b)[1..] == a[1..] + b; }
        ReceiptOf(session, a[0]) + Receipts(session, a[1..] + b);
        { ReceiptsConcat(session, a[1..], b); }
        ReceiptOf(session, a[0]) + (Receipts(session, a[1..]) + Receipts(session, b));
        Receipts(session, a) + Receipts(session, b);
      }
    }
  }

  /** The receipts of one more message of a transcript: those of the prefix,
      then that message's own. */
  lemma ReceiptsSnoc(session: Option<SessionId>, ms: seq<Message>, i: nat)
    requires i < |ms|
    ensures Receipts(session, ms[..i + 1]) == Receipts(session, ms[..i]) + ReceiptOf(session, ms[i])
  {
    ReceiptsConcat(session, ms[..i], [ms[i]]);
    assert ms[..i + 1] == ms[..i] + [ms[i]];
    assert [ms[i]][1..] == [];
  }

  /** Every unread message gets its receipt; a fully read transcript gets none. */
  lemma {:induction false} ReceiptFor(session: Option<SessionId>, ms: seq<Message>, k: nat)
    requires k < |ms|
    ensures !ms[k].isReadByAdmin ==> AdminReadsMessage(session, ms[k].id) in Receipts(session, ms)
    ensures UnreadByAdmin(ms) == 0 ==> Receipts(session, ms) == []
  {
    if k > 0 {
      ReceiptFor(session, ms[1..], k - 1);
    }
  }

  /** A receipt names a message id exactly when some message with that id
      is unread by the admin side. */
  lemma {:induction false} ReceiptIff(session: Option<SessionId>, ms: seq<Message>, id: MessageId)
    ensures AdminReadsMessage(session, id) in Receipts(session, ms) <==>
      exists k :: 0 <= k < |ms| && ms[k].id == id && !ms[k].isReadByAdmin
  {
    if ms != [] {
      ReceiptIff(session, ms[1..], id);
      if exists k :: 0 <= k < |ms[1..]| && ms[1..][k].id == id && !ms[1..][k].isReadByAdmin {
        var k :| 0 <= k < |ms[1..]| && ms[1..][k].id == id && !ms[1..][k].isReadByAdmin;
        assert ms[k + 1] == ms[1..][k];
      }
      if exists k :: 0 <= k < |ms| && ms[k].id == id && !ms[k].isReadByAdmin {
        var k :| 0 <= k < |ms| && ms[k].id == id && !ms[k].isReadByAdmin;
        if k > 0 {
          assert ms[1..][k - 1] == ms[k];
        }
      }
    }
  }

  /** Once everything is read, selecting again emits nothing. */
  lemma {:induction false} NoReceiptsAfterMarking(session: Option<SessionId>, ms: seq<Message>)
    ensures Receipts(session, MarkAllReadByAdmin(ms)) == []
  {
    if ms != [] {
      assert MarkAllReadByAdmin(ms)[1..] == MarkAllReadByAdmin(ms[1..]);
      NoReceiptsAfterMarking(session, ms[1..]);
    }
  }
}
