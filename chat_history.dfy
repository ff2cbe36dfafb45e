/** The signed-in user's chat history page (`SupportChatting`): the list of
    their chat sessions, the transcript of the selected one, and the socket
    events that keep both up to date. */
module ChatHistory {
  import opened Wrappers
  import opened Text
  import opened Chat
  import opened Plans

  /** A chat session as `/api/chat/all-sessions` returns it; `ownerEmail` is
      `session.user.email`. */
  datatype Session = Session(id: SessionId, ownerEmail: string, messages: seq<Message>)

  /** The page's data: the session list, the selected session and the
      transcript on screen. */
  datatype View = View(sessions: seq<Session>, active: Option<SessionId>, visible: seq<Message>)

  // ---------------------------------------------------------------------
  // Session lists
  // ---------------------------------------------------------------------

  function Ids(ss: seq<Session>): (r: seq<SessionId>)
    ensures |r| == |ss| && forall i :: 0 <= i < |ss| ==> r[i] == ss[i].id
  {
    seq(|ss|, i requires 0 <= i < |ss| => ss[i].id)
  }

  /** Position of the first occurrence of `id` (what `find` by `_id` picks). */
  function IndexOf(ids: seq<SessionId>, id: SessionId): (r: Option<nat>)
    ensures r.None? <==> id !in ids
    ensures r.Some? ==>
      && r.value < |ids| && ids[r.value] == id
      && forall j :: 0 <= j < r.value ==> ids[j] != id
  {
    if ids == [] then None
    else if ids[0] == id then Some(0)
    else match IndexOf(ids[1..], id)
      case None => None
      case Some(i) => Some(i + 1)
  }

  /** The selected session is one of the listed ones (or none is selected). */
  predicate Listed(ss: seq<Session>, active: Option<SessionId>) {
    active.None? || active.value in Ids(ss)
  }

  /** `Sessions.find(s => s._id === active)?.messages || []` */
  function ActiveMessages(ss: seq<Session>, active: Option<SessionId>): (r: seq<Message>)
    ensures !Listed(ss, active) ==> r == []
  {
    match active
    case None => []
    case Some(id) =>
      match IndexOf(Ids(ss), id)
      case None => []
      case Some(k) => ss[k].messages
  }

  /** `all.filter(session => session.user.email === email)` */
  function OwnedBy(all: seq<Session>, email: string): (r: seq<Session>)
    ensures |r| <= |all|
    ensures forall s :: s in r <==> s in all && s.ownerEmail == email
  {
    if all == [] then []
    else (if all[0].ownerEmail == email then [all[0]] else []) + OwnedBy(all[1..], email)
  }

  /** Filtering keeps the server's order: it distributes over concatenation. */
  lemma {:induction false} OwnedByConcat(a: seq<Session>, b: seq<Session>, email: string)
    ensures OwnedBy(a + b, email) == OwnedBy(a, email) + OwnedBy(b, email)
  {
    if a == [] {
      assert a + b == b;
    } else {
      assert (a + b)[0] == a[0] && (a + b)[1..] == a[1..] + b;
      OwnedByConcat(a[1..], b, email);
    }
  }

  /** `sessions.filter(session => session._id !== active)` */
  function WithoutSession(ss: seq<Session>, active: Option<SessionId>): (r: seq<Session>)
    ensures |r| <= |ss|
    ensures forall s :: s in r <==> s in ss && active != Some(s.id)
  {
    if ss == [] then []
    else (if active != Some(ss[0].id) then [ss[0]] else []) + WithoutSession(ss[1..], active)
  }

  /** Selecting: every message of the matching session becomes read by the
      admin side; other sessions are untouched. */
  function MarkSessionRead(ss: seq<Session>, sid: Option<SessionId>): (r: seq<Session>)
    ensures Ids(r) == Ids(ss)
    ensures forall i :: 0 <= i < |ss| ==>
      && r[i].ownerEmail == ss[i].ownerEmail
      && Contents(r[i].messages) == Contents(ss[i].messages)
      && (sid == Some(ss[i].id) ==> r[i].messages == MarkAllReadByAdmin(ss[i].messages))
      && (sid != Some(ss[i].id) ==> r[i] == ss[i])
  {
    seq(|ss|, i requires 0 <= i < |ss| =>
      if sid == Some(ss[i].id) then ss[i].(messages := MarkAllReadByAdmin(ss[i].messages)) else ss[i])
  }

  /** A received message is appended to every session with its id. */
  function AppendToSession(ss: seq<Session>, sid: SessionId, m: Message): (r: seq<Session>)
    ensures Ids(r) == Ids(ss)
    ensures forall i :: 0 <= i < |ss| ==>
      && (ss[i].id == sid ==> r[i].messages == ss[i].messages + [m] && r[i].ownerEmail == ss[i].ownerEmail)
      && (ss[i].id != sid ==> r[i] == ss[i])
  {
    seq(|ss|, i requires 0 <= i < |ss| =>
      if ss[i].id == sid then ss[i].(messages := ss[i].messages + [m]) else ss[i])
  }

  /** A `userReadMessage` receipt marks that message of that session read by the user. */
  function MarkUserRead(ss: seq<Session>, sid: SessionId, mid: MessageId): (r: seq<Session>)
    ensures Ids(r) == Ids(ss)
    ensures forall i :: 0 <= i < |ss| ==>
      && (ss[i].id == sid ==> r[i].messages == MarkReadByUser(ss[i].messages, mid) && r[i].ownerEmail == ss[i].ownerEmail)
      && (ss[i].id != sid ==> r[i] == ss[i])
  {
    seq(|ss|, i requires 0 <= i < |ss| =>
      if ss[i].id == sid then ss[i].(messages := MarkReadByUser(ss[i].messages, mid)) else ss[i])
  }

  // ---------------------------------------------------------------------
  // The page's data, operation by operation
  // ---------------------------------------------------------------------

  /** The transcript on screen is the selected session's transcript (read
      flags aside), and the selected session is in the list. */
  predicate Consistent(v: View) {
    Listed(v.sessions, v.active) && Contents(v.visible) == Contents(ActiveMessages(v.sessions, v.active))
  }

  /** Loading as written: the list is filtered to the user's sessions, but the
      selected session and its transcript are taken from the unfiltered
      server list. */
  function LoadedAsWritten(all: seq<Session>, email: string): (v: View)
    ensures v.sessions == OwnedBy(all, email)
    ensures all != [] ==> v.active == Some(all[0].id) && v.visible == all[0].messages
  {
    var active := if all == [] then None else Some(all[0].id);
    var visible := if all == [] then [] else all[0].messages;
    View(OwnedBy(all, email), active, visible)
  }

  /** Loading, corrected: the first of the user's own sessions is selected
      and shown. */
  function Loaded(all: seq<Session>, email: string): (v: View)
    ensures v.sessions == OwnedBy(all, email)
    ensures v.active.Some? <==> v.sessions != []
    ensures v.active.Some? ==> v.active == Some(v.sessions[0].id) && v.visible == v.sessions[0].messages
  {
    var owned := OwnedBy(all, email);
    if owned == [] then View(owned, None, []) else View(owned, Some(owned[0].id), owned[0].messages)
  }

  /** The corrected load always shows the selected session's transcript, and
      only sessions the user owns. */
  lemma LoadedIsConsistent(all: seq<Session>, email: string)
    ensures Consistent(Loaded(all, email))
    ensures forall s :: s in Loaded(all, email).sessions ==> s.ownerEmail == email
  {
    var v := Loaded(all, email);
    if v.sessions != [] {
      assert Ids(v.sessions)[0] == v.sessions[0].id;
    }
  }

  /** As written, when the server lists another user's session first (and
      none of the user's own sessions shares its id), the page selects that
      session and shows its transcript, which is not in the user's list. */
  lemma LoadedAsWrittenShowsForeignSession(all: seq<Session>, email: string)
    requires all != [] && all[0].ownerEmail != email && all[0].messages != []
    requires forall s :: s in all && s.ownerEmail == email ==> s.id != all[0].id
    ensures !Consistent(LoadedAsWritten(all, email))
    ensures LoadedAsWritten(all, email).visible == all[0].messages
  {
    var v := LoadedAsWritten(all, email);
    assert all[0].id !in Ids(v.sessions);
  }

  /** A concrete instance of the above. */
  lemma LoadedAsWrittenExample()
    ensures var m := Message("m1", "s1", "user", "hello", true, false);
      var all := [Session("s1", "other@x.co", [m]), Session("s2", "me@x.co", [])];
      && LoadedAsWritten(all, "me@x.co") == View([all[1]], Some("s1"), [m])
      && !Consistent(LoadedAsWritten(all, "me@x.co"))
      && Loaded(all, "me@x.co") == View([all[1]], Some("s2"), [])
  {
    var m := Message("m1", "s1", "user", "hello", true, false);
    var all := [Session("s1", "other@x.co", [m]), Session("s2", "me@x.co", [])];
    assert all[1..] == [all[1]];
    assert OwnedBy(all, "me@x.co") == [all[1]];
    LoadedAsWrittenShowsForeignSession(all, "me@x.co");
  }

  /** `SelectACtiveSession(sid)`: show the session's transcript as it was and
      mark it read in the list. */
  function Selected(v: View, sid: Option<SessionId>): (r: View)
    requires Listed(v.sessions, sid)
    ensures r.active == sid && r.visible == ActiveMessages(v.sessions, sid)
    ensures r.sessions == MarkSessionRead(v.sessions, sid)
  {
    View(MarkSessionRead(v.sessions, sid), sid, ActiveMessages(v.sessions, sid))
  }

  /** Selection shows the selected session, and afterwards every message of it
      is read by the admin side, so selecting it again sends no receipt. */
  lemma SelectedIsConsistent(v: View, sid: Option<SessionId>)
    requires Listed(v.sessions, sid)
    ensures Consistent(Selected(v, sid))
    ensures ActiveMessages(Selected(v, sid).sessions, sid) == MarkAllReadByAdmin(ActiveMessages(v.sessions, sid))
    ensures Receipts(sid, ActiveMessages(Selected(v, sid).sessions, sid)) == []
  {
    var r := Selected(v, sid);
    NoReceiptsAfterMarking(sid, ActiveMessages(v.sessions, sid));
    if sid.Some? {
      var k := IndexOf(Ids(v.sessions), sid.value).value;
      assert IndexOf(Ids(r.sessions), sid.value) == Some(k);
    }
  }

  /** `receiveMessage`: shown and acknowledged at once when it belongs to the
      selected session; appended to its session in the list either way. */
  function Received(v: View, data: Message): (r: View)
    ensures r.active == v.active
    ensures v.active == Some(data.sessionId) ==> r.visible == v.visible + [data.(isReadByAdmin := true)]
    ensures v.active != Some(data.sessionId) ==> r.visible == v.visible
    ensures r.sessions == AppendToSession(v.sessions, data.sessionId, data.(isReadByAdmin := v.active == Some(data.sessionId)))
  {
    var isActive := v.active == Some(data.sessionId);
    View(AppendToSession(v.sessions, data.sessionId, data.(isReadByAdmin := isActive)),
         v.active,
         if isActive then v.visible + [data.(isReadByAdmin := true)] else v.visible)
  }

  lemma ContentsAppend(ms: seq<Message>, m: Message)
    ensures Contents(ms + [m]) == Contents(ms) + [Content(m)]
  {
  }

  /** Receiving keeps the transcript on screen in step with the list. */
  lemma ReceivedIsConsistent(v: View, data: Message)
    requires Consistent(v)
    ensures Consistent(Received(v, data))
  {
    var r := Received(v, data);
    if v.active.Some? {
      var k := IndexOf(Ids(v.sessions), v.active.value).value;
      assert IndexOf(Ids(r.sessions), v.active.value) == Some(k);
      if v.active == Some(data.sessionId) {
        ContentsAppend(v.visible, data.(isReadByAdmin := true));
        ContentsAppend(v.sessions[k].messages, data.(isReadByAdmin := true));
      }
    }
  }

  /** The message `{...data, isReadByUser: true}` that the receipt handler
      appends as written: `data` is the router's `data` helper, which carries
      no message fields. */
  const Phantom: Message := Message("", "", "", "", true, false)

  /** `userReadMessage` as written: the list is updated, and a phantom
      message is appended to the transcript on screen. */
  function UserReadAsWritten(v: View, sid: SessionId, mid: MessageId): (r: View)
    ensures r.active == v.active && r.visible == v.visible + [Phantom]
    ensures r.sessions == MarkUserRead(v.sessions, sid, mid)
  {
    View(MarkUserRead(v.sessions, sid, mid), v.active, v.visible + [Phantom])
  }

  /** `userReadMessage`, corrected: the same by-id update is applied to the
      transcript on screen when the receipt is for the selected session. */
  function UserRead(v: View, sid: SessionId, mid: MessageId): (r: View)
    ensures r.active == v.active
    ensures v.active == Some(sid) ==> r.visible == MarkReadByUser(v.visible, mid)
    ensures v.active != Some(sid) ==> r.visible == v.visible
    ensures r.sessions == MarkUserRead(v.sessions, sid, mid)
  {
    View(MarkUserRead(v.sessions, sid, mid), v.active,
         if v.active == Some(sid) then MarkReadByUser(v.visible, mid) else v.visible)
  }

  lemma UserReadKeepsActiveLength(v: View, sid: SessionId, mid: MessageId)
    ensures |ActiveMessages(MarkUserRead(v.sessions, sid, mid), v.active)| == |ActiveMessages(v.sessions, v.active)|
    ensures Contents(ActiveMessages(MarkUserRead(v.sessions, sid, mid), v.active)) == Contents(ActiveMessages(v.sessions, v.active))
  {
    if v.active.Some? && v.active.value in Ids(v.sessions) {
      var k := IndexOf(Ids(v.sessions), v.active.value).value;
      assert IndexOf(Ids(MarkUserRead(v.sessions, sid, mid)), v.active.value) == Some(k);
    }
  }

  /** The corrected receipt handler keeps the transcript in step with the list. */
  lemma UserReadIsConsistent(v: View, sid: SessionId, mid: MessageId)
    requires Consistent(v)
    ensures Consistent(UserRead(v, sid, mid))
  {
    UserReadKeepsActiveLength(v, sid, mid);
  }

  /** As written, every receipt puts the page out of step: the transcript on
      screen grows by one message its session does not have. */
  lemma UserReadAsWrittenBreaksConsistency(v: View, sid: SessionId, mid: MessageId)
    requires Consistent(v)
    ensures !Consistent(UserReadAsWritten(v, sid, mid))
    ensures Phantom in UserReadAsWritten(v, sid, mid).visible
  {
    UserReadKeepsActiveLength(v, sid, mid);
    var r := UserReadAsWritten(v, sid, mid);
    assert |Contents(r.visible)| == |Contents(v.visible)| + 1;
    assert r.visible[|v.visible|] == Phantom;
  }

  /** `new-session-started`: the session is appended to the list. */
  function SessionAdded(v: View, s: Session): (r: View)
    ensures r.sessions == v.sessions + [s] && r.active == v.active && r.visible == v.visible
  {
    View(v.sessions + [s], v.active, v.visible)
  }

  lemma SessionAddedIsConsistent(v: View, s: Session)
    requires Consistent(v)
    ensures Consistent(SessionAdded(v, s))
  {
    if v.active.Some? {
      var r := SessionAdded(v, s);
      var k := IndexOf(Ids(v.sessions), v.active.value).value;
      assert Ids(r.sessions)[k] == v.active.value;
      assert forall j :: 0 <= j < k ==> Ids(r.sessions)[j] == Ids(v.sessions)[j];
      assert IndexOf(Ids(r.sessions), v.active.value) == Some(k);
    }
  }

  /** The next session selected after ending one: the first that remains. */
  function NextAfterEnd(rest: seq<Session>): (r: Option<SessionId>)
    ensures Listed(rest, r)
    ensures r.None? <==> rest == []
    ensures rest != [] ==> r == Some(rest[0].id)
  {
    if rest == [] then None else assert Ids(rest)[0] == rest[0].id; Some(rest[0].id)
  }

  /** `handleDelete` after a 200 reply: the selected session leaves the list
      and the first remaining one is selected. */
  function Ended(v: View): (r: View)
    ensures forall s :: s in r.sessions ==> v.active != Some(s.id)
    ensures Consistent(r)
    ensures r.active == NextAfterEnd(WithoutSession(v.sessions, v.active))
    ensures r.sessions == MarkSessionRead(WithoutSession(v.sessions, v.active), r.active)
  {
    var rest := WithoutSession(v.sessions, v.active);
    var next := NextAfterEnd(rest);
    SelectedIsConsistent(View(rest, v.active, v.visible), next);
    Selected(View(rest, v.active, v.visible), next)
  }

  /** Ending leaves nothing but sessions of the old list, in step with the screen. */
  lemma EndedKeepsOthers(v: View)
    ensures |Ended(v).sessions| == |WithoutSession(v.sessions, v.active)|
    ensures forall s :: s in v.sessions && v.active != Some(s.id) ==> s.id in Ids(Ended(v).sessions)
  {
    var rest := WithoutSession(v.sessions, v.active);
    forall s | s in v.sessions && v.active != Some(s.id)
      ensures s.id in Ids(Ended(v).sessions)
    {
      var i :| 0 <= i < |rest| && rest[i] == s;
      assert Ids(rest)[i] == s.id;
    }
  }

  // ---------------------------------------------------------------------
  // The page
  // ---------------------------------------------------------------------

  /** The `forEach` over a transcript that emits `adminReadsMessage` for each
      message not yet read by the admin side. */
  method CollectReceipts(sid: Option<SessionId>, ms: seq<Message>) returns (receipts: seq<ChatEvent>)
    ensures receipts == Receipts(sid, ms)
  {
    receipts := [];
    var i := 0;
    while i < |ms|
      invariant 0 <= i <= |ms|
      invariant receipts == Receipts(sid, ms[..i])
    {
      ReceiptsSnoc(sid, ms, i);
      if !ms[i].isReadByAdmin {
        receipts := receipts + [AdminReadsMessage(sid, ms[i].id)];
      }
      i := i + 1;
    }
    assert ms[..i] == ms;
  }

  /** The reply to `GET /api/chat/all-sessions`. */
  datatype FetchReply = Listing(all: seq<Session>) | NoBody | FetchFailed

  class SupportChatting {
    var sessions: seq<Session>
    var sessionActive: Option<SessionId>
    var chatmessages: seq<Message>
    var newMessage: string
    var loading: bool
    var failed: bool
    /** Socket emits and HTTP requests, in the order they were sent. */
    var log: seq<ChatEvent>

    function ViewOf(): View
      reads this`sessions, this`sessionActive, this`chatmessages
    {
      View(sessions, sessionActive, chatmessages)
    }

    ghost predicate Valid()
      reads this`sessions, this`sessionActive, this`chatmessages
    {
      Consistent(ViewOf())
    }

    constructor()
      ensures Valid()
      ensures sessions == [] && sessionActive == None && chatmessages == [] && newMessage == ""
      ensures loading && !failed && log == []
    {
      sessions := [];
      sessionActive := None;
      chatmessages := [];
      newMessage := "";
      loading := true;
      failed := false;
      log := [];
    }

    /** `fetchData` (corrected): load the user's sessions, select the first
        and tell the server it was seen. */
    method FetchData(user: Option<User>, reply: FetchReply)
      requires Valid()
      modifies this
      ensures Valid()
      ensures user.None? ==> ViewOf() == old(ViewOf()) && log == old(log) && loading == old(loading) && failed == old(failed)
      ensures user.Some? ==> !loading && failed == (old(failed) || reply.FetchFailed?)
      ensures user.Some? && reply.Listing? ==>
        ViewOf() == Loaded(reply.all, user.value.email) && log == old(log) + [Http(Seen(sessionActive))]
      ensures user.None? || !reply.Listing? ==> ViewOf() == old(ViewOf()) && log == old(log)
      ensures newMessage == old(newMessage)
    {
      if user.None? {
        return;
      }
      match reply {
        case Listing(all) =>
          var v := Loaded(all, user.value.email);
          LoadedIsConsistent(all, user.value.email);
          sessions, sessionActive, chatmessages := v.sessions, v.active, v.visible;
          log := log + [Http(Seen(sessionActive))];
        case NoBody =>
        case FetchFailed =>
          failed := true;
      }
      loading := false;
    }

    /** `SelectACtiveSession`: show the session, mark it read, send one
        receipt per message not yet read by the admin side, then `seen`. */
    method SelectActiveSession(sid: Option<SessionId>)
      requires Listed(sessions, sid)
      modifies this
      ensures Valid()
      ensures ViewOf() == Selected(old(ViewOf()), sid)
      ensures log == old(log) + Receipts(sid, ActiveMessages(old(sessions), sid)) + [Http(Seen(sid))]
      ensures newMessage == old(newMessage) && loading == old(loading) && failed == old(failed)
    {
      var ms := ActiveMessages(sessions, sid);
      var next := Selected(ViewOf(), sid);
      SelectedIsConsistent(ViewOf(), sid);
      sessions, sessionActive, chatmessages := next.sessions, next.active, next.visible;
      assert ViewOf() == next;
      var receipts := CollectReceipts(sid, ms);
      log := log + receipts;
      log := log + [Http(Seen(sid))];
    }

    /** `receiveMessage` */
    method ReceiveMessage(data: Message)
      requires Valid()
      modifies this
      ensures Valid()
      ensures ViewOf() == Received(old(ViewOf()), data)
      ensures log == old(log) + (if sessionActive == Some(data.sessionId) then [AdminReadsMessage(Some(data.sessionId), data.id)] else [])
      ensures newMessage == old(newMessage) && loading == old(loading) && failed == old(failed)
    {
      var v := Received(ViewOf(), data);
      ReceivedIsConsistent(ViewOf(), data);
      if sessionActive == Some(data.sessionId) {
        log := log + [AdminReadsMessage(Some(data.sessionId), data.id)];
      }
      sessions, chatmessages := v.sessions, v.visible;
    }

    /** `userReadMessage` (corrected). */
    method UserReadMessage(sid: SessionId, mid: MessageId)
      requires Valid()
      modifies this
      ensures Valid()
      ensures ViewOf() == UserRead(old(ViewOf()), sid, mid)
      ensures log == old(log) && newMessage == old(newMessage) && loading == old(loading) && failed == old(failed)
    {
      var v := UserRead(ViewOf(), sid, mid);
      UserReadIsConsistent(ViewOf(), sid, mid);
      sessions, chatmessages := v.sessions, v.visible;
    }

    /** `new-session-started` */
    method NewSessionStarted(s: Session)
      requires Valid()
      modifies this
      ensures Valid()
      ensures ViewOf() == SessionAdded(old(ViewOf()), s)
      ensures log == old(log) && newMessage == old(newMessage) && loading == old(loading) && failed == old(failed)
    {
      SessionAddedIsConsistent(ViewOf(), s);
      sessions := sessions + [s];
    }

    /** `sendMessage`: emit the trimmed text on the selected session, marked
        read by the admin side, and clear the input; no session or a blank
        text sends nothing. Neither the list nor the transcript changes. */
    method SendMessage()
      modifies this`log, this`newMessage
      ensures var text := Trim(old(newMessage));
        var sent := sessionActive.Some? && text != [];
        && log == old(log) + (if sent then [ChatEvent.SendMessage(Outgoing(sessionActive.value, "user", text, ByAdmin))] else [])
        && newMessage == (if sent then [] else old(newMessage))
    {
      var text := Trim(newMessage);
      if sessionActive.Some? && text != [] {
        log := log + [ChatEvent.SendMessage(Outgoing(sessionActive.value, "user", text, ByAdmin))];
        newMessage := [];
      }
    }

    /** `handleDelete`: ask the server to end the selected session; on 200
        drop it from the list and select the first remaining one. */
    method HandleDelete(status: Option<int>)
      requires Valid()
      modifies this
      ensures Valid()
      ensures status == Some(200) ==> ViewOf() == Ended(old(ViewOf()))
      ensures status == Some(200) ==>
        var rest := WithoutSession(old(sessions), old(sessionActive));
        var next := NextAfterEnd(rest);
        log == old(log) + [Http(EndSession(old(sessionActive)))] + Receipts(next, ActiveMessages(rest, next)) + [Http(Seen(next))]
      ensures status != Some(200) ==> ViewOf() == old(ViewOf()) && log == old(log) + [Http(EndSession(old(sessionActive)))]
      ensures newMessage == old(newMessage) && loading == old(loading) && failed == old(failed)
    {
      log := log + [Http(EndSession(sessionActive))];
      if status == Some(200) {
        var rest := WithoutSession(sessions, sessionActive);
        sessions := rest;
        SelectActiveSession(NextAfterEnd(rest));
      }
    }
  }
}
