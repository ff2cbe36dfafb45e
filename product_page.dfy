/** The product detail page: the customer's side of the support chat, and the
    colour labels with the `9918` marker removed. */
module ProductPage {
  import opened Wrappers
  import opened Text
  import opened Chat
  import opened Plans

  // ---------------------------------------------------------------------
  // Colour labels: `colour.split('9918').join('')`
  // ---------------------------------------------------------------------

  /** The marker the catalogue embeds in colour names. */
  const Marker: string := "9918"

  /** Deletes every occurrence of the marker found by a left-to-right scan,
      as splitting on it and joining with nothing does. */
  function StripMarker(s: string): (r: string)
    ensures |r| <= |s| && (|s| - |r|) % 4 == 0
    decreases |s|
  {
    if |s| < 4 then s
    else if s[..4] == Marker then StripMarker(s[4..])
    else [s[0]] + StripMarker(s[1..])
  }

  /** The label is made of whole markers and nothing else. */
  predicate OnlyMarkers(s: string)
    decreases |s|
  {
    s == [] || (|s| >= 4 && s[..4] == Marker && OnlyMarkers(s[4..]))
  }

  /** Splitting at a marker: what lies on either side is stripped separately. */
  lemma {:induction false} StripAroundMarker(x: string, y: string)
    ensures StripMarker(x + Marker + y) == StripMarker(x) + StripMarker(y)
    decreases |x|
  {
    var s := x + Marker + y;
    if x == [] {
      assert s[..4] == Marker && s[4..] == y;
    } else if |x| >= 4 && x[..4] == Marker {
      assert s[..4] == Marker;
      assert s[4..] == x[4..] + Marker + y;
      StripAroundMarker(x[4..], y);
    } else {
      assert s[..4] != Marker by {
        if |x| < 4 {
          assert s[3] != '8';
        } else {
          assert s[..4] == x[..4];
        }
      }
      assert s[1..] == x[1..] + Marker + y;
      StripAroundMarker(x[1..], y);
      StripKeepsFirst(x);
    }
  }

  /** A label that does not start with the marker keeps its first character. */
  lemma StripKeepsFirst(x: string)
    requires x != [] && !(|x| >= 4 && x[..4] == Marker)
    ensures StripMarker(x) == [x[0]] + StripMarker(x[1..])
  {
    if |x| < 4 {
      assert StripMarker(x[1..]) == x[1..];
      assert x == [x[0]] + x[1..];
    }
  }

  /** A colour label is hidden (it strips to `''`) exactly when it consists of
      whole markers. */
  lemma {:induction false} HiddenIffOnlyMarkers(s: string)
    ensures StripMarker(s) == [] <==> OnlyMarkers(s)
    decreases |s|
  {
    if |s| >= 4 {
      if s[..4] == Marker {
        HiddenIffOnlyMarkers(s[4..]);
      } else {
        assert StripMarker(s)[0] == s[0];
      }
    }
  }

  /** The marker occurs in `s` at position `i`. */
  predicate MarkerAt(s: string, i: int) {
    0 <= i && i + 4 <= |s| && s[i..i + 4] == Marker
  }

  /** A label without the marker in it is shown as it is. */
  lemma {:induction false} StripKeepsPlainLabels(s: string)
    requires forall i :: !MarkerAt(s, i)
    ensures StripMarker(s) == s
    decreases |s|
  {
    if |s| >= 4 {
      assert !MarkerAt(s, 0) && s[0..4] == s[..4];
      forall i
        ensures !MarkerAt(s[1..], i)
      {
        if 0 <= i && i + 4 <= |s[1..]| {
          assert s[1..][i..i + 4] == s[i + 1..i + 5];
          assert !MarkerAt(s, i + 1);
        }
      }
      StripKeepsPlainLabels(s[1..]);
    }
  }

  /** The message prefilled when a colour is picked while no chat is open. */
  function QueryPrefill(colour: string, hasSizes: bool, selectedSize: string, quantity: string): (r: string)
    ensures StartsWith(r, "I have a query about this product. Color: " + colour)
  {
    var size := if hasSizes then "Size: " + (if selectedSize == "" then "Not selected" else selectedSize) else "";
    var head := "I have a query about this product. Color: " + colour;
    assert (head + " " + size + " Quantity: " + quantity)[..|head|] == head;
    head + " " + size + " Quantity: " + quantity
  }

  // ---------------------------------------------------------------------
  // The customer chat
  // ---------------------------------------------------------------------

  /** The reply to `POST /api/chat/start-session`, or a thrown request. */
  datatype StartReply = Replied(status: int, sessionId: Option<SessionId>) | Threw

  /** The session a start attempt yields: only when no session is open and a
      user is signed in, and only if the server answered with an id. */
  function Started(active: Option<SessionId>, user: Option<User>, reply: StartReply): (r: Option<SessionId>)
    ensures r.Some? ==> active.None? && user.Some? && reply.Replied? && reply.sessionId == r
    ensures active.None? && user.Some? && reply.Replied? ==> r == reply.sessionId
  {
    if active.None? && user.Some? && reply.Replied? then reply.sessionId else None
  }

  /** What a start attempt sends: the request, then the `newSessionCreated`
      emit when the server says 201 and the socket is up. */
  function StartEvents(active: Option<SessionId>, user: Option<User>, reply: StartReply,
                       socketLive: bool, productId: string): (r: seq<ChatEvent>)
    ensures r == [] <==> active.Some? || user.None?
    ensures |r| == 2 ==> Started(active, user, reply).Some? && r[1] == NewSessionCreated(Started(active, user, reply).value)
    ensures |r| == 2 <==> Started(active, user, reply).Some? && reply.status == 201 && socketLive
  {
    if active.Some? || user.None? then []
    else
      var started := Started(active, user, reply);
      [Http(StartSession(user.value.id, productId))]
        + (if started.Some? && reply.status == 201 && socketLive then [NewSessionCreated(started.value)] else [])
  }

  /** Once a session is open, no further start attempt goes out. */
  lemma StartOnlyOnce(id: SessionId, user: Option<User>, reply: StartReply, socketLive: bool, productId: string)
    ensures Started(Some(id), user, reply) == None
    ensures StartEvents(Some(id), user, reply, socketLive, productId) == []
  {
  }

  /** The chat widget of a product page. */
  class CustomerChat {
    const productId: string
    var sessionActive: Option<SessionId>
    var chatBoxOpen: bool
    var minimized: bool
    var chatmessages: seq<Message>
    var newMessage: string
    var selectedColor: string
    /** Socket emits and HTTP requests, in the order they were sent. */
    var log: seq<ChatEvent>

    /** An open session always has its chat box shown. */
    ghost predicate Valid()
      reads this
    {
      sessionActive.Some? ==> chatBoxOpen
    }

    constructor(productId: string)
      ensures Valid()
      ensures this.productId == productId && sessionActive == None && !chatBoxOpen && minimized
      ensures chatmessages == [] && newMessage == "" && selectedColor == "" && log == []
    {
      this.productId := productId;
      sessionActive := None;
      chatBoxOpen := false;
      minimized := true;
      chatmessages := [];
      newMessage := "";
      selectedColor := "";
      log := [];
    }

    /** `handleStartSession`: open a session unless one is open or nobody is
        signed in; returns the new session id. */
    method HandleStartSession(user: Option<User>, reply: StartReply, socketLive: bool)
        returns (started: Option<SessionId>)
      requires Valid()
      modifies this
      ensures Valid()
      ensures started == Started(old(sessionActive), user, reply)
      ensures log == old(log) + StartEvents(old(sessionActive), user, reply, socketLive, productId)
      ensures started.Some? ==> sessionActive == started && chatBoxOpen && !minimized
      ensures started.None? ==>
        sessionActive == old(sessionActive) && chatBoxOpen == old(chatBoxOpen) && minimized == old(minimized)
      ensures chatmessages == old(chatmessages) && newMessage == old(newMessage) && selectedColor == old(selectedColor)
    {
      started := None;
      if sessionActive.None? && user.Some? {
        log := log + [Http(StartSession(user.value.id, productId))];
        if reply.Replied? && reply.sessionId.Some? {
          started := reply.sessionId;
          sessionActive := started;
          chatBoxOpen := true;
          minimized := false;
          if reply.status == 201 && socketLive {
            log := log + [NewSessionCreated(started.value)];
          }
        }
      }
    }

    /** `sendMessage`: try to start a session first, then emit the trimmed
        text on the open (or just opened) session and clear the input; with
        no session or a blank text nothing is emitted. */
    method SendMessage(user: Option<User>, reply: StartReply, socketLive: bool)
      requires Valid()
      modifies this
      ensures Valid()
      ensures sessionActive == (if old(sessionActive).Some? then old(sessionActive) else Started(old(sessionActive), user, reply))
      ensures var text := Trim(old(newMessage));
        var sent := sessionActive.Some? && text != [];
        && log == old(log) + StartEvents(old(sessionActive), user, reply, socketLive, productId)
                  + (if sent then [ChatEvent.SendMessage(Outgoing(sessionActive.value, "user", text, ByUser))] else [])
        && newMessage == (if sent then [] else old(newMessage))
      ensures chatmessages == old(chatmessages) && selectedColor == old(selectedColor)
    {
      var wasActive := sessionActive;
      var text := Trim(newMessage);
      var getid := HandleStartSession(user, reply, socketLive);
      var sid := if wasActive.Some? then wasActive else getid;
      if sid.Some? && text != [] {
        log := log + [ChatEvent.SendMessage(Outgoing(sid.value, "user", text, ByUser))];
        newMessage := [];
      }
    }

    /** `fetchSessionStatus`: a session found on the server is shown open with
        its transcript; none found leaves the widget as it is. */
    method LoadSession(found: Option<SessionId>, messages: seq<Message>, replied: bool)
      requires Valid()
      modifies this
      ensures Valid()
      ensures replied ==> sessionActive == found && chatBoxOpen && chatmessages == messages
      ensures !replied ==>
        sessionActive == old(sessionActive) && chatBoxOpen == old(chatBoxOpen) && chatmessages == old(chatmessages)
      ensures minimized == old(minimized) && newMessage == old(newMessage) && log == old(log)
      ensures selectedColor == old(selectedColor)
    {
      if replied {
        sessionActive := found;
        chatBoxOpen := true;
        chatmessages := messages;
      }
    }

    /** `receiveMessage`: the message is appended to the transcript. */
    method ReceiveMessage(m: Message)
      requires Valid()
      modifies this`chatmessages
      ensures Valid()
      ensures chatmessages == old(chatmessages) + [m]
    {
      chatmessages := chatmessages + [m];
    }

    /** `adminReadMessage`: the admin's receipt marks that message read. */
    method AdminReadMessage(id: MessageId)
      requires Valid()
      modifies this`chatmessages
      ensures Valid()
      ensures chatmessages == MarkReadByAdmin(old(chatmessages), id)
    {
      chatmessages := MarkReadByAdmin(chatmessages, id);
    }

    /** `handleDelete`: ask the server to delete the session; on 200 the
        transcript is cleared and the widget closed and minimised. */
    method HandleDelete(status: Option<int>)
      requires Valid()
      modifies this
      ensures Valid()
      ensures log == old(log) + [Http(DeleteSession(old(sessionActive)))]
      ensures status == Some(200) ==> chatmessages == [] && sessionActive == None && !chatBoxOpen && minimized
      ensures status != Some(200) ==>
        chatmessages == old(chatmessages) && sessionActive == old(sessionActive)
        && chatBoxOpen == old(chatBoxOpen) && minimized == old(minimized)
      ensures newMessage == old(newMessage) && selectedColor == old(selectedColor)
    {
      log := log + [Http(DeleteSession(sessionActive))];
      if status == Some(200) {
        chatmessages := [];
        sessionActive := None;
        chatBoxOpen := false;
        minimized := true;
      }
    }

    /** Clicking a colour selects its stripped label and, while no chat is
        open, prefills a question naming it. */
    method SelectColour(colour: string, hasSizes: bool, selectedSize: string, quantity: string)
      requires Valid()
      modifies this`selectedColor, this`newMessage
      ensures Valid()
      ensures selectedColor == StripMarker(colour)
      ensures newMessage == (if sessionActive.None? then QueryPrefill(StripMarker(colour), hasSizes, selectedSize, quantity)
                             else old(newMessage))
    {
      selectedColor := StripMarker(colour);
      if sessionActive.None? {
        newMessage := QueryPrefill(selectedColor, hasSizes, selectedSize, quantity);
      }
    }
  }
}
