// One replica of the messaging service: the send path that stores and publishes, the receipt publisher, and the
// consumer that turns broker messages into Socket.IO emits.

module MessagingNode {
  import opened Text
  import opened Json
  import opened Messages
  import opened RoutingKeys
  import opened BrokerPayload
  import CallNotification
  import opened Directory
  import Fanout

  datatype SendRequest = SendRequest(
    conversationId: Option<string>,
    recipientUserId: Option<string>,
    body: Option<string>,
    mediaKey: Option<string>,
    encryptedMessageKeys: Option<map<string, string>>,
    iv: Field,
    algorithm: Field)

  datatype SendError =
    | SenderNotFound | CannotMessageYourself | RecipientNotFound | GuestMessagingForbidden
    | ConversationNotFound | GroupNotSupported | NotAParticipant | InvalidParticipants | InvalidRequest
    | NotConnected

  // Where a send goes: to the user, through the conversation when the request names one.
  datatype Target = Target(recipient: string, conversationId: Option<string>)

  function TrimmedOrEmpty(t: Option<string>): string {
    match t case None => "" case Some(s) => Trim(s)
  }

  function FirstOther(participants: seq<string>, me: string): Option<string> {
    if participants == [] then None
    else if participants[0] != me then Some(participants[0])
    else FirstOther(participants[1..], me)
  }

  function CheckPeer(sender: User, dir: Directory, recipient: string, conversationId: Option<string>)
    : Result<Target, SendError>
  {
    match FindUser(dir, recipient)
    case None => Err(RecipientNotFound)
    case Some(peer) =>
      if sender.isGuest == peer.isGuest then Ok(Target(recipient, conversationId)) else Err(GuestMessagingForbidden)
  }

  // The guards of sendMessageForUser, in their order; a recipient id wins over a conversation id.
  function Resolve(dir: Directory, senderId: string, req: SendRequest): Result<Target, SendError> {
    match FindUser(dir, senderId)
    case None => Err(SenderNotFound)
    case Some(sender) =>
      var conv, recip := TrimmedOrEmpty(req.conversationId), TrimmedOrEmpty(req.recipientUserId);
      if recip != "" then
        if recip == senderId then Err(CannotMessageYourself) else CheckPeer(sender, dir, recip, None)
      else if conv != "" then
        match LookupConversation(dir, conv)
        case None => Err(ConversationNotFound)
        case Some(Group) => Err(GroupNotSupported)
        case Some(Direct(id, participants)) =>
          if senderId !in participants then Err(NotAParticipant)
          else
            match FirstOther(participants, senderId)
            case None => Err(InvalidParticipants)
            case Some(peer) => CheckPeer(sender, dir, peer, Some(id))
      else Err(InvalidRequest)
  }

  function NormalizeText(t: Option<string>): Option<string> {
    if TrimmedOrEmpty(t) == "" then None else Some(TrimmedOrEmpty(t))
  }

  function NormalizeField(f: Field): Field {
    match f
    case Value(t) => if Trim(t) == "" then Null else Value(Trim(t))
    case _ => f
  }

  predicate HasHybridEnvelope(req: SendRequest) {
    && req.encryptedMessageKeys.Some? && req.encryptedMessageKeys.value != map[]
    && NormalizeField(req.algorithm).Value?
  }

  // The stored document; a hybrid message keeps its media locator inside the ciphertext only.
  function Document(id: string, conversationId: string, senderId: string, now: int, req: SendRequest): MessageDoc {
    MessageDoc(id, conversationId, senderId, NormalizeText(req.body),
               if HasHybridEnvelope(req) then None else NormalizeText(req.mediaKey),
               now, req.encryptedMessageKeys, NormalizeField(req.iv), NormalizeField(req.algorithm), map[])
  }

  lemma {:induction false} FirstOtherIsOther(participants: seq<string>, me: string)
    ensures match FirstOther(participants, me)
            case None => forall p :: p in participants ==> p == me
            case Some(p) => p in participants && p != me
  {
    if participants != [] {
      FirstOtherIsOther(participants[1..], me);
      assert participants == [participants[0]] + participants[1..];
    }
  }

  // What the fan-out protocol asks of a send: two different known users of the same class, and for a clean
  // directory, two ids that survive routing. A send to oneself is never accepted, by either branch.
  lemma AcceptedSendHasTwoParties(dir: Directory, senderId: string, req: SendRequest)
    requires forall u :: u in dir.users ==> CleanId(u)
    requires forall c :: c in dir.conversations && dir.conversations[c].Direct? ==>
               forall p :: p in dir.conversations[c].participants ==> CleanId(p)
    requires CleanId(senderId)
    ensures var r := Resolve(dir, senderId, req);
            r.Ok? ==>
              && r.value.recipient != senderId && CleanId(r.value.recipient)
              && senderId in dir.users && r.value.recipient in dir.users
              && dir.users[senderId].isGuest == dir.users[r.value.recipient].isGuest
  {
    TrimIsTrimmed(senderId);
    TrimIsTrimmed(TrimmedOrEmpty(req.recipientUserId));
    if req.recipientUserId.Some? { TrimIsTrimmed(req.recipientUserId.value); }
    var conv := LookupConversation(dir, TrimmedOrEmpty(req.conversationId));
    if conv.Some? && conv.value.Direct? {
      FirstOtherIsOther(conv.value.participants, senderId);
      var peer := FirstOther(conv.value.participants, senderId);
      if peer.Some? { TrimIsTrimmed(peer.value); }
    }
  }

  // A request without a recipient goes to the other participant of the named conversation, and is accepted exactly
  // when the sender is in it, somebody else is, and both are of the same class.
  lemma ConversationSendExactly(dir: Directory, senderId: string, req: SendRequest)
    requires TrimmedOrEmpty(req.recipientUserId) == ""
    ensures var conv := LookupConversation(dir, TrimmedOrEmpty(req.conversationId));
            Resolve(dir, senderId, req).Ok? <==>
              && FindUser(dir, senderId).Some?
              && conv.Some? && conv.value.Direct?
              && var ps := conv.value.participants;
                 senderId in ps && FirstOther(ps, senderId).Some?
                 && FindUser(dir, FirstOther(ps, senderId).value).Some?
                 && FindUser(dir, FirstOther(ps, senderId).value).value.isGuest == FindUser(dir, senderId).value.isGuest
  {
    if req.conversationId.Some? { TrimIsTrimmed(req.conversationId.value); }
  }

  // The first participant other than the sender.
  predicate IsFirstOther(participants: seq<string>, me: string, p: string) {
    exists i :: 0 <= i < |participants| && participants[i] == p != me
      && forall j :: 0 <= j < i ==> participants[j] == me
  }

  lemma {:induction false} FirstOtherIsFirst(participants: seq<string>, me: string)
    ensures forall p :: FirstOther(participants, me) == Some(p) <==> IsFirstOther(participants, me, p)
  {
    if participants != [] {
      FirstOtherIsFirst(participants[1..], me);
      forall p ensures FirstOther(participants, me) == Some(p) <==> IsFirstOther(participants, me, p) {
        if IsFirstOther(participants, me, p) && participants[0] == me {
          var i :| 0 <= i < |participants| && participants[i] == p != me
                   && forall j :: 0 <= j < i ==> participants[j] == me;
          assert participants[1..][i - 1] == p;
          assert IsFirstOther(participants[1..], me, p);
        }
        if participants[0] == me && IsFirstOther(participants[1..], me, p) {
          var i :| 0 <= i < |participants[1..]| && participants[1..][i] == p != me
                   && forall j :: 0 <= j < i ==> participants[1..][j] == me;
          assert participants[i + 1] == p;
          assert forall j :: 0 < j < i + 1 ==> participants[j] == participants[1..][j - 1];
        }
        if participants[0] == p != me { assert participants[0] == p; }
      }
    }
  }

  // Two known users, neither or both of them guests.
  predicate MayMessage(dir: Directory, a: string, b: string) {
    && Trim(a) != "" && Trim(a) in dir.users && Trim(b) != "" && Trim(b) in dir.users
    && dir.users[Trim(a)].isGuest == dir.users[Trim(b)].isGuest
  }

  // A send by recipient id, whatever conversation id it also names: accepted exactly between two different known users
  // of one class, and then it goes to that recipient and to no given conversation.
  lemma RecipientSendExactly(dir: Directory, senderId: string, req: SendRequest)
    requires TrimmedOrEmpty(req.recipientUserId) != ""
    ensures var recipient := TrimmedOrEmpty(req.recipientUserId);
            var r := Resolve(dir, senderId, req);
            && (r.Ok? <==> recipient != senderId && MayMessage(dir, senderId, recipient))
            && (r.Ok? ==> r.value == Target(recipient, None))
  {
  }

  // A send by conversation id goes to the first other participant, under the id of the conversation found.
  lemma ConversationSendTarget(dir: Directory, senderId: string, req: SendRequest)
    requires TrimmedOrEmpty(req.recipientUserId) == ""
    ensures var conv := LookupConversation(dir, TrimmedOrEmpty(req.conversationId));
            var r := Resolve(dir, senderId, req);
            && (r.Ok? <==> conv.Some? && conv.value.Direct? && senderId in conv.value.participants
                           && exists p :: IsFirstOther(conv.value.participants, senderId, p) && MayMessage(dir, senderId, p))
            && (r.Ok? ==> IsFirstOther(conv.value.participants, senderId, r.value.recipient)
                          && r.value.conversationId == Some(conv.value.id))
  {
    if req.conversationId.Some? { TrimIsTrimmed(req.conversationId.value); }
    var conv := LookupConversation(dir, TrimmedOrEmpty(req.conversationId));
    if conv.Some? && conv.value.Direct? { FirstOtherIsFirst(conv.value.participants, senderId); }
  }

  // Every refusal, by its reason; the guards are asked in this order.
  lemma RefusalsExactly(dir: Directory, senderId: string, req: SendRequest)
    ensures var r := Resolve(dir, senderId, req);
            var recipient, conversation := TrimmedOrEmpty(req.recipientUserId), TrimmedOrEmpty(req.conversationId);
            var conv := LookupConversation(dir, conversation);
            var known := FindUser(dir, senderId).Some?;
            var byConversation := known && recipient == "" && conversation != "";
            var direct := byConversation && conv.Some? && conv.value.Direct?;
            && (r == Err(SenderNotFound) <==> !known)
            && (r == Err(CannotMessageYourself) <==> known && recipient != "" && recipient == senderId)
            && (r == Err(InvalidRequest) <==> known && recipient == "" && conversation == "")
            && (r == Err(ConversationNotFound) <==> byConversation && conv.None?)
            && (r == Err(GroupNotSupported) <==> byConversation && conv == Some(Group))
            && (r == Err(NotAParticipant) <==> direct && senderId !in conv.value.participants)
            && (r == Err(InvalidParticipants) <==>
                  direct && senderId in conv.value.participants && forall p :: p in conv.value.participants ==> p == senderId)
            && r != Err(NotConnected)
            && forall p :: Peer(dir, senderId, req, p) ==>
                 && (r == Err(RecipientNotFound) <==> FindUser(dir, p).None?)
                 && (r == Err(GuestMessagingForbidden) <==> FindUser(dir, p).Some? && !MayMessage(dir, senderId, p))
  {
    assert Trim("") == "";
    hide IsFirstOther, Trim;
    var conv := LookupConversation(dir, TrimmedOrEmpty(req.conversationId));
    if conv.Some? && conv.value.Direct? {
      FirstOtherIsOther(conv.value.participants, senderId);
      FirstOtherIsFirst(conv.value.participants, senderId);
    }
  }

  // The user a request of a known sender is about, if it gets as far as that.
  predicate Peer(dir: Directory, senderId: string, req: SendRequest, p: string) {
    var recipient := TrimmedOrEmpty(req.recipientUserId);
    && FindUser(dir, senderId).Some?
    && if recipient != "" then p == recipient != senderId
       else
         var conv := LookupConversation(dir, TrimmedOrEmpty(req.conversationId));
         && conv.Some? && conv.value.Direct? && senderId in conv.value.participants
         && IsFirstOther(conv.value.participants, senderId, p)
  }

  // The document, field by field: texts and the two crypto fields trimmed, blank ones null; the media key is dropped
  // exactly if it is blank or the message is hybrid, that is, has a wrapped key and an algorithm that is not blank.
  lemma DocumentFields(id: string, conversationId: string, senderId: string, now: int, req: SendRequest)
    ensures var d := Document(id, conversationId, senderId, now, req);
            var hybrid := req.encryptedMessageKeys.Some? && req.encryptedMessageKeys.value != map[]
                          && req.algorithm.Value? && Trim(req.algorithm.text) != "";
            && d.id == id && d.conversationId == conversationId && d.senderId == senderId && d.createdAt == now
            && (d.body.None? <==> req.body.None? || Trim(req.body.value) == "")
            && (d.body.Some? ==> d.body.value == Trim(req.body.value))
            && (d.mediaKey.None? <==> hybrid || req.mediaKey.None? || Trim(req.mediaKey.value) == "")
            && (d.mediaKey.Some? ==> d.mediaKey.value == Trim(req.mediaKey.value))
            && d.encryptedMessageKeys == req.encryptedMessageKeys && d.receiptsByUserId == map[]
            && IsNormalized(req.iv, d.iv) && IsNormalized(req.algorithm, d.algorithm)
  {
  }

  predicate IsNormalized(f: Field, g: Field) {
    && (g.Absent? <==> f.Absent?)
    && (g.Value? <==> f.Value? && Trim(f.text) != "")
    && (g.Value? ==> g.text == Trim(f.text))
  }

  // An accepted send, with its stored document and the sender's own socket or none, is a job that the fan-out can
  // start: what is proved of such jobs holds of every accepted send.
  lemma AcceptedSendStarts(dir: Directory, senderId: string, req: SendRequest, st: Fanout.State, id: string,
                           conversationId: string, now: int, origin: Option<string>)
    requires forall u :: u in dir.users ==> CleanId(u)
    requires forall c :: c in dir.conversations && dir.conversations[c].Direct? ==>
               forall p :: p in dir.conversations[c].participants ==> CleanId(p)
    requires CleanId(senderId) && Resolve(dir, senderId, req).Ok?
    requires origin.Some? ==>
               origin != Some("") && origin.value in st.sockets && st.sockets[origin.value].user == senderId
    ensures var job := Fanout.SendJob(Document(id, conversationId, senderId, now, req),
                                      Resolve(dir, senderId, req).value.recipient, origin);
            && Fanout.JobOk(st, job)
            && forall env, j :: j !in st.jobs ==> Fanout.Enabled(env, st, Fanout.Start(j, job))
  {
    hide Resolve;
    AcceptedSendHasTwoParties(dir, senderId, req);
    DocumentFields(id, conversationId, senderId, now, req);
  }

  class Node {
    const env: Env
    // The AMQP channel is up; the Socket.IO server is registered.
    var connected: bool
    var ioReady: bool
    // What this node stored, published and emitted so far.
    var messages: map<string, MessageDoc>
    var published: seq<Pub>
    var emitted: seq<Emit>

    constructor (env: Env)
      ensures this.env == env && !connected && !ioReady && messages == map[] && published == [] && emitted == []
    {
      this.env := env;
      connected, ioReady, messages, published, emitted := false, false, map[], [], [];
    }

    method PublishMessage(key: string, payload: Json) returns (ok: bool)
      modifies this`published
      ensures ok == connected
      ensures published == old(published) + if ok then [Pub(key, env.codec.stringify(payload))] else []
    {
      ok := connected;
      if ok { published := published + [Pub(key, env.codec.stringify(payload))]; }
    }

    // One message per participant, the actor's own copy leaving the origin socket out. The first failure ends it.
    method PublishReceiptToParticipants(participants: seq<string>, actor: string, event: string, data: ReceiptData,
                                        origin: Option<string>)
      returns (ok: bool)
      modifies this`published
      ensures ok <==> connected || participants == []
      ensures published == old(published) + if ok then
                Fanout.Publications(env, Fanout.ReceiptJob(participants, actor, event, data, origin)) else []
    {
      ghost var all := Fanout.Publications(env, Fanout.ReceiptJob(participants, actor, event, data, origin));
      ok := true;
      var i := 0;
      while i < |participants|
        invariant i <= |participants|
        invariant ok && (i > 0 ==> connected)
        invariant published == old(published) + all[..i]
      {
        var skip := if participants[i] == actor && origin.Some? then origin else None;
        ok := PublishMessage(ReceiptKey(participants[i]), ReceiptBody(event, data, skip));
        if !ok {
          return;
        }
        assert all[..i + 1] == all[..i] + [all[i]];
        i := i + 1;
      }
      assert all[..i] == all;
    }

    // The document is stored before anything is published, so a broker failure loses the fan-out, not the message.
    method InsertDirectMessageAndPublish(recipient: string, doc: MessageDoc, origin: Option<string>) returns (ok: bool)
      modifies this`messages, this`published
      ensures ok == connected
      ensures messages == old(messages)[doc.id := doc]
      ensures published == old(published) + if ok then
                Fanout.Publications(env, Fanout.SendJob(doc, recipient, origin)) else []
    {
      messages := messages[doc.id := doc];
      var api := ToApi(doc, env.iso);
      ok := PublishMessage(DirectKey(recipient), api);
      if ok {
        ok := PublishMessage(DirectKey(doc.senderId), EchoBody(api, origin));
      }
    }

    // id and now are drawn inside; conversationFor is what findOrCreateDirectConversation answers.
    method SendMessageForUser(dir: Directory, senderId: string, req: SendRequest, origin: Option<string>,
                              id: string, now: int, conversationFor: string)
      returns (r: Result<MessageDoc, SendError>)
      modifies this`messages, this`published
      ensures var target := Resolve(dir, senderId, req);
              match target
              case Err(e) => r == Err(e) && messages == old(messages) && published == old(published)
              case Ok(t) =>
                var conv := match t.conversationId case Some(c) => c case None => conversationFor;
                var doc := Document(id, conv, senderId, now, req);
                && r == (if connected then Ok(doc) else Err(NotConnected))
                && messages == old(messages)[id := doc]
                && published == old(published) + if connected then
                     Fanout.Publications(env, Fanout.SendJob(doc, t.recipient, origin)) else []
    {
      var target := Resolve(dir, senderId, req);
      match target
      case Err(e) => r := Err(e);
      case Ok(t) =>
        var conv := match t.conversationId case Some(c) => c case None => conversationFor;
        var doc := Document(id, conv, senderId, now, req);
        var ok := InsertDirectMessageAndPublish(t.recipient, doc, origin);
        r := if ok then Ok(doc) else Err(NotConnected);
    }

    method EmitToRoom(e: Emit)
      modifies this`emitted
      ensures emitted == old(emitted) + [e]
    {
      emitted := emitted + [e];
    }

    // The four branches of the consumer, uninterrupted: first the message, then the notification that follows it.
    method DeliverMessageToSocketIo(key: string, content: string)
      modifies this`emitted
      ensures var d := Deliver(env, key, content);
              emitted == old(emitted) + if ioReady then d.now + d.later else []
    {
      var receiptTarget := ParseReceipt(key);
      ParsersDisjoint(key);
      if receiptTarget.Some? {
        var p := ParseReceiptBody(env, content);
        if p.Some? && ioReady {
          EmitToRoom(Emit(UserRoom(receiptTarget.value), p.value.skipSocketId, p.value.socketEvent, DataJson(p.value.data)));
        }
        return;
      }
      var callee := ParseCallIncoming(key);
      if callee.Some? {
        var c := CallNotification.ParseCall(env.codec, content);
        if c.Some? && ioReady {
          EmitToRoom(Emit(UserRoom(callee.value), None, "notification", CallNotification.CallJson(c.value)));
        }
        return;
      }
      var group := ParseGroup(key);
      if group.Some? {
        var p := ParseMessage(env, content);
        if p.Some? && ioReady {
          var room := GroupRoom(group.value);
          EmitToRoom(Emit(room, p.value.skipSocketId, "message:new", p.value.message));
          EmitToRoom(Emit(room, p.value.skipSocketId, "notification", p.value.message));
        }
        return;
      }
      var user := ParseDirect(key);
      if user.None? {
        return;
      }
      var p := ParseMessage(env, content);
      if p.None? || !ioReady {
        return;
      }
      var room := UserRoom(user.value);
      EmitToRoom(Emit(room, p.value.skipSocketId, "message:new", p.value.message));
      if p.value.skipSocketId.None? {
        EmitToRoom(Emit(room, None, "notification", p.value.message));
      }
    }
  }
}
