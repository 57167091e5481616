// Bodies on the exchange: what the publishers write and what the consumer reads back and emits.

module BrokerPayload {
  import opened Text
  import opened Json
  import opened Messages
  import opened RoutingKeys
  import CallNotification

  datatype Env = Env(codec: Codec, iso: int -> string)

  datatype Parsed = Parsed(message: Json, skipSocketId: Option<string>)

  // A non-empty string field counts; anything else is undefined.
  function SkipField(o: Json): Option<string> {
    match StringField(o, "skipSocketId")
    case Some(s) => if |s| > 0 then Some(s) else None
    case None => None
  }

  function ParseMessage(env: Env, content: string): Option<Parsed> {
    match env.codec.parse(content)
    case None => None
    case Some(o) =>
      if o.JObj? && "message" in o.fields && HasString(o.fields["message"], "id") then
        Some(Parsed(o.fields["message"], SkipField(o)))
      else if HasString(o, "id") then Some(Parsed(o, None))
      else None
  }

  datatype ReceiptData = ReceiptData(messageId: string, conversationId: string, userId: string, at: string)

  predicate IsReceiptEvent(s: string) {
    s == "message:delivered" || s == "message:read" || s == "conversation:read"
  }

  function DataJson(d: ReceiptData): Json {
    JObj(map["messageId" := JStr(d.messageId), "conversationId" := JStr(d.conversationId),
             "userId" := JStr(d.userId), "at" := JStr(d.at)])
  }

  datatype ParsedReceipt = ParsedReceipt(socketEvent: string, data: ReceiptData, skipSocketId: Option<string>)

  function ParseReceiptBody(env: Env, content: string): Option<ParsedReceipt> {
    match env.codec.parse(content)
    case None => None
    case Some(o) =>
      var event := StringField(o, "socketEvent");
      if !(event.Some? && IsReceiptEvent(event.value) && "data" in o.fields) then None
      else
        var d := o.fields["data"];
        if HasString(d, "messageId") && HasString(d, "conversationId") && HasString(d, "userId") && HasString(d, "at")
        then
          Some(ParsedReceipt(
            event.value,
            ReceiptData(d.fields["messageId"].s, d.fields["conversationId"].s, d.fields["userId"].s, d.fields["at"].s),
            SkipField(o)))
        else None
  }

  // JSON.stringify leaves an undefined skipSocketId out.
  function SkipEntry(skip: Option<string>): map<string, Json> {
    match skip case None => map[] case Some(s) => map["skipSocketId" := JStr(s)]
  }

  function EchoBody(api: Json, origin: Option<string>): Json {
    JObj(map["message" := api] + SkipEntry(origin))
  }

  function ReceiptBody(event: string, data: ReceiptData, skip: Option<string>): Json {
    JObj(map["socketEvent" := JStr(event), "data" := DataJson(data)] + SkipEntry(skip))
  }

  // One io.to(room)[.except(id)].emit(event, body).
  datatype Emit = Emit(room: string, except: Option<string>, event: string, body: Json)

  // What one consumed message makes the consumer emit: at once, and after the sender lookup.
  datatype Delivery = Delivery(now: seq<Emit>, later: seq<Emit>)

  const NOTHING := Delivery([], [])

  function UserRoom(userId: string): string { "user:" + userId }

  function GroupRoom(groupId: string): string { "group:" + groupId }

  function Deliver(env: Env, key: string, content: string): Delivery {
    match Dispatch(key)
    case ToReceipt(id) =>
      (match ParseReceiptBody(env, content)
       case None => NOTHING
       case Some(p) => Delivery([Emit(UserRoom(id), p.skipSocketId, p.socketEvent, DataJson(p.data))], []))
    case ToCall(id) =>
      (match CallNotification.ParseCall(env.codec, content)
       case None => NOTHING
       case Some(c) => Delivery([Emit(UserRoom(id), None, "notification", CallNotification.CallJson(c))], []))
    case ToGroup(id) =>
      (match ParseMessage(env, content)
       case None => NOTHING
       case Some(p) => Delivery([Emit(GroupRoom(id), p.skipSocketId, "message:new", p.message)],
                                [Emit(GroupRoom(id), p.skipSocketId, "notification", p.message)]))
    case ToDirect(id) =>
      (match ParseMessage(env, content)
       case None => NOTHING
       case Some(p) =>
         Delivery([Emit(UserRoom(id), p.skipSocketId, "message:new", p.message)],
                  if p.skipSocketId.Some? then [] else [Emit(UserRoom(id), None, "notification", p.message)]))
    case Skip => NOTHING
  }

  // Publishing side.

  datatype Pub = Pub(key: string, content: string)

  function RecipientPub(env: Env, recipient: string, doc: MessageDoc): Pub {
    Pub(DirectKey(recipient), env.codec.stringify(ToApi(doc, env.iso)))
  }

  function EchoPub(env: Env, doc: MessageDoc, origin: Option<string>): Pub {
    Pub(DirectKey(doc.senderId), env.codec.stringify(EchoBody(ToApi(doc, env.iso), origin)))
  }

  function ReceiptPub(env: Env, participant: string, actor: string, event: string, data: ReceiptData,
                      origin: Option<string>): Pub {
    Pub(ReceiptKey(participant),
        env.codec.stringify(ReceiptBody(event, data, if participant == actor then origin else None)))
  }

  // An empty socket id on the wire is read back as no socket id.
  function Effective(origin: Option<string>): Option<string> {
    if origin == Some("") then None else origin
  }

  lemma EchoParses(env: Env, api: Json, origin: Option<string>)
    requires Faithful(env.codec) && HasString(api, "id")
    ensures ParseMessage(env, env.codec.stringify(EchoBody(api, origin))) == Some(Parsed(api, Effective(origin)))
  {
    var body := EchoBody(api, origin);
    assert env.codec.parse(env.codec.stringify(body)) == Some(body);
    assert |"message"| == 7 && |"skipSocketId"| == 12;
    assert body.fields["message"] == api;
    assert StringField(body, "skipSocketId") == origin;
  }

  lemma ReceiptParses(env: Env, event: string, data: ReceiptData, skip: Option<string>)
    requires Faithful(env.codec) && IsReceiptEvent(event)
    ensures ParseReceiptBody(env, env.codec.stringify(ReceiptBody(event, data, skip)))
            == Some(ParsedReceipt(event, data, Effective(skip)))
  {
    var body := ReceiptBody(event, data, skip);
    assert env.codec.parse(env.codec.stringify(body)) == Some(body);
    assert |"socketEvent"| == 11 && |"data"| == 4 && |"skipSocketId"| == 12;
    assert body.fields["data"] == DataJson(data) && body.fields["socketEvent"] == JStr(event);
    assert StringField(body, "skipSocketId") == skip;
    DataFields(data);
  }

  lemma DataFields(data: ReceiptData)
    ensures var d := DataJson(data);
            && StringField(d, "messageId") == Some(data.messageId)
            && StringField(d, "conversationId") == Some(data.conversationId)
            && StringField(d, "userId") == Some(data.userId)
            && StringField(d, "at") == Some(data.at)
  {
    assert |"messageId"| == 9 && |"conversationId"| == 14 && |"userId"| == 6 && |"at"| == 2;
  }

  // The recipient copy reaches every socket of the recipient's room and is followed by a notification.
  lemma RecipientCopyDelivers(env: Env, recipient: string, doc: MessageDoc)
    requires Faithful(env.codec) && CleanId(recipient)
    ensures var api := ToApi(doc, env.iso);
            var p := RecipientPub(env, recipient, doc);
            Deliver(env, p.key, p.content) ==
            Delivery([Emit(UserRoom(recipient), None, "message:new", api)],
                     [Emit(UserRoom(recipient), None, "notification", api)])
  {
    RoundTripExactlyOnCleanIds(recipient);
    ApiShape(doc, env.iso);
    var api := ToApi(doc, env.iso);
    assert env.codec.parse(env.codec.stringify(api)) == Some(api);
    assert ParseMessage(env, env.codec.stringify(api)) == Some(Parsed(api, None));
  }

  // The echo leaves the origin socket out and carries no notification, unless the send had no origin socket:
  // then the echo is delivered as if the sender were the recipient, notification included.
  lemma EchoDelivers(env: Env, doc: MessageDoc, origin: Option<string>)
    requires Faithful(env.codec) && CleanId(doc.senderId)
    ensures var api := ToApi(doc, env.iso);
            var p := EchoPub(env, doc, origin);
            var d := Deliver(env, p.key, p.content);
            && d.now == [Emit(UserRoom(doc.senderId), Effective(origin), "message:new", api)]
            && (d.later == [] <==> Effective(origin).Some?)
            && (d.later != [] ==> d.later == [Emit(UserRoom(doc.senderId), None, "notification", api)])
  {
    RoundTripExactlyOnCleanIds(doc.senderId);
    ApiShape(doc, env.iso);
    EchoParses(env, ToApi(doc, env.iso), origin);
  }

  lemma ReceiptDelivers(env: Env, participant: string, actor: string, event: string, data: ReceiptData,
                        origin: Option<string>)
    requires Faithful(env.codec) && CleanId(participant) && IsReceiptEvent(event)
    ensures var p := ReceiptPub(env, participant, actor, event, data, origin);
            Deliver(env, p.key, p.content) ==
            Delivery([Emit(UserRoom(participant), if participant == actor then Effective(origin) else None,
                           event, DataJson(data))], [])
  {
    RoundTripExactlyOnCleanIds(participant);
    ReceiptParses(env, event, data, if participant == actor then origin else None);
  }

  // An incoming call is one notification to the callee's whole room, if the schema accepts the call, and else nothing.
  lemma CallDelivers(env: Env, callee: string, c: CallNotification.Call)
    requires Faithful(env.codec) && CleanId(callee)
    ensures Deliver(env, CallKey(callee), env.codec.stringify(CallNotification.CallJson(c))) ==
            if CallNotification.Acceptable(c)
            then Delivery([Emit(UserRoom(callee), None, "notification", CallNotification.CallJson(c))], [])
            else NOTHING
  {
    RoundTripExactlyOnCleanIds(callee);
    CallNotification.BuiltCallPasses(env.codec, c);
  }

  // A group message is emitted to the room of its group, not to a user's, and followed by a notification to the same
  // sockets.
  lemma GroupMessageDelivers(env: Env, group: string, doc: MessageDoc, origin: Option<string>)
    requires Faithful(env.codec) && CleanId(group)
    ensures var api := ToApi(doc, env.iso);
            var room, except := GroupRoom(group), Effective(origin);
            Deliver(env, GroupKey(group), env.codec.stringify(EchoBody(api, origin))) ==
            Delivery([Emit(room, except, "message:new", api)], [Emit(room, except, "notification", api)])
  {
    RoundTripExactlyOnCleanIds(group);
    ApiShape(doc, env.iso);
    EchoParses(env, ToApi(doc, env.iso), origin);
  }

  // What a message body must be: an object with a string id, bare or under `message`.
  predicate IsMessageBody(o: Json) {
    o.JObj? && (HasString(o, "id") || ("message" in o.fields && HasString(o.fields["message"], "id")))
  }

  predicate IsReceiptBody(o: Json) {
    && o.JObj?
    && StringField(o, "socketEvent") in {Some("message:delivered"), Some("message:read"), Some("conversation:read")}
    && "data" in o.fields
    && forall name :: name in {"messageId", "conversationId", "userId", "at"} ==> HasString(o.fields["data"], name)
  }

  // Whatever bytes arrive under whatever key: something is emitted exactly if the key names an id and the body is of
  // the kind that the key asks for.
  lemma DeliveredExactly(env: Env, key: string, content: string)
    ensures var o := env.codec.parse(content);
            Deliver(env, key, content).now != [] <==>
            match Dispatch(key)
            case ToReceipt(_) => o.Some? && IsReceiptBody(o.value)
            case ToCall(_) => CallNotification.ParseCall(env.codec, content).Some?
            case ToGroup(_) => o.Some? && IsMessageBody(o.value)
            case ToDirect(_) => o.Some? && IsMessageBody(o.value)
            case Skip => false
  {
  }

  // Whatever bytes arrive, one consumed message causes at most one immediate and one later emit,
  // and the later one is always a notification to the same room.
  lemma AtMostOneEmitEach(env: Env, key: string, content: string)
    ensures var d := Deliver(env, key, content);
            && |d.now| <= 1 && |d.later| <= |d.now|
            && (d.later != [] ==> d.later[0].room == d.now[0].room && d.later[0].event == "notification"
                                  && d.now[0].event == "message:new" && d.later[0].except == d.now[0].except)
  {
  }
}
