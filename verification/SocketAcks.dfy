// The acks that the service and the worker write, as the bridge reads them.

module SocketAcks {
  import opened Text
  import opened Json
  import opened Messages
  import opened WorkerSpec
  import opened SocketBridge
  import ClientMessage

  datatype LastSeenAnswer =
    | SeenAt(source: string, lastSeenAt: string)
    | NotAvailable
    | LookupFailed(code: string, message: string)

  // What the service answers: the stored message, a plain yes, a last-seen answer, or an error, with ok: false in it
  // from the WebRTC handlers. The worker's own refusal has the form of an error.
  datatype ServerAck =
    | SentAck(doc: MessageDoc)
    | OkAck
    | LastSeenAck(answer: LastSeenAnswer)
    | ErrorAck(code: string, message: string, withOk: bool)

  function AckJson(a: ServerAck, iso: int -> string): Json {
    match a
    case SentAck(doc) => ToApi(doc, iso)
    case OkAck => JObj(map["ok" := JBool(true)])
    case LastSeenAck(SeenAt(source, at)) =>
      JObj(map["status" := JStr("ok"), "source" := JStr(source), "lastSeenAt" := JStr(at)])
    case LastSeenAck(NotAvailable) => JObj(map["status" := JStr("not_available")])
    case LastSeenAck(LookupFailed(code, message)) =>
      JObj(map["status" := JStr("error"), "code" := JStr(code), "message" := JStr(message)])
    case ErrorAck(code, message, withOk) =>
      JObj((if withOk then map["ok" := JBool(false)] else map[]) + map["code" := JStr(code), "message" := JStr(message)])
  }

  // The acks of a request of some kind.
  predicate Answers(kind: Kind, a: ServerAck) {
    match a
    case SentAck(_) => kind == Send
    case OkAck => kind in {Receipt, WebRtc}
    case LastSeenAck(answer) =>
      kind == LastSeen && (answer.SeenAt? ==> answer.source in {"redis", "mongodb"} && answer.lastSeenAt != "")
    case ErrorAck(_, _, _) => true
  }

  predicate IsSuccess(a: ServerAck) {
    a.SentAck? || a.OkAck? || (a.LastSeenAck? && !a.answer.LookupFailed?)
  }

  lemma NamesDiffer()
    ensures |"ok"| == 2 && |"code"| == 4 && |"message"| == 7 && |"status"| == 6 && |"source"| == 6
    ensures |"lastSeenAt"| == 10 && |"id"| == 2 && |"conversationId"| == 14 && "ok"[0] != "id"[0]
    ensures "status"[1] != "source"[1] && |"error"| == 5 && |"not_available"| == 13
  {
  }

  lemma SentAckIsAccepted(doc: MessageDoc, iso: int -> string)
    ensures Accepts(Send, ToApi(doc, iso))
  {
    hide BaseFields, OptionalFields;
    ApiShape(doc, iso);
    ClientMessage.BaseReads(doc, iso);
    ClientMessage.HalvesRead(doc, iso, "conversationId");
  }

  lemma LastSeenSettlesRight(answer: LastSeenAnswer, iso: int -> string)
    requires Answers(LastSeen, LastSeenAck(answer))
    ensures Accepts(LastSeen, AckJson(LastSeenAck(answer), iso)) <==> !answer.LookupFailed?
  {
    NamesDiffer();
    var o := AckJson(LastSeenAck(answer), iso);
    assert "status" in o.fields;
  }

  lemma ErrorIsRejected(kind: Kind, code: string, message: string, withOk: bool, iso: int -> string)
    ensures !Accepts(kind, AckJson(ErrorAck(code, message, withOk), iso))
  {
    NamesDiffer();
  }

  // A promise resolves exactly if the service granted the request: every success ack of its kind is taken for one, and
  // every error, of the service or of the worker itself, is not.
  lemma AcksSettleRight(kind: Kind, a: ServerAck, iso: int -> string)
    requires Answers(kind, a)
    ensures Accepts(kind, AckJson(a, iso)) <==> IsSuccess(a)
  {
    hide Accepts, ToApi;
    match a
    case SentAck(doc) => SentAckIsAccepted(doc, iso);
    case OkAck => OkIsAccepted(kind, iso);
    case LastSeenAck(answer) => LastSeenSettlesRight(answer, iso);
    case ErrorAck(code, message, withOk) => ErrorIsRejected(kind, code, message, withOk, iso);
  }

  lemma OkIsAccepted(kind: Kind, iso: int -> string)
    requires kind in {Receipt, WebRtc}
    ensures Accepts(kind, AckJson(OkAck, iso))
  {
  }

  // Any other value settles by these fields alone.
  lemma AcceptedAcks(ack: Json)
    ensures Accepts(Send, ack) <==> HasString(ack, "id") && HasString(ack, "conversationId")
    ensures forall kind :: kind in {Receipt, WebRtc} ==>
              (Accepts(kind, ack) <==> ack.JObj? && "ok" in ack.fields && ack.fields["ok"] == JBool(true))
    ensures Accepts(LastSeen, ack) <==>
              || StringField(ack, "status") == Some("not_available")
              || (&& StringField(ack, "status") == Some("ok")
                  && StringField(ack, "source") in {Some("redis"), Some("mongodb")}
                  && HasString(ack, "lastSeenAt") && StringField(ack, "lastSeenAt") != Some(""))
  {
    assert |"ok"| == 2 && |"not_available"| == 13;
  }
}
