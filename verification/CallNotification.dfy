// Bodies of incoming-call notifications: what the caller's replica builds and what the consumer lets through.

module CallNotification {
  import opened Text
  import opened Json

  datatype Call = Call(
    notificationId: string,
    occurredAt: string,
    media: string,
    callId: string,
    callerUserId: string,
    callerDisplayName: Option<string>,
    conversationId: Option<string>)

  function NameJson(name: Option<string>): Json {
    match name case None => JNull case Some(s) => JStr(s)
  }

  function CallFields(c: Call): map<string, Json> {
    map[
      "schemaVersion" := JNum(Whole(1)), "kind" := JStr("call_incoming"), "callScope" := JStr("direct"),
      "notificationId" := JStr(c.notificationId), "occurredAt" := JStr(c.occurredAt), "media" := JStr(c.media),
      "callId" := JStr(c.callId), "callerUserId" := JStr(c.callerUserId),
      "callerDisplayName" := NameJson(c.callerDisplayName)]
    + match c.conversationId case None => map[] case Some(id) => map["conversationId" := JStr(id)]
  }

  // JSON.stringify leaves an undefined conversation out and writes a missing name as null.
  function CallJson(c: Call): Json { JObj(CallFields(c)) }

  const FIELDS := {
    "schemaVersion", "kind", "notificationId", "occurredAt", "media", "callScope", "callId", "callerUserId",
    "callerDisplayName", "conversationId"
  }

  // What the schema asks of the values.
  predicate Acceptable(c: Call) {
    && c.notificationId != "" && c.occurredAt != "" && c.callId != "" && c.callerUserId != ""
    && c.media in {"audio", "video"} && c.conversationId != Some("")
  }

  predicate Filled(o: Json, name: string) {
    HasString(o, name) && StringField(o, name) != Some("")
  }

  predicate Valid(o: Json) {
    && o.JObj?
    && "schemaVersion" in o.fields && o.fields["schemaVersion"] == JNum(Whole(1))
    && StringField(o, "kind") == Some("call_incoming")
    && Filled(o, "notificationId") && Filled(o, "occurredAt")
    && StringField(o, "media") in {Some("audio"), Some("video")}
    && StringField(o, "callScope") == Some("direct")
    && Filled(o, "callId") && Filled(o, "callerUserId")
    && "callerDisplayName" in o.fields
    && (o.fields["callerDisplayName"].JNull? || o.fields["callerDisplayName"].JStr?)
    && ("conversationId" in o.fields ==> Filled(o, "conversationId"))
  }

  function FromJson(o: Json): Call
    requires Valid(o)
  {
    Call(
      o.fields["notificationId"].s, o.fields["occurredAt"].s, o.fields["media"].s, o.fields["callId"].s,
      o.fields["callerUserId"].s, StringField(o, "callerDisplayName"), StringField(o, "conversationId"))
  }

  function ParseCall(codec: Codec, content: string): Option<Call> {
    match codec.parse(content)
    case None => None
    case Some(o) => if Valid(o) then Some(FromJson(o)) else None
  }

  // Without the fields that the schema does not name.
  function Known(fields: map<string, Json>): map<string, Json> {
    map name | name in fields && name in FIELDS :: fields[name]
  }

  lemma NamesDiffer()
    ensures |"schemaVersion"| == 13 && |"kind"| == 4 && |"callScope"| == 9 && |"notificationId"| == 14
    ensures |"occurredAt"| == 10 && |"media"| == 5 && |"callId"| == 6 && |"callerUserId"| == 12
    ensures |"callerDisplayName"| == 17 && |"conversationId"| == 14 && "conversationId"[0] != "notificationId"[0]
  {
  }

  lemma NamesOfCall(c: Call)
    ensures CallFields(c).Keys == if c.conversationId.None? then FIELDS - {"conversationId"} else FIELDS
  {
    NamesDiffer();
  }

  lemma ValuesOfCall(c: Call)
    ensures NamedValues(CallFields(c), c)
    ensures StringField(CallJson(c), "conversationId") == c.conversationId
  {
    NamesDiffer();
  }

  predicate NamedValues(f: map<string, Json>, c: Call) {
    && f.Keys >= FIELDS - {"conversationId"}
    && f["schemaVersion"] == JNum(Whole(1)) && f["kind"] == JStr("call_incoming")
    && f["callScope"] == JStr("direct") && f["notificationId"] == JStr(c.notificationId)
    && f["occurredAt"] == JStr(c.occurredAt) && f["media"] == JStr(c.media)
    && f["callId"] == JStr(c.callId) && f["callerUserId"] == JStr(c.callerUserId)
    && f["callerDisplayName"] == NameJson(c.callerDisplayName)
  }

  lemma ValidIsCall(o: Json)
    requires Valid(o)
    ensures Acceptable(FromJson(o)) && Known(o.fields) == CallFields(FromJson(o))
  {
    hide CallFields;
    NamesOfCall(FromJson(o));
    ValuesOfCall(FromJson(o));
  }

  lemma CallIsValid(o: Json, c: Call)
    requires o.JObj? && Known(o.fields) == CallFields(c) && Acceptable(c)
    ensures Valid(o) && FromJson(o) == c
  {
    hide CallFields;
    NamesOfCall(c);
    ValuesOfCall(c);
    forall name | name in FIELDS && name in CallFields(c)
      ensures name in o.fields && o.fields[name] == CallFields(c)[name]
    {
      assert name in Known(o.fields);
    }
    assert "conversationId" in o.fields ==> "conversationId" in Known(o.fields);
  }

  // A body gets through exactly if, the unknown fields taken off, it is the JSON form of an acceptable call, and the
  // consumer reads that call: nothing else passes, and no named field is lost or altered.
  lemma PassesExactly(codec: Codec, content: string, c: Call)
    ensures ParseCall(codec, content) == Some(c) <==>
            && codec.parse(content).Some? && codec.parse(content).value.JObj?
            && Known(codec.parse(content).value.fields) == CallFields(c) && Acceptable(c)
  {
    hide CallFields, Known, FromJson, Acceptable;
    var o := codec.parse(content);
    if o.Some? && o.value.JObj? {
      if Valid(o.value) { ValidIsCall(o.value); }
      if Known(o.value.fields) == CallFields(c) && Acceptable(c) { CallIsValid(o.value, c); }
    }
  }

  // A built body is read back as the call it was built from if and only if the schema accepts it.
  lemma BuiltCallPasses(codec: Codec, c: Call)
    requires Faithful(codec)
    ensures ParseCall(codec, codec.stringify(CallJson(c))) == if Acceptable(c) then Some(c) else None
  {
    hide CallFields, Valid, FromJson, Acceptable;
    var content := codec.stringify(CallJson(c));
    NamesOfCall(c);
    assert Known(CallFields(c)) == CallFields(c);
    assert codec.parse(content) == Some(CallJson(c));
    PassesExactly(codec, content, c);
    var read := ParseCall(codec, content);
    if read.Some? {
      PassesExactly(codec, content, read.value);
      FieldsTellCalls(c, read.value);
    }
  }

  lemma FieldsTellCalls(c: Call, d: Call)
    requires CallFields(c) == CallFields(d)
    ensures c == d
  {
    hide CallFields;
    ValuesOfCall(c);
    ValuesOfCall(d);
  }
}
