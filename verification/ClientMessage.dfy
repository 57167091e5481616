// What a client makes of a message:new payload: the validated message, and the text that one of its devices reads.

module ClientMessage {
  import opened Text
  import opened Json
  import opened Messages

  // An optional, nullable field with wrapped keys.
  datatype KeysField = NoKeys | NullKeys | Keys(keys: map<string, string>)

  datatype Message = Message(
    id: string,
    conversationId: string,
    senderId: string,
    createdAt: string,
    body: Field,
    mediaKey: Field,
    iv: Field,
    algorithm: Field,
    encryptedMessageKeys: KeysField)

  // A field that may be left out or null, and else must be a string; None rejects the payload.
  function FieldAt(o: Json, name: string): Option<Field>
    requires o.JObj?
  {
    if name !in o.fields then Some(Absent)
    else
      match o.fields[name]
      case JNull => Some(Null)
      case JStr(s) => Some(Value(s))
      case _ => None
  }

  // parseEncryptedMessageKeysField.
  function KeysAt(o: Json): Option<KeysField>
    requires o.JObj?
  {
    if "encryptedMessageKeys" !in o.fields then Some(NoKeys)
    else
      match o.fields["encryptedMessageKeys"]
      case JNull => Some(NullKeys)
      case JObj(m) =>
        if forall k :: k in m ==> m[k].JStr? then Some(Keys(map k | k in m :: m[k].s)) else None
      case _ => None
  }

  predicate NotBlank(o: Json, name: string) {
    HasString(o, name) && Trim(StringField(o, name).value) != ""
  }

  // parseMessageNewPayload.
  function ParseMessageNew(o: Json): Option<Message> {
    if !o.JObj? then None
    else if !(NotBlank(o, "id") && NotBlank(o, "conversationId") && NotBlank(o, "senderId") && NotBlank(o, "createdAt"))
    then None
    else
      var body, mediaKey := FieldAt(o, "body"), FieldAt(o, "mediaKey");
      var iv, algorithm := FieldAt(o, "iv"), FieldAt(o, "algorithm");
      var keys := KeysAt(o);
      if body.None? || mediaKey.None? || iv.None? || algorithm.None? || keys.None? then None
      else
        Some(Message(Trim(StringField(o, "id").value), Trim(StringField(o, "conversationId").value),
                     Trim(StringField(o, "senderId").value), StringField(o, "createdAt").value,
                     body.value, mediaKey.value, iv.value, algorithm.value, keys.value))
  }

  function OrNull(t: Option<string>): Field {
    match t case None => Null case Some(s) => Value(s)
  }

  function OrNoKeys(keys: Option<map<string, string>>): KeysField {
    match keys case None => NoKeys case Some(m) => Keys(m)
  }

  // Everything a client should learn of a stored message: all but the receipts.
  predicate IsSeenAs(doc: MessageDoc, createdAt: string, m: Message) {
    && m.id == Trim(doc.id) && m.conversationId == Trim(doc.conversationId) && m.senderId == Trim(doc.senderId)
    && m.createdAt == createdAt
    && m.body == OrNull(doc.body) && m.mediaKey == OrNull(doc.mediaKey)
    && m.iv == doc.iv && m.algorithm == doc.algorithm
    && m.encryptedMessageKeys == OrNoKeys(doc.encryptedMessageKeys)
  }

  predicate Sendable(doc: MessageDoc, createdAt: string) {
    Trim(doc.id) != "" && Trim(doc.conversationId) != "" && Trim(doc.senderId) != "" && Trim(createdAt) != ""
  }

  // A payload that a client takes for the stored message, or refuses because an id or the date is blank.
  predicate Carries(body: Json, doc: MessageDoc, createdAt: string) {
    var m := ParseMessageNew(body);
    && (m.Some? <==> Sendable(doc, createdAt))
    && (m.Some? ==> IsSeenAs(doc, createdAt, m.value))
  }

  lemma NamesDiffer()
    ensures |"id"| == 2 && |"conversationId"| == 14 && |"senderId"| == 8 && |"body"| == 4 && |"mediaKey"| == 8
    ensures |"createdAt"| == 9 && |"iv"| == 2 && |"algorithm"| == 9 && |"encryptedMessageKeys"| == 20
    ensures "id"[1] != "iv"[1] && "senderId"[0] != "mediaKey"[0] && "createdAt"[0] != "algorithm"[0]
  {
  }

  lemma BaseReads(doc: MessageDoc, iso: int -> string)
    ensures var o := JObj(BaseFields(doc, iso));
            && StringField(o, "id") == Some(doc.id) && StringField(o, "conversationId") == Some(doc.conversationId)
            && StringField(o, "senderId") == Some(doc.senderId)
            && StringField(o, "createdAt") == Some(iso(doc.createdAt))
            && FieldAt(o, "body") == Some(OrNull(doc.body)) && FieldAt(o, "mediaKey") == Some(OrNull(doc.mediaKey))
  {
    NamesDiffer();
  }

  lemma OptionalReads(doc: MessageDoc)
    ensures var o := JObj(OptionalFields(doc));
            && FieldAt(o, "iv") == Some(doc.iv) && FieldAt(o, "algorithm") == Some(doc.algorithm)
            && KeysAt(o) == Some(OrNoKeys(doc.encryptedMessageKeys))
  {
    NamesDiffer();
    var o := JObj(OptionalFields(doc));
    if doc.encryptedMessageKeys.Some? {
      var m := doc.encryptedMessageKeys.value;
      assert o.fields["encryptedMessageKeys"] == JObj(map d | d in m :: JStr(m[d]));
      assert KeysAt(o).value.keys == m;
    }
  }

  // The two halves of the wire form do not share a name.
  lemma HalvesRead(doc: MessageDoc, iso: int -> string, name: string)
    ensures var o, base, extra := ToApi(doc, iso), JObj(BaseFields(doc, iso)), JObj(OptionalFields(doc));
            && (name in {"id", "conversationId", "senderId", "createdAt"} ==>
                  StringField(o, name) == StringField(base, name))
            && (name in {"body", "mediaKey"} ==> FieldAt(o, name) == FieldAt(base, name))
            && (name in {"iv", "algorithm"} ==> FieldAt(o, name) == FieldAt(extra, name))
            && KeysAt(o) == KeysAt(extra)
  {
    hide BaseFields, OptionalFields;
    NamesDiffer();
    BaseFieldNames(doc, iso);
    OptionalFieldNames(doc);
  }

  // Written by the service and read by a client, a message is the stored document, field by field, without its
  // receipts; the client refuses it exactly if one of its ids or its date is blank.
  lemma ReadsAsStored(doc: MessageDoc, iso: int -> string)
    ensures Carries(ToApi(doc, iso), doc, iso(doc.createdAt))
  {
    hide ToApi, BaseFields, OptionalFields, StringField, FieldAt, KeysAt;
    BaseReads(doc, iso);
    OptionalReads(doc);
    HalvesRead(doc, iso, "id");
    HalvesRead(doc, iso, "conversationId");
    HalvesRead(doc, iso, "senderId");
    HalvesRead(doc, iso, "createdAt");
    HalvesRead(doc, iso, "body");
    HalvesRead(doc, iso, "mediaKey");
    HalvesRead(doc, iso, "iv");
    HalvesRead(doc, iso, "algorithm");
    ToApiIsObject(doc, iso);
  }

  lemma ToApiIsObject(doc: MessageDoc, iso: int -> string)
    ensures ToApi(doc, iso).JObj?
  {
  }
}
