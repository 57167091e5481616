// The message document of the messages collection, shared by fan-out, listing and key sync.

module Messages {
  import opened Text
  import opened Json

  // An optional, nullable text field of a document.
  datatype Field = Absent | Null | Value(text: string)

  datatype ReceiptEntry = ReceiptEntry(deliveredAt: Option<int>, seenAt: Option<int>)

  datatype MessageDoc = MessageDoc(
    id: string,
    conversationId: string,
    senderId: string,
    body: Option<string>,
    mediaKey: Option<string>,
    createdAt: int,
    encryptedMessageKeys: Option<map<string, string>>,
    iv: Field,
    algorithm: Field,
    receiptsByUserId: map<string, ReceiptEntry>)

  function Nullable(t: Option<string>): Json {
    match t case None => JNull case Some(s) => JStr(s)
  }

  function FieldEntry(name: string, f: Field): map<string, Json> {
    match f
    case Absent => map[]
    case Null => map[name := JNull]
    case Value(t) => map[name := JStr(t)]
  }

  // The six fields that every message has.
  function BaseFields(doc: MessageDoc, iso: int -> string): map<string, Json> {
    map["id" := JStr(doc.id),
        "conversationId" := JStr(doc.conversationId),
        "senderId" := JStr(doc.senderId),
        "body" := Nullable(doc.body),
        "mediaKey" := Nullable(doc.mediaKey),
        "createdAt" := JStr(iso(doc.createdAt))]
  }

  function KeysEntry(keys: Option<map<string, string>>): map<string, Json> {
    match keys
    case None => map[]
    case Some(m) => map["encryptedMessageKeys" := JObj(map d | d in m :: JStr(m[d]))]
  }

  // The fields that appear only when the document has them.
  function OptionalFields(doc: MessageDoc): map<string, Json> {
    KeysEntry(doc.encryptedMessageKeys) + FieldEntry("iv", doc.iv) + FieldEntry("algorithm", doc.algorithm)
  }

  // messageDocumentToApi: receipts stay out.
  function ToApi(doc: MessageDoc, iso: int -> string): Json {
    JObj(BaseFields(doc, iso) + OptionalFields(doc))
  }

  // The wrapped message key stored for a device; an empty string counts as no key, as the sync queries have it.
  function KeyFor(doc: MessageDoc, deviceId: string): Option<string> {
    match doc.encryptedMessageKeys
    case None => None
    case Some(keys) =>
      if deviceId in keys && keys[deviceId] != "" then Some(keys[deviceId]) else None
  }

  // $set on encryptedMessageKeys.<deviceId>.
  function WithKey(doc: MessageDoc, deviceId: string, key: string): MessageDoc {
    var keys := match doc.encryptedMessageKeys case None => map[] case Some(m) => m;
    doc.(encryptedMessageKeys := Some(keys[deviceId := key]))
  }

  lemma BaseFieldNames(doc: MessageDoc, iso: int -> string)
    ensures BaseFields(doc, iso).Keys == {"id", "conversationId", "senderId", "body", "mediaKey", "createdAt"}
    ensures BaseFields(doc, iso)["id"] == JStr(doc.id)
  {
    assert |"id"| == 2 && |"conversationId"| == 14 && |"senderId"| == 8;
    assert |"body"| == 4 && |"mediaKey"| == 8 && |"createdAt"| == 9;
  }

  lemma OptionalFieldNames(doc: MessageDoc)
    ensures OptionalFields(doc).Keys == OptionalNames(doc)
  {
  }

  // The API shape has six fields always, three more exactly if the document has them, and nothing else: no receipts,
  // and no field called message, so the two body forms on the exchange cannot be confused.
  lemma ApiShape(doc: MessageDoc, iso: int -> string)
    ensures ToApi(doc, iso).fields.Keys
            == {"id", "conversationId", "senderId", "body", "mediaKey", "createdAt"} + OptionalNames(doc)
    ensures StringField(ToApi(doc, iso), "id") == Some(doc.id)
    ensures "message" !in ToApi(doc, iso).fields
  {
    hide BaseFields, OptionalFields;
    BaseFieldNames(doc, iso);
    OptionalFieldNames(doc);
    NamesApart();
    var base, extra := BaseFields(doc, iso), OptionalFields(doc);
    assert ToApi(doc, iso).fields == base + extra;
    assert "id" in base && "id" !in extra;
    assert (base + extra)["id"] == base["id"];
  }

  function OptionalNames(doc: MessageDoc): set<string> {
    (if doc.encryptedMessageKeys.Some? then {"encryptedMessageKeys"} else {})
    + (if doc.iv.Absent? then {} else {"iv"}) + if doc.algorithm.Absent? then {} else {"algorithm"}
  }

  lemma NamesApart()
    ensures "id" !in {"encryptedMessageKeys", "iv", "algorithm"}
    ensures "message" !in {"encryptedMessageKeys", "iv", "algorithm"}
    ensures "message" !in {"id", "conversationId", "senderId", "body", "mediaKey", "createdAt"}
  {
    assert |"id"| == 2 && |"iv"| == 2 && "id"[1] != "iv"[1] && |"message"| == 7;
    assert |"encryptedMessageKeys"| == 20 && |"algorithm"| == 9;
    assert |"conversationId"| == 14 && |"senderId"| == 8 && |"body"| == 4 && |"mediaKey"| == 8 && |"createdAt"| == 9;
  }
}
