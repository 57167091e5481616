// A hybrid message from end to end: encrypted by the sender's client, stored and fanned out by the service, validated
// and decrypted by a client of one of the two users.

module HybridSend {
  import opened Text
  import opened Json
  import opened Messages
  import opened ClientMessage
  import opened MessagingNode
  import opened BrokerPayload
  import Fanout
  import FanoutResults
  import H = HybridCrypto

  // Base64 text has no white space, and only no bytes at all make an empty text.
  ghost predicate Base64Text(lib: H.Lib) {
    forall b :: Trimmed(lib.b64(b)) && (lib.b64(b) == "" ==> b == H.Raw([]))
  }

  // The request that a client sends for a payload: the thread as chosen, and never a media key.
  function RequestOf(p: H.Payload, conversationId: Option<string>, recipientUserId: Option<string>): SendRequest {
    SendRequest(conversationId, recipientUserId, Some(p.body), None, Some(p.encryptedMessageKeys), Value(p.iv),
                Value(p.algorithm))
  }

  // isHybridE2eeMessage.
  predicate IsHybrid(m: Message) {
    && m.algorithm == Value(H.HYBRID_ALGORITHM)
    && m.encryptedMessageKeys.Keys? && m.encryptedMessageKeys.keys != map[]
    && m.iv.Value? && Trim(m.iv.text) != "" && m.body.Value? && Trim(m.body.text) != ""
  }

  // What a client hands to decryptHybridMessageToUtf8.
  function PayloadOf(m: Message): H.Payload
    requires IsHybrid(m)
  {
    H.Payload(m.algorithm.text, m.body.text, m.iv.text, m.encryptedMessageKeys.keys)
  }

  predicate Readable(m: Message, p: H.Payload) {
    IsHybrid(m) && PayloadOf(m) == p && m.mediaKey.Null?
  }

  lemma PayloadIsClean(lib: H.Lib, plaintext: string, devices: seq<H.DeviceRow>, r: H.Random)
    requires Base64Text(lib) && H.RandomOk(r) && H.Encrypt(lib, plaintext, devices, r).Ok?
    ensures var p := H.Encrypt(lib, plaintext, devices, r).value;
            CleanId(p.body) && CleanId(p.iv) && CleanId(p.algorithm) && p.encryptedMessageKeys != map[]
  {
    hide H.Wrap;
    var n := |devices| - 1;
    var keys := H.WrapAll(lib, r.messageKey, devices, r.ephemerals).value;
    assert devices[n].deviceId in keys;
    assert H.HYBRID_ALGORITHM[0] == 'a' && H.HYBRID_ALGORITHM[|H.HYBRID_ALGORITHM| - 1] == '1';
  }

  // The service stores a hybrid message as it came, and a client that receives it gets the payload back.
  lemma StoredPayloadComesBack(lib: H.Lib, plaintext: string, devices: seq<H.DeviceRow>, r: H.Random, doc: MessageDoc,
                               conversationId: Option<string>, recipientUserId: Option<string>, createdAt: string,
                               body: Json)
    requires Base64Text(lib) && H.RandomOk(r) && H.Encrypt(lib, plaintext, devices, r).Ok?
    requires doc == Document(doc.id, doc.conversationId, doc.senderId, doc.createdAt,
                             RequestOf(H.Encrypt(lib, plaintext, devices, r).value, conversationId, recipientUserId))
    requires Carries(body, doc, createdAt) && Sendable(doc, createdAt)
    ensures ParseMessageNew(body).Some?
    ensures Readable(ParseMessageNew(body).value, H.Encrypt(lib, plaintext, devices, r).value)
  {
    hide H.Encrypt, ParseMessageNew;
    var p := H.Encrypt(lib, plaintext, devices, r).value;
    PayloadIsClean(lib, plaintext, devices, r);
    TrimIsTrimmed(p.body);
    TrimIsTrimmed(p.iv);
    TrimIsTrimmed(p.algorithm);
    EncryptNamesAlgorithm(lib, plaintext, devices, r);
  }

  lemma EncryptNamesAlgorithm(lib: H.Lib, plaintext: string, devices: seq<H.DeviceRow>, r: H.Random)
    requires H.Encrypt(lib, plaintext, devices, r).Ok?
    ensures H.Encrypt(lib, plaintext, devices, r).value.algorithm == H.HYBRID_ALGORITHM
  {
  }

  // One hybrid message: what is encrypted for which devices, and the request it goes out with.
  datatype Draft = Draft(plaintext: string, lists: seq<seq<H.DeviceRow>>, random: H.Random,
                         conversationId: Option<string>, recipientUserId: Option<string>)

  function Encrypted(lib: H.Lib, d: Draft): Result<H.Payload, H.Error> {
    H.Encrypt(lib, d.plaintext, H.MergeRows(H.Flatten(d.lists)), d.random)
  }

  // A job sends the document that the service makes of a draft.
  ghost predicate Sends(lib: H.Lib, job: Fanout.Job, d: Draft) {
    && H.RandomOk(d.random) && Encrypted(lib, d).Ok? && job.SendJob?
    && job.doc == Document(job.doc.id, job.doc.conversationId, job.doc.senderId, job.doc.createdAt,
                           RequestOf(Encrypted(lib, d).value, d.conversationId, d.recipientUserId))
  }

  // Over every run of the fan-out: each delivery of a hybrid message is, to the client that gets it, a hybrid message
  // without a media key, and a device of that client reads the sender's text exactly if its private key belongs to the
  // last row that names its id. So the server keeps all that decryption needs, and nothing in the clear.
  lemma DeliveredMessageReads(env: Env, replicas: set<Fanout.ReplicaId>, es: seq<Fanout.Event>, s: Fanout.SocketId,
                              j: Fanout.JobId, c: Fanout.Copy, lib: H.Lib, d: Draft, deviceId: string,
                              mine: H.PrivateKey)
    requires Faithful(env.codec) && H.LibOk(lib) && Base64Text(lib)
    ensures var st := Fanout.Run(env, Fanout.Init(replicas), es);
            s in st.sockets && j in st.jobs && Sends(lib, st.jobs[j].job, d)
            && c in FanoutResults.Deliveries(st.sockets[s].inbox, j)
            && Sendable(st.jobs[j].job.doc, env.iso(st.jobs[j].job.doc.createdAt)) ==>
              var now := Deliver(env, c.pub.key, c.pub.content).now;
              var last := H.LastKey(H.Flatten(d.lists), Trim(deviceId));
              && |now| > 0 && ParseMessageNew(now[0].body).Some?
              && var m := ParseMessageNew(now[0].body).value;
                 && IsHybrid(m) && m.mediaKey.Null?
                 && H.Decrypt(lib, PayloadOf(m), deviceId, mine) ==
                    if last.None? || Trim(deviceId) == "" then Err(H.NoWrappedKey)
                    else if H.ImportPublic(lib, last.value) == Some(mine) then Ok(d.plaintext)
                    else Err(H.OpenFailed)
  {
    hide Fanout.Run, FanoutResults.Deliveries, Deliver, H.Encrypt, H.Decrypt, ParseMessageNew, Carries, Sendable, Document;
    FanoutResults.SendIsExactlyOnce(env, replicas, es, s, j);
    var st := Fanout.Run(env, Fanout.Init(replicas), es);
    if s in st.sockets && j in st.jobs && Sends(lib, st.jobs[j].job, d)
       && c in FanoutResults.Deliveries(st.sockets[s].inbox, j)
       && Sendable(st.jobs[j].job.doc, env.iso(st.jobs[j].job.doc.createdAt)) {
      var doc := st.jobs[j].job.doc;
      var now := Deliver(env, c.pub.key, c.pub.content).now;
      StoredPayloadComesBack(lib, d.plaintext, H.MergeRows(H.Flatten(d.lists)), d.random, doc, d.conversationId,
                             d.recipientUserId, env.iso(doc.createdAt), now[0].body);
      H.DecryptsExactlyForLastRow(lib, d.plaintext, d.lists, d.random, deviceId, mine);
    }
  }
}
