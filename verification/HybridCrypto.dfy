// Per-device hybrid encryption: a random message key encrypts the body, and is wrapped for each device's public key.
//
// The cryptography is ideal and symbolic. A ciphertext is a term that records its key; it opens with that key only.
// An agreed key is the unordered pair of the two private keys, so both sides derive the same one.

module HybridCrypto {
  import opened Text
  import opened Json

  // Byte strings: random bytes, a public key in SPKI form, an AES-GCM ciphertext, and encoded text.
  datatype Bytes =
    | Raw(bytes: seq<bv8>)
    | Spki(owner: PrivateKey)
    | Sealed(key: AesKey, iv: Bytes, content: Bytes)
    | Utf8(text: string)

  type PrivateKey = nat

  // Imported from raw bytes, or derived with HKDF from the secret that two key pairs agree on.
  datatype AesKey =
    | Imported(raw: Bytes)
    | Derived(low: PrivateKey, high: PrivateKey, salt: Bytes)

  function Seal(key: AesKey, iv: Bytes, content: Bytes): Bytes { Sealed(key, iv, content) }

  function Open(key: AesKey, iv: Bytes, ciphertext: Bytes): Option<Bytes> {
    if ciphertext.Sealed? && ciphertext.key == key && ciphertext.iv == iv then Some(ciphertext.content) else None
  }

  // deriveWrapKeyFromEcdh.
  function Agree(mine: PrivateKey, theirs: PrivateKey, salt: Bytes): AesKey {
    if mine <= theirs then Derived(mine, theirs, salt) else Derived(theirs, mine, salt)
  }

  lemma AgreeCommutes(a: PrivateKey, b: PrivateKey, c: PrivateKey, salt: Bytes)
    ensures Agree(a, b, salt) == Agree(b, a, salt)
    ensures Agree(a, b, salt) == Agree(a, c, salt) <==> b == c
  {
  }

  predicate HasLength(b: Bytes, n: nat) { b.Raw? && |b.bytes| == n }

  // JSON, and base64 over byte strings; unb64 is None when decoding throws.
  datatype Lib = Lib(codec: Codec, b64: Bytes -> string, unb64: string -> Option<Bytes>)

  ghost predicate LibOk(lib: Lib) {
    && Faithful(lib.codec)
    && (forall b :: lib.unb64(lib.b64(b)) == Some(b))
    && (forall fields :: Trim(lib.codec.stringify(JObj(fields))) != "")
  }

  datatype Error =
    | NoDevices | BadKeyLength | BadPublicKey | BadEnvelope | OpenFailed | NoWrappedKey | BadIv | BadEncoding

  // ----- Message keys -----

  const WRAP_ALG := "p256-hkdf-aes256gcm-wrap-v1"

  // A fresh ephemeral key pair, salt and IV, drawn for each wrap.
  datatype Ephemeral = Ephemeral(key: PrivateKey, salt: Bytes, iv: Bytes)

  datatype Envelope = Envelope(eph: string, salt: string, iv: string, ciphertext: string)

  function ToJson(env: Envelope): Json {
    JObj(map["v" := JNum(Whole(1)), "alg" := JStr(WRAP_ALG), "ephPubSpkiB64" := JStr(env.eph),
             "hkdfSaltB64" := JStr(env.salt), "ivB64" := JStr(env.iv), "ciphertextB64" := JStr(env.ciphertext)])
  }

  function ImportPublic(lib: Lib, spki: string): Option<PrivateKey> {
    match lib.unb64(Trim(spki))
    case Some(Spki(owner)) => Some(owner)
    case _ => None
  }

  function Wrap(lib: Lib, messageKey: Bytes, publicKey: string, e: Ephemeral): Result<string, Error> {
    if !HasLength(messageKey, 32) then Err(BadKeyLength)
    else
      match ImportPublic(lib, publicKey)
      case None => Err(BadPublicKey)
      case Some(device) =>
        var sealed := Seal(Agree(e.key, device, e.salt), e.iv, messageKey);
        Ok(lib.codec.stringify(ToJson(Envelope(
          lib.b64(Spki(e.key)), lib.b64(e.salt), lib.b64(e.iv), lib.b64(sealed)))))
  }

  function ParseEnvelope(lib: Lib, raw: string): Option<Envelope> {
    match lib.codec.parse(raw)
    case None => None
    case Some(o) =>
      if o.JObj? && "v" in o.fields && o.fields["v"] == JNum(Whole(1)) && StringField(o, "alg") == Some(WRAP_ALG)
         && HasString(o, "ephPubSpkiB64") && HasString(o, "hkdfSaltB64") && HasString(o, "ivB64")
         && HasString(o, "ciphertextB64")
      then
        Some(Envelope(StringField(o, "ephPubSpkiB64").value, StringField(o, "hkdfSaltB64").value,
                      StringField(o, "ivB64").value, StringField(o, "ciphertextB64").value))
      else None
  }

  function Unwrap(lib: Lib, wrapped: string, mine: PrivateKey): Result<Bytes, Error> {
    match ParseEnvelope(lib, wrapped)
    case None => Err(BadEnvelope)
    case Some(env) =>
      var eph, salt := lib.unb64(env.eph), lib.unb64(env.salt);
      var iv, ciphertext := lib.unb64(env.iv), lib.unb64(env.ciphertext);
      if eph.None? || salt.None? || iv.None? || ciphertext.None? then Err(BadEncoding)
      else if !eph.value.Spki? then Err(BadPublicKey)
      else
        match Open(Agree(mine, eph.value.owner, salt.value), iv.value, ciphertext.value)
        case None => Err(OpenFailed)
        case Some(key) => Ok(key)
  }

  lemma EnvelopeRoundTrip(lib: Lib, env: Envelope)
    requires LibOk(lib)
    ensures ParseEnvelope(lib, lib.codec.stringify(ToJson(env))) == Some(env)
  {
    var o := ToJson(env);
    assert lib.codec.parse(lib.codec.stringify(o)) == Some(o);
    assert |"v"| == 1 && |"alg"| == 3 && |"ephPubSpkiB64"| == 13 && |"hkdfSaltB64"| == 11 && |"ivB64"| == 5;
    assert "ciphertextB64"[0] == 'c' && "ephPubSpkiB64"[0] == 'e';
    assert StringField(o, "alg") == Some(WRAP_ALG);
    assert StringField(o, "ephPubSpkiB64") == Some(env.eph) && StringField(o, "hkdfSaltB64") == Some(env.salt);
    assert StringField(o, "ivB64") == Some(env.iv) && StringField(o, "ciphertextB64") == Some(env.ciphertext);
  }

  // A wrapped key opens with the private key of the device it was wrapped for, and with no other.
  lemma UnwrapsExactlyForItsDevice(lib: Lib, messageKey: Bytes, publicKey: string, e: Ephemeral, mine: PrivateKey)
    requires LibOk(lib) && Wrap(lib, messageKey, publicKey, e).Ok?
    ensures Unwrap(lib, Wrap(lib, messageKey, publicKey, e).value, mine)
            == if ImportPublic(lib, publicKey) == Some(mine) then Ok(messageKey) else Err(OpenFailed)
  {
    var device := ImportPublic(lib, publicKey).value;
    var sealed := Seal(Agree(e.key, device, e.salt), e.iv, messageKey);
    EnvelopeRoundTrip(lib, Envelope(lib.b64(Spki(e.key)), lib.b64(e.salt), lib.b64(e.iv), lib.b64(sealed)));
    AgreeCommutes(e.key, device, mine, e.salt);
    AgreeCommutes(e.key, mine, device, e.salt);
  }

  // Whatever text is offered as a wrapped key, it opens only if it is a version 1 envelope of the one algorithm whose
  // ciphertext was sealed, with its own IV, under the key that this device and the envelope's ephemeral key agree on.
  lemma OnlyEnvelopesOpen(lib: Lib, wrapped: string, mine: PrivateKey, key: Bytes)
    requires Unwrap(lib, wrapped, mine) == Ok(key)
    ensures var o := lib.codec.parse(wrapped);
            && o.Some? && o.value.JObj? && "v" in o.value.fields && o.value.fields["v"] == JNum(Whole(1))
            && StringField(o.value, "alg") == Some("p256-hkdf-aes256gcm-wrap-v1")
            && HasString(o.value, "ephPubSpkiB64") && HasString(o.value, "hkdfSaltB64") && HasString(o.value, "ivB64")
            && exists owner, salt, iv ::
                 && lib.unb64(StringField(o.value, "ephPubSpkiB64").value) == Some(Spki(owner))
                 && lib.unb64(StringField(o.value, "hkdfSaltB64").value) == Some(salt)
                 && lib.unb64(StringField(o.value, "ivB64").value) == Some(iv)
                 && HasString(o.value, "ciphertextB64")
                 && lib.unb64(StringField(o.value, "ciphertextB64").value)
                    == Some(Sealed(Agree(mine, owner, salt), iv, key))
  {
  }

  lemma WrappedIsNotBlank(lib: Lib, messageKey: Bytes, publicKey: string, e: Ephemeral)
    requires LibOk(lib) && Wrap(lib, messageKey, publicKey, e).Ok?
    ensures Trim(Wrap(lib, messageKey, publicKey, e).value) != ""
  {
  }

  // ----- Messages -----

  datatype DeviceRow = DeviceRow(deviceId: string, publicKey: string)

  const HYBRID_ALGORITHM := "aes-256-gcm+p256-hybrid-v1"

  datatype Payload = Payload(algorithm: string, body: string, iv: string, encryptedMessageKeys: map<string, string>)

  // What a send draws: the message key, the IV of the body, and an ephemeral for each row.
  datatype Random = Random(messageKey: Bytes, bodyIv: Bytes, ephemerals: nat -> Ephemeral)

  predicate RandomOk(r: Random) { HasLength(r.messageKey, 32) && HasLength(r.bodyIv, 12) }

  function WrapAll(lib: Lib, messageKey: Bytes, devices: seq<DeviceRow>, ephemerals: nat -> Ephemeral)
    : Result<map<string, string>, Error>
  {
    if devices == [] then Ok(map[])
    else
      var n := |devices| - 1;
      match WrapAll(lib, messageKey, devices[..n], ephemerals)
      case Err(e) => Err(e)
      case Ok(keys) =>
        match Wrap(lib, messageKey, devices[n].publicKey, ephemerals(n))
        case Err(e) => Err(e)
        case Ok(wrapped) => Ok(keys[devices[n].deviceId := wrapped])
  }

  function Encrypt(lib: Lib, plaintext: string, devices: seq<DeviceRow>, r: Random): Result<Payload, Error> {
    if devices == [] then Err(NoDevices)
    else if !HasLength(r.messageKey, 32) then Err(BadKeyLength)
    else
      match WrapAll(lib, r.messageKey, devices, r.ephemerals)
      case Err(e) => Err(e)
      case Ok(keys) =>
        var body := Seal(Imported(r.messageKey), r.bodyIv, Utf8(plaintext));
        Ok(Payload(HYBRID_ALGORITHM, lib.b64(body), lib.b64(r.bodyIv), keys))
  }

  function DecryptBody(messageKey: Bytes, ciphertext: Bytes, iv: Bytes): Result<string, Error> {
    if !HasLength(iv, 12) then Err(BadIv)
    else if !HasLength(messageKey, 32) then Err(BadKeyLength)
    else
      match Open(Imported(messageKey), iv, ciphertext)
      case Some(Utf8(text)) => Ok(text)
      case _ => Err(OpenFailed)
  }

  // A body opens exactly if it was sealed as text under this key and IV, and both have their lengths.
  lemma BodiesOpenExactly(messageKey: Bytes, ciphertext: Bytes, iv: Bytes, text: string)
    ensures DecryptBody(messageKey, ciphertext, iv) == Ok(text) <==>
            && messageKey.Raw? && |messageKey.bytes| == 32 && iv.Raw? && |iv.bytes| == 12
            && ciphertext == Sealed(Imported(messageKey), iv, Utf8(text))
  {
  }

  function Decrypt(lib: Lib, p: Payload, deviceId: string, mine: PrivateKey): Result<string, Error> {
    DecryptAs(lib, p, Trim(deviceId), mine)
  }

  function DecryptAs(lib: Lib, p: Payload, id: string, mine: PrivateKey): Result<string, Error> {
    if id !in p.encryptedMessageKeys || Trim(p.encryptedMessageKeys[id]) == "" then Err(NoWrappedKey)
    else
      match Unwrap(lib, p.encryptedMessageKeys[id], mine)
      case Err(e) => Err(e)
      case Ok(key) =>
        var iv, ciphertext := lib.unb64(p.iv), lib.unb64(p.body);
        if iv.None? || ciphertext.None? then Err(BadEncoding) else DecryptBody(key, ciphertext.value, iv.value)
  }

  // ----- Merging device lists -----

  // Map.set: an id keeps its first place and takes the last row's key.
  function PutRow(rows: seq<DeviceRow>, row: DeviceRow): seq<DeviceRow> {
    if rows == [] then [row]
    else if rows[0].deviceId == row.deviceId then [row] + rows[1..]
    else [rows[0]] + PutRow(rows[1..], row)
  }

  function AddRow(rows: seq<DeviceRow>, row: DeviceRow): seq<DeviceRow> {
    if Trim(row.deviceId) == "" then rows else PutRow(rows, DeviceRow(Trim(row.deviceId), row.publicKey))
  }

  function MergeRows(rows: seq<DeviceRow>): seq<DeviceRow> {
    if rows == [] then [] else AddRow(MergeRows(rows[..|rows| - 1]), rows[|rows| - 1])
  }

  function Flatten(lists: seq<seq<DeviceRow>>): seq<DeviceRow> {
    if lists == [] then [] else Flatten(lists[..|lists| - 1]) + lists[|lists| - 1]
  }

  // The public key that stands for a device id after a merge: that of the last row with the id.
  function LastKey(rows: seq<DeviceRow>, id: string): Option<string> {
    if rows == [] then None
    else if Trim(rows[|rows| - 1].deviceId) == id then Some(rows[|rows| - 1].publicKey)
    else LastKey(rows[..|rows| - 1], id)
  }

  ghost predicate DistinctIds(rows: seq<DeviceRow>) {
    forall i, k :: 0 <= i < k < |rows| ==> rows[i].deviceId != rows[k].deviceId
  }

  lemma {:induction false} PutRowFacts(rows: seq<DeviceRow>, row: DeviceRow)
    requires DistinctIds(rows)
    ensures DistinctIds(PutRow(rows, row))
    ensures forall r :: r in PutRow(rows, row) <==> r == row || (r in rows && r.deviceId != row.deviceId)
  {
    if rows != [] {
      assert rows == [rows[0]] + rows[1..];
      forall r | r in rows[1..] ensures r.deviceId != rows[0].deviceId {}
      if rows[0].deviceId != row.deviceId {
        PutRowFacts(rows[1..], row);
        var rest := PutRow(rows[1..], row);
        forall k | 0 <= k < |rest| ensures rest[k].deviceId != rows[0].deviceId { assert rest[k] in rest; }
      }
    }
  }

  // The merge: every id once, trimmed and not blank, with the key of the last row that names it.
  lemma {:induction false} MergeKeepsLast(rows: seq<DeviceRow>)
    ensures DistinctIds(MergeRows(rows))
    ensures forall r :: r in MergeRows(rows) <==> r.deviceId != "" && LastKey(rows, r.deviceId) == Some(r.publicKey)
  {
    if rows != [] {
      var n := |rows| - 1;
      MergeKeepsLast(rows[..n]);
      PutRowFacts(MergeRows(rows[..n]), DeviceRow(Trim(rows[n].deviceId), rows[n].publicKey));
    }
  }

  lemma {:induction false} LastKeyIsTrimmed(rows: seq<DeviceRow>, id: string)
    requires LastKey(rows, id).Some?
    ensures Trim(id) == id
  {
    if Trim(rows[|rows| - 1].deviceId) == id {
      TrimIsTrimmed(rows[|rows| - 1].deviceId);
    } else {
      LastKeyIsTrimmed(rows[..|rows| - 1], id);
    }
  }

  lemma MergeOneMore(rows: seq<DeviceRow>, row: DeviceRow)
    ensures MergeRows(rows + [row]) == AddRow(MergeRows(rows), row)
  {
    assert (rows + [row])[..|rows|] == rows;
  }

  // The inner loop: one more list.
  method MergeList(map0: seq<DeviceRow>, list: seq<DeviceRow>, ghost before: seq<DeviceRow>) returns (merged: seq<DeviceRow>)
    requires map0 == MergeRows(before)
    ensures merged == MergeRows(before + list)
  {
    hide AddRow;
    merged := map0;
    assert before + list[..0] == before;
    for k := 0 to |list|
      invariant merged == MergeRows(before + list[..k])
    {
      MergeOneMore(before + list[..k], list[k]);
      assert before + list[..k + 1] == before + list[..k] + [list[k]];
      merged := AddRow(merged, list[k]);
    }
    assert list[..|list|] == list;
  }

  method MergeHybridDeviceRows(lists: seq<seq<DeviceRow>>) returns (merged: seq<DeviceRow>)
    ensures merged == MergeRows(Flatten(lists))
  {
    merged := [];
    for i := 0 to |lists|
      invariant merged == MergeRows(Flatten(lists[..i]))
    {
      assert lists[..i + 1][..i] == lists[..i];
      merged := MergeList(merged, lists[i], Flatten(lists[..i]));
    }
    assert lists[..|lists|] == lists;
  }

  method EncryptUtf8ToHybridSendPayload(lib: Lib, plaintext: string, devices: seq<DeviceRow>, r: Random)
    returns (p: Result<Payload, Error>)
    ensures p == Encrypt(lib, plaintext, devices, r)
  {
    if devices == [] { return Err(NoDevices); }
    if !HasLength(r.messageKey, 32) { return Err(BadKeyLength); }
    var ciphertext := Seal(Imported(r.messageKey), r.bodyIv, Utf8(plaintext));
    var encryptedMessageKeys: map<string, string> := map[];
    for i := 0 to |devices|
      invariant WrapAll(lib, r.messageKey, devices[..i], r.ephemerals) == Ok(encryptedMessageKeys)
    {
      assert devices[..i + 1][..i] == devices[..i];
      var wrapped := Wrap(lib, r.messageKey, devices[i].publicKey, r.ephemerals(i));
      if wrapped.Err? {
        PrefixFails(lib, r.messageKey, devices, r.ephemerals, i + 1);
        return Err(wrapped.error);
      }
      encryptedMessageKeys := encryptedMessageKeys[devices[i].deviceId := wrapped.value];
    }
    assert devices[..|devices|] == devices;
    p := Ok(Payload(HYBRID_ALGORITHM, lib.b64(ciphertext), lib.b64(r.bodyIv), encryptedMessageKeys));
  }

  lemma {:induction false} PrefixFails(lib: Lib, messageKey: Bytes, devices: seq<DeviceRow>,
                                       ephemerals: nat -> Ephemeral, k: nat)
    requires k <= |devices| && WrapAll(lib, messageKey, devices[..k], ephemerals).Err?
    ensures WrapAll(lib, messageKey, devices, ephemerals) == WrapAll(lib, messageKey, devices[..k], ephemerals)
  {
    var n := |devices| - 1;
    if k <= n {
      assert devices[..n][..k] == devices[..k];
      PrefixFails(lib, messageKey, devices[..n], ephemerals, k);
    } else {
      assert devices[..k] == devices;
    }
  }

  // ----- Results -----

  // With a fresh message key, all devices can be served exactly if each of them has a readable public key.
  lemma {:induction false} WrapAllSucceeds(lib: Lib, messageKey: Bytes, devices: seq<DeviceRow>,
                                           ephemerals: nat -> Ephemeral)
    requires HasLength(messageKey, 32)
    ensures WrapAll(lib, messageKey, devices, ephemerals).Ok? <==>
            forall d :: d in devices ==> ImportPublic(lib, d.publicKey).Some?
  {
    if devices != [] {
      var n := |devices| - 1;
      WrapAllSucceeds(lib, messageKey, devices[..n], ephemerals);
      assert devices == devices[..n] + [devices[n]];
    }
  }

  ghost predicate WrappedFor(lib: Lib, messageKey: Bytes, publicKey: string, wrapped: string) {
    exists e :: Wrap(lib, messageKey, publicKey, e) == Ok(wrapped)
  }

  // The wrapped keys have an entry for each listed device, made for its key, and no other entry.
  lemma {:induction false} WrapAllFacts(lib: Lib, messageKey: Bytes, devices: seq<DeviceRow>, ephemerals: nat -> Ephemeral)
    requires DistinctIds(devices) && WrapAll(lib, messageKey, devices, ephemerals).Ok?
    ensures var keys := WrapAll(lib, messageKey, devices, ephemerals).value;
            && (forall d :: d in devices ==>
                  d.deviceId in keys && WrappedFor(lib, messageKey, d.publicKey, keys[d.deviceId]))
            && (forall id :: id in keys ==> exists d :: d in devices && d.deviceId == id)
  {
    hide Wrap;
    if devices != [] {
      var n := |devices| - 1;
      var keys := WrapAll(lib, messageKey, devices, ephemerals).value;
      WrapAllFacts(lib, messageKey, devices[..n], ephemerals);
      assert devices == devices[..n] + [devices[n]];
      assert Wrap(lib, messageKey, devices[n].publicKey, ephemerals(n)) == Ok(keys[devices[n].deviceId]);
      forall id | id in keys ensures exists d :: d in devices && d.deviceId == id {
        if id == devices[n].deviceId { assert devices[n] in devices; }
      }
    }
  }

  lemma DecryptWrapped(lib: Lib, plaintext: string, r: Random, p: Payload, id: string, publicKey: string, mine: PrivateKey)
    requires LibOk(lib) && RandomOk(r)
    requires p.body == lib.b64(Seal(Imported(r.messageKey), r.bodyIv, Utf8(plaintext))) && p.iv == lib.b64(r.bodyIv)
    requires id in p.encryptedMessageKeys && WrappedFor(lib, r.messageKey, publicKey, p.encryptedMessageKeys[id])
    ensures DecryptAs(lib, p, id, mine)
            == if ImportPublic(lib, publicKey) == Some(mine) then Ok(plaintext) else Err(OpenFailed)
  {
    hide Wrap, Trim;
    var e :| Wrap(lib, r.messageKey, publicKey, e) == Ok(p.encryptedMessageKeys[id]);
    UnwrapsExactlyForItsDevice(lib, r.messageKey, publicKey, e, mine);
    WrappedIsNotBlank(lib, r.messageKey, publicKey, e);
  }

  lemma KeysAreListed(lib: Lib, messageKey: Bytes, rows: seq<DeviceRow>, ephemerals: nat -> Ephemeral)
    requires WrapAll(lib, messageKey, MergeRows(rows), ephemerals).Ok?
    ensures var keys := WrapAll(lib, messageKey, MergeRows(rows), ephemerals).value;
            forall id ::
              && (id in keys <==> id != "" && LastKey(rows, id).Some?)
              && (id in keys ==> WrappedFor(lib, messageKey, LastKey(rows, id).value, keys[id]))
  {
    var keys := WrapAll(lib, messageKey, MergeRows(rows), ephemerals).value;
    MergeKeepsLast(rows);
    WrapAllFacts(lib, messageKey, MergeRows(rows), ephemerals);
    forall id | id != "" && LastKey(rows, id).Some?
      ensures id in keys && WrappedFor(lib, messageKey, LastKey(rows, id).value, keys[id])
    {
      assert DeviceRow(id, LastKey(rows, id).value) in MergeRows(rows);
    }
    forall id | id in keys ensures id != "" && LastKey(rows, id).Some? {
      var d :| d in MergeRows(rows) && d.deviceId == id;
    }
  }

  // A payload for the merged lists, read by any device id with any private key: the key must be the one of the last
  // row with that id. An id that no row has is told that there is no key for it.
  lemma DecryptsExactlyForLastRow(lib: Lib, plaintext: string, lists: seq<seq<DeviceRow>>, r: Random, deviceId: string,
                                  mine: PrivateKey)
    requires LibOk(lib) && RandomOk(r)
    requires Encrypt(lib, plaintext, MergeRows(Flatten(lists)), r).Ok?
    ensures var p := Encrypt(lib, plaintext, MergeRows(Flatten(lists)), r).value;
            var last := LastKey(Flatten(lists), Trim(deviceId));
            Decrypt(lib, p, deviceId, mine) ==
            if last.None? || Trim(deviceId) == "" then Err(NoWrappedKey)
            else if ImportPublic(lib, last.value) == Some(mine) then Ok(plaintext)
            else Err(OpenFailed)
  {
    ReadsAsId(lib, plaintext, Flatten(lists), r, Trim(deviceId), mine);
  }

  lemma ReadsAsId(lib: Lib, plaintext: string, rows: seq<DeviceRow>, r: Random, id: string, mine: PrivateKey)
    requires LibOk(lib) && RandomOk(r) && Encrypt(lib, plaintext, MergeRows(rows), r).Ok?
    ensures var p := Encrypt(lib, plaintext, MergeRows(rows), r).value;
            var last := LastKey(rows, id);
            DecryptAs(lib, p, id, mine) ==
            if last.None? || id == "" then Err(NoWrappedKey)
            else if ImportPublic(lib, last.value) == Some(mine) then Ok(plaintext)
            else Err(OpenFailed)
  {
    KeysAreListed(lib, r.messageKey, rows, r.ephemerals);
    var p := Encrypt(lib, plaintext, MergeRows(rows), r).value;
    if id in p.encryptedMessageKeys {
      DecryptWrapped(lib, plaintext, r, p, id, LastKey(rows, id).value, mine);
    }
  }

  // Every device of the merged list reads the plaintext.
  lemma EveryMergedDeviceReads(lib: Lib, plaintext: string, lists: seq<seq<DeviceRow>>, r: Random, row: DeviceRow,
                               mine: PrivateKey)
    requires LibOk(lib) && RandomOk(r) && row in MergeRows(Flatten(lists))
    requires Encrypt(lib, plaintext, MergeRows(Flatten(lists)), r).Ok? && ImportPublic(lib, row.publicKey) == Some(mine)
    ensures Decrypt(lib, Encrypt(lib, plaintext, MergeRows(Flatten(lists)), r).value, row.deviceId, mine) == Ok(plaintext)
  {
    MergeKeepsLast(Flatten(lists));
    LastKeyIsTrimmed(Flatten(lists), row.deviceId);
    DecryptsExactlyForLastRow(lib, plaintext, lists, r, row.deviceId, mine);
  }

  // A device of one of the lists reads the plaintext exactly if no later row takes its id for another key. Two users
  // who both have a device called "default" are such a case: the first user's device is left out.
  lemma ListedDeviceReadsIff(lib: Lib, plaintext: string, lists: seq<seq<DeviceRow>>, r: Random, row: DeviceRow,
                             mine: PrivateKey)
    requires LibOk(lib) && RandomOk(r) && row in Flatten(lists) && Trim(row.deviceId) != ""
    requires Encrypt(lib, plaintext, MergeRows(Flatten(lists)), r).Ok? && ImportPublic(lib, row.publicKey) == Some(mine)
    ensures Decrypt(lib, Encrypt(lib, plaintext, MergeRows(Flatten(lists)), r).value, row.deviceId, mine) == Ok(plaintext)
            <==> LastKey(Flatten(lists), Trim(row.deviceId)).Some?
                 && ImportPublic(lib, LastKey(Flatten(lists), Trim(row.deviceId)).value) == Some(mine)
  {
    DecryptsExactlyForLastRow(lib, plaintext, lists, r, row.deviceId, mine);
  }

  lemma ClashingIdsLoseTheFirst(lib: Lib, plaintext: string, r: Random, id: string, mine: PrivateKey, other: PrivateKey,
                                myKey: string, otherKey: string)
    requires LibOk(lib) && RandomOk(r) && mine != other && id != "" && Trimmed(id)
    requires ImportPublic(lib, myKey) == Some(mine) && ImportPublic(lib, otherKey) == Some(other)
    ensures var lists := [[DeviceRow(id, myKey)], [DeviceRow(id, otherKey)]];
            var p := Encrypt(lib, plaintext, MergeRows(Flatten(lists)), r);
            && p.Ok? && Decrypt(lib, p.value, id, other) == Ok(plaintext)
            && Decrypt(lib, p.value, id, mine) == Err(OpenFailed)
  {
    var lists := [[DeviceRow(id, myKey)], [DeviceRow(id, otherKey)]];
    var rows := Flatten(lists);
    assert lists[..1][..0] == [] && lists[..1] == [lists[0]];
    assert Flatten(lists[..1]) == lists[0];
    assert rows == [DeviceRow(id, myKey), DeviceRow(id, otherKey)];
    TrimIsTrimmed(id);
    MergeKeepsLast(rows);
    var devices := MergeRows(rows);
    assert rows[..1] == [DeviceRow(id, myKey)] && rows[..1][..0] == [];
    assert LastKey(rows[..1], id) == Some(myKey);
    forall d | d in devices ensures ImportPublic(lib, d.publicKey).Some? {
      assert LastKey(rows, d.deviceId) == Some(d.publicKey);
      assert LastKey(rows, d.deviceId) == if id == d.deviceId then Some(otherKey) else LastKey(rows[..1], d.deviceId);
      assert LastKey(rows[..1], d.deviceId) == if id == d.deviceId then Some(myKey) else LastKey([], d.deviceId);
    }
    assert LastKey(rows, id) == Some(otherKey);
    assert DeviceRow(id, otherKey) in devices;
    WrapAllSucceeds(lib, r.messageKey, devices, r.ephemerals);
    DecryptsExactlyForLastRow(lib, plaintext, lists, r, id, mine);
    DecryptsExactlyForLastRow(lib, plaintext, lists, r, id, other);
  }

  // ----- Re-wrapping -----

  // unwrapMessageKey with this device's key, then wrapMessageKey for another device.
  function Rewrap(lib: Lib, wrapped: string, mine: PrivateKey, publicKey: string, e: Ephemeral): Result<string, Error> {
    match Unwrap(lib, wrapped, mine)
    case Err(err) => Err(err)
    case Ok(key) => Wrap(lib, key, publicKey, e)
  }

  // A device that can read a message can pass its key on: the other device then reads the same plaintext.
  lemma RewrappedKeyReads(lib: Lib, p: Payload, source: string, mine: PrivateKey, target: string, theirs: PrivateKey,
                          publicKey: string, e: Ephemeral)
    requires LibOk(lib) && Decrypt(lib, p, source, mine).Ok? && ImportPublic(lib, publicKey) == Some(theirs)
    ensures var rewrapped := Rewrap(lib, p.encryptedMessageKeys[Trim(source)], mine, publicKey, e);
            && rewrapped.Ok? && rewrapped.value != ""
            && var keys := p.encryptedMessageKeys[Trim(target) := rewrapped.value];
               Decrypt(lib, p.(encryptedMessageKeys := keys), target, theirs) == Decrypt(lib, p, source, mine)
  {
    var key := Unwrap(lib, p.encryptedMessageKeys[Trim(source)], mine).value;
    UnwrapsExactlyForItsDevice(lib, key, publicKey, e, theirs);
    WrappedIsNotBlank(lib, key, publicKey, e);
  }
}
