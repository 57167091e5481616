// The encrypted backup file of a keyring: export, import, and what a restored browser can do.
//
// Ideal cryptography: a ciphertext opens with the passphrase, salt and iteration count it was made with.

module KeyringBackup {
  import opened Text
  import opened Json
  import opened Decimal
  import Keyring

  datatype Bytes = Raw(bytes: seq<bv8>) | Utf8(text: string) | Sealed(key: PassKey, iv: Bytes, content: Bytes)

  // PBKDF2 of a passphrase.
  datatype PassKey = PassKey(pass: string, salt: Bytes, iterations: Number)

  // unb64 is None when decoding throws; order lists the keys of an object as Object.entries does.
  datatype Lib = Lib(codec: Codec, b64: Bytes -> string, unb64: string -> Option<Bytes>,
                     order: map<string, Json> -> seq<string>)

  ghost predicate LibOk(lib: Lib) {
    && Faithful(lib.codec)
    && (forall b :: lib.unb64(lib.b64(b)) == Some(b))
    && OrderOk(lib)
  }

  ghost predicate OrderOk(lib: Lib) {
    forall m :: OnceEach(lib.order(m), m.Keys)
  }

  ghost predicate OnceEach(keys: seq<string>, all: set<string>) {
    && (forall i, k :: 0 <= i < k < |keys| ==> keys[i] != keys[k])
    && (forall k :: k in keys <==> k in all)
  }

  datatype Error =
    | EmptyPassphrase | LongPassphrase | WrongPassphrase | BadEncoding | BadVersion | NothingToExport
    | NotJson | InvalidFile | OtherFormat | OtherAccount | MissingPayload | CorruptPayload | CorruptEntries | NoEntries

  datatype Payload = Payload(iterations: Number, salt: string, iv: string, ciphertext: string)

  datatype Draw = Draw(salt: Bytes, iv: Bytes)

  const PBKDF2_ITERATIONS_DEFAULT := Whole(310000)
  const MAX_PASSPHRASE_CHARS: nat := 1024
  const FORMAT := "messaging-keyring-backup-v1"

  // ----- Wrapping -----

  // The passphrase is taken as it is.
  function Wrap(lib: Lib, content: Bytes, passphrase: string, iterations: Number, d: Draw): Payload {
    Payload(iterations, lib.b64(d.salt), lib.b64(d.iv),
            lib.b64(Sealed(PassKey(passphrase, d.salt, iterations), d.iv, content)))
  }

  // The passphrase is trimmed.
  function Unwrap(lib: Lib, p: Payload, passphrase: string): Result<Bytes, Error> {
    if Trim(passphrase) == "" then Err(EmptyPassphrase) else UnwrapWith(lib, p, Trim(passphrase))
  }

  function UnwrapWith(lib: Lib, p: Payload, pass: string): Result<Bytes, Error> {
    var salt, iv, ciphertext := lib.unb64(p.salt), lib.unb64(p.iv), lib.unb64(p.ciphertext);
    if salt.None? || iv.None? || ciphertext.None? then Err(BadEncoding)
    else
      var c := ciphertext.value;
      if c.Sealed? && c.key == PassKey(pass, salt.value, p.iterations) && c.iv == iv.value then Ok(c.content)
      else Err(WrongPassphrase)
  }

  // A wrapped content comes back exactly under a passphrase that trims to the one it was wrapped with.
  lemma UnwrapExactly(lib: Lib, content: Bytes, passphrase: string, iterations: Number, d: Draw, other: string)
    requires LibOk(lib)
    ensures Unwrap(lib, Wrap(lib, content, passphrase, iterations, d), other) ==
            if Trim(other) == "" then Err(EmptyPassphrase)
            else if Trim(other) == passphrase then Ok(content) else Err(WrongPassphrase)
  {
  }

  // ----- The stores of the browser -----

  datatype Row = Row(payload: Payload, publicKey: Option<string>)

  // What a passphrase must be to store or load with: not blank, and at most 1024 characters after trimming.
  lemma PassphrasesAccepted(passphrase: string)
    ensures Normalize(passphrase).Ok? <==> 1 <= |Trim(passphrase)| <= 1024
    ensures Normalize(passphrase).Ok? ==> Normalize(passphrase).value == Trim(passphrase)
    ensures Normalize(passphrase) == Err(EmptyPassphrase) <==> Trim(passphrase) == ""
  {
  }

  datatype Browser = Browser(rows: map<nat, Row>, legacy: Option<Payload>, deviceId: Option<string>)

  const EMPTY := Browser(map[], None, None)

  function Normalize(passphrase: string): Result<string, Error> {
    var t := Trim(passphrase);
    if |t| == 0 then Err(EmptyPassphrase)
    else if |t| > MAX_PASSPHRASE_CHARS then Err(LongPassphrase)
    else Ok(t)
  }

  function StoreKey(lib: Lib, b: Browser, version: int, content: Bytes, passphrase: string, iterations: Number, d: Draw)
    : Result<Browser, Error>
  {
    if version < 1 then Err(BadVersion)
    else
      match Normalize(passphrase)
      case Err(e) => Err(e)
      case Ok(pass) => Ok(b.(rows := b.rows[version as nat := Row(Wrap(lib, content, pass, iterations, d), None)]))
  }

  function LoadKey(lib: Lib, b: Browser, version: nat, passphrase: string): Result<Option<Bytes>, Error> {
    match Normalize(passphrase)
    case Err(e) => Err(e)
    case Ok(pass) =>
      if version !in b.rows then Ok(None)
      else
        match Unwrap(lib, b.rows[version].payload, pass)
        case Err(e) => Err(e)
        case Ok(content) => Ok(Some(content))
  }

  // A stored key loads under every passphrase that normalizes to the one it was stored with.
  lemma StoredKeyLoads(lib: Lib, b: Browser, version: nat, content: Bytes, passphrase: string, iterations: Number, d: Draw)
    requires LibOk(lib) && StoreKey(lib, b, version, content, passphrase, iterations, d).Ok?
    ensures LoadKey(lib, StoreKey(lib, b, version, content, passphrase, iterations, d).value, version, passphrase)
            == Ok(Some(content))
  {
    TrimIsTrimmed(passphrase);
    UnwrapExactly(lib, content, Trim(passphrase), iterations, d, Trim(passphrase));
  }

  // ----- Export -----

  function Entry(lib: Lib, content: Bytes): Json { JStr(lib.b64(content)) }

  function ExportEntries(lib: Lib, b: Browser, versions: seq<nat>, passphrase: string): Result<map<string, Json>, Error> {
    if versions == [] then Ok(map[])
    else
      var n := |versions| - 1;
      match ExportEntries(lib, b, versions[..n], passphrase)
      case Err(e) => Err(e)
      case Ok(entries) =>
        match LoadKey(lib, b, versions[n], passphrase)
        case Err(e) => Err(e)
        case Ok(None) => Ok(entries)
        case Ok(Some(content)) => Ok(entries[ToDecimal(versions[n]) := Entry(lib, content)])
  }

  function DeviceEntry(deviceId: Option<string>): map<string, Json> {
    match deviceId case None => map[] case Some(id) => map["deviceId" := JStr(id)]
  }

  function Inner(userId: string, exportedAt: string, deviceId: Option<string>, entries: map<string, Json>): Json {
    JObj(map["format" := JStr(FORMAT), "userId" := JStr(userId), "exportedAt" := JStr(exportedAt),
             "entries" := JObj(entries)] + DeviceEntry(deviceId))
  }

  function PayloadJson(p: Payload): Json {
    JObj(map["pbkdf2Iterations" := JNum(p.iterations), "saltB64" := JStr(p.salt), "ivB64" := JStr(p.iv),
             "ciphertextB64" := JStr(p.ciphertext)])
  }

  function FileJson(userId: string, exportedAt: string, p: Payload): Json {
    JObj(map["format" := JStr(FORMAT), "userId" := JStr(userId), "exportedAt" := JStr(exportedAt),
             "wrapped" := PayloadJson(p)])
  }

  // getStoredDeviceId.
  function StoredDeviceId(b: Browser): Option<string> {
    if b.deviceId.None? || Trim(b.deviceId.value) == "" then None else Some(Trim(b.deviceId.value))
  }

  function LegacyEntries(lib: Lib, b: Browser, passphrase: string, legacyVersion: int): Result<map<string, Json>, Error> {
    match Normalize(passphrase)
    case Err(e) => Err(e)
    case Ok(pass) =>
      if b.legacy.None? then Err(NothingToExport)
      else
        match Unwrap(lib, b.legacy.value, pass)
        case Err(e) => Err(e)
        case Ok(content) =>
          if legacyVersion < 1 then Err(BadVersion) else Ok(map[ToDecimal(legacyVersion) := Entry(lib, content)])
  }

  // versions is the ascending list of the stored versions.
  function Export(lib: Lib, b: Browser, versions: seq<nat>, userId: string, storagePass: string, backupPass: string,
                  legacyVersion: int, iterations: Number, now: string, d: Draw): Result<string, Error>
  {
    var entries := if versions != [] then ExportEntries(lib, b, versions, storagePass)
                   else LegacyEntries(lib, b, storagePass, legacyVersion);
    match entries
    case Err(e) => Err(e)
    case Ok(es) => Ok(FileOf(lib, b, es, userId, backupPass, iterations, now, d))
  }

  function FileOf(lib: Lib, b: Browser, entries: map<string, Json>, userId: string, backupPass: string, iterations: Number,
                  now: string, d: Draw): string
  {
    var inner := lib.codec.stringify(Inner(userId, now, StoredDeviceId(b), entries));
    lib.codec.stringify(FileJson(userId, now, Wrap(lib, Utf8(inner), backupPass, iterations, d)))
  }

  // ----- Import -----

  // String(x ?? '') of a field, for the strings that a file holds; other values have no useful form.
  function TextOf(o: Json, name: string): string {
    match StringField(o, name) case Some(s) => s case None => ""
  }

  function ReadPayload(o: Json): Payload
    requires o.JObj?
  {
    Payload(if "pbkdf2Iterations" in o.fields && o.fields["pbkdf2Iterations"].JNum?
            then o.fields["pbkdf2Iterations"].n else PBKDF2_ITERATIONS_DEFAULT,
            TextOf(o, "saltB64"), TextOf(o, "ivB64"), TextOf(o, "ciphertextB64"))
  }

  // The checks on the outer file.
  function OpenFile(lib: Lib, userId: string, file: string): Result<Payload, Error> {
    match lib.codec.parse(file)
    case None => Err(NotJson)
    case Some(o) =>
      if !o.JObj? then Err(InvalidFile)
      else if StringField(o, "format") != Some(FORMAT) then Err(OtherFormat)
      else if StringField(o, "userId") != Some(userId) then Err(OtherAccount)
      else if !("wrapped" in o.fields && o.fields["wrapped"].JObj?) then Err(MissingPayload)
      else Ok(ReadPayload(o.fields["wrapped"]))
  }

  // Which files are tried at all: JSON objects of the format, exported by this account, with a wrapped payload. The
  // first check that fails gives the reason.
  lemma FilesTried(lib: Lib, userId: string, file: string)
    ensures var r, o := OpenFile(lib, userId, file), lib.codec.parse(file);
            var isObject := o.Some? && o.value.JObj?;
            var format := isObject && StringField(o.value, "format") == Some(FORMAT);
            var account := format && StringField(o.value, "userId") == Some(userId);
            && (r == Err(NotJson) <==> o.None?)
            && (r == Err(InvalidFile) <==> o.Some? && !isObject)
            && (r == Err(OtherFormat) <==> isObject && !format)
            && (r == Err(OtherAccount) <==> format && !account)
            && (r.Ok? <==> account && "wrapped" in o.value.fields && o.value.fields["wrapped"].JObj?)
  {
  }

  // The checks on what is inside: the entries and the device id.
  function OpenInner(lib: Lib, plain: Bytes): Result<(map<string, Json>, string), Error> {
    match (if plain.Utf8? then lib.codec.parse(plain.text) else None)
    case None => Err(NotJson)
    case Some(o) =>
      if StringField(o, "format") != Some(FORMAT) then Err(CorruptPayload)
      else if !("entries" in o.fields && o.fields["entries"].JObj?) then Err(CorruptEntries)
      else Ok((o.fields["entries"].fields, Trim(TextOf(o, "deviceId"))))
  }

  // Which contents are taken: JSON objects of the format with an object of entries.
  lemma InnerTaken(lib: Lib, plain: Bytes)
    ensures var r := OpenInner(lib, plain);
            var o := if plain.Utf8? then lib.codec.parse(plain.text) else None;
            && (r == Err(NotJson) <==> o.None?)
            && (r == Err(CorruptPayload) <==> o.Some? && StringField(o.value, "format") != Some(FORMAT))
            && (r.Ok? <==> o.Some? && StringField(o.value, "format") == Some(FORMAT)
                           && "entries" in o.value.fields && o.value.fields["entries"].JObj?)
  {
  }

  datatype Imported = Imported(browser: Browser, versions: set<nat>, error: Option<Error>)

  // The entries in order; an entry that cannot be stored ends the import, and what was stored before stays.
  function ImportEntries(lib: Lib, b: Browser, keys: seq<string>, entries: map<string, Json>, storagePass: string,
                         iterations: Number, draws: nat -> Draw): Imported
    requires forall k :: k in keys ==> k in entries
  {
    if keys == [] then Imported(b, {}, None)
    else
      var n := |keys| - 1;
      var before := ImportEntries(lib, b, keys[..n], entries, storagePass, iterations, draws);
      if before.error.Some? then before
      else ImportOne(lib, before, keys[n], entries[keys[n]], storagePass, iterations, draws)
  }

  function ImportOne(lib: Lib, before: Imported, key: string, value: Json, storagePass: string, iterations: Number,
                     draws: nat -> Draw): Imported
  {
    var version := ParseInt(key);
    if version.None? || version.value < 1 || !value.JStr? then before
    else
      match lib.unb64(value.s)
      case None => before.(error := Some(BadEncoding))
      case Some(content) =>
        match StoreKey(lib, before.browser, version.value, content, storagePass, iterations, draws(version.value))
        case Err(e) => before.(error := Some(e))
        case Ok(b') => before.(browser := b', versions := before.versions + {version.value as nat})
  }

  function Import(lib: Lib, b: Browser, userId: string, file: string, backupPass: string, storagePass: string,
                  iterations: Number, draws: nat -> Draw): Imported
    requires OrderOk(lib)
  {
    match OpenFile(lib, userId, file)
    case Err(e) => Imported(b, {}, Some(e))
    case Ok(payload) =>
      match Unwrap(lib, payload, backupPass)
      case Err(e) => Imported(b, {}, Some(e))
      case Ok(plain) =>
        match OpenInner(lib, plain)
        case Err(e) => Imported(b, {}, Some(e))
        case Ok((entries, deviceId)) =>
          Finish(ImportEntries(lib, b, lib.order(entries), entries, storagePass, iterations, draws), deviceId)
  }

  function Finish(r: Imported, deviceId: string): Imported {
    if r.error.Some? then r
    else if r.versions == {} then r.(error := Some(NoEntries))
    else if deviceId == "" then r
    else r.(browser := r.browser.(deviceId := Some(deviceId)))
  }

  // ----- Proofs: the file -----

  // A keyring that loads under a passphrase, as a map.
  ghost predicate Holds(lib: Lib, b: Browser, passphrase: string, keys: map<nat, Bytes>) {
    && b.rows.Keys == keys.Keys
    && forall v :: v in keys ==> v >= 1 && LoadKey(lib, b, v, passphrase) == Ok(Some(keys[v]))
  }

  // Exported entries of a map: canonical numerals, and nothing else.
  ghost predicate EntriesFor(lib: Lib, keys: map<nat, Bytes>, entries: map<string, Json>) {
    && (forall v :: v in keys ==> ToDecimal(v) in entries && entries[ToDecimal(v)] == Entry(lib, keys[v]))
    && (forall k :: k in entries ==> exists v :: v in keys && k == ToDecimal(v))
  }

  lemma DecimalInjective(v: nat, w: nat)
    ensures ToDecimal(v) == ToDecimal(w) <==> v == w
  {
    ParseIntOfDecimal(v);
    ParseIntOfDecimal(w);
  }

  lemma OneMoreEntry(lib: Lib, keys: map<nat, Bytes>, entries: map<string, Json>, v: nat, content: Bytes)
    requires EntriesFor(lib, keys, entries)
    ensures EntriesFor(lib, keys[v := content], entries[ToDecimal(v) := Entry(lib, content)])
  {
    var keys', entries' := keys[v := content], entries[ToDecimal(v) := Entry(lib, content)];
    forall w | w in keys' ensures ToDecimal(w) in entries' && entries'[ToDecimal(w)] == Entry(lib, keys'[w]) {
      DecimalInjective(v, w);
    }
    forall k | k in entries' ensures exists w :: w in keys' && k == ToDecimal(w) {
      if k == ToDecimal(v) {
        assert v in keys';
      } else {
        var w :| w in keys && k == ToDecimal(w);
        assert w in keys';
      }
    }
  }

  function Restrict(keys: map<nat, Bytes>, versions: seq<nat>): map<nat, Bytes> {
    map v | v in keys && v in versions :: keys[v]
  }

  lemma {:induction false} ExportedEntries(lib: Lib, b: Browser, versions: seq<nat>, passphrase: string,
                                           keys: map<nat, Bytes>)
    requires Holds(lib, b, passphrase, keys) && forall v :: v in versions ==> v in keys
    ensures var r := ExportEntries(lib, b, versions, passphrase);
            r.Ok? && EntriesFor(lib, Restrict(keys, versions), r.value)
  {
    hide LoadKey, ToDecimal;
    if versions != [] {
      var n := |versions| - 1;
      var v := versions[n];
      ExportedEntries(lib, b, versions[..n], passphrase, keys);
      assert v in versions && versions == versions[..n] + [v];
      assert LoadKey(lib, b, v, passphrase) == Ok(Some(keys[v]));
      OneMoreEntry(lib, Restrict(keys, versions[..n]), ExportEntries(lib, b, versions[..n], passphrase).value, v, keys[v]);
      assert Restrict(keys, versions[..n])[v := keys[v]] == Restrict(keys, versions);
    }
  }

  lemma FileOpens(lib: Lib, userId: string, now: string, p: Payload, reader: string)
    requires LibOk(lib)
    ensures OpenFile(lib, reader, lib.codec.stringify(FileJson(userId, now, p)))
            == if reader == userId then Ok(p) else Err(OtherAccount)
  {
    var o := FileJson(userId, now, p);
    assert lib.codec.parse(lib.codec.stringify(o)) == Some(o);
    FileFields(userId, now, p);
    PayloadReads(p);
  }

  lemma FileFields(userId: string, now: string, p: Payload)
    ensures var o := FileJson(userId, now, p);
            && StringField(o, "format") == Some(FORMAT) && StringField(o, "userId") == Some(userId)
            && "wrapped" in o.fields && o.fields["wrapped"] == PayloadJson(p)
  {
    assert |"format"| == 6 && |"userId"| == 6 && "format"[0] != "userId"[0] && |"exportedAt"| == 10 && |"wrapped"| == 7;
  }

  lemma PayloadReads(p: Payload)
    ensures ReadPayload(PayloadJson(p)) == p
  {
    var o := PayloadJson(p);
    assert |"pbkdf2Iterations"| == 16 && |"saltB64"| == 7 && |"ivB64"| == 5 && |"ciphertextB64"| == 13;
    assert o.fields["pbkdf2Iterations"] == JNum(p.iterations);
    assert StringField(o, "saltB64") == Some(p.salt) && StringField(o, "ivB64") == Some(p.iv);
    assert StringField(o, "ciphertextB64") == Some(p.ciphertext);
  }

  lemma InnerFields(userId: string, now: string, deviceId: Option<string>, entries: map<string, Json>)
    ensures var o := Inner(userId, now, deviceId, entries);
            && StringField(o, "format") == Some(FORMAT)
            && "entries" in o.fields && o.fields["entries"] == JObj(entries)
            && StringField(o, "deviceId") == deviceId
  {
    assert |"format"| == 6 && |"userId"| == 6 && "format"[0] != "userId"[0] && |"exportedAt"| == 10;
    assert |"entries"| == 7 && |"deviceId"| == 8;
  }

  lemma InnerOpens(lib: Lib, userId: string, now: string, deviceId: Option<string>, entries: map<string, Json>)
    requires LibOk(lib) && (deviceId.Some? ==> deviceId.value != "" && Trimmed(deviceId.value))
    ensures OpenInner(lib, Utf8(lib.codec.stringify(Inner(userId, now, deviceId, entries))))
            == Ok((entries, match deviceId case None => "" case Some(id) => id))
  {
    var o := Inner(userId, now, deviceId, entries);
    assert lib.codec.parse(lib.codec.stringify(o)) == Some(o);
    InnerFields(userId, now, deviceId, entries);
    if deviceId.Some? { TrimIsTrimmed(deviceId.value); }
    assert Trim("") == "";
  }

  // ----- Proofs: the import -----

  // What the import has restored after some of the keys.
  ghost predicate Restored(lib: Lib, b: Browser, keys: map<nat, Bytes>, done: seq<string>, storagePass: string,
                           r: Imported)
  {
    && r.error.None? && r.browser.deviceId == b.deviceId && r.browser.legacy == b.legacy
    && r.browser.rows.Keys == r.versions
    && (forall v :: v in r.versions <==> v in keys && ToDecimal(v) in done)
    && (forall v :: v in r.versions ==>
          r.browser.rows[v].publicKey == None && LoadKey(lib, r.browser, v, storagePass) == Ok(Some(keys[v])))
  }

  lemma OtherVersionStays(lib: Lib, b: Browser, version: nat, content: Bytes, pass: string, iterations: Number,
                          d: Draw, v: nat)
    requires StoreKey(lib, b, version, content, pass, iterations, d).Ok? && v != version
    ensures LoadKey(lib, StoreKey(lib, b, version, content, pass, iterations, d).value, v, pass) == LoadKey(lib, b, v, pass)
  {
  }

  lemma ImportOneRestores(lib: Lib, b: Browser, keys: map<nat, Bytes>, done: seq<string>, storagePass: string,
                          iterations: Number, draws: nat -> Draw, before: Imported, v: nat)
    requires LibOk(lib) && Normalize(storagePass).Ok? && v in keys && v >= 1
    requires Restored(lib, b, keys, done, storagePass, before)
    ensures Restored(lib, b, keys, done + [ToDecimal(v)], storagePass,
                     ImportOne(lib, before, ToDecimal(v), Entry(lib, keys[v]), storagePass, iterations, draws))
  {
    ParseIntOfDecimal(v);
    var r := ImportOne(lib, before, ToDecimal(v), Entry(lib, keys[v]), storagePass, iterations, draws);
    StoredKeyLoads(lib, before.browser, v, keys[v], storagePass, iterations, draws(v));
    forall w ensures w in r.versions <==> w in keys && ToDecimal(w) in done + [ToDecimal(v)] { DecimalInjective(v, w); }
    forall w | w in r.versions
      ensures r.browser.rows[w].publicKey == None && LoadKey(lib, r.browser, w, storagePass) == Ok(Some(keys[w]))
    {
      if w != v { OtherVersionStays(lib, before.browser, v, keys[v], storagePass, iterations, draws(v), w); }
    }
  }

  lemma {:induction false} EntriesRestore(lib: Lib, b: Browser, keys: map<nat, Bytes>, done: seq<string>,
                                          entries: map<string, Json>, storagePass: string, iterations: Number,
                                          draws: nat -> Draw)
    requires LibOk(lib) && Normalize(storagePass).Ok? && b.rows == map[]
    requires EntriesFor(lib, keys, entries) && forall v :: v in keys ==> v >= 1
    requires forall k :: k in done ==> k in entries
    ensures Restored(lib, b, keys, done, storagePass,
                     ImportEntries(lib, b, done, entries, storagePass, iterations, draws))
  {
    hide LoadKey, ToDecimal, ImportOne;
    if done != [] {
      var n := |done| - 1;
      EntriesRestore(lib, b, keys, done[..n], entries, storagePass, iterations, draws);
      var before := ImportEntries(lib, b, done[..n], entries, storagePass, iterations, draws);
      assert done[n] in entries && done == done[..n] + [done[n]];
      var v :| v in keys && done[n] == ToDecimal(v);
      ImportOneRestores(lib, b, keys, done[..n], storagePass, iterations, draws, before, v);
    }
  }

  // A browser restored from exported entries.
  ghost predicate Restoration(lib: Lib, r: Imported, keys: map<nat, Bytes>, deviceId: Option<string>, storagePass: string) {
    && r.error == None && r.versions == keys.Keys
    && Holds(lib, r.browser, storagePass, keys) && r.browser.deviceId == deviceId
    && forall v :: v in r.browser.rows ==> r.browser.rows[v].publicKey == None
  }

  lemma FileRestores(lib: Lib, src: Browser, keys: map<nat, Bytes>, entries: map<string, Json>, userId: string,
                     backupPass: string, storagePass: string, iterations: Number, now: string, d: Draw, draws: nat -> Draw)
    requires LibOk(lib) && Normalize(storagePass).Ok? && keys != map[]
    requires EntriesFor(lib, keys, entries) && forall v :: v in keys ==> v >= 1
    ensures var file := FileOf(lib, src, entries, userId, backupPass, iterations, now, d);
            var r := Import(lib, EMPTY, userId, file, backupPass, storagePass, iterations, draws);
            if backupPass != "" && Trimmed(backupPass)
            then Restoration(lib, r, keys, StoredDeviceId(src), storagePass)
            else r == Imported(EMPTY, {}, Some(if Trim(backupPass) == "" then EmptyPassphrase else WrongPassphrase))
  {
    StoredIdIsClean(src);
    var inner := Utf8(lib.codec.stringify(Inner(userId, now, StoredDeviceId(src), entries)));
    var payload := Wrap(lib, inner, backupPass, iterations, d);
    FileOpens(lib, userId, now, payload, userId);
    BackupOpens(lib, inner, backupPass, iterations, d);
    if Unwrap(lib, payload, backupPass).Ok? {
      InnerOpens(lib, userId, now, StoredDeviceId(src), entries);
      InnerRestores(lib, keys, entries, StoredDeviceId(src), storagePass, iterations, draws);
    }
  }

  lemma StoredIdIsClean(b: Browser)
    ensures var id := StoredDeviceId(b); id.Some? ==> id.value != "" && Trimmed(id.value)
  {
    if b.deviceId.Some? { TrimIsTrimmed(b.deviceId.value); }
  }

  lemma BackupOpens(lib: Lib, inner: Bytes, backupPass: string, iterations: Number, d: Draw)
    requires LibOk(lib)
    ensures Unwrap(lib, Wrap(lib, inner, backupPass, iterations, d), backupPass) ==
            if backupPass != "" && Trimmed(backupPass) then Ok(inner)
            else Err(if Trim(backupPass) == "" then EmptyPassphrase else WrongPassphrase)
  {
    UnwrapExactly(lib, inner, backupPass, iterations, d, backupPass);
    TrimIsTrimmed(backupPass);
  }

  lemma InnerRestores(lib: Lib, keys: map<nat, Bytes>, entries: map<string, Json>, deviceId: Option<string>,
                      storagePass: string, iterations: Number, draws: nat -> Draw)
    requires LibOk(lib) && Normalize(storagePass).Ok? && keys != map[] && deviceId != Some("")
    requires EntriesFor(lib, keys, entries) && forall v :: v in keys ==> v >= 1
    ensures var r := ImportEntries(lib, EMPTY, lib.order(entries), entries, storagePass, iterations, draws);
            Restoration(lib, Finish(r, match deviceId case None => "" case Some(id) => id), keys, deviceId, storagePass)
  {
    var r := ImportEntries(lib, EMPTY, lib.order(entries), entries, storagePass, iterations, draws);
    EntriesRestore(lib, EMPTY, keys, lib.order(entries), entries, storagePass, iterations, draws);
    AllRestored(lib, EMPTY, keys, entries, storagePass, r);
    FinishRestores(lib, r, keys, deviceId, storagePass);
  }

  lemma SameRowsLoad(lib: Lib, b: Browser, b': Browser, v: nat, passphrase: string)
    requires b.rows == b'.rows
    ensures LoadKey(lib, b, v, passphrase) == LoadKey(lib, b', v, passphrase)
  {
  }

  lemma FinishRestores(lib: Lib, r: Imported, keys: map<nat, Bytes>, deviceId: Option<string>, storagePass: string)
    requires r.error.None? && r.versions == keys.Keys && r.versions != {}
    requires r.browser.deviceId == None && deviceId != Some("") && Holds(lib, r.browser, storagePass, keys)
    requires forall v :: v in r.browser.rows ==> r.browser.rows[v].publicKey == None
    ensures Restoration(lib, Finish(r, match deviceId case None => "" case Some(id) => id), keys, deviceId, storagePass)
  {
    var r' := Finish(r, match deviceId case None => "" case Some(id) => id);
    forall v | v in keys ensures LoadKey(lib, r'.browser, v, storagePass) == Ok(Some(keys[v])) {
      SameRowsLoad(lib, r.browser, r'.browser, v, storagePass);
    }
  }

  lemma AllRestored(lib: Lib, b: Browser, keys: map<nat, Bytes>, entries: map<string, Json>, storagePass: string,
                    r: Imported)
    requires LibOk(lib) && EntriesFor(lib, keys, entries) && forall v :: v in keys ==> v >= 1
    requires Restored(lib, b, keys, lib.order(entries), storagePass, r) && keys != map[]
    ensures r.versions == keys.Keys && r.versions != {} && Holds(lib, r.browser, storagePass, keys)
  {
    hide LoadKey, ToDecimal;
    assert OnceEach(lib.order(entries), entries.Keys);
    forall v ensures v in r.versions <==> v in keys {}
    assert keys.Keys != {};
  }

  // The device id comes back trimmed, and a blank one as none.
  predicate SameDevice(was: Option<string>, now: Option<string>) {
    && (now.Some? <==> was.Some? && Trim(was.value) != "")
    && (now.Some? ==> now.value == Trim(was.value))
  }

  lemma StoredIsSameDevice(src: Browser)
    ensures SameDevice(src.deviceId, StoredDeviceId(src))
  {
  }

  // ----- Results -----

  // Backup round trip: importing the file into an empty browser of the same user restores the same versions with the
  // same keys and the stored device id, for every keyring, exactly if the backup passphrase is not empty and has no
  // white space around it. With any other passphrase the file is made all the same, and never opens again.
  lemma BackupRoundTrip(lib: Lib, src: Browser, versions: seq<nat>, keys: map<nat, Bytes>, userId: string,
                        oldPass: string, backupPass: string, newPass: string, legacyVersion: int, iterations: Number,
                        now: string, d: Draw, draws: nat -> Draw)
    requires LibOk(lib) && Normalize(newPass).Ok?
    requires Holds(lib, src, oldPass, keys) && keys != map[] && forall v :: v in versions <==> v in keys
    ensures var file := Export(lib, src, versions, userId, oldPass, backupPass, legacyVersion, iterations, now, d);
            file.Ok? &&
            var r := Import(lib, EMPTY, userId, file.value, backupPass, newPass, iterations, draws);
            && (r.error.None? <==> backupPass != "" && Trimmed(backupPass))
            && (r.error.None? ==> Restoration(lib, r, keys, StoredDeviceId(src), newPass)
                                  && SameDevice(src.deviceId, r.browser.deviceId))
            && (r.error.Some? ==> r.browser == EMPTY)
  {
    StoredIsSameDevice(src);
    hide StoredDeviceId, SameDevice, Import, FileOf, LoadKey, Normalize;
    assert keys.Keys != {};
    var v :| v in keys;
    assert versions != [];
    ExportedEntries(lib, src, versions, oldPass, keys);
    assert Restrict(keys, versions) == keys;
    FileRestores(lib, src, keys, ExportEntries(lib, src, versions, oldPass).value, userId, backupPass, newPass,
                 iterations, now, d, draws);
  }

  // The same for a browser with only a key from before the keyring, which gets the version named by the caller.
  lemma LegacyBackupRoundTrip(lib: Lib, src: Browser, content: Bytes, userId: string, oldPass: string,
                              backupPass: string, newPass: string, legacyVersion: nat, iterations: Number,
                              now: string, d: Draw, draws: nat -> Draw)
    requires LibOk(lib) && Normalize(newPass).Ok? && Normalize(oldPass).Ok? && legacyVersion >= 1
    requires src.legacy.Some? && Unwrap(lib, src.legacy.value, Normalize(oldPass).value) == Ok(content)
    ensures var file := Export(lib, src, [], userId, oldPass, backupPass, legacyVersion, iterations, now, d);
            file.Ok? &&
            var r := Import(lib, EMPTY, userId, file.value, backupPass, newPass, iterations, draws);
            && (r.error.None? <==> backupPass != "" && Trimmed(backupPass))
            && (r.error.None? ==> Restoration(lib, r, map[legacyVersion := content], StoredDeviceId(src), newPass)
                                  && SameDevice(src.deviceId, r.browser.deviceId))
  {
    StoredIsSameDevice(src);
    assert EntriesFor(lib, map[], map[]);
    OneMoreEntry(lib, map[], map[], legacyVersion, content);
    FileRestores(lib, src, map[legacyVersion := content], map[ToDecimal(legacyVersion) := Entry(lib, content)], userId,
                 backupPass, newPass, iterations, now, d, draws);
  }

  // Another account's import refuses the file before it tries a passphrase, and stores nothing.
  lemma OtherAccountIsRefused(lib: Lib, src: Browser, entries: map<string, Json>, userId: string, other: string,
                              b: Browser, backupPass: string, tried: string, storagePass: string, iterations: Number,
                              now: string, d: Draw, draws: nat -> Draw)
    requires LibOk(lib) && other != userId
    ensures Import(lib, b, other, FileOf(lib, src, entries, userId, backupPass, iterations, now, d), tried, storagePass,
                   iterations, draws) == Imported(b, {}, Some(OtherAccount))
  {
    var inner := Utf8(lib.codec.stringify(Inner(userId, now, StoredDeviceId(src), entries)));
    FileOpens(lib, userId, now, Wrap(lib, inner, backupPass, iterations, d), other);
  }

  // An export succeeds exactly if every listed version that is stored opens, and it holds the stored ones only.
  lemma {:induction false} ExportTakesStored(lib: Lib, b: Browser, versions: seq<nat>, passphrase: string)
    ensures var r := ExportEntries(lib, b, versions, passphrase);
            && (r.Ok? <==> forall v :: v in versions ==> LoadKey(lib, b, v, passphrase).Ok?)
            && (r.Ok? ==> forall k :: k in r.value <==> exists v :: v in versions && v in b.rows && k == ToDecimal(v))
  {
    if versions != [] {
      hide ToDecimal, Unwrap, Normalize;
      var n := |versions| - 1;
      ExportTakesStored(lib, b, versions[..n], passphrase);
      assert versions == versions[..n] + [versions[n]];
      var r, front := ExportEntries(lib, b, versions, passphrase), ExportEntries(lib, b, versions[..n], passphrase);
      if r.Ok? {
        forall k ensures k in r.value <==> exists v :: v in versions && v in b.rows && k == ToDecimal(v) {
          if v :| v in versions && v in b.rows && k == ToDecimal(v) {
            if v != versions[n] { assert v in versions[..n]; }
          }
          if k in front.value { var v :| v in versions[..n] && v in b.rows && k == ToDecimal(v); }
          if versions[n] in b.rows { assert versions[n] in versions; }
        }
      }
    }
  }

  // What an import may do to a browser, whatever the file: it stores the versions it reports, without a public key
  // beside them, touches no other version and no key from before the keyring, and sets the device id only when it
  // succeeds; and it succeeds only if it has stored something.
  ghost predicate Contained(b: Browser, r: Imported) {
    && (forall v :: v in r.versions ==> v >= 1 && v in r.browser.rows && r.browser.rows[v].publicKey == None)
    && (forall v :: v !in r.versions ==> (v in r.browser.rows <==> v in b.rows))
    && (forall v :: v !in r.versions && v in b.rows ==> r.browser.rows[v] == b.rows[v])
    && r.browser.legacy == b.legacy
  }

  lemma {:induction false} EntriesAreContained(lib: Lib, b: Browser, keys: seq<string>, entries: map<string, Json>,
                                               storagePass: string, iterations: Number, draws: nat -> Draw)
    requires forall k :: k in keys ==> k in entries
    ensures var r := ImportEntries(lib, b, keys, entries, storagePass, iterations, draws);
            Contained(b, r) && r.browser.deviceId == b.deviceId
  {
    if keys != [] {
      EntriesAreContained(lib, b, keys[..|keys| - 1], entries, storagePass, iterations, draws);
    }
  }

  lemma ImportIsContained(lib: Lib, b: Browser, userId: string, file: string, backupPass: string, storagePass: string,
                          iterations: Number, draws: nat -> Draw)
    requires OrderOk(lib)
    ensures var r := Import(lib, b, userId, file, backupPass, storagePass, iterations, draws);
            && Contained(b, r)
            && (r.error.None? ==> r.versions != {})
            && (r.error.Some? ==> r.browser.deviceId == b.deviceId)
  {
    hide ImportEntries, Unwrap, OpenFile, OpenInner, Finish, Contained;
    var payload := OpenFile(lib, userId, file);
    if payload.Ok? {
      var plain := Unwrap(lib, payload.value, backupPass);
      if plain.Ok? {
        var inner := OpenInner(lib, plain.value);
        if inner.Ok? {
          var entries := inner.value.0;
          assert OnceEach(lib.order(entries), entries.Keys);
          EntriesAreContained(lib, b, lib.order(entries), entries, storagePass, iterations, draws);
          FinishIsContained(b, ImportEntries(lib, b, lib.order(entries), entries, storagePass, iterations, draws),
                            inner.value.1);
        } else { NothingIsContained(b, Some(inner.error)); }
      } else { NothingIsContained(b, Some(plain.error)); }
    } else { NothingIsContained(b, Some(payload.error)); }
  }

  lemma NothingIsContained(b: Browser, error: Option<Error>)
    ensures Contained(b, Imported(b, {}, error))
  {
  }

  lemma FinishIsContained(b: Browser, r: Imported, deviceId: string)
    requires Contained(b, r) && r.browser.deviceId == b.deviceId
    ensures var r' := Finish(r, deviceId);
            && Contained(b, r')
            && (r'.error.None? ==> r'.versions != {})
            && (r'.error.Some? ==> r'.browser.deviceId == b.deviceId)
  {
  }

  // The restored browser as bootstrap sees it; pair names key pairs.
  function AsKeyring(b: Browser, pair: Row -> Keyring.KeyPair): Keyring.Browser {
    Keyring.Browser(
      map v | v in b.rows :: Keyring.KeyringRow(
        pair(b.rows[v]), if b.rows[v].publicKey.None? then None else Some(pair(b.rows[v]))),
      b.deviceId, None)
  }

  // An import stores no public keys, so the automatic registration of a restored browser always fails.
  lemma RestoredBrowserCannotRegister(lib: Lib, r: Imported, keys: map<nat, Bytes>, deviceId: Option<string>,
                                      storagePass: string, pair: Row -> Keyring.KeyPair, rows: Keyring.Rows,
                                      newKey: Keyring.KeyPair, newId: string)
    requires Restoration(lib, r, keys, deviceId, storagePass) && keys != map[]
    ensures Keyring.Bootstrap(Keyring.Both(AsKeyring(r.browser, pair), rows), newKey, newId) == Err(Keyring.NoPublicMetadata)
  {
    var k := AsKeyring(r.browser, pair);
    assert k.keyring.Keys == keys.Keys && keys.Keys != {};
  }

  // ----- The two procedures -----

  class BackupStore {
    const lib: Lib
    var browser: Browser

    constructor (lib: Lib, browser: Browser)
      ensures this.lib == lib && this.browser == browser
    {
      this.lib, this.browser := lib, browser;
    }

    method CollectEntries(versions: seq<nat>, passphrase: string) returns (r: Result<map<string, Json>, Error>)
      ensures r == ExportEntries(lib, browser, versions, passphrase)
    {
      var entries: map<string, Json> := map[];
      for i := 0 to |versions|
        invariant ExportEntries(lib, browser, versions[..i], passphrase) == Ok(entries)
      {
        assert versions[..i + 1][..i] == versions[..i];
        var pkcs8 := LoadKey(lib, browser, versions[i], passphrase);
        if pkcs8.Err? {
          ExportStops(lib, browser, versions, i + 1, passphrase);
          return Err(pkcs8.error);
        }
        if pkcs8.value.Some? { entries := entries[ToDecimal(versions[i]) := Entry(lib, pkcs8.value.value)]; }
      }
      assert versions[..|versions|] == versions;
      r := Ok(entries);
    }

    method StoreEntries(keys: seq<string>, entries: map<string, Json>, storagePass: string, iterations: Number,
                        draws: nat -> Draw)
      returns (versions: set<nat>, error: Option<Error>)
      requires forall k :: k in keys ==> k in entries
      modifies this
      ensures Imported(browser, versions, error)
              == ImportEntries(lib, old(browser), keys, entries, storagePass, iterations, draws)
    {
      versions, error := {}, None;
      for i := 0 to |keys|
        invariant error == None
        invariant Imported(browser, versions, None)
                  == ImportEntries(lib, old(browser), keys[..i], entries, storagePass, iterations, draws)
      {
        assert keys[..i + 1][..i] == keys[..i];
        var before := Imported(browser, versions, None);
        var r := ImportOne(lib, before, keys[i], entries[keys[i]], storagePass, iterations, draws);
        browser, versions, error := r.browser, r.versions, r.error;
        if error.Some? {
          ImportStops(lib, old(browser), keys, i + 1, entries, storagePass, iterations, draws);
          return;
        }
      }
      assert keys[..|keys|] == keys;
    }
  }

  lemma {:induction false} ExportStops(lib: Lib, b: Browser, versions: seq<nat>, k: nat, passphrase: string)
    requires k <= |versions| && ExportEntries(lib, b, versions[..k], passphrase).Err?
    ensures ExportEntries(lib, b, versions, passphrase) == ExportEntries(lib, b, versions[..k], passphrase)
  {
    if k == |versions| {
      assert versions[..k] == versions;
    } else {
      var n := |versions| - 1;
      assert versions[..n][..k] == versions[..k];
      ExportStops(lib, b, versions[..n], k, passphrase);
    }
  }

  lemma {:induction false} ImportStops(lib: Lib, b: Browser, keys: seq<string>, k: nat, entries: map<string, Json>,
                                       storagePass: string, iterations: Number, draws: nat -> Draw)
    requires (forall x :: x in keys ==> x in entries) && k <= |keys|
    requires ImportEntries(lib, b, keys[..k], entries, storagePass, iterations, draws).error.Some?
    ensures ImportEntries(lib, b, keys, entries, storagePass, iterations, draws)
            == ImportEntries(lib, b, keys[..k], entries, storagePass, iterations, draws)
  {
    if k == |keys| {
      assert keys[..k] == keys;
    } else {
      var n := |keys| - 1;
      assert keys[..n][..k] == keys[..k];
      ImportStops(lib, b, keys[..n], k, entries, storagePass, iterations, draws);
    }
  }
}
