// The keyring of one browser and the device registry of its user: automatic registration, rotation, and what a
// deleted device row does to both.

module Keyring {
  import opened Text

  // A key pair stands for both of its halves. Public keys are compared as Base64 text without white space.
  type KeyPair = nat
  type DeviceId = string

  const DEFAULT_SINGLE_DEVICE_ID := "default"

  // Server side: one row per device of the user.
  datatype DeviceRow = DeviceRow(publicKey: KeyPair, keyVersion: nat)

  type Rows = map<DeviceId, DeviceRow>

  // Browser side: the private key of a version, and the public key stored beside it, if it was.
  datatype KeyringRow = KeyringRow(privateKey: KeyPair, publicKey: Option<KeyPair>)

  datatype Browser = Browser(keyring: map<nat, KeyringRow>, deviceId: Option<DeviceId>, legacy: Option<KeyPair>)

  const EMPTY := Browser(map[], None, None)

  datatype Failure = NoPublicMetadata | KeyMismatch | NoKeyMaterial | NothingRegistered

  ghost function Max(s: set<nat>): (m: nat)
    requires s != {}
    ensures m in s && forall x :: x in s ==> x <= m
    decreases s
  {
    var x :| x in s;
    var rest := s - {x};
    assert forall y :: y in s ==> y == x || y in rest;
    if rest == {} then x
    else
      var m := Max(rest);
      if x > m then x else m
  }

  // registerOrUpdateDevice: a new row has version 1, a new key the next version, the same key none.
  function Register(rows: Rows, id: DeviceId, key: KeyPair): Rows {
    if id !in rows then rows[id := DeviceRow(key, 1)]
    else if rows[id].publicKey == key then rows
    else rows[id := DeviceRow(key, rows[id].keyVersion + 1)]
  }

  // The three cases, and no other row is touched.
  lemma RegisterExactly(rows: Rows, id: DeviceId, key: KeyPair)
    ensures var rows' := Register(rows, id, key);
            && rows'.Keys == rows.Keys + {id} && rows'[id].publicKey == key
            && (id !in rows ==> rows'[id].keyVersion == 1)
            && (id in rows && rows[id].publicKey != key ==> rows'[id].keyVersion == rows[id].keyVersion + 1)
            && (id in rows && rows[id].publicKey == key ==> rows' == rows)
            && forall other :: other in rows && other != id ==> rows'[other] == rows[other]
  {
  }

  datatype Both = Both(browser: Browser, rows: Rows)

  // ensureUserKeypairReadyForMessaging. newKey and newId are what it generates if it comes to that.
  ghost function Bootstrap(s: Both, newKey: KeyPair, newId: DeviceId): Result<Both, Failure> {
    var b := s.browser;
    if b.keyring.Keys != {} then
      var local := b.keyring[Max(b.keyring.Keys)].publicKey;
      if local.None? then Err(NoPublicMetadata)
      else if b.deviceId.None? || b.deviceId.value !in s.rows then
        var id := if b.deviceId.Some? then b.deviceId.value else DEFAULT_SINGLE_DEVICE_ID;
        Ok(Both(b.(deviceId := Some(id)), Register(s.rows, id, local.value)))
      else if s.rows[b.deviceId.value].publicKey != local.value then Err(KeyMismatch)
      else Ok(s)
    else if b.deviceId.Some? && b.deviceId.value in s.rows then Err(NoKeyMaterial)
    else Ok(Adopt(s, newId, newKey))
  }

  // When a bootstrap throws: the newest local version has no public key beside it, or another one than the server has
  // for this device; or the server knows the device and there is no local key at all.
  lemma BootstrapFailures(s: Both, newKey: KeyPair, newId: DeviceId)
    ensures var b, r := s.browser, Bootstrap(s, newKey, newId);
            var newest := if b.keyring.Keys == {} then None else b.keyring[Max(b.keyring.Keys)].publicKey;
            var known := b.deviceId.Some? && b.deviceId.value in s.rows;
            && (r == Err(NoPublicMetadata) <==> b.keyring.Keys != {} && newest.None?)
            && (r == Err(KeyMismatch) <==> newest.Some? && known && s.rows[b.deviceId.value].publicKey != newest.value)
            && (r == Err(NoKeyMaterial) <==> b.keyring.Keys == {} && known)
            && r != Err(NothingRegistered)
  {
  }

  // When it succeeds with a local key: a device that the server does not know is registered with that key, under its
  // id or the default one, and no local key changes; a known device changes nothing.
  lemma BootstrapRegisters(s: Both, newKey: KeyPair, newId: DeviceId)
    requires s.browser.keyring.Keys != {} && s.browser.keyring[Max(s.browser.keyring.Keys)].publicKey.Some?
    ensures var b, r := s.browser, Bootstrap(s, newKey, newId);
            var key := b.keyring[Max(b.keyring.Keys)].publicKey.value;
            var id := if b.deviceId.Some? then b.deviceId.value else "default";
            && (b.deviceId.Some? && id in s.rows && s.rows[id].publicKey == key ==> r == Ok(s))
            && (b.deviceId.None? || id !in s.rows ==>
                  r == Ok(Both(b.(deviceId := Some(id)), Register(s.rows, id, key))))
  {
  }

  // Register a new key pair for a device id, and keep it under the version that the server gives it.
  function Adopt(s: Both, id: DeviceId, newKey: KeyPair): Both {
    var rows := Register(s.rows, id, newKey);
    Both(s.browser.(deviceId := Some(id),
                    keyring := s.browser.keyring[rows[id].keyVersion := KeyringRow(newKey, Some(newKey))]),
         rows)
  }

  ghost function MigrationVersion(rows: Rows): nat
    requires rows.Keys != {}
  {
    if DEFAULT_SINGLE_DEVICE_ID in rows then rows[DEFAULT_SINGLE_DEVICE_ID].keyVersion
    else
      var versions := set id | id in rows :: rows[id].keyVersion;
      assert versions != {} by {
        var id :| id in rows.Keys;
        assert rows[id].keyVersion in versions;
      }
      Max(versions)
  }

  // The version of the default device if there is one, else the highest of all devices.
  lemma MigrationVersionExactly(rows: Rows)
    requires rows.Keys != {}
    ensures "default" in rows ==> MigrationVersion(rows) == rows["default"].keyVersion
    ensures "default" !in rows ==>
              && (exists id :: id in rows && rows[id].keyVersion == MigrationVersion(rows))
              && forall id :: id in rows ==> rows[id].keyVersion <= MigrationVersion(rows)
  {
    if "default" !in rows {
      var versions := set id | id in rows :: rows[id].keyVersion;
      var some :| some in rows.Keys;
      assert rows[some].keyVersion in versions;
      assert MigrationVersion(rows) == Max(versions);
      forall id | id in rows ensures rows[id].keyVersion <= MigrationVersion(rows) {
        assert rows[id].keyVersion in versions;
      }
    }
  }

  // migrateLegacyPrivateKeyToKeyring: only into an empty keyring, and without a public key beside it.
  function Migrate(b: Browser, version: nat): Browser {
    if b.keyring != map[] || b.legacy.None? then b
    else b.(keyring := map[version := KeyringRow(b.legacy.value, None)], legacy := None)
  }

  // rotateUserKeypairOnServer.
  ghost function Rotate(s: Both, newKey: KeyPair): Result<Both, Failure> {
    if s.rows.Keys == {} then Err(NothingRegistered)
    else
      var b := Migrate(s.browser, MigrationVersion(s.rows));
      var id := if b.deviceId.Some? then b.deviceId.value else DEFAULT_SINGLE_DEVICE_ID;
      Ok(Adopt(Both(b, s.rows), id, newKey))
  }

  // loadEncryptedPrivateKeyPkcs8: the newest version, else the legacy row.
  ghost function ActiveKey(b: Browser): Option<KeyPair> {
    if b.keyring.Keys != {} then Some(b.keyring[Max(b.keyring.Keys)].privateKey) else b.legacy
  }

  // ----- Alignment -----

  // The newest local version is the server's, with the server's key.
  ghost predicate Aligned(s: Both) {
    var b := s.browser;
    if b.keyring.Keys == {} then b.deviceId == None && b.legacy == None
    else
      && b.deviceId.Some? && b.deviceId.value in s.rows
      && var row := s.rows[b.deviceId.value];
         && Max(b.keyring.Keys) == row.keyVersion
         && b.keyring[row.keyVersion] == KeyringRow(row.publicKey, Some(row.publicKey))
  }

  datatype Event =
    | Bootstrapped(newKey: KeyPair, newId: DeviceId)
    | Rotated(newKey: KeyPair)
    // other browsers of the user, on device ids that are not this browser's
    | Elsewhere(id: DeviceId, row: Option<DeviceRow>)

  // Generated key pairs and device ids are new; other browsers leave this one's device row alone.
  predicate Enabled(s: Both, e: Event) {
    match e
    case Bootstrapped(newKey, newId) => newId !in s.rows && newId != DEFAULT_SINGLE_DEVICE_ID
    case Rotated(newKey) => forall id :: id in s.rows ==> s.rows[id].publicKey != newKey
    case Elsewhere(id, row) => s.browser.deviceId != Some(id)
  }

  // An operation that throws leaves both sides as they are.
  ghost function Step(s: Both, e: Event): Both
    requires Enabled(s, e)
  {
    match e
    case Bootstrapped(newKey, newId) => (match Bootstrap(s, newKey, newId) case Ok(s') => s' case Err(_) => s)
    case Rotated(newKey) => (match Rotate(s, newKey) case Ok(s') => s' case Err(_) => s)
    case Elsewhere(id, row) =>
      s.(rows := match row case None => s.rows - {id} case Some(r) => s.rows[id := r])
  }

  ghost function Run(s: Both, es: seq<Event>): Both
    decreases |es|
  {
    if es == [] then s
    else
      var before := Run(s, es[..|es| - 1]);
      if Enabled(before, es[|es| - 1]) then Step(before, es[|es| - 1]) else before
  }

  lemma MaxIs(s: set<nat>, m: nat)
    requires m in s && forall x :: x in s ==> x <= m
    ensures Max(s) == m
  {
  }

  // Adopting a new key under a version above all others keeps both sides aligned.
  lemma AdoptAligns(s: Both, id: DeviceId, newKey: KeyPair)
    requires id in s.rows ==> s.rows[id].publicKey != newKey
    requires var version := if id in s.rows then s.rows[id].keyVersion + 1 else 1;
             forall v :: v in s.browser.keyring ==> v <= version
    ensures Aligned(Adopt(s, id, newKey))
  {
    var s' := Adopt(s, id, newKey);
    var version := s'.rows[id].keyVersion;
    assert version in s'.browser.keyring.Keys;
    MaxIs(s'.browser.keyring.Keys, version);
  }

  // Every older version is kept.
  ghost predicate Keeps(b: Browser, b': Browser) {
    forall v :: v in b.keyring ==> v in b'.keyring && b'.keyring[v] == b.keyring[v]
  }

  lemma StepKeepsAligned(s: Both, e: Event)
    requires Aligned(s) && Enabled(s, e)
    ensures Aligned(Step(s, e)) && Keeps(s.browser, Step(s, e).browser)
  {
    var b := s.browser;
    match e
    case Bootstrapped(newKey, newId) =>
      if b.keyring.Keys == {} { AdoptAligns(s, newId, newKey); }
    case Rotated(newKey) =>
      if s.rows.Keys != {} {
        var id := if b.deviceId.Some? then b.deviceId.value else DEFAULT_SINGLE_DEVICE_ID;
        assert Migrate(b, MigrationVersion(s.rows)) == b;
        AdoptAligns(s, id, newKey);
        if b.keyring.Keys != {} { assert s.rows[id].keyVersion + 1 !in b.keyring.Keys; }
      }
    case Elsewhere(id, row) =>
  }

  lemma {:induction false} RunKeepsAligned(s: Both, es: seq<Event>)
    requires Aligned(s)
    ensures Aligned(Run(s, es)) && Keeps(s.browser, Run(s, es).browser)
  {
    if es != [] {
      RunKeepsAligned(s, es[..|es| - 1]);
      var before := Run(s, es[..|es| - 1]);
      if Enabled(before, es[|es| - 1]) { StepKeepsAligned(before, es[|es| - 1]); }
    }
  }

  // ----- Results -----

  // From an empty browser, over every run of bootstraps and rotations, whatever other browsers do to their own rows:
  // the newest local version is the server's, its keys are the ones registered, and the active private key belongs
  // to the registered public key.
  lemma KeyringFollowsRegistry(rows: Rows, es: seq<Event>)
    ensures var s := Run(Both(EMPTY, rows), es);
            Aligned(s) &&
            (s.browser.keyring.Keys != {} ==>
               s.browser.deviceId.Some? && s.browser.deviceId.value in s.rows
               && ActiveKey(s.browser) == Some(s.rows[s.browser.deviceId.value].publicKey))
  {
    RunKeepsAligned(Both(EMPTY, rows), es);
  }

  // No version that was once in the keyring is lost or replaced later in the run.
  lemma VersionsAreKept(rows: Rows, es: seq<Event>, more: seq<Event>)
    ensures var s := Run(Both(EMPTY, rows), es);
            Keeps(s.browser, Run(s, more).browser)
  {
    RunKeepsAligned(Both(EMPTY, rows), es);
    RunKeepsAligned(Run(Both(EMPTY, rows), es), more);
  }

  // Once there is a key, a bootstrap changes nothing on either side; and the first one always succeeds.
  lemma SecondBootstrapRegistersNothing(rows: Rows, es: seq<Event>, newKey: KeyPair, newId: DeviceId)
    ensures var s := Run(Both(EMPTY, rows), es);
            && (s.browser.keyring.Keys != {} ==> Bootstrap(s, newKey, newId) == Ok(s))
            && (s.browser.keyring.Keys == {} ==>
                  Bootstrap(s, newKey, newId) == Ok(Adopt(s, newId, newKey)))
  {
    RunKeepsAligned(Both(EMPTY, rows), es);
  }

  // The user deletes this browser's device row.
  function DeleteOwn(s: Both): Both {
    if s.browser.deviceId.Some? then s.(rows := s.rows - {s.browser.deviceId.value}) else s
  }

  // What a rotation leaves behind: an error leaves both sides as they were.
  ghost function AfterRotation(s: Both, newKey: KeyPair): Both {
    match Rotate(s, newKey) case Ok(s') => s' case Err(_) => s
  }

  // A rotation after the deletion fails if this was the user's only device, and otherwise starts again at version 1.
  // It brings the two sides together exactly if the user has another device and the keyring had no version above 1;
  // else the active private key is still the old one, while the registered key, if any, is the new one. A stored key
  // is lost exactly if the rotation succeeds and there was a version 1, whose place the new key takes.
  lemma RotationAfterDeletion(s: Both, newKey: KeyPair)
    requires Aligned(s) && s.browser.keyring.Keys != {}
    requires forall id :: id in s.rows ==> s.rows[id].publicKey != newKey
    requires forall v :: v in s.browser.keyring ==> v >= 1 && s.browser.keyring[v].privateKey != newKey
    ensures var r := Rotate(DeleteOwn(s), newKey);
            var s' := AfterRotation(DeleteOwn(s), newKey);
            var max := Max(s.browser.keyring.Keys);
            var others := DeleteOwn(s).rows.Keys != {};
            && (if others then r.Ok? && s'.rows[s.browser.deviceId.value] == DeviceRow(newKey, 1)
                else r == Err(NothingRegistered) && s' == DeleteOwn(s))
            && (Aligned(s') <==> others && max == 1)
            && (Keeps(s.browser, s'.browser) <==> !others || 1 !in s.browser.keyring)
            && (max > 1 || !others ==>
                  ActiveKey(s'.browser) == ActiveKey(s.browser) && ActiveKey(s.browser) != Some(newKey))
  {
    var id := s.browser.deviceId.value;
    var max := Max(s.browser.keyring.Keys);
    if DeleteOwn(s).rows.Keys != {} {
      var s' := AfterRotation(DeleteOwn(s), newKey);
      assert s.browser.keyring != map[];
      assert s' == Adopt(DeleteOwn(s), id, newKey);
      assert s'.browser.keyring.Keys == s.browser.keyring.Keys + {1};
      MaxIs(s'.browser.keyring.Keys, max);
    }
  }

  // A bootstrap after the deletion registers the newest local key again, as version 1: same exact condition, but no
  // key is lost, and the active key stays the registered one.
  lemma BootstrapAfterDeletion(s: Both, newKey: KeyPair, newId: DeviceId)
    requires Aligned(s) && s.browser.keyring.Keys != {}
    ensures var s' := Bootstrap(DeleteOwn(s), newKey, newId);
            && s'.Ok? && s'.value.browser == s.browser
            && ActiveKey(s'.value.browser) == Some(s'.value.rows[s.browser.deviceId.value].publicKey)
            && (Aligned(s'.value) <==> Max(s.browser.keyring.Keys) == 1)
  {
  }

  // The device id that a rotation registers the new key for.
  function RotatedId(b: Browser): DeviceId {
    if b.deviceId.Some? then b.deviceId.value else DEFAULT_SINGLE_DEVICE_ID
  }

  // A browser that still has a key from before the keyring: the first rotation files it under a version read off the
  // device list, and the new key under the version that its own device gets. The two sides are aligned exactly if the
  // first version is not above the second, and the old key survives exactly if the two differ. Without a device id
  // and with a registered default device both hold.
  lemma RotationWithLegacyKey(s: Both, newKey: KeyPair)
    requires s.browser.keyring == map[] && s.browser.legacy.Some?
    requires forall id :: id in s.rows ==> s.rows[id].publicKey != newKey && s.rows[id].keyVersion >= 1
    ensures var s' := AfterRotation(s, newKey);
            var id := RotatedId(s.browser);
            var next := if id in s.rows then s.rows[id].keyVersion + 1 else 1;
            if s.rows.Keys == {} then s' == s && Rotate(s, newKey) == Err(NothingRegistered)
            else
              var filed := MigrationVersion(s.rows);
              && Rotate(s, newKey).Ok?
              && s'.browser.keyring.Keys == {filed, next} && s'.rows[id] == DeviceRow(newKey, next)
              && (Aligned(s') <==> filed <= next)
              && ((exists v :: v in s'.browser.keyring && s'.browser.keyring[v].privateKey == s.browser.legacy.value)
                  <==> filed != next || s.browser.legacy.value == newKey)
              && (s.browser.deviceId.None? && DEFAULT_SINGLE_DEVICE_ID in s.rows ==> filed < next)
    ensures ActiveKey(s.browser) == s.browser.legacy
  {
    if s.rows.Keys != {} {
      var filed := MigrationVersion(s.rows);
      var s' := AfterRotation(s, newKey);
      var id := RotatedId(s.browser);
      var next := if id in s.rows then s.rows[id].keyVersion + 1 else 1;
      var legacyRow, newRow := KeyringRow(s.browser.legacy.value, None), KeyringRow(newKey, Some(newKey));
      assert s'.browser.keyring == map[filed := legacyRow][next := newRow];
      assert s'.browser.keyring.Keys == {filed, next};
      MaxIs(s'.browser.keyring.Keys, if filed <= next then next else filed);
      assert next in s'.browser.keyring && filed in s'.browser.keyring;
    }
  }

  // ----- The two stores -----

  class Registry {
    var rows: Rows

    constructor ()
      ensures rows == map[]
    {
      rows := map[];
    }

    method RegisterOrUpdateDevice(id: DeviceId, publicKey: KeyPair) returns (row: DeviceRow)
      modifies this
      ensures rows == Register(old(rows), id, publicKey) && id in rows && row == rows[id]
      ensures row.publicKey == publicKey && (id !in old(rows) ==> row.keyVersion == 1)
      ensures id in old(rows) ==>
                row.keyVersion == old(rows)[id].keyVersion + if old(rows)[id].publicKey == publicKey then 0 else 1
    {
      if id !in rows {
        row := DeviceRow(publicKey, 1);
        rows := rows[id := row];
      } else if rows[id].publicKey == publicKey {
        row := rows[id];
      } else {
        row := DeviceRow(publicKey, rows[id].keyVersion + 1);
        rows := rows[id := row];
      }
    }

    // The version is forgotten with the row: whichever key is registered for the device next, it is version 1.
    method DeleteDeviceForUser(id: DeviceId) returns (deleted: bool)
      modifies this
      ensures deleted == (id in old(rows)) && rows == old(rows) - {id}
      ensures forall key :: Register(rows, id, key)[id] == DeviceRow(key, 1)
      ensures forall other, key :: other != id && other in rows ==>
                Register(rows, other, key)[other] == Register(old(rows), other, key)[other]
    {
      deleted := id in rows;
      rows := rows - {id};
    }
  }

  // Strictly ascending.
  predicate Ascending(vs: seq<nat>) {
    forall i, k :: 0 <= i < k < |vs| ==> vs[i] < vs[k]
  }

  function InsertVersion(vs: seq<nat>, v: nat): seq<nat> {
    if vs == [] || v < vs[0] then [v] + vs else [vs[0]] + InsertVersion(vs[1..], v)
  }

  lemma {:induction false} InsertVersionFacts(vs: seq<nat>, v: nat)
    requires Ascending(vs) && v !in vs
    ensures Ascending(InsertVersion(vs, v))
    ensures forall x :: x in InsertVersion(vs, v) <==> x == v || x in vs
  {
    if vs != [] && v > vs[0] {
      assert vs == [vs[0]] + vs[1..];
      InsertVersionFacts(vs[1..], v);
      var rest := InsertVersion(vs[1..], v);
      forall k | 0 <= k < |rest| ensures vs[0] < rest[k] { assert rest[k] in rest; }
    } else if vs != [] {
      assert vs[0] in vs;
    }
  }

  class Store {
    var keyring: map<nat, KeyringRow>
    var deviceId: Option<DeviceId>
    var legacy: Option<KeyPair>
    const registry: Registry

    ghost function Contents(): Both
      reads this, registry
    {
      Both(Browser(keyring, deviceId, legacy), registry.rows)
    }

    constructor (registry: Registry)
      ensures this.registry == registry && Contents() == Both(EMPTY, registry.rows)
    {
      this.registry := registry;
      keyring, deviceId, legacy := map[], None, None;
    }

    method ListKeyringVersions() returns (versions: seq<nat>)
      ensures Ascending(versions) && forall v :: v in versions <==> v in keyring
    {
      versions := [];
      var rest := keyring.Keys;
      while rest != {}
        invariant rest <= keyring.Keys && Ascending(versions)
        invariant forall v :: v in versions <==> v in keyring && v !in rest
        decreases rest
      {
        var v :| v in rest;
        InsertVersionFacts(versions, v);
        versions := InsertVersion(versions, v);
        rest := rest - {v};
      }
    }

    // The newest version is the last one listed.
    method NewestVersion() returns (newest: Option<nat>)
      ensures newest == if keyring.Keys == {} then None else Some(Max(keyring.Keys))
    {
      var versions := ListKeyringVersions();
      if versions == [] {
        newest := None;
      } else {
        var last := versions[|versions| - 1];
        assert last in versions;
        forall v | v in keyring ensures v <= last { var i :| 0 <= i < |versions| && versions[i] == v; }
        newest := Some(last);
      }
    }

    method EnsureUserKeypairReadyForMessaging(newKey: KeyPair, newId: DeviceId) returns (r: Option<Failure>)
      modifies this, registry
      ensures match Bootstrap(old(Contents()), newKey, newId)
              case Ok(s) => r == None && Contents() == s
              case Err(e) => r == Some(e) && Contents() == old(Contents())
    {
      var maxV := NewestVersion();
      if maxV.Some? {
        var localSpki := keyring[maxV.value].publicKey;
        if localSpki.None? { return Some(NoPublicMetadata); }
        if deviceId.None? || deviceId.value !in registry.rows {
          var id := if deviceId.Some? then deviceId.value else DEFAULT_SINGLE_DEVICE_ID;
          var _ := registry.RegisterOrUpdateDevice(id, localSpki.value);
          deviceId := Some(id);
          return None;
        }
        if registry.rows[deviceId.value].publicKey != localSpki.value { return Some(KeyMismatch); }
        return None;
      }
      if deviceId.Some? && deviceId.value in registry.rows { return Some(NoKeyMaterial); }
      var row := registry.RegisterOrUpdateDevice(newId, newKey);
      deviceId := Some(newId);
      keyring := keyring[row.keyVersion := KeyringRow(newKey, Some(newKey))];
      r := None;
    }

    method MigrateLegacyPrivateKeyToKeyring(version: nat)
      modifies this
      ensures Contents().browser == Migrate(old(Contents()).browser, version)
    {
      if keyring == map[] && legacy.Some? {
        keyring := map[version := KeyringRow(legacy.value, None)];
        legacy := None;
      }
    }

    // migrationVersion is the version read off the device list.
    method RotateUserKeypairOnServer(newKey: KeyPair, migrationVersion: nat) returns (r: Option<Failure>)
      requires registry.rows.Keys != {} ==> migrationVersion == MigrationVersion(registry.rows)
      modifies this, registry
      ensures match Rotate(old(Contents()), newKey)
              case Ok(s) => r == None && Contents() == s
              case Err(e) => r == Some(e) && Contents() == old(Contents())
    {
      if registry.rows.Keys == {} { return Some(NothingRegistered); }
      MigrateLegacyPrivateKeyToKeyring(migrationVersion);
      var id := if deviceId.Some? then deviceId.value else DEFAULT_SINGLE_DEVICE_ID;
      var row := registry.RegisterOrUpdateDevice(id, newKey);
      deviceId := Some(id);
      keyring := keyring[row.keyVersion := KeyringRow(newKey, Some(newKey))];
      r := None;
    }
  }
}
