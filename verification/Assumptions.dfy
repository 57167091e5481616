// The laws that the other modules ask of the runtime's functions can be met together: one set of functions for each.

module Assumptions {
  import opened Text
  import opened Json
  import opened JsonText
  import Decimal
  import HybridCrypto
  import HybridSend
  import InnerPlaintext
  import KeyringBackup
  import MessageListing

  lemma BraceIsNoSpace()
    ensures !IsSpace('{') && !IsSpace('}')
  {
  }

  lemma ObjectTextIsTrimmed(m: map<string, Json>)
    ensures var s := TextOf(JObj(m)); s != "" && Trimmed(s) && Trim(s) == s
  {
    ObjectTextShape(m);
    BraceIsNoSpace();
    TrimIsTrimmed(TextOf(JObj(m)));
  }

  // A JSON codec.
  lemma CodecExists()
    ensures Faithful(Printer()) && InnerPlaintext.ObjectText(Printer())
  {
    PrinterIsFaithful();
    var c := Printer();
    forall m: map<string, Json>
      ensures var s := c.stringify(JObj(m)); |s| >= 2 && s[0] == '{' && s[|s| - 1] == '}'
    {
      ObjectTextShape(m);
    }
    forall s, m: map<string, Json> | c.parse(s) == Some(JObj(m))
      ensures InnerPlaintext.StartsWithBrace(Trim(s))
      ensures forall k :: k in m && m[k].JStr? ==> |m[k].s| < |s|
    {
      assert TextOf(JObj(m)) == s;
      ObjectTextShape(m);
      ObjectTextIsTrimmed(m);
    }
  }

  // The functions behind the inner plaintext, for a deployment without any media URL.
  lemma PlaintextLibExists()
    ensures exists lib :: InnerPlaintext.LibOk(lib)
  {
    CodecExists();
    var lib := InnerPlaintext.Lib(Printer(), (t: string) => None, (t: string) => false, (k: string) => None, None,
                                  (b: string, k: string) => None);
    assert InnerPlaintext.LibOk(lib);
  }

  // ----- Encodings of strings and dates -----

  function Wrap64(s: string): string { "x" + s + "x" }

  function Unwrap64(s: string): string {
    if |s| < 2 then "" else s[1..|s| - 1]
  }

  ghost function ReadDate(s: string): Option<int> {
    if exists i :: IntText(i, "") == s then
      var i :| IntText(i, "") == s;
      Some(i)
    else None
  }

  // The functions behind the message cursor.
  lemma CursorLibExists()
    ensures exists lib :: MessageListing.LibFaithful(lib)
  {
    PrinterIsFaithful();
    var lib := MessageListing.Lib(Printer(), Wrap64, Unwrap64, (t: int) => IntText(t, ""), (s: string) => ReadDate(s));
    forall s ensures lib.unb64url(lib.b64url(s)) == s {}
    forall t ensures lib.parseDate(lib.iso(t)) == Some(t) {
      assert IntText(t, "") == lib.iso(t);
      var i := ReadDate(IntText(t, "")).value;
      IntTextReads(i, t, "", "");
    }
    assert MessageListing.LibFaithful(lib);
  }

  // ----- Encodings of the symbolic byte strings -----

  function BytesJson(bytes: seq<bv8>): Json {
    JArr(seq(|bytes|, i requires 0 <= i < |bytes| => JNum(Whole(bytes[i] as int))))
  }

  lemma BytesJsonReads(a: seq<bv8>, b: seq<bv8>)
    requires BytesJson(a) == BytesJson(b)
    ensures a == b
  {
    assert |a| == |BytesJson(a).items| == |b|;
    forall i | 0 <= i < |a| ensures a[i] == b[i] {
      assert BytesJson(a).items[i] == BytesJson(b).items[i];
      assert a[i] as int == b[i] as int;
      assert (a[i] as int) as bv8 == (b[i] as int) as bv8;
    }
  }

  function NatJson(n: nat): Json { JStr(Decimal.ToDecimal(n)) }

  lemma NatJsonReads(a: nat, b: nat)
    requires NatJson(a) == NatJson(b)
    ensures a == b
  {
    Decimal.ParseIntOfDecimal(a);
    Decimal.ParseIntOfDecimal(b);
  }

  function HybridBytes(b: HybridCrypto.Bytes): Json {
    match b
    case Raw(bytes) => JArr([JNull, BytesJson(bytes)])
    case Spki(owner) => JArr([JBool(true), NatJson(owner)])
    case Sealed(key, iv, content) => JArr([HybridKey(key), HybridBytes(iv), HybridBytes(content)])
    case Utf8(text) => JArr([JBool(false), JStr(text)])
  }

  function HybridKey(key: HybridCrypto.AesKey): Json {
    match key
    case Imported(raw) => JArr([HybridBytes(raw)])
    case Derived(low, high, salt) => JArr([NatJson(low), NatJson(high), HybridBytes(salt)])
  }

  lemma {:induction false} HybridBytesReads(a: HybridCrypto.Bytes, b: HybridCrypto.Bytes)
    requires HybridBytes(a) == HybridBytes(b)
    ensures a == b
    decreases a
  {
    var x, y := HybridBytes(a).items, HybridBytes(b).items;
    assert x[0] == y[0] && x[1] == y[1];
    match a
    case Raw(bytes) => BytesJsonReads(bytes, b.bytes);
    case Spki(owner) => NatJsonReads(owner, b.owner);
    case Sealed(key, iv, content) =>
      assert x[2] == y[2];
      HybridKeyReads(key, b.key);
      HybridBytesReads(iv, b.iv);
      HybridBytesReads(content, b.content);
    case Utf8(text) =>
  }

  lemma {:induction false} HybridKeyReads(a: HybridCrypto.AesKey, b: HybridCrypto.AesKey)
    requires HybridKey(a) == HybridKey(b)
    ensures a == b
    decreases a
  {
    var x, y := HybridKey(a).items, HybridKey(b).items;
    assert x[0] == y[0];
    match a
    case Imported(raw) => HybridBytesReads(raw, b.raw);
    case Derived(low, high, salt) =>
      assert x[1] == y[1] && x[2] == y[2];
      NatJsonReads(low, b.low);
      NatJsonReads(high, b.high);
      HybridBytesReads(salt, b.salt);
  }

  ghost function ReadHybrid(s: string): Option<HybridCrypto.Bytes> {
    if exists b :: TextOf(HybridBytes(b)) == s then
      var b :| TextOf(HybridBytes(b)) == s;
      Some(b)
    else None
  }

  // The functions behind hybrid encryption.
  lemma CryptoLibExists()
    ensures exists lib :: HybridCrypto.LibOk(lib) && HybridSend.Base64Text(lib)
  {
    PrinterIsFaithful();
    var lib := HybridCrypto.Lib(Printer(), (b: HybridCrypto.Bytes) => Wrap64(TextOf(HybridBytes(b))),
                                (s: string) => ReadHybrid(Unwrap64(s)));
    forall b ensures lib.unb64(lib.b64(b)) == Some(b) {
      var text := TextOf(HybridBytes(b));
      assert Unwrap64(Wrap64(text)) == text;
      var b' := ReadHybrid(text).value;
      TextDetermines(HybridBytes(b'), HybridBytes(b));
      HybridBytesReads(b', b);
    }
    forall fields ensures Trim(lib.codec.stringify(JObj(fields))) != "" { ObjectTextIsTrimmed(fields); }
    forall b ensures Trimmed(lib.b64(b)) && lib.b64(b) != "" {
      var text := Wrap64(TextOf(HybridBytes(b)));
      assert text[0] == 'x' == text[|text| - 1] && !IsSpace('x');
    }
    assert HybridCrypto.LibOk(lib) && HybridSend.Base64Text(lib);
  }

  function BackupBytes(b: KeyringBackup.Bytes): Json {
    match b
    case Raw(bytes) => JArr([JNull, BytesJson(bytes)])
    case Utf8(text) => JArr([JBool(false), JStr(text)])
    case Sealed(key, iv, content) =>
      JArr([JStr(key.pass), BackupBytes(key.salt), JNum(key.iterations), BackupBytes(iv), BackupBytes(content)])
  }

  lemma {:induction false} BackupBytesReads(a: KeyringBackup.Bytes, b: KeyringBackup.Bytes)
    requires BackupBytes(a) == BackupBytes(b)
    ensures a == b
    decreases a
  {
    var x, y := BackupBytes(a).items, BackupBytes(b).items;
    assert x[0] == y[0] && x[1] == y[1];
    match a
    case Raw(bytes) => BytesJsonReads(bytes, b.bytes);
    case Utf8(text) =>
    case Sealed(key, iv, content) =>
      assert x[2] == y[2] && x[3] == y[3] && x[4] == y[4];
      BackupBytesReads(key.salt, b.key.salt);
      BackupBytesReads(iv, b.iv);
      BackupBytesReads(content, b.content);
  }

  ghost function ReadBackup(s: string): Option<KeyringBackup.Bytes> {
    if exists b :: TextOf(BackupBytes(b)) == s then
      var b :| TextOf(BackupBytes(b)) == s;
      Some(b)
    else None
  }

  ghost function KeysOf(m: map<string, Json>): seq<string> {
    if m == map[] then []
    else
      var k :| k in m;
      [k] + KeysOf(m - {k})
  }

  lemma {:induction false} KeysOfEach(m: map<string, Json>)
    ensures KeyringBackup.OnceEach(KeysOf(m), m.Keys)
    decreases |m|
  {
    if m != map[] {
      var k :| k in m && KeysOf(m) == [k] + KeysOf(m - {k});
      KeysOfEach(m - {k});
      var rest := KeysOf(m - {k});
      forall i | 0 <= i < |rest| ensures rest[i] != k { assert rest[i] in rest; }
    }
  }

  // The functions behind the keyring backup.
  lemma BackupLibExists()
    ensures exists lib :: KeyringBackup.LibOk(lib)
  {
    PrinterIsFaithful();
    var lib := KeyringBackup.Lib(Printer(), (b: KeyringBackup.Bytes) => TextOf(BackupBytes(b)),
                                 (s: string) => ReadBackup(s), (m: map<string, Json>) => KeysOf(m));
    forall b ensures lib.unb64(lib.b64(b)) == Some(b) {
      assert TextOf(BackupBytes(b)) == lib.b64(b);
      var b' := ReadBackup(lib.b64(b)).value;
      TextDetermines(BackupBytes(b'), BackupBytes(b));
      BackupBytesReads(b', b);
    }
    forall m: map<string, Json> ensures KeyringBackup.OnceEach(lib.order(m), m.Keys) { KeysOfEach(m); }
    assert KeyringBackup.LibOk(lib);
  }
}
