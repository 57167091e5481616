// The text inside a hybrid message: a bare caption, or a small JSON object that also carries a media locator.

module InnerPlaintext {
  import opened Text
  import opened Json

  // Functions of the runtime and the deployment: JSON; canonical is new URL(t).toString() for http and https URLs and
  // None for everything else; presigned recognises upload URLs; objectUrl and basePrefix come from the environment;
  // build joins a base prefix and a key.
  datatype Lib = Lib(codec: Codec, canonical: string -> Option<string>, presigned: string -> bool,
                     objectUrl: string -> Option<string>, basePrefix: Option<string>,
                     build: (string, string) -> Option<string>)

  predicate StartsWithBrace(s: string) { s != "" && s[0] == '{' }

  // JSON text of an object runs from brace to brace; text that reads as an object begins with one after white space,
  // and is longer than any string in it.
  ghost predicate ObjectText(codec: Codec) {
    && Faithful(codec)
    && (forall m: map<string, Json> :: var s := codec.stringify(JObj(m)); |s| >= 2 && s[0] == '{' && s[|s| - 1] == '}')
    && (forall s, m: map<string, Json> :: codec.parse(s) == Some(JObj(m)) ==> StartsWithBrace(Trim(s)))
    && (forall s, m: map<string, Json>, k :: codec.parse(s) == Some(JObj(m)) && k in m && m[k].JStr? ==> |m[k].s| < |s|)
  }

  // A canonical URL is not empty, has no white space around it, and is its own canonical form.
  ghost predicate LibOk(lib: Lib) {
    && ObjectText(lib.codec)
    && (forall t :: lib.canonical(t).Some? ==>
          var u := lib.canonical(t).value; u != "" && Trimmed(u) && lib.canonical(u) == Some(u))
  }

  datatype Parsed = Parsed(text: string, mediaObjectKey: Option<string>, mediaRetrievableUrl: Option<string>)

  function Legacy(s: string): Parsed { Parsed(s, None, None) }

  function OrEmpty(t: Option<string>): string {
    match t case None => "" case Some(s) => s
  }

  function Sanitize(lib: Lib, raw: string): Option<string> {
    if Trim(raw) == "" then None else lib.canonical(Trim(raw))
  }

  function SanitizeBase(lib: Lib, raw: string): Option<string> {
    match Sanitize(lib, raw)
    case None => None
    case Some(u) => Some(if u != "" && u[|u| - 1] == '/' then u[..|u| - 1] else u)
  }

  // A sanitized URL that is not for uploading.
  function Durable(lib: Lib, raw: string): Option<string> {
    match Sanitize(lib, raw)
    case None => None
    case Some(u) => if lib.presigned(u) then None else Some(u)
  }

  // ----- Serializing -----

  function Locator(lib: Lib, key: string, url: Option<string>): map<string, Json> {
    var explicit, env := Durable(lib, OrEmpty(url)), Durable(lib, OrEmpty(lib.objectUrl(key)));
    map["k" := JStr(key)] +
    if explicit.Some? then map["u" := JStr(explicit.value)]
    else if env.Some? then map["u" := JStr(env.value)]
    else if OrEmpty(lib.basePrefix) != "" then map["b" := JStr(lib.basePrefix.value)]
    else map[]
  }

  function Wire(text: string, m: map<string, Json>): Json {
    JObj(map["v" := JNum(Whole(1)), "m" := JObj(m)] + if text != "" then map["t" := JStr(text)] else map[])
  }

  function Serialize(lib: Lib, text: string, mediaObjectKey: Option<string>, url: Option<string>): string {
    var key := Trim(OrEmpty(mediaObjectKey));
    if key == "" then text else lib.codec.stringify(Wire(text, Locator(lib, key, url)))
  }

  // ----- Parsing -----

  function KeyOf(m: Json): Option<string> {
    var k := Trim(OrEmpty(StringField(m, "k")));
    if k == "" then None else Some(k)
  }

  // m.u, where an upload URL is replaced by what the environment gives for the key.
  function UrlFromU(lib: Lib, m: Json, key: Option<string>): Option<string> {
    match StringField(m, "u")
    case None => None
    case Some(raw) =>
      var u := Sanitize(lib, raw);
      if u.Some? && lib.presigned(u.value) then
        if key.Some? then Sanitize(lib, OrEmpty(lib.objectUrl(key.value))) else None
      else u
  }

  function UrlFromB(lib: Lib, m: Json, key: Option<string>): Option<string> {
    match StringField(m, "b")
    case None => None
    case Some(raw) =>
      var b := SanitizeBase(lib, raw);
      if b.Some? && b.value != "" && key.Some? then lib.build(b.value, key.value) else None
  }

  function FromWire(lib: Lib, o: Json): Parsed
    requires o.JObj?
  {
    var text := OrEmpty(StringField(o, "t"));
    if "m" in o.fields && o.fields["m"].JObj? then
      var m := o.fields["m"];
      var key := KeyOf(m);
      var u := UrlFromU(lib, m, key);
      Parsed(text, key, if u.Some? then u else UrlFromB(lib, m, key))
    else Parsed(text, None, None)
  }

  // Text that reads as an object of version 1.
  predicate IsWire(lib: Lib, s: string) {
    var o := lib.codec.parse(s);
    o.Some? && o.value.JObj? && "v" in o.value.fields && o.value.fields["v"] == JNum(Whole(1))
  }

  function Parse(lib: Lib, s: string): Parsed {
    if !StartsWithBrace(Trim(s)) then Legacy(s)
    else if !IsWire(lib, s) then Legacy(s)
    else FromWire(lib, lib.codec.parse(s).value)
  }

  // ----- Proofs -----

  lemma WireFields(text: string, m: map<string, Json>)
    ensures var o := Wire(text, m);
            && "v" in o.fields && o.fields["v"] == JNum(Whole(1)) && "m" in o.fields && o.fields["m"] == JObj(m)
            && OrEmpty(StringField(o, "t")) == text
  {
    assert "v"[0] == 'v' && "m"[0] == 'm' && "t"[0] == 't';
  }

  lemma SanitizeTwice(lib: Lib, raw: string)
    requires LibOk(lib)
    ensures var u := Sanitize(lib, raw); u.Some? ==> u.value != "" && Sanitize(lib, u.value) == u
  {
    var u := Sanitize(lib, raw);
    if u.Some? { TrimIsTrimmed(u.value); }
  }

  // The URL that a message with a media key is read back with.
  function UrlMeant(lib: Lib, key: string, url: Option<string>): Option<string> {
    var explicit, env := Durable(lib, OrEmpty(url)), Durable(lib, OrEmpty(lib.objectUrl(key)));
    if explicit.Some? then explicit
    else if env.Some? then env
    else if OrEmpty(lib.basePrefix) == "" then None
    else
      match SanitizeBase(lib, lib.basePrefix.value)
      case None => None
      case Some(b) => if b == "" then None else lib.build(b, key)
  }

  lemma LocatorFields(lib: Lib, key: string, url: Option<string>)
    ensures var m := JObj(Locator(lib, key, url));
            var explicit, env := Durable(lib, OrEmpty(url)), Durable(lib, OrEmpty(lib.objectUrl(key)));
            && StringField(m, "k") == Some(key)
            && StringField(m, "u") == (if explicit.Some? then explicit else env)
            && StringField(m, "b") ==
               (if explicit.Some? || env.Some? || OrEmpty(lib.basePrefix) == "" then None else lib.basePrefix)
  {
    assert "k"[0] == 'k' && "u"[0] == 'u' && "b"[0] == 'b';
  }

  lemma DurableTwice(lib: Lib, raw: string)
    requires LibOk(lib) && Durable(lib, raw).Some?
    ensures var u := Durable(lib, raw).value; Sanitize(lib, u) == Some(u) && !lib.presigned(u)
  {
    SanitizeTwice(lib, raw);
  }

  lemma LocatorReads(lib: Lib, key: string, url: Option<string>)
    requires LibOk(lib) && key != "" && Trimmed(key)
    ensures var m := JObj(Locator(lib, key, url));
            && KeyOf(m) == Some(key)
            && (var u := UrlFromU(lib, m, Some(key)); if u.Some? then u else UrlFromB(lib, m, Some(key)))
               == UrlMeant(lib, key, url)
  {
    LocatorFields(lib, key, url);
    TrimIsTrimmed(key);
    if Durable(lib, OrEmpty(url)).Some? { DurableTwice(lib, OrEmpty(url)); }
    if Durable(lib, OrEmpty(lib.objectUrl(key))).Some? { DurableTwice(lib, OrEmpty(lib.objectUrl(key))); }
  }

  // An http or https URL, in canonical form, that is not for uploading.
  predicate Lasts(lib: Lib, raw: string, u: string) {
    Trim(raw) != "" && lib.canonical(Trim(raw)) == Some(u) && !lib.presigned(u)
  }

  lemma LastingUrl(lib: Lib, raw: string)
    ensures forall u :: Durable(lib, raw) == Some(u) <==> Lasts(lib, raw, u)
  {
  }

  // With a media key, the caption, the trimmed key and the URL come back; the URL is the sender's own if it has a
  // durable one, else the sender environment's, else the recipient builds it from the sender's base prefix.
  lemma MediaRoundTrip(lib: Lib, text: string, key: string, url: Option<string>)
    requires LibOk(lib) && Trim(key) != ""
    ensures Parse(lib, Serialize(lib, text, Some(key), url))
            == Parsed(text, Some(Trim(key)), UrlMeant(lib, Trim(key), url))
    ensures Durable(lib, OrEmpty(url)).Some? ==>
              Parse(lib, Serialize(lib, text, Some(key), url)).mediaRetrievableUrl == Sanitize(lib, OrEmpty(url))
    ensures var mine, environment := OrEmpty(url), OrEmpty(lib.objectUrl(Trim(key)));
            var read := Parse(lib, Serialize(lib, text, Some(key), url)).mediaRetrievableUrl;
            && (forall u :: Lasts(lib, mine, u) ==> read == Some(u))
            && (forall u :: Lasts(lib, environment, u) && (forall x :: !Lasts(lib, mine, x)) ==> read == Some(u))
            && ((forall x :: !Lasts(lib, mine, x) && !Lasts(lib, environment, x)) && OrEmpty(lib.basePrefix) != "" ==>
                  forall b :: SanitizeBase(lib, lib.basePrefix.value) == Some(b) && b != "" ==>
                    read == lib.build(b, Trim(key)))
  {
    LastingUrl(lib, OrEmpty(url));
    LastingUrl(lib, OrEmpty(lib.objectUrl(Trim(key))));
    hide Locator, UrlFromU, UrlFromB, KeyOf, Parse, Trim;
    TrimIsTrimmed(key);
    var k := Trim(key);
    WireFields(text, Locator(lib, k, url));
    ParsesWire(lib, Wire(text, Locator(lib, k, url)));
    LocatorReads(lib, k, url);
  }

  lemma ParsesWire(lib: Lib, o: Json)
    requires LibOk(lib) && o.JObj? && "v" in o.fields && o.fields["v"] == JNum(Whole(1))
    ensures Parse(lib, lib.codec.stringify(o)) == FromWire(lib, o)
  {
    hide FromWire;
    var s := lib.codec.stringify(o);
    assert o == JObj(o.fields) && lib.codec.parse(s) == Some(o);
    assert !IsSpace('{') && !IsSpace('}');
    TrimIsTrimmed(s);
  }

  // A URL that came out of text, rather than out of this client's own environment: http or https, in canonical form.
  ghost predicate CanonicalUrl(lib: Lib, u: string) {
    exists raw :: lib.canonical(raw) == Some(u)
  }

  // Whatever text is parsed, also one that a hostile sender made: a URL comes out only if it is canonical, not for
  // uploading unless this client's own environment gave it, or built from a canonical prefix; and a key comes out
  // trimmed and not empty.
  lemma ParsedIsSafe(lib: Lib, s: string)
    requires LibOk(lib)
    ensures var p := Parse(lib, s);
            && (p.mediaObjectKey.Some? ==> CleanId(p.mediaObjectKey.value))
            && (p.mediaRetrievableUrl.Some? ==>
                  var u := p.mediaRetrievableUrl.value;
                  || (CanonicalUrl(lib, u) && !lib.presigned(u))
                  || (p.mediaObjectKey.Some? && Sanitize(lib, OrEmpty(lib.objectUrl(p.mediaObjectKey.value))) == Some(u))
                  || (p.mediaObjectKey.Some? && exists b :: lib.build(b, p.mediaObjectKey.value) == Some(u)))
  {
    hide Trim;
    if StartsWithBrace(Trim(s)) && IsWire(lib, s) {
      var o := lib.codec.parse(s).value;
      if "m" in o.fields && o.fields["m"].JObj? { LocatorIsSafe(lib, o.fields["m"]); }
    }
  }

  lemma LocatorIsSafe(lib: Lib, m: Json)
    requires LibOk(lib)
    ensures var key := KeyOf(m);
            && (key.Some? ==> CleanId(key.value))
            && (var u := UrlFromU(lib, m, key);
                u.Some? ==> (CanonicalUrl(lib, u.value) && !lib.presigned(u.value))
                            || (key.Some? && Sanitize(lib, OrEmpty(lib.objectUrl(key.value))) == u))
            && (var u := UrlFromB(lib, m, key); u.Some? ==> key.Some? && exists b :: lib.build(b, key.value) == u)
  {
    TrimIsTrimmed(OrEmpty(StringField(m, "k")));
  }

  // An object of version 1 without a media part is a caption alone.
  lemma CaptionAlone(lib: Lib, s: string)
    requires StartsWithBrace(Trim(s)) && IsWire(lib, s)
    requires var o := lib.codec.parse(s).value; !("m" in o.fields && o.fields["m"].JObj?)
    ensures Parse(lib, s) == Parsed(OrEmpty(StringField(lib.codec.parse(s).value, "t")), None, None)
  {
  }

  // Sanitizing keeps exactly the http and https URLs, in canonical form; a prefix loses one slash at its end.
  lemma SanitizedUrls(lib: Lib, raw: string)
    requires LibOk(lib)
    ensures forall u :: Sanitize(lib, raw) == Some(u) <==> Trim(raw) != "" && lib.canonical(Trim(raw)) == Some(u)
    ensures forall u :: Sanitize(lib, raw) == Some(u) ==>
              SanitizeBase(lib, raw) == Some(if u[|u| - 1] == '/' then u[..|u| - 1] else u)
  {
    SanitizeTwice(lib, raw);
  }

  // Without a media key the caption comes back unchanged exactly when it is not itself a version 1 object: such a
  // caption is read as if it were the wrapper.
  lemma CaptionRoundTripIff(lib: Lib, text: string, key: Option<string>, url: Option<string>)
    requires LibOk(lib) && Trim(OrEmpty(key)) == ""
    ensures Parse(lib, Serialize(lib, text, key, url)) == Legacy(text) <==> !IsWire(lib, text)
  {
    if IsWire(lib, text) {
      var o := lib.codec.parse(text).value;
      assert StartsWithBrace(Trim(text));
      assert Trim("") == "";
      if StringField(o, "t").Some? { assert |o.fields["t"].s| < |text|; }
      assert FromWire(lib, o).text != text;
    }
  }

  // ----- The two functions as they are written -----

  method SerializeHybridInnerPlaintextV1(lib: Lib, text: string, mediaObjectKey: Option<string>, url: Option<string>)
    returns (wire: string)
    ensures wire == Serialize(lib, text, mediaObjectKey, url)
  {
    var key := Trim(OrEmpty(mediaObjectKey));
    if key == "" { return text; }
    var explicitU := Sanitize(lib, OrEmpty(url));
    if explicitU.Some? && lib.presigned(explicitU.value) { explicitU := None; }
    var envFullUrl := Sanitize(lib, OrEmpty(lib.objectUrl(key)));
    if envFullUrl.Some? && lib.presigned(envFullUrl.value) { envFullUrl := None; }
    var m := map["k" := JStr(key)];
    if explicitU.Some? {
      m := m["u" := JStr(explicitU.value)];
    } else if envFullUrl.Some? {
      m := m["u" := JStr(envFullUrl.value)];
    } else if OrEmpty(lib.basePrefix) != "" {
      m := m["b" := JStr(lib.basePrefix.value)];
    }
    assert m == Locator(lib, key, url);
    wire := lib.codec.stringify(Wire(text, m));
  }

  method ParseDecryptedHybridUtf8(lib: Lib, s: string) returns (r: Parsed)
    ensures r == Parse(lib, s)
  {
    if !StartsWithBrace(Trim(s)) { return Legacy(s); }
    var parsed := lib.codec.parse(s);
    if parsed.None? || !parsed.value.JObj? { return Legacy(s); }
    var o := parsed.value;
    if !("v" in o.fields && o.fields["v"] == JNum(Whole(1))) { return Legacy(s); }
    var text := OrEmpty(StringField(o, "t"));
    var mediaObjectKey: Option<string>, mediaRetrievableUrl: Option<string> := None, None;
    if "m" in o.fields && o.fields["m"].JObj? {
      var m := o.fields["m"];
      mediaObjectKey := KeyOf(m);
      if HasString(m, "u") {
        var u := Sanitize(lib, m.fields["u"].s);
        if u.Some? && lib.presigned(u.value) {
          u := if mediaObjectKey.Some? then Sanitize(lib, OrEmpty(lib.objectUrl(mediaObjectKey.value))) else None;
        }
        if u.Some? { mediaRetrievableUrl := u; }
      }
      if mediaRetrievableUrl.None? && HasString(m, "b") {
        var b := SanitizeBase(lib, m.fields["b"].s);
        if b.Some? && b.value != "" && mediaObjectKey.Some? {
          mediaRetrievableUrl := lib.build(b.value, mediaObjectKey.value);
        }
      }
    }
    r := Parsed(text, mediaObjectKey, mediaRetrievableUrl);
  }
}
