/**
 * The two page handlers that meet at the scan URL: `generate_qr` checks the
 * three form fields and builds the URL the code encodes; `index` reads the
 * same three parameters back from a requested URL and chooses the scanner or
 * the generator page. Rendering is left to the template; a page is modelled
 * by what the handler passes to it.
 */
module Routes {
  import opened Optional
  import opened Text
  import opened QueryArgs

  /** The three values a handler reads, each `None` when the request lacks it. */
  datatype Params = Params(equipmentId: Option<string>, apiUrl: Option<string>, apiKey: Option<string>)

  /** Python truth of a string that may be None: present and not empty. */
  predicate Truthy(v: Option<string>) {
    v.Some? && v.value != []
  }

  /** `equipment_id and crm_api_url and api_key`, which is also `all([...])`. */
  predicate AllPresent(p: Params) {
    Truthy(p.equipmentId) && Truthy(p.apiUrl) && Truthy(p.apiKey)
  }

  /** A piece of equipment and the intake endpoint and credential its code carries. */
  datatype ScanTarget = ScanTarget(equipmentId: string, apiUrl: string, apiKey: string)

  function TargetOf(p: Params): ScanTarget
    requires AllPresent(p)
  {
    ScanTarget(p.equipmentId.value, p.apiUrl.value, p.apiKey.value)
  }

  datatype NoticeKind = SuccessNotice | ErrorNotice
  datatype Notice = Notice(text: string, kind: NoticeKind)

  /** A generated code (`qr_code`, the base64 PNG) and the fields echoed beside it. */
  datatype Generated = Generated(qrCode: string, target: ScanTarget)

  /** What the template is asked to show. */
  datatype View =
    | Generator(notice: Option<Notice>, generated: Option<Generated>)
    | Scanner(target: ScanTarget)

  // ---------------------------------------------------------------- index

  /** `request.args.get` of the three names `index` reads. */
  function RequestParams(url: string): (p: Params)
    ensures '?' !in url ==> p == Params(None, None, None)
  {
    Params(ArgOf(url, "equipment_id"), ArgOf(url, "api_url"), ArgOf(url, "api_key"))
  }

  /** A URL without a query, such as the bare root, opens the generator page. */
  lemma NoQueryShowsGenerator(url: string)
    requires '?' !in url
    ensures Index(RequestParams(url)) == Generator(None, None)
  {
  }

  /** `index`: the scanner page exactly when all three parameters are present and non-empty. */
  function Index(args: Params): (v: View)
    ensures v.Scanner? <==> AllPresent(args)
    ensures v.Scanner? ==> args == Params(Some(v.target.equipmentId), Some(v.target.apiUrl), Some(v.target.apiKey))
    ensures v.Generator? ==> v.notice.None? && v.generated.None?
  {
    if AllPresent(args) then Scanner(TargetOf(args)) else Generator(None, None)
  }

  // ---------------------------------------------------------------- generate_qr

  const FieldsRequired := "All fields are required"
  const GeneratedMessage := "QR Code generated successfully! \U{1F389}"
  const GenerateErrorPrefix := "Error generating QR code: "

  /** The scan URL: the three values placed after their names, unescaped. */
  function ScanUrl(base: string, t: ScanTarget): (url: string)
    ensures |url| == |base| + 33 + |t.equipmentId| + |t.apiUrl| + |t.apiKey|
    ensures url[..|base|] == base
  {
    base + "/?equipment_id=" + t.equipmentId + "&api_url=" + t.apiUrl + "&api_key=" + t.apiKey
  }

  /** The URL `generate_qr` hands to the encoder: the request's root, trailing `/` stripped. */
  function EncodedUrl(urlRoot: string, form: Params): (url: string)
    requires AllPresent(form)
    ensures var root := RStrip(urlRoot, '/');
      && |url| >= |root| + 2 && url[..|root| + 2] == root + "/?"
      && (root == [] || root[|root| - 1] != '/')
  {
    ScanUrl(RStrip(urlRoot, '/'), TargetOf(form))
  }

  /**
   * `generate_qr`. Always the generator page, always with a notice. A missing
   * or empty field is reported before any URL is built; otherwise the scan
   * URL is handed to `render` (the code library, the PNG writer and base64
   * together), whose failure is reported and whose image is shown with the
   * fields it encodes.
   */
  function GenerateQr(form: Params, urlRoot: string, render: string -> Result<string>): (v: View)
    ensures v.Generator? && v.notice.Some?
    ensures v.notice.value == Notice(FieldsRequired, ErrorNotice) <==> !AllPresent(form)
    ensures v.generated.Some? <==> v.notice.value.kind == SuccessNotice
    ensures v.generated.Some? ==>
      && AllPresent(form)
      && v.generated.value.target == TargetOf(form)
      && render(EncodedUrl(urlRoot, form)) == Ok(v.generated.value.qrCode)
      && v.notice.value.text == GeneratedMessage
    ensures AllPresent(form) && render(EncodedUrl(urlRoot, form)).Ok? ==>
      v == Generator(Some(Notice(GeneratedMessage, SuccessNotice)),
                     Some(Generated(render(EncodedUrl(urlRoot, form)).value, TargetOf(form))))
    ensures AllPresent(form) && render(EncodedUrl(urlRoot, form)).Err? ==>
      v.notice.value == Notice(GenerateErrorPrefix + render(EncodedUrl(urlRoot, form)).error, ErrorNotice)
  {
    if !AllPresent(form) then
      Generator(Some(Notice(FieldsRequired, ErrorNotice)), None)
    else
      var url := EncodedUrl(urlRoot, form);
      match render(url)
      case Ok(image) =>
        Generator(Some(Notice(GeneratedMessage, SuccessNotice)), Some(Generated(image, TargetOf(form))))
      case Err(e) =>
        assert (GenerateErrorPrefix + e)[0] != FieldsRequired[0];
        Generator(Some(Notice(GenerateErrorPrefix + e, ErrorNotice)), None)
  }

  // ---------------------------------------------------------------- reading the scan URL back

  /** The pairs the scan URL's query is written from. */
  function ScanPairs(t: ScanTarget): seq<(string, string)> {
    [("equipment_id", t.equipmentId), ("api_url", t.apiUrl), ("api_key", t.apiKey)]
  }

  /** A value that survives the trip through the URL unchanged. */
  predicate Clean(s: string) {
    '&' !in s && '#' !in s && '+' !in s && '%' !in s
  }

  /** The server sees the whole query: nothing in the URL starts a fragment or a second query. */
  lemma ScanQuery(base: string, t: ScanTarget)
    requires '?' !in base && '#' !in base
    requires '#' !in t.equipmentId && '#' !in t.apiUrl && '#' !in t.apiKey
    ensures QueryString(ScanUrl(base, t))
         == "equipment_id=" + t.equipmentId + "&api_url=" + t.apiUrl + "&api_key=" + t.apiKey
  {
    var q := "equipment_id=" + t.equipmentId + "&api_url=" + t.apiUrl + "&api_key=" + t.apiKey;
    var url := ScanUrl(base, t);
    assert url == (base + "/") + ['?'] + q;
    assert '#' !in q;
    PartitionAbsent(url, '#');
    PartitionFirst(base + "/", '?', q);
  }

  /** The query text is the three pairs written out. */
  lemma ScanQueryPieces(t: ScanTarget)
    ensures Join(Pieces(ScanPairs(t)), '&')
         == "equipment_id=" + t.equipmentId + "&api_url=" + t.apiUrl + "&api_key=" + t.apiKey
  {
    var pairs := ScanPairs(t);
    var p1 := "equipment_id" + "=" + t.equipmentId;
    var p2 := "api_url" + "=" + t.apiUrl;
    var p3 := "api_key" + "=" + t.apiKey;
    var pieces := Pieces(pairs);
    assert pieces == [p1, p2, p3];
    assert pieces[1..] == [p2, p3] && [p2, p3][1..] == [p3];
    assert Join([p3], '&') == p3;
    assert Join([p2, p3], '&') == p2 + "&" + p3;
    assert Join(pieces, '&') == p1 + "&" + (p2 + "&" + p3);
    assert "equipment_id" + "=" == "equipment_id=";
    assert "&" + "api_url" + "=" == "&api_url=";
    assert "&" + "api_key" + "=" == "&api_key=";
  }

  /**
   * What `index` reads back from the scan URL: each value as the framework
   * unquotes it, provided no value holds `&` or `#`.
   */
  lemma ScanUrlReadBack(base: string, t: ScanTarget)
    requires '?' !in base && '#' !in base
    requires '&' !in t.equipmentId && '&' !in t.apiUrl && '&' !in t.apiKey
    requires '#' !in t.equipmentId && '#' !in t.apiUrl && '#' !in t.apiKey
    ensures RequestParams(ScanUrl(base, t))
         == Params(Some(Unquote(t.equipmentId)), Some(Unquote(t.apiUrl)), Some(Unquote(t.apiKey)))
  {
    ScanArgs(base, t);
    UnquotedScanPairs(t);
    LookupScanPairs(Unquoted(ScanPairs(t)), Unquote(t.equipmentId), Unquote(t.apiUrl), Unquote(t.apiKey));
  }

  /** The pairs the server parses from the scan URL are the scan pairs, values unquoted. */
  lemma ScanArgs(base: string, t: ScanTarget)
    requires '?' !in base && '#' !in base
    requires '&' !in t.equipmentId && '&' !in t.apiUrl && '&' !in t.apiKey
    requires '#' !in t.equipmentId && '#' !in t.apiUrl && '#' !in t.apiKey
    ensures ParseQuery(QueryString(ScanUrl(base, t))) == Unquoted(ScanPairs(t))
  {
    ScanQuery(base, t);
    ScanQueryPieces(t);
    ScanKeysPlain();
    ParseWritten(ScanPairs(t));
  }

  /** The three parameter names are read back as written. */
  lemma ScanKeysPlain()
    ensures PlainKey("equipment_id") && PlainKey("api_url") && PlainKey("api_key")
  {
  }

  /** Unquoting the scan pairs unquotes the three values. */
  lemma UnquotedScanPairs(t: ScanTarget)
    ensures Unquoted(ScanPairs(t))
         == [("equipment_id", Unquote(t.equipmentId)), ("api_url", Unquote(t.apiUrl)), ("api_key", Unquote(t.apiKey))]
  {
  }

  /** The three names are distinct, so each lookup finds its own pair. */
  lemma LookupScanPairs(args: seq<(string, string)>, e: string, u: string, k: string)
    requires args == [("equipment_id", e), ("api_url", u), ("api_key", k)]
    ensures Lookup(args, "equipment_id") == Some(e)
    ensures Lookup(args, "api_url") == Some(u)
    ensures Lookup(args, "api_key") == Some(k)
  {
    assert "equipment_id"[1] != "api_url"[1] && "equipment_id"[1] != "api_key"[1];
    assert "api_url"[4] != "api_key"[4];
    var rest := [("api_url", u), ("api_key", k)];
    assert args[1..] == rest && rest[1..] == [("api_key", k)];
    assert Lookup([("api_key", k)], "api_key") == Some(k);
    assert Lookup(rest, "api_key") == Some(k);
  }

  /**
   * The round trip: values free of `&`, `#`, `+` and `%` come back exactly,
   * and non-empty ones open the scanner page on the same target.
   */
  lemma ScanUrlRoundTrip(base: string, t: ScanTarget)
    requires '?' !in base && '#' !in base
    requires Clean(t.equipmentId) && Clean(t.apiUrl) && Clean(t.apiKey)
    ensures RequestParams(ScanUrl(base, t)) == Params(Some(t.equipmentId), Some(t.apiUrl), Some(t.apiKey))
    ensures t.equipmentId != [] && t.apiUrl != [] && t.apiKey != [] ==>
      Index(RequestParams(ScanUrl(base, t))) == Scanner(t)
  {
    ScanUrlReadBack(base, t);
  }

  /** A code `generate_qr` produced from clean fields opens the scanner page on those fields. */
  lemma GenerateThenScan(form: Params, urlRoot: string, render: string -> Result<string>)
    requires '?' !in urlRoot && '#' !in urlRoot
    requires GenerateQr(form, urlRoot, render).generated.Some?
    requires var t := GenerateQr(form, urlRoot, render).generated.value.target;
      Clean(t.equipmentId) && Clean(t.apiUrl) && Clean(t.apiKey)
    ensures var g := GenerateQr(form, urlRoot, render).generated.value;
      Index(RequestParams(EncodedUrl(urlRoot, form))) == Scanner(g.target)
  {
    RStripKeepsAbsent(urlRoot, '/', '?');
    RStripKeepsAbsent(urlRoot, '/', '#');
    ScanUrlRoundTrip(RStrip(urlRoot, '/'), TargetOf(form));
  }

  // ---------------------------------------------------------------- where the unescaped URL goes wrong

  /** A `+` in a value comes back as a space: the scanner posts a different credential. */
  lemma PlusInKeyReadsAsSpace(base: string, e: string, u: string, k1: string, k2: string)
    requires '?' !in base && '#' !in base
    requires Clean(e) && Clean(u) && Clean(k1) && Clean(k2)
    ensures RequestParams(ScanUrl(base, ScanTarget(e, u, k1 + "+" + k2))).apiKey == Some(k1 + " " + k2)
  {
    ScanUrlReadBack(base, ScanTarget(e, u, k1 + "+" + k2));
    UnquotePlus(k1, k2);
  }

  /** A `%` followed by two hex digits in a value is decoded: the scanner posts a different credential. */
  lemma PercentInKeyIsDecoded(base: string, e: string, u: string, k1: string, h1: char, h2: char, k2: string)
    requires '?' !in base && '#' !in base
    requires Clean(e) && Clean(u) && Clean(k1) && Clean(k2) && IsHexDigit(h1) && IsHexDigit(h2)
    ensures RequestParams(ScanUrl(base, ScanTarget(e, u, k1 + ['%', h1, h2] + k2))).apiKey
         == Some(k1 + [(16 * HexValue(h1) + HexValue(h2)) as char] + k2)
  {
    ScanUrlReadBack(base, ScanTarget(e, u, k1 + ['%', h1, h2] + k2));
    UnquoteEscape(k1, h1, h2, k2);
  }

  /**
   * An `&` in the endpoint splits it, and what follows can set a parameter:
   * an endpoint ending in `&api_key=X` makes the scanner use X, not the key
   * the form was given, because the first `api_key` pair wins.
   */
  lemma AmpersandInUrlOverridesKey(base: string, e: string, u: string, x: string, k: string)
    requires '?' !in base && '#' !in base
    requires Clean(e) && Clean(u) && Clean(x) && Clean(k)
    ensures RequestParams(ScanUrl(base, ScanTarget(e, u + "&api_key=" + x, k)))
         == Params(Some(e), Some(u), Some(x))
  {
    var url := ScanUrl(base, ScanTarget(e, u + "&api_key=" + x, k));
    var args := [("equipment_id", e), ("api_url", u), ("api_key", x), ("api_key", k)];
    OverridingQuery(base, e, u, x, k);
    assert args[..3] == [("equipment_id", e), ("api_url", u), ("api_key", x)];
    LookupScanPairs(args[..3], e, u, x);
    LookupPrefix(args, 3, "equipment_id");
    LookupPrefix(args, 3, "api_url");
    LookupPrefix(args, 3, "api_key");
  }

  /** The overriding URL parses as four pairs, the injected key first. */
  lemma OverridingQuery(base: string, e: string, u: string, x: string, k: string)
    requires '?' !in base && '#' !in base
    requires Clean(e) && Clean(u) && Clean(x) && Clean(k)
    ensures ParseQuery(QueryString(ScanUrl(base, ScanTarget(e, u + "&api_key=" + x, k))))
         == [("equipment_id", e), ("api_url", u), ("api_key", x), ("api_key", k)]
  {
    ScanQuery(base, ScanTarget(e, u + "&api_key=" + x, k));
    OverridingPairs(e, u, x, k);
  }

  /** The overriding query text parses as four pairs. */
  lemma OverridingPairs(e: string, u: string, x: string, k: string)
    requires Clean(e) && Clean(u) && Clean(x) && Clean(k)
    ensures ParseQuery("equipment_id=" + e + "&api_url=" + (u + "&api_key=" + x) + "&api_key=" + k)
         == [("equipment_id", e), ("api_url", u), ("api_key", x), ("api_key", k)]
  {
    var pairs := [("equipment_id", e), ("api_url", u), ("api_key", x), ("api_key", k)];
    FourPiecesText(e, u, x, k);
    ScanKeysPlain();
    ParseCleanPairs(pairs);
  }

  /** Plain keys with clean values parse back as written. */
  lemma ParseCleanPairs(pairs: seq<(string, string)>)
    requires |pairs| >= 1
    requires forall i :: 0 <= i < |pairs| ==> PlainKey(pairs[i].0) && Clean(pairs[i].1)
    ensures ParseQuery(Join(Pieces(pairs), '&')) == pairs
  {
    ParseWritten(pairs);
    var unquoted := Unquoted(pairs);
    assert forall i :: 0 <= i < |pairs| ==> unquoted[i] == pairs[i];
  }

  /** The query of the overriding URL is four pairs written out. */
  lemma FourPiecesText(e: string, u: string, x: string, k: string)
    ensures Join(Pieces([("equipment_id", e), ("api_url", u), ("api_key", x), ("api_key", k)]), '&')
         == "equipment_id=" + e + "&api_url=" + (u + "&api_key=" + x) + "&api_key=" + k
  {
    var p1, p2, p3, p4 := "equipment_id" + "=" + e, "api_url" + "=" + u, "api_key" + "=" + x, "api_key" + "=" + k;
    var pieces := Pieces([("equipment_id", e), ("api_url", u), ("api_key", x), ("api_key", k)]);
    assert Join(pieces, '&') == p1 + "&" + (p2 + "&" + (p3 + "&" + p4)) by {
      assert pieces == [p1, p2, p3, p4];
      JoinFour(p1, p2, p3, p4, '&');
    }
    OverridingText(e, u, x, k);
  }

  /** The four pieces, glued with `&`, spelled out as the overriding URL's query. */
  lemma OverridingText(e: string, u: string, x: string, k: string)
    ensures ("equipment_id" + "=" + e) + "&" + (("api_url" + "=" + u) + "&" + (("api_key" + "=" + x) + "&" + ("api_key" + "=" + k)))
         == "equipment_id=" + e + "&api_url=" + (u + "&api_key=" + x) + "&api_key=" + k
  {
    assert "equipment_id" + "=" == "equipment_id=";
    assert "&" + "api_url" + "=" == "&api_url=";
    assert "&" + "api_key" + "=" == "&api_key=";
  }

  /** A key found among the first pairs is found there in the whole list. */
  lemma {:induction false} LookupPrefix(args: seq<(string, string)>, n: nat, key: string)
    requires n <= |args| && Lookup(args[..n], key).Some?
    ensures Lookup(args, key) == Lookup(args[..n], key)
  {
    if args[0].0 != key {
      assert args[..n][1..] == args[1..][..n - 1];
      LookupPrefix(args[1..], n - 1, key);
    }
  }

  /**
   * A `#` in the credential starts a fragment the browser never sends: the
   * key is cut there, and a key that starts with `#` leaves the scanned code
   * opening the generator page instead.
   */
  lemma HashCutsKey(base: string, e: string, u: string, k1: string, k2: string)
    requires '?' !in base && '#' !in base
    requires Clean(e) && Clean(u) && Clean(k1)
    ensures RequestParams(ScanUrl(base, ScanTarget(e, u, k1 + "#" + k2))) == Params(Some(e), Some(u), Some(k1))
    ensures k1 == [] ==> Index(RequestParams(ScanUrl(base, ScanTarget(e, u, k1 + "#" + k2)))).Generator?
  {
    var cut := ScanUrl(base, ScanTarget(e, u, k1));
    var url := ScanUrl(base, ScanTarget(e, u, k1 + "#" + k2));
    assert url == cut + ['#'] + k2;
    assert '#' !in cut;
    PartitionFirst(cut, '#', k2);
    PartitionAbsent(cut, '#');
    assert QueryString(url) == QueryString(cut);
    ScanUrlRoundTrip(base, ScanTarget(e, u, k1));
  }
}
