/** The banner settings route. GET reads the banner fields with their defaults; POST demands
    a banner URL, clamps the opacity to 0..100 and replaces the whole settings document. */
module Banner {
  import opened Values
  import opened SettingsStore
  import Text

  const DefaultUrl: string := "/cinematic-film-production-background.jpeg"
  const DefaultPosition: string := "center"
  const DefaultOpacity: int := 90

  /** The response of GET. */
  datatype BannerView = BannerView(url: Json, position: Json, opacity: Json)

  const Defaults: BannerView := BannerView(JStr(DefaultUrl), JStr(DefaultPosition), JNum(DefaultOpacity))

  /** GET: the defaults when the file is absent or unreadable (a failed creation of the data
      directory is caught by the same handler and is given as `Unreadable`); otherwise the stored URL and
      position unless falsy, and the stored opacity unless absent. */
  function Get(file: StoredFile): (v: BannerView)
    ensures !file.Doc? ==> v == Defaults
    ensures file.Doc? ==>
      && v.url == (if TruthyAt(file.fields, "bannerUrl") then file.fields["bannerUrl"] else JStr(DefaultUrl))
      && v.position == (if TruthyAt(file.fields, "bannerPosition") then file.fields["bannerPosition"] else JStr(DefaultPosition))
      && v.opacity == (if "bannerOpacity" in file.fields then file.fields["bannerOpacity"] else JNum(DefaultOpacity))
  {
    match file
    case Doc(s) =>
      BannerView(
        FieldOr(s, "bannerUrl", JStr(DefaultUrl)),
        FieldOr(s, "bannerPosition", JStr(DefaultPosition)),
        if "bannerOpacity" in s then s["bannerOpacity"] else JNum(DefaultOpacity))
    case _ => Defaults
  }

  // -----------------------------------------------------------------------------------------
  // Number()

  /** `Number(t)` on an already trimmed string: the empty string is 0, an optional sign
      followed by decimal digits is that integer, anything else is NaN (`None`). */
  function StringNumber(t: string): (r: Option<int>)
    ensures t == "" ==> r == Some(0)
    ensures |t| >= 1 && Text.AllDigits(t) ==> r == Some(Text.DigitsValue(t))
    ensures r.Some? && r.value < 0 ==> t[0] == '-'
  {
    if t == "" then Some(0)
    else if Text.AllDigits(t) then Some(Text.DigitsValue(t))
    else if |t| >= 2 && (t[0] == '-' || t[0] == '+') && Text.AllDigits(t[1..]) then
      var m: int := Text.DigitsValue(t[1..]);
      Some(if t[0] == '-' then -m else m)
    else None
  }

  /** `Number(v)` for a JSON value, `None` standing for NaN. An array is read through its
      text, the elements joined by commas: the empty array is 0, an array of two or more
      elements has a comma and is NaN, and a one-element array reads as its element would,
      except that `true` and `false` become the words "true" and "false", which are NaN. */
  function NumberValue(v: Json): (r: Option<int>)
    ensures v.JNum? ==> r == Some(v.n)
    ensures v == JNull || v == JBool(false) ==> r == Some(0)
    ensures v.JObject? ==> r.None?
    ensures v.JArray? && |v.items| == 1 && v.items[0].JNum? ==> r == Some(v.items[0].n)
    ensures v.JArray? && |v.items| == 1 && v.items[0].JBool? ==> r.None?
    ensures v.JArray? && |v.items| >= 2 ==> r.None?
  {
    match v
    case JNull => Some(0)
    case JBool(b) => Some(if b then 1 else 0)
    case JNum(n) => Some(n)
    case JStr(s) => StringNumber(Text.Trim(s))
    case JArray(items) =>
      if items == [] then Some(0)
      else if |items| == 1 && !items[0].JBool? then NumberValue(items[0])
      else None
    case JObject(_) => None
  }

  /** `Math.max(0, Math.min(100, n))`. */
  function Clamp(n: int): (r: int)
    ensures 0 <= r <= 100
    ensures 0 <= n <= 100 ==> r == n
    ensures n < 0 ==> r == 0
    ensures n > 100 ==> r == 100
  {
    if n < 0 then 0 else if n > 100 then 100 else n
  }

  /** The stored opacity: 90 when the body has none, otherwise the clamped number, with NaN
      written as `null` as `JSON.stringify` does. */
  function Opacity(body: Object): (r: Json)
    ensures "bannerOpacity" !in body ==> r == JNum(DefaultOpacity)
    ensures "bannerOpacity" in body ==>
      match NumberValue(body["bannerOpacity"])
      case Some(n) => r == JNum(Clamp(n))
      case None => r == JNull
  {
    if "bannerOpacity" !in body then JNum(DefaultOpacity)
    else match NumberValue(body["bannerOpacity"])
      case Some(n) => JNum(Clamp(n))
      case None => JNull
  }

  /** The document POST writes: exactly the three banner fields and the time stamp. */
  function Document(body: Object, updatedAt: string): (d: Object)
    requires TruthyAt(body, "bannerUrl")
    ensures d.Keys == {"bannerUrl", "bannerPosition", "bannerOpacity", "updatedAt"}
    ensures d["bannerUrl"] == body["bannerUrl"] && d["updatedAt"] == JStr(updatedAt)
  {
    map["bannerUrl" := body["bannerUrl"],
        "bannerPosition" := FieldOr(body, "bannerPosition", JStr(DefaultPosition)),
        "bannerOpacity" := Opacity(body),
        "updatedAt" := JStr(updatedAt)]
  }

  /** POST. `dirOk` is the outcome of creating the data directory, which comes first, before
      the body is read. `body` is `None` when the request body cannot be parsed as JSON;
      destructuring a `null` body throws. Any other body is read for its fields, and a falsy
      URL (always the case for a body that is not an object) is rejected before anything is
      written; `writeOk` is the outcome of the file write. */
  method Post(store: Store, dirOk: bool, body: Option<Json>, updatedAt: string, writeOk: bool)
    returns (r: PostResponse)
    modifies store
    ensures !dirOk || DestructureThrows(body) ==> r == Failed && store.stored == old(store.stored)
    ensures dirOk && !DestructureThrows(body) && !TruthyAt(ReadFields(body.value), "bannerUrl") ==>
      r == BadRequest && store.stored == old(store.stored)
    ensures dirOk && !DestructureThrows(body) && TruthyAt(ReadFields(body.value), "bannerUrl") && !writeOk ==>
      r == Failed && store.stored == old(store.stored)
    ensures dirOk && !DestructureThrows(body) && TruthyAt(ReadFields(body.value), "bannerUrl") && writeOk ==>
      var d := Document(ReadFields(body.value), updatedAt);
      r == Saved(d) && store.stored == Doc(d)
  {
    if !dirOk || DestructureThrows(body) {
      return Failed;
    }
    var b := ReadFields(body.value);
    if !TruthyAt(b, "bannerUrl") {
      return BadRequest;
    }
    var settings := Document(b, updatedAt);
    if !writeOk {
      return Failed;
    }
    store.stored := Doc(settings);
    r := Saved(settings);
  }

  /** A body that parses to a number, a string, a boolean or an array has no URL: it is a bad
      request and nothing is written. */
  lemma {:induction false} NonObjectBodyRejected(body: Json)
    requires !body.JObject? && !body.JNull?
    ensures !DestructureThrows(Some(body)) && !TruthyAt(ReadFields(body), "bannerUrl")
  {
  }

  // -----------------------------------------------------------------------------------------
  // Properties

  /** The clamp keeps values already in range and is idempotent. */
  lemma {:induction false} ClampIdempotent(n: int)
    ensures Clamp(Clamp(n)) == Clamp(n)
    ensures Clamp(n) == n <==> 0 <= n <= 100
  {
  }

  /** The stored opacity, when a number, is within 0..100. */
  lemma {:induction false} StoredOpacityInRange(body: Object)
    ensures Opacity(body).JNum? ==> 0 <= Opacity(body).n <= 100
    ensures Opacity(body).JNull? <==> "bannerOpacity" in body && NumberValue(body["bannerOpacity"]).None?
  {
  }

  /** Signed decimal strings read as their value; other text reads as NaN. */
  lemma {:induction false} StringNumberExamples()
    ensures StringNumber("150") == Some(150)
    ensures StringNumber("-5") == Some(-5)
    ensures StringNumber("abc") == None
  {
    assert Text.DigitsValue("150") == 150 by {
      assert "150"[..2] == "15" && "15"[..1] == "1" && "1"[..0] == "";
    }
    assert Text.DigitsValue("5") == 5 by {
      assert "5"[..0] == "";
    }
    assert "-5"[1..] == "5";
    assert !Text.IsDigit("abc"[0]);
  }

  /** One-element arrays read as their element: `[5]` is 5, `["7"]` is 7 and `[[]]` is 0,
      while `[true]` is NaN. */
  lemma {:induction false} ArrayNumberExamples()
    ensures NumberValue(JArray([JNum(5)])) == Some(5)
    ensures NumberValue(JArray([JStr("7")])) == Some(7)
    ensures NumberValue(JArray([JArray([])])) == Some(0)
    ensures NumberValue(JArray([JBool(true)])).None?
  {
    Text.TrimUnpadded("7");
    assert Text.DigitsValue("7") == 7 by { assert "7"[..0] == ""; }
  }

  /** Opacity strings are read as numbers after trimming: "150" is stored as 100, "-5" as 0,
      "" as 0 and "abc" as `null`; a number in range is stored as it is. */
  lemma {:induction false} OpacityExamples()
    ensures Opacity(map["bannerOpacity" := JStr("150")]) == JNum(100)
    ensures Opacity(map["bannerOpacity" := JStr("-5")]) == JNum(0)
    ensures Opacity(map["bannerOpacity" := JStr("")]) == JNum(0)
    ensures Opacity(map["bannerOpacity" := JStr("abc")]) == JNull
    ensures Opacity(map["bannerOpacity" := JNum(40)]) == JNum(40)
  {
    OutOfRangeExamples();
    EmptyAndTextExamples();
  }

  /** "150" is clamped to 100 and "-5" to 0. */
  lemma {:induction false} OutOfRangeExamples()
    ensures Opacity(map["bannerOpacity" := JStr("150")]) == JNum(100)
    ensures Opacity(map["bannerOpacity" := JStr("-5")]) == JNum(0)
  {
    StringNumberExamples();
    OpacityOfText("150");
    OpacityOfText("-5");
  }

  /** "" reads as 0 and "abc" as NaN, stored as `null`. */
  lemma {:induction false} EmptyAndTextExamples()
    ensures Opacity(map["bannerOpacity" := JStr("")]) == JNum(0)
    ensures Opacity(map["bannerOpacity" := JStr("abc")]) == JNull
  {
    StringNumberExamples();
    OpacityOfText("");
    OpacityOfText("abc");
  }

  /** Text with no surrounding whitespace is stored as its number, clamped, or as `null`. */
  lemma {:induction false} OpacityOfText(s: string)
    requires s == [] || (!Text.IsWhitespace(s[0]) && !Text.IsWhitespace(s[|s| - 1]))
    ensures Opacity(map["bannerOpacity" := JStr(s)])
            == match StringNumber(s) case Some(n) => JNum(Clamp(n)) case None => JNull
  {
    Text.TrimUnpadded(s);
  }

  /** The banner POST drops every other key of the stored document, the bio fields
      included. */
  lemma {:induction false} PostOverwritesDocument(body: Object, updatedAt: string, k: string)
    requires TruthyAt(body, "bannerUrl")
    requires k !in {"bannerUrl", "bannerPosition", "bannerOpacity", "updatedAt"}
    ensures k !in Document(body, updatedAt)
  {
  }

  /** A GET after a successful POST returns what the POST saved: the URL and position saved
      are truthy, and the opacity is present. */
  lemma {:induction false} GetAfterPost(body: Object, updatedAt: string)
    requires TruthyAt(body, "bannerUrl")
    ensures var d := Document(body, updatedAt);
      Get(Doc(d)) == BannerView(d["bannerUrl"], d["bannerPosition"], d["bannerOpacity"])
  {
    assert Truthy(JStr(DefaultPosition));
  }

  /** GET falls back on falsy URL and position but not on a falsy opacity: a stored 0 is
      returned as 0 while a stored "" URL gives the default. */
  lemma {:induction false} GetFallbacksDiffer()
    ensures Get(Doc(map["bannerUrl" := JStr(""), "bannerOpacity" := JNum(0)]))
      == BannerView(JStr(DefaultUrl), JStr(DefaultPosition), JNum(0))
  {
  }
}
