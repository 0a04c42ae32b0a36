/** The film listing and creation route. GET filters the stored films by the query
    parameters, fetches them through the inlined retry, sorts them in place with the listing
    policy and never reports failure. POST pre-checks the category, strips empty values,
    drops a zero `videoSize` and an "mp4" `videoFormat`, validates the rest against the film
    schema and passes only the schema's keys to the create call. */
module FilmsRoute {
  import opened Values
  import opened Films
  import FilmOrder
  import Retry
  import Text

  // -----------------------------------------------------------------------------------------
  // GET

  /** The `where` clause of the query. */
  datatype Where = Where(publishedOnly: bool, category: Option<string>)

  /** Builds the `where` clause from the `published` and `category` query parameters (`None`
      when the parameter is absent). */
  function WhereOf(published: Option<string>, category: Option<string>): (w: Where)
    ensures w.publishedOnly <==> published == Some("true")
    ensures w.category.Some? <==> category.Some? && category.value != ""
    ensures w.category.Some? ==> w.category == category
  {
    Where(published == Some("true"), if category.Some? && category.value != "" then category else None)
  }

  predicate Matches(w: Where, f: Film) {
    (!w.publishedOnly || f.isPublished) && (w.category.None? || f.category == w.category.value)
  }

  /** What `findMany({ where })` returns from the stored films. */
  function Filter(store: seq<Film>, w: Where): (r: seq<Film>)
    ensures forall f :: f in r <==> f in store && Matches(w, f)
  {
    if store == [] then []
    else (if Matches(w, store[0]) then [store[0]] else []) + Filter(store[1..], w)
  }

  datatype ListResponse = ListResponse(status: int, success: bool, data: seq<Film>, message: Option<string>)

  /** GET /api/films. `clientReady` says whether the database client exists and
      `databaseUrl` is the configured connection string. */
  method Get(published: Option<string>, category: Option<string>, clientReady: bool,
             databaseUrl: Option<string>, client: Retry.Client, store: seq<Film>)
    returns (resp: ListResponse)
    modifies client
    ensures resp.status == 200 && resp.success
    ensures !clientReady || databaseUrl.None? || databaseUrl == Some("") ==>
      resp.data == [] && resp.message.Some? && unchanged(client)
    ensures clientReady && databaseUrl.Some? && databaseUrl != Some("") ==>
      var a := Retry.FindManySpec(old(client.replies));
      && client.Moved(a.calls, old(client.trace), old(client.replies), old(client.runs), old(client.connected))
      && (a.outcome.Thrown? ==> resp.data == [] && resp.message.Some?)
      && (a.outcome.Returned? ==>
            && FilmOrder.Sorted(FilmOrder.Listing, resp.data)
            && multiset(resp.data) == multiset(Filter(store, WhereOf(published, category))))
  {
    var w := WhereOf(published, category);
    if !clientReady {
      return ListResponse(200, true, [], Some("client not initialised"));
    }
    if databaseUrl.None? || databaseUrl == Some("") {
      return ListResponse(200, true, [], Some("database URL not configured"));
    }
    var outcome := client.FindManyWithRetry();
    if outcome.Thrown? {
      return ListResponse(200, true, [], Some("error fetching films"));
    }
    var fetched := Filter(store, w);
    var films := new Film[|fetched|](i requires 0 <= i < |fetched| => fetched[i]);
    assert films[..] == fetched;
    FilmOrder.SortInPlace(films, FilmOrder.Listing);
    resp := ListResponse(200, true, films[..], None);
  }

  // -----------------------------------------------------------------------------------------
  // POST: the category pre-check and the cleaning of the body

  /** `body.category && !validCategories.includes(body.category)`. */
  predicate CategoryPrecheckFails(body: Object) {
    TruthyAt(body, "category") && !(body["category"].JStr? && body["category"].s in Categories)
  }

  /** The values the cleaning keeps: everything but `null` and `""`. */
  predicate Kept(v: Json) {
    v != JNull && v != JStr("")
  }

  /** The body after the cleaning loop. */
  function Cleaned(body: Object): (r: Object)
    ensures forall k :: k in r <==> k in body && Kept(body[k])
    ensures forall k :: k in r ==> r[k] == body[k]
  {
    map k | k in body && Kept(body[k]) :: body[k]
  }

  /** The cleaned body after the two deletions: a `videoSize` of 0 and a `videoFormat` of
      "mp4" are removed. */
  function Stripped(cleaned: Object): (r: Object)
    ensures forall k :: k in r <==>
      (k in cleaned && !(k == "videoSize" && cleaned[k] == JNum(0)) && !(k == "videoFormat" && cleaned[k] == JStr("mp4")))
    ensures forall k :: k in r ==> r[k] == cleaned[k]
  {
    var a := if "videoSize" in cleaned && cleaned["videoSize"] == JNum(0) then cleaned - {"videoSize"} else cleaned;
    if "videoFormat" in a && a["videoFormat"] == JStr("mp4") then a - {"videoFormat"} else a
  }

  /** The cleaning loop over the body's keys. */
  method CleanBody(body: Object) returns (cleaned: Object)
    ensures cleaned == Cleaned(body)
  {
    cleaned := map[];
    var keys := body.Keys;
    while keys != {}
      invariant keys <= body.Keys
      invariant forall k :: k in cleaned <==> k in body && k !in keys && Kept(body[k])
      invariant forall k :: k in cleaned ==> cleaned[k] == body[k]
      decreases keys
    {
      var k :| k in keys;
      if Kept(body[k]) {
        cleaned := cleaned[k := body[k]];
      }
      keys := keys - {k};
    }
  }

  // -----------------------------------------------------------------------------------------
  // POST: the film schema

  /** The schema's keys, which are also the keys allowed into the create call, in order. */
  const AllowedKeys: seq<string> := [
    "title", "titleEn", "titleEs", "description", "descriptionEn", "descriptionEs",
    "year", "duration", "category", "type", "thumbnail", "videoUrl",
    "videoSize", "videoFormat", "isPublished", "displayOrder"]

  /** `^\d{2}:\d{2}:\d{2}$`. */
  predicate IsDuration(s: string) {
    && |s| == 8
    && Text.IsDigit(s[0]) && Text.IsDigit(s[1]) && s[2] == ':'
    && Text.IsDigit(s[3]) && Text.IsDigit(s[4]) && s[5] == ':'
    && Text.IsDigit(s[6]) && Text.IsDigit(s[7])
  }

  function Lookup(o: Object, k: string): Option<Json> {
    if k in o then Some(o[k]) else None
  }

  /** Whether the schema accepts value `v` (`None` for undefined) under key `key`. `isUrl` is
      the URL check of the validation library, which is not modelled. */
  predicate FieldOk(key: string, v: Option<Json>, currentYear: int, isUrl: string -> bool) {
    match key
    case "title" => v.Some? && v.value.JStr? && |v.value.s| >= 1
    case "year" => v.Some? && v.value.JNum? && 1900 <= v.value.n <= currentYear + 1
    case "duration" => v.Some? && v.value.JStr? && IsDuration(v.value.s)
    case "category" => v.Some? && v.value.JStr? && v.value.s in Categories
    case "type" => v.None? || (v.value.JStr? && v.value.s in FilmTypes)
    case "thumbnail" => v.None? || (v.value.JStr? && (isUrl(v.value.s) || v.value.s == ""))
    case "videoUrl" => v.Some? && v.value.JStr? && isUrl(v.value.s)
    case "videoSize" => v.None? || (v.value.JNum? && v.value.n > 0)
    case "videoFormat" => v.None? || (v.value.JStr? && |v.value.s| >= 1)
    case "isPublished" => v.None? || v.value.JBool?
    case "displayOrder" => v.None? || v.value.JNum?
    case _ => v.None? || v.value.JStr?
  }

  /** A schema failure, named by the key it is about. */
  datatype Issue = Issue(path: string)

  /** The issues for the keys `keys`, in order. */
  function IssuesFor(keys: seq<string>, o: Object, currentYear: int, isUrl: string -> bool): (r: seq<Issue>)
    ensures |r| <= |keys|
    ensures forall i :: 0 <= i < |r| ==> r[i].path in keys
  {
    if keys == [] then []
    else
      (if FieldOk(keys[0], Lookup(o, keys[0]), currentYear, isUrl) then [] else [Issue(keys[0])])
      + IssuesFor(keys[1..], o, currentYear, isUrl)
  }

  /** An issue is reported for a key exactly when the key is checked and its value fails. */
  lemma {:induction false} IssuesForExact(keys: seq<string>, o: Object, currentYear: int, isUrl: string -> bool, k: string)
    ensures Issue(k) in IssuesFor(keys, o, currentYear, isUrl) <==>
      k in keys && !FieldOk(k, Lookup(o, k), currentYear, isUrl)
  {
    if keys != [] {
      IssuesForExact(keys[1..], o, currentYear, isUrl, k);
      assert k in keys <==> k == keys[0] || k in keys[1..];
    }
  }

  datatype ParseResult = Valid(data: Object) | Invalid(issues: seq<Issue>)

  /** `filmSchema.parse`: all keys checked; on success only the schema's keys are kept, with
      `isPublished` defaulting to false and `displayOrder` to 0. */
  function Parse(o: Object, currentYear: int, isUrl: string -> bool): (r: ParseResult)
    ensures r.Invalid? ==> r.issues != []
    ensures r.Valid? ==> forall k :: k in r.data ==> k in AllowedKeys
    ensures r.Valid? ==> "isPublished" in r.data && "displayOrder" in r.data
  {
    var issues := IssuesFor(AllowedKeys, o, currentYear, isUrl);
    if issues != [] then Invalid(issues)
    else Valid(WithDefaults(o))
  }

  /** The schema's output: its own keys, with `isPublished` defaulting to `false` and
      `displayOrder` to `0`. */
  function WithDefaults(o: Object): (d: Object)
    ensures forall k :: k in d <==> (k in o && k in AllowedKeys) || k == "isPublished" || k == "displayOrder"
    ensures forall k :: k in d && k in o ==> d[k] == o[k]
    ensures "isPublished" !in o ==> d["isPublished"] == JBool(false)
    ensures "displayOrder" !in o ==> d["displayOrder"] == JNum(0)
  {
    var known := map k | k in o && k in AllowedKeys :: o[k];
    known["isPublished" := if "isPublished" in o then o["isPublished"] else JBool(false)]
         ["displayOrder" := if "displayOrder" in o then o["displayOrder"] else JNum(0)]
  }

  // -----------------------------------------------------------------------------------------
  // POST: the projection and the response

  /** The create call's data: the allowed keys of the validated data. */
  function Allowed(data: Object): (r: Object)
    ensures forall k :: k in r <==> k in data && k in AllowedKeys
    ensures forall k :: k in r ==> r[k] == data[k]
  {
    map k | k in data && k in AllowedKeys :: data[k]
  }

  /** The projection loop over `allowedKeys`. */
  method ProjectAllowed(data: Object) returns (prismaData: Object)
    ensures prismaData == Allowed(data)
  {
    prismaData := map[];
    for i := 0 to |AllowedKeys|
      invariant forall k :: k in prismaData <==> k in data && k in AllowedKeys[..i]
      invariant forall k :: k in prismaData ==> prismaData[k] == data[k]
    {
      var key := AllowedKeys[i];
      if key in data {
        prismaData := prismaData[key := data[key]];
      }
    }
    assert AllowedKeys[..|AllowedKeys|] == AllowedKeys;
  }

  datatype CreateResponse =
    | Created(data: Object)
    | CategoryRejected(category: Json)
    | SchemaRejected(issues: seq<Issue>)
    | CreateFailed

  function Status(r: CreateResponse): int {
    match r
    case Created(_) => 201
    case CategoryRejected(_) => 400
    case SchemaRejected(_) => 400
    case CreateFailed => 500
  }

  /** POST /api/films. `body` is `None` when the request body cannot be parsed as JSON;
      reading `body.category` of a `null` body throws, which also fails with 500. Any other
      body is read for its fields: one that is not an object has no category, so the
      pre-check passes, and no schema key, so the schema rejects it (the index keys of a
      string or an array are not schema keys and change no issue). `createSucceeds` says
      whether the database create call succeeds. */
  method Post(body: Option<Json>, currentYear: int, isUrl: string -> bool, createSucceeds: bool)
    returns (resp: CreateResponse)
    ensures DestructureThrows(body) ==> resp == CreateFailed
    ensures !DestructureThrows(body) && CategoryPrecheckFails(ReadFields(body.value)) ==>
      resp == CategoryRejected(ReadFields(body.value)["category"])
    ensures !DestructureThrows(body) && !CategoryPrecheckFails(ReadFields(body.value)) ==>
      match Parse(Stripped(Cleaned(ReadFields(body.value))), currentYear, isUrl)
      case Invalid(issues) => resp == SchemaRejected(issues)
      case Valid(data) => resp == (if createSucceeds then Created(Allowed(data)) else CreateFailed)
  {
    if DestructureThrows(body) {
      return CreateFailed;
    }
    var b := ReadFields(body.value);
    if CategoryPrecheckFails(b) {
      return CategoryRejected(b["category"]);
    }
    var cleaned := CleanBody(b);
    if "videoSize" in cleaned && cleaned["videoSize"] == JNum(0) {
      cleaned := cleaned - {"videoSize"};
    }
    if "videoFormat" in cleaned && cleaned["videoFormat"] == JStr("mp4") {
      cleaned := cleaned - {"videoFormat"};
    }
    var parsed := Parse(cleaned, currentYear, isUrl);
    if parsed.Invalid? {
      return SchemaRejected(parsed.issues);
    }
    var prismaData := ProjectAllowed(parsed.data);
    if !createSucceeds {
      return CreateFailed;
    }
    resp := Created(prismaData);
  }

  // -----------------------------------------------------------------------------------------
  // What the create steps guarantee

  /** Any `published` value other than "true", "false" included, applies no publish filter;
      an empty `category` applies no category filter. */
  lemma {:induction false} OnlyTrueFiltersPublished(published: Option<string>, category: Option<string>)
    requires published != Some("true")
    ensures WhereOf(published, category) == WhereOf(None, category)
    ensures WhereOf(published, Some("")) == WhereOf(published, None)
  {
  }

  /** Cleaning removes `null` and `""` and keeps every other value, `0` and `false` included. */
  lemma {:induction false} CleaningKeepsZeroAndFalse(body: Object, k: string)
    requires k in body
    ensures body[k] == JNull || body[k] == JStr("") ==> k !in Cleaned(body)
    ensures body[k] == JNum(0) || body[k] == JBool(false) ==> k in Cleaned(body) && Cleaned(body)[k] == body[k]
  {
  }

  /** The schema accepts exactly when every schema key passes its check. */
  lemma {:induction false} ParseValidIff(o: Object, currentYear: int, isUrl: string -> bool)
    ensures Parse(o, currentYear, isUrl).Valid? <==>
      forall k :: k in AllowedKeys ==> FieldOk(k, Lookup(o, k), currentYear, isUrl)
  {
    var issues := IssuesFor(AllowedKeys, o, currentYear, isUrl);
    if issues != [] {
      var k := issues[0].path;
      IssuesForExact(AllowedKeys, o, currentYear, isUrl, k);
    } else {
      forall k | k in AllowedKeys
        ensures FieldOk(k, Lookup(o, k), currentYear, isUrl)
      {
        IssuesForExact(AllowedKeys, o, currentYear, isUrl, k);
      }
    }
  }

  /** The year check accepts exactly the integers from 1900 to the year after the current
      one. */
  lemma {:induction false} YearRange(n: int, currentYear: int, isUrl: string -> bool)
    ensures FieldOk("year", Some(JNum(n)), currentYear, isUrl) <==> 1900 <= n <= currentYear + 1
  {
  }

  /** The duration pattern in examples: two digits for each of hours, minutes and seconds. */
  lemma {:induction false} DurationExamples()
    ensures IsDuration("01:45:30") && IsDuration("00:00:00")
    ensures !IsDuration("1:45:30") && !IsDuration("01:45") && !IsDuration("aa:bb:cc")
  {
  }

  /** A schema-valid object's parsed data holds the required keys, valid, and the two
      defaulted ones. */
  lemma {:induction false} ValidDataMeaning(o: Object, currentYear: int, isUrl: string -> bool)
    requires Parse(o, currentYear, isUrl).Valid?
    ensures Parse(o, currentYear, isUrl).data == WithDefaults(o)
    ensures var d := WithDefaults(o);
      && "title" in d && d["title"].JStr? && d["title"].s != ""
      && "year" in d && d["year"].JNum? && 1900 <= d["year"].n <= currentYear + 1
      && "duration" in d && d["duration"].JStr? && IsDuration(d["duration"].s)
      && "category" in d && d["category"].JStr? && d["category"].s in Categories
      && "videoUrl" in d && d["videoUrl"].JStr? && isUrl(d["videoUrl"].s)
      && d["isPublished"].JBool? && d["displayOrder"].JNum?
  {
    ParseValidIff(o, currentYear, isUrl);
    RequiredOk(o, currentYear, isUrl);
  }

  lemma {:induction false} RequiredOk(o: Object, currentYear: int, isUrl: string -> bool)
    requires forall k :: k in AllowedKeys ==> FieldOk(k, Lookup(o, k), currentYear, isUrl)
    ensures "title" in o && o["title"].JStr? && o["title"].s != ""
    ensures "year" in o && o["year"].JNum? && 1900 <= o["year"].n <= currentYear + 1
    ensures "duration" in o && o["duration"].JStr? && IsDuration(o["duration"].s)
    ensures "category" in o && o["category"].JStr? && o["category"].s in Categories
    ensures "videoUrl" in o && o["videoUrl"].JStr? && isUrl(o["videoUrl"].s)
    ensures "isPublished" in o ==> o["isPublished"].JBool?
    ensures "displayOrder" in o ==> o["displayOrder"].JNum?
  {
    assert FieldOk("title", Lookup(o, "title"), currentYear, isUrl);
    assert FieldOk("year", Lookup(o, "year"), currentYear, isUrl);
    assert FieldOk("duration", Lookup(o, "duration"), currentYear, isUrl);
    assert FieldOk("category", Lookup(o, "category"), currentYear, isUrl);
    assert FieldOk("videoUrl", Lookup(o, "videoUrl"), currentYear, isUrl);
    assert FieldOk("isPublished", Lookup(o, "isPublished"), currentYear, isUrl);
    assert FieldOk("displayOrder", Lookup(o, "displayOrder"), currentYear, isUrl);
  }

  /** What reaches the create call after cleaning, stripping, parsing and projection: only
      schema keys, no `null`, no `""`, no zero `videoSize` and no "mp4" `videoFormat`, and
      the projection changes nothing. */
  lemma {:induction false} CreatedDataMeaning(body: Object, currentYear: int, isUrl: string -> bool)
    requires Parse(Stripped(Cleaned(body)), currentYear, isUrl).Valid?
    ensures var d := Parse(Stripped(Cleaned(body)), currentYear, isUrl).data;
      && Allowed(d) == d
      && (forall k :: k in d ==> Kept(d[k]))
      && ("videoSize" in d ==> d["videoSize"] != JNum(0))
      && ("videoFormat" in d ==> d["videoFormat"] != JStr("mp4"))
  {
    var o := Stripped(Cleaned(body));
    ValidDataMeaning(o, currentYear, isUrl);
    DefaultsOfStripped(body);
  }

  /** The cleaned and stripped body with its defaults holds allowed keys only, no `null` or
      `""`, no zero size and no "mp4" format. */
  lemma {:induction false} DefaultsOfStripped(body: Object)
    ensures var d := WithDefaults(Stripped(Cleaned(body)));
      && Allowed(d) == d
      && (forall k :: k in d ==> Kept(d[k]))
      && ("videoSize" in d ==> d["videoSize"] != JNum(0))
      && ("videoFormat" in d ==> d["videoFormat"] != JStr("mp4"))
  {
  }

  /** An absent category passes the pre-check but fails the schema, which requires one; an
      empty title is stripped by the cleaning and then fails the schema too. */
  lemma {:induction false} RequiredFieldsRejected(body: Object, currentYear: int, isUrl: string -> bool)
    ensures "category" !in body ==> (!CategoryPrecheckFails(body)
      && Issue("category") in IssuesFor(AllowedKeys, Stripped(Cleaned(body)), currentYear, isUrl))
    ensures "title" in body && body["title"] == JStr("") ==>
      Issue("title") in IssuesFor(AllowedKeys, Stripped(Cleaned(body)), currentYear, isUrl)
  {
    IssuesForExact(AllowedKeys, Stripped(Cleaned(body)), currentYear, isUrl, "category");
    IssuesForExact(AllowedKeys, Stripped(Cleaned(body)), currentYear, isUrl, "title");
  }

  /** A body that parses to a number, a string, a boolean or an array passes the category
      pre-check and is then rejected by the schema, every required key being missing. */
  lemma {:induction false} NonObjectBodyRejected(body: Json, currentYear: int, isUrl: string -> bool)
    requires !body.JObject? && !body.JNull?
    ensures !DestructureThrows(Some(body)) && !CategoryPrecheckFails(ReadFields(body))
    ensures Parse(Stripped(Cleaned(ReadFields(body))), currentYear, isUrl).Invalid?
    ensures Issue("title") in Parse(Stripped(Cleaned(ReadFields(body))), currentYear, isUrl).issues
  {
    RequiredFieldsRejected(ReadFields(body), currentYear, isUrl);
    IssuesForExact(AllowedKeys, Stripped(Cleaned(ReadFields(body))), currentYear, isUrl, "title");
  }
}
