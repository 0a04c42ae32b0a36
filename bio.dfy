/** The bio settings route. GET reads the ten profile fields with their defaults; POST merges
    the submitted fields into the stored settings document, keeping every key it does not
    manage. */
module Bio {
  import opened Values
  import opened SettingsStore

  /** The fields that fall back on truthiness, both in GET and in POST. */
  const ProfileFields: seq<string> :=
    ["profileImage", "name", "location", "pronouns", "email", "instagramPersonal", "instagramLombada"]

  /** The bio texts: POST replaces them whenever they are supplied, even with "". */
  const BioFields: seq<string> := ["bioPt", "bioEn", "bioEs"]

  /** The default of each field. */
  function Default(k: string): (d: string)
    ensures k in ProfileFields ==> d != ""
    ensures k in BioFields ==> d == ""
  {
    match k
    case "profileImage" => "/images/alicestamato.jpeg"
    case "name" => "Alice Stamato"
    case "location" => "São Paulo, SP, Brasil"
    case "pronouns" => "she/her"
    case "email" => "alicestamato@gmail.com"
    case "instagramPersonal" => "alicestamato"
    case "instagramLombada" => "lombadafilmes"
    case _ => ""
  }

  predicate Managed(k: string) {
    k in ProfileFields || k in BioFields
  }

  /** GET: every field at its default when the file is absent or unreadable (a failed creation
      of the data directory is caught by the same handler and is given as `Unreadable`); otherwise each
      stored field unless falsy, in which case its default. */
  function Get(file: StoredFile): (v: Object)
    ensures forall k :: k in v <==> Managed(k)
    ensures forall k :: Managed(k) && !(file.Doc? && TruthyAt(file.fields, k)) ==> v[k] == JStr(Default(k))
    ensures forall k :: Managed(k) && file.Doc? && TruthyAt(file.fields, k) ==> v[k] == file.fields[k]
  {
    map k | k in ProfileFields + BioFields ::
      if file.Doc? then FieldOr(file.fields, k, JStr(Default(k))) else JStr(Default(k))
  }

  /** The merged value of one managed field: for a profile field the submitted value if
      truthy, else the stored one if truthy, else the default; for a bio text the submitted
      value whenever present, else the stored one if truthy, else "". */
  function Merged(existing: Object, body: Object, k: string): (v: Json)
    requires Managed(k)
    ensures k in ProfileFields ==> Truthy(v)
    ensures k in BioFields && k in body ==> v == body[k]
    ensures k !in body && !TruthyAt(existing, k) ==> v == JStr(Default(k))
  {
    if k in BioFields then
      if k in body then body[k] else FieldOr(existing, k, JStr(""))
    else FieldOr(body, k, FieldOr(existing, k, JStr(Default(k))))
  }

  /** The document POST writes: the existing document with the managed fields merged and
      `updatedAt` set. */
  function Document(existing: Object, body: Object, updatedAt: string): (d: Object)
    ensures forall k :: k in d <==> k in existing || Managed(k) || k == "updatedAt"
    ensures d["updatedAt"] == JStr(updatedAt)
    ensures forall k :: Managed(k) ==> d[k] == Merged(existing, body, k)
    ensures forall k :: k in existing && !Managed(k) && k != "updatedAt" ==> d[k] == existing[k]
  {
    UpdatedAtUnmanaged();
    var merged := map k | k in ProfileFields + BioFields :: Merged(existing, body, k);
    (existing + merged)["updatedAt" := JStr(updatedAt)]
  }

  /** The time stamp is not one of the managed fields. */
  lemma {:induction false} UpdatedAtUnmanaged()
    ensures !Managed("updatedAt")
  {
    assert "updatedAt" !in ProfileFields;
    assert "updatedAt" !in BioFields;
  }

  /** POST. `dirOk` is the outcome of creating the data directory, which comes first.
      `body` is `None` when the request body cannot be parsed as JSON; destructuring a `null`
      body throws. A failed directory creation, an unreadable stored file and a failed write
      (`writeOk` false) give 500 and change nothing; an absent file merges into the empty
      document. Any other body is read for its fields: one that is not an object has none,
      so every field keeps its stored value or default. */
  method Post(store: Store, dirOk: bool, body: Option<Json>, updatedAt: string, writeOk: bool)
    returns (r: PostResponse)
    modifies store
    ensures !dirOk || DestructureThrows(body) || old(store.stored).Unreadable? || !writeOk ==>
      r == Failed && store.stored == old(store.stored)
    ensures dirOk && !DestructureThrows(body) && !old(store.stored).Unreadable? && writeOk ==>
      var existing := if old(store.stored).Doc? then old(store.stored).fields else map[];
      var d := Document(existing, ReadFields(body.value), updatedAt);
      r == Saved(d) && store.stored == Doc(d)
  {
    if !dirOk || DestructureThrows(body) {
      return Failed;
    }
    var existing: Object := map[];
    match store.stored {
      case Unreadable =>
        return Failed;
      case Doc(fields) =>
        existing := fields;
      case Missing =>
    }
    var settings := Document(existing, ReadFields(body.value), updatedAt);
    if !writeOk {
      return Failed;
    }
    store.stored := Doc(settings);
    r := Saved(settings);
  }

  /** A body that is not an object changes no stored field: every managed field keeps its
      stored value when truthy (bio texts: when present and truthy) and otherwise gets its
      default, and the rest of the document is kept. */
  lemma {:induction false} NonObjectBodyKeepsFields(existing: Object, body: Json, updatedAt: string, k: string)
    requires !body.JObject?
    requires k in existing && Truthy(existing[k]) && k != "updatedAt"
    ensures Document(existing, ReadFields(body), updatedAt)[k] == existing[k]
  {
    if k in ProfileFields {
      ProfileFieldResolution(existing, ReadFields(body), updatedAt, k);
    }
  }

  // -----------------------------------------------------------------------------------------
  // Properties

  /** A profile field resolves in order: the submitted value if truthy, else the stored one
      if truthy, else the default, so the merged value is always truthy and submitting ""
      cannot clear it. */
  lemma {:induction false} ProfileFieldResolution(existing: Object, body: Object, updatedAt: string, k: string)
    requires k in ProfileFields
    ensures var d := Document(existing, body, updatedAt);
      && (TruthyAt(body, k) ==> d[k] == body[k])
      && (!TruthyAt(body, k) && TruthyAt(existing, k) ==> d[k] == existing[k])
      && (!TruthyAt(body, k) && !TruthyAt(existing, k) ==> d[k] == JStr(Default(k)))
      && Truthy(d[k])
  {
  }

  /** A bio text is replaced by any submitted value, "" and `null` included; only an absent
      key keeps the stored text. */
  lemma {:induction false} BioFieldResolution(existing: Object, body: Object, updatedAt: string, k: string)
    requires k in BioFields
    ensures var d := Document(existing, body, updatedAt);
      && (k in body ==> d[k] == body[k])
      && (k !in body ==> d[k] == FieldOr(existing, k, JStr("")))
  {
  }

  /** POST keeps the banner fields a previous banner POST stored. */
  lemma {:induction false} KeepsBannerFields(existing: Object, body: Object, updatedAt: string)
    requires "bannerUrl" in existing
    ensures Document(existing, body, updatedAt)["bannerUrl"] == existing["bannerUrl"]
  {
    assert !Managed("bannerUrl");
  }

  /** A GET after a successful POST shows the profile fields exactly as written, and each
      bio text as written unless it was falsy, in which case "". */
  lemma {:induction false} GetAfterPost(existing: Object, body: Object, updatedAt: string, k: string)
    requires Managed(k)
    ensures var d := Document(existing, body, updatedAt);
      && (k in ProfileFields ==> Get(Doc(d))[k] == d[k])
      && (k in BioFields ==> Get(Doc(d))[k] == (if Truthy(d[k]) then d[k] else JStr("")))
  {
    var d := Document(existing, body, updatedAt);
    if k in ProfileFields {
      ProfileFieldResolution(existing, body, updatedAt, k);
    }
  }

  /** GET replaces an empty stored name or email by its default. */
  lemma {:induction false} EmptyFieldsGetDefaults(fields: Object)
    requires "name" in fields && fields["name"] == JStr("")
    requires "email" in fields && fields["email"] == JStr("")
    ensures Get(Doc(fields))["name"] == JStr("Alice Stamato")
    ensures Get(Doc(fields))["email"] == JStr("alicestamato@gmail.com")
  {
    assert Managed("name") && Managed("email");
  }
}
