/** The film form of the admin page: the fields loaded when a film is edited, the parsing of
    the numeric inputs, and the submission, which uploads the chosen files, checks the
    category and sends the film to the films route as JSON. */
module AdminForm {
  import opened Values
  import opened Films
  import Text
  import Upload

  /** The form's fields. `year` is `None` when the year input does not parse (NaN), which
      the JSON body then carries as `null`. */
  datatype FormData = FormData(
    title: string,
    titleEn: string,
    titleEs: string,
    description: string,
    descriptionEn: string,
    descriptionEs: string,
    year: Option<int>,
    duration: string,
    category: string,
    filmType: string,
    thumbnail: string,
    thumbnailFile: Option<Upload.FileInfo>,
    videoFile: Option<Upload.FileInfo>,
    videoUrl: string,
    isPublished: bool,
    displayOrder: int)

  /** The empty form, as first shown and as `resetForm` leaves it. */
  function InitialForm(currentYear: int): FormData {
    FormData("", "", "", "", "", "", Some(currentYear), "00:00:00", "Ficção", "", "", None, None, "",
             false, 0)
  }

  function OrEmpty(s: Option<string>): string {
    if s.Some? then s.value else ""
  }

  /** `handleEdit`: the film's fields, "" for a missing text, 0 for a missing display order,
      and no files chosen. */
  function EditForm(film: Film): (form: FormData)
    ensures form.thumbnailFile.None? && form.videoFile.None?
    ensures form.title == film.title && form.year == Some(film.year) && form.category == film.category
    ensures form.videoUrl == film.videoUrl && form.isPublished == film.isPublished
    ensures film.displayOrder.Some? ==> form.displayOrder == film.displayOrder.value
    ensures film.displayOrder.None? ==> form.displayOrder == 0
  {
    FormData(film.title, OrEmpty(film.titleEn), OrEmpty(film.titleEs), OrEmpty(film.description),
             OrEmpty(film.descriptionEn), OrEmpty(film.descriptionEs), Some(film.year), film.duration,
             film.category, OrEmpty(film.filmType), OrEmpty(film.thumbnail), None, None, film.videoUrl,
             film.isPublished, if film.displayOrder.Some? then film.displayOrder.value else 0)
  }

  // -----------------------------------------------------------------------------------------
  // The display-order input

  /** The input's `onChange`: "" gives 0, text `parseInt` cannot read gives 0, anything else
      the value `parseInt` reads. */
  function DisplayOrderInput(value: string): (n: int)
    ensures value == "" || Text.ParseInt(value).None? ==> n == 0
    ensures value != "" && Text.ParseInt(value).Some? ==> n == Text.ParseInt(value).value
  {
    if value == "" then 0
    else match Text.ParseInt(value)
      case Some(m) => m
      case None => 0
  }

  /** What the input shows: nothing for 0, otherwise the number. */
  function DisplayedOrder(n: int): string {
    if n == 0 then "" else Text.IntString(n)
  }

  /** Reading the input back gives the display order it shows, for every order. */
  lemma {:induction false} DisplayOrderRoundTrip(n: int)
    ensures DisplayOrderInput(DisplayedOrder(n)) == n
  {
    if n != 0 {
      Text.ParseIntRoundTrip(n);
    }
  }

  /** Typed text is read up to its first non-digit: "12abc" gives 12; a lone "0" before an
      'x' starts a hexadecimal number instead, and one without hex digits after it gives 0. */
  lemma {:induction false} DisplayOrderReadsLeadingDigits(digits: string, tail: string)
    requires |digits| >= 1 && Text.AllDigits(digits)
    requires tail == [] || !Text.IsDigit(tail[0])
    ensures !Text.HexPrefixed(digits + tail) ==> DisplayOrderInput(digits + tail) == Text.DigitsValue(digits)
    ensures Text.HexPrefixed(digits + tail) ==>
      DisplayOrderInput(digits + tail) == (match Text.HexPrefix(tail[1..]) case Some(m) => m case None => 0)
  {
    Text.ParseIntStopsAtNonDigit(digits, tail);
  }

  /** Text that does not start with a number gives 0: "abc" gives 0. */
  lemma {:induction false} DisplayOrderUnreadable(value: string)
    requires value != [] && !Text.IsDigit(value[0]) && !Text.IsWhitespace(value[0])
    requires value[0] != '-' && value[0] != '+'
    ensures DisplayOrderInput(value) == 0
  {
    Text.ParseIntNoDigits(value);
  }

  // -----------------------------------------------------------------------------------------
  // The video format

  /** `type.split('/')[1] || 'mp4'`: the MIME subtype, or "mp4" when there is none. */
  function VideoFormat(mimeType: string): (r: string)
    ensures r != "" && '/' !in r
  {
    var pieces := Text.Split(mimeType, '/');
    if |pieces| >= 2 && pieces[1] != "" then pieces[1] else "mp4"
  }

  /** The format of "type/subtype" is the subtype, or "mp4" when it is empty. */
  lemma {:induction false} VideoFormatOfSubtype(kind: string, subtype: string)
    requires '/' !in kind && '/' !in subtype
    ensures VideoFormat(kind + "/" + subtype) == if subtype == "" then "mp4" else subtype
  {
    var s := kind + ['/'] + subtype;
    assert kind + "/" + subtype == s;
    Text.FirstIndexAfterPrefix(kind, '/', subtype);
    assert s[|kind| + 1..] == subtype;
    assert s[..|kind|] == kind;
    assert Text.Split(s, '/') == [kind] + Text.Split(subtype, '/');
  }

  /** A MIME type without '/' gives "mp4". */
  lemma {:induction false} VideoFormatWithoutSlash(mimeType: string)
    requires '/' !in mimeType
    ensures VideoFormat(mimeType) == "mp4"
  {
  }

  // -----------------------------------------------------------------------------------------
  // The submitted film

  /** The JSON value of the year: `null` for NaN. */
  function YearJson(year: Option<int>): Json {
    if year.Some? then JNum(year.value) else JNull
  }

  /** The keys the body may hold; `KeyName` gives each one's JSON name. */
  datatype Key = Title | TitleEn | TitleEs | Description | DescriptionEn | DescriptionEs | Year
               | Duration | Category | Type | IsPublished | DisplayOrder | VideoUrl | Thumbnail
               | VideoSize | VideoFormatKey

  function KeyName(k: Key): string {
    match k
    case Title => "title"
    case TitleEn => "titleEn"
    case TitleEs => "titleEs"
    case Description => "description"
    case DescriptionEn => "descriptionEn"
    case DescriptionEs => "descriptionEs"
    case Year => "year"
    case Duration => "duration"
    case Category => "category"
    case Type => "type"
    case IsPublished => "isPublished"
    case DisplayOrder => "displayOrder"
    case VideoUrl => "videoUrl"
    case Thumbnail => "thumbnail"
    case VideoSize => "videoSize"
    case VideoFormatKey => "videoFormat"
  }

  /** The JSON body, by key. */
  type Body = map<Key, Json>

  const AllKeys: set<Key> := {Title, TitleEn, TitleEs, Description, DescriptionEn, DescriptionEs,
    Year, Duration, Category, Type, IsPublished, DisplayOrder, VideoUrl, Thumbnail, VideoSize,
    VideoFormatKey}

  /** The data the body is built from: the form and the locals `handleSubmit` computes. */
  datatype Sources = Sources(form: FormData, videoUrl: string, videoSize: int, videoFormat: string,
                             thumbnailUrl: string)

  /** Whether `filmData` carries a key: the optional texts when non-empty (`|| undefined`), the
      type and the thumbnail when not blank, the video size and format only when both are
      truthy, everything else always. */
  predicate Sent(src: Sources, k: Key) {
    match k
    case TitleEn => src.form.titleEn != ""
    case TitleEs => src.form.titleEs != ""
    case Description => src.form.description != ""
    case DescriptionEn => src.form.descriptionEn != ""
    case DescriptionEs => src.form.descriptionEs != ""
    case Type => !Text.Blank(src.form.filmType)
    case Thumbnail => !Text.Blank(src.thumbnailUrl)
    case VideoSize => src.videoSize != 0 && src.videoFormat != ""
    case VideoFormatKey => src.videoSize != 0 && src.videoFormat != ""
    case _ => true
  }

  /** The value sent for a key. */
  function SentValue(src: Sources, k: Key): Json {
    var f := src.form;
    match k
    case Title => JStr(f.title)
    case TitleEn => JStr(f.titleEn)
    case TitleEs => JStr(f.titleEs)
    case Description => JStr(f.description)
    case DescriptionEn => JStr(f.descriptionEn)
    case DescriptionEs => JStr(f.descriptionEs)
    case Year => YearJson(f.year)
    case Duration => JStr(f.duration)
    case Category => JStr(f.category)
    case Type => JStr(f.filmType)
    case IsPublished => JBool(f.isPublished)
    case DisplayOrder => JNum(f.displayOrder)
    case VideoUrl => JStr(src.videoUrl)
    case Thumbnail => JStr(src.thumbnailUrl)
    case VideoSize => JNum(src.videoSize)
    case VideoFormatKey => JStr(src.videoFormat)
  }

  /** `filmData` as sent. */
  function Payload(src: Sources): (p: Body) {
    map k | k in AllKeys && Sent(src, k) :: SentValue(src, k)
  }

  /** Every key is one of `AllKeys`. */
  lemma {:induction false} InAllKeys(k: Key)
    ensures k in AllKeys
  {
  }

  /** A key is in the body exactly when it is sent, and carries the value sent for it. */
  lemma {:induction false} PayloadAt(src: Sources, k: Key)
    ensures k in Payload(src) <==> Sent(src, k)
    ensures k in Payload(src) ==> Payload(src)[k] == SentValue(src, k)
  {
    InAllKeys(k);
  }

  /** The fields the body always carries: title, year, duration, category, the two flags
      and the video URL, with the form's values. */
  lemma {:induction false} PayloadAlwaysCarries(src: Sources)
    ensures var p := Payload(src);
      && Title in p && p[Title] == JStr(src.form.title)
      && Year in p && p[Year] == YearJson(src.form.year)
      && Category in p && p[Category] == JStr(src.form.category)
      && Duration in p && IsPublished in p && DisplayOrder in p
      && VideoUrl in p && p[VideoUrl] == JStr(src.videoUrl)
  {
    PayloadAt(src, Title);
    PayloadAt(src, Year);
    PayloadAt(src, Category);
    PayloadAt(src, Duration);
    PayloadAt(src, IsPublished);
    PayloadAt(src, DisplayOrder);
    PayloadAt(src, VideoUrl);
  }

  /** The translations and descriptions are sent only when non-empty. */
  lemma {:induction false} PayloadOptionalTexts(src: Sources)
    ensures var p := Payload(src); var f := src.form;
      && (TitleEn in p <==> f.titleEn != "") && (TitleEs in p <==> f.titleEs != "")
      && (Description in p <==> f.description != "")
      && (DescriptionEn in p <==> f.descriptionEn != "")
      && (DescriptionEs in p <==> f.descriptionEs != "")
  {
    PayloadAt(src, TitleEn);
    PayloadAt(src, TitleEs);
    PayloadAt(src, Description);
    PayloadAt(src, DescriptionEn);
    PayloadAt(src, DescriptionEs);
  }

  /** The type and the thumbnail are sent only when not blank (their `trim()` is non-empty,
      by `Text.TrimEmptyIff`), and the video size and
      format together, only when both are truthy. */
  lemma {:induction false} PayloadMediaKeys(src: Sources)
    ensures var p := Payload(src);
      && (Type in p <==> !Text.Blank(src.form.filmType))
      && (Thumbnail in p <==> !Text.Blank(src.thumbnailUrl))
      && (VideoSize in p <==> src.videoSize != 0 && src.videoFormat != "")
      && (VideoFormatKey in p <==> VideoSize in p)
  {
    PayloadAt(src, Type);
    PayloadAt(src, Thumbnail);
    PayloadAt(src, VideoSize);
    PayloadAt(src, VideoFormatKey);
  }

  // -----------------------------------------------------------------------------------------
  // The submission

  /** Whether a film is being edited: `editingId` is truthy. */
  predicate Editing(editingId: Option<string>) {
    editingId.Some? && editingId.value != ""
  }

  /** `films.find(f => f.id === id)`: the first film with that id. */
  function Find(films: seq<Film>, id: string): (r: Option<Film>)
    ensures r.None? <==> forall i :: 0 <= i < |films| ==> films[i].id != id
    ensures r.Some? ==> exists i :: 0 <= i < |films| && films[i] == r.value && r.value.id == id
                                    && forall j :: 0 <= j < i ==> films[j].id != id
  {
    if films == [] then None
    else if films[0].id == id then Some(films[0])
    else Find(films[1..], id)
  }

  /** What `/api/upload` answered for a file: the stored file's URL, or a failure whose body's
      `message` may be empty. */
  datatype UploadReply = UploadOk(url: string) | UploadError(message: string)

  /** The video fields sent with the film: URL, size in bytes (0 when falsy) and format ("" when
      falsy). */
  datatype Video = Video(url: string, size: int, format: string)

  /** The save request: method, URL and JSON body. */
  datatype Request = Request(httpMethod: string, url: string, body: Body)

  /** What a submission comes to before its answer: the files uploaded, in order, and either
      the error thrown before the save request or the save request. */
  datatype Submission =
    | Abort(uploads: seq<Upload.FileInfo>, message: string)
    | Send(uploads: seq<Upload.FileInfo>, request: Request)

  const ThumbnailUploadFailed := "Erro ao fazer upload da thumbnail"
  const VideoRequired := "Você precisa fazer upload de um vídeo"
  const VideoUploadFailed := "Erro ao fazer upload do vídeo"

  function InvalidCategory(category: string): string {
    "Categoria inválida: \"" + category + "\". Selecione uma categoria válida."
  }

  /** `message || fallback`. */
  function OrElse(message: string, fallback: string): string {
    if message != "" then message else fallback
  }

  /** The video kept when no file is chosen: the edited film's URL, size and format when the
      film is found (a size or format that is falsy counts as absent), otherwise the form's
      URL alone. */
  function KeptVideo(form: FormData, editingId: Option<string>, films: seq<Film>): (v: Video)
    ensures Editing(editingId) && Find(films, editingId.value).Some? ==>
      var f := Find(films, editingId.value).value;
      v.url == f.videoUrl && (v.size != 0 ==> f.videoSize == Some(v.size))
    ensures !(Editing(editingId) && Find(films, editingId.value).Some?) ==> v == Video(form.videoUrl, 0, "")
  {
    if Editing(editingId) && Find(films, editingId.value).Some? then
      var f := Find(films, editingId.value).value;
      Video(f.videoUrl, if f.videoSize.Some? then f.videoSize.value else 0, OrEmpty(f.videoFormat))
    else Video(form.videoUrl, 0, "")
  }

  /** `handleSubmit` up to the save request: the thumbnail upload, the video requirement for a
      new film, the video upload, the category check, then the request. `thumbReply` and
      `videoReply` are the upload route's answers, read only when that file was chosen. */
  function Prepare(form: FormData, editingId: Option<string>, films: seq<Film>,
                   thumbReply: UploadReply, videoReply: UploadReply): (sub: Submission)
    ensures sub.Send? ==> form.category in Categories && (form.videoFile.Some? || Editing(editingId))
    ensures sub.Send? ==> (sub.request.httpMethod == "PATCH" <==> Editing(editingId))
    ensures sub.Abort? ==> sub.message != ""
  {
    var thumbUploads := if form.thumbnailFile.Some? then [form.thumbnailFile.value] else [];
    if form.thumbnailFile.Some? && thumbReply.UploadError? then
      Abort(thumbUploads, OrElse(thumbReply.message, ThumbnailUploadFailed))
    else if form.videoFile.None? && !Editing(editingId) then
      Abort(thumbUploads, VideoRequired)
    else
      var uploads := thumbUploads + if form.videoFile.Some? then [form.videoFile.value] else [];
      if form.videoFile.Some? && videoReply.UploadError? then
        Abort(uploads, OrElse(videoReply.message, VideoUploadFailed))
      else if form.category !in Categories then
        Abort(uploads, InvalidCategory(form.category))
      else
        var video := SentVideo(form, editingId, films, videoReply);
        var thumbnailUrl := if form.thumbnailFile.Some? then thumbReply.url else form.thumbnail;
        Send(uploads, SaveRequest(editingId, Payload(Sources(form, video.url, video.size,
                                                             video.format, thumbnailUrl))))
  }

  /** The video sent: the uploaded file's URL, size and format when a file was chosen,
      otherwise the kept one. */
  function SentVideo(form: FormData, editingId: Option<string>, films: seq<Film>,
                     videoReply: UploadReply): Video
    requires form.videoFile.Some? ==> videoReply.UploadOk?
  {
    if form.videoFile.Some? then
      Video(videoReply.url, form.videoFile.value.size, VideoFormat(form.videoFile.value.mimeType))
    else KeptVideo(form, editingId, films)
  }

  /** A PATCH to the film's URL when editing, a POST to the collection otherwise. */
  function SaveRequest(editingId: Option<string>, body: Body): (r: Request)
    ensures r.body == body
    ensures r.httpMethod == "PATCH" <==> Editing(editingId)
    ensures Editing(editingId) ==> r.url == "/api/films/" + editingId.value
    ensures !Editing(editingId) ==> r.httpMethod == "POST" && r.url == "/api/films"
  {
    if Editing(editingId) then Request("PATCH", "/api/films/" + editingId.value, body)
    else Request("POST", "/api/films", body)
  }

  /** The keys of the object literal `filmData` starts as. */
  const LiteralKeys: set<Key> := AllKeys - {VideoUrl, Thumbnail, VideoSize, VideoFormatKey}

  /** The object literal as JSON sends it: its `|| undefined` entries and a blank type are
      left out. */
  function Literal(src: Sources): Body {
    map k | k in LiteralKeys && Sent(src, k) :: SentValue(src, k)
  }

  /** The object literal with the video URL, the thumbnail and the video fields added as
      `handleSubmit` adds them agrees with the payload on every key. */
  lemma {:induction false} AdditionsAt(src: Sources, k: Key)
    ensures var b0 := Literal(src)[VideoUrl := JStr(src.videoUrl)];
      var b1 := if !Text.Blank(src.thumbnailUrl) then b0[Thumbnail := JStr(src.thumbnailUrl)] else b0;
      var b2 := if src.videoSize != 0 && src.videoFormat != "" then
        b1[VideoSize := JNum(src.videoSize)][VideoFormatKey := JStr(src.videoFormat)] else b1;
      (k in b2 <==> k in Payload(src)) && (k in b2 ==> b2[k] == Payload(src)[k])
  {
    PayloadAt(src, k);
    if k !in {VideoUrl, Thumbnail, VideoSize, VideoFormatKey} {
      InAllKeys(k);
      assert k in LiteralKeys;
    }
  }

  /** `filmData` built as `handleSubmit` builds it: the object literal, then the video URL,
      the thumbnail when not blank (a `trim()` that is "" is a blank string, by
      `Text.TrimEmptyIff`), and the video size and format when both are truthy. */
  method BuildFilmData(src: Sources) returns (body: Body)
    ensures body == Payload(src)
  {
    body := Literal(src);
    body := body[VideoUrl := JStr(src.videoUrl)];
    if !Text.Blank(src.thumbnailUrl) {
      body := body[Thumbnail := JStr(src.thumbnailUrl)];
    }
    if src.videoSize != 0 && src.videoFormat != "" {
      body := body[VideoSize := JNum(src.videoSize)];
      body := body[VideoFormatKey := JStr(src.videoFormat)];
    }
    forall k: Key
      ensures (k in body <==> k in Payload(src)) && (k in body ==> body[k] == Payload(src)[k])
    {
      AdditionsAt(src, k);
    }
  }

  /** `handleSubmit` up to the save request, step by step as the page runs it. */
  method Submit(form: FormData, editingId: Option<string>, films: seq<Film>,
                thumbReply: UploadReply, videoReply: UploadReply) returns (sub: Submission)
    ensures sub == Prepare(form, editingId, films, thumbReply, videoReply)
  {
    var videoUrl := form.videoUrl;
    var videoSize := 0;
    var videoFormat := "";
    var thumbnailUrl := form.thumbnail;
    var uploads: seq<Upload.FileInfo> := [];
    if form.thumbnailFile.Some? {
      uploads := uploads + [form.thumbnailFile.value];
      if thumbReply.UploadError? {
        return Abort(uploads, OrElse(thumbReply.message, ThumbnailUploadFailed));
      }
      thumbnailUrl := thumbReply.url;
    }
    if form.videoFile.None? && !Editing(editingId) {
      return Abort(uploads, VideoRequired);
    }
    if form.videoFile.Some? {
      var file := form.videoFile.value;
      uploads := uploads + [file];
      if videoReply.UploadError? {
        return Abort(uploads, OrElse(videoReply.message, VideoUploadFailed));
      }
      videoUrl := videoReply.url;
      videoSize := file.size;
      videoFormat := VideoFormat(file.mimeType);
    } else if Editing(editingId) {
      var existing := Find(films, editingId.value);
      if existing.Some? {
        var film := existing.value;
        videoUrl := film.videoUrl;
        videoSize := if film.videoSize.Some? then film.videoSize.value else 0;
        videoFormat := OrEmpty(film.videoFormat);
      }
    }
    if form.category !in Categories {
      return Abort(uploads, InvalidCategory(form.category));
    }
    assert SentVideo(form, editingId, films, videoReply) == Video(videoUrl, videoSize, videoFormat);
    var body := BuildFilmData(Sources(form, videoUrl, videoSize, videoFormat, thumbnailUrl));
    var url := if Editing(editingId) then "/api/films/" + editingId.value else "/api/films";
    var httpMethod := if Editing(editingId) then "PATCH" else "POST";
    sub := Send(uploads, Request(httpMethod, url, body));
    assert sub.request == SaveRequest(editingId, body);
  }

  // -----------------------------------------------------------------------------------------
  // Properties of the submission

  /** The files chosen on the form, thumbnail first. */
  function Chosen(form: FormData): seq<Upload.FileInfo> {
    (if form.thumbnailFile.Some? then [form.thumbnailFile.value] else [])
    + (if form.videoFile.Some? then [form.videoFile.value] else [])
  }

  /** A new film without a video file is never sent: the submission stops before the save
      request, uploading at most the thumbnail, and once the thumbnail is through the error
      is the video requirement. */
  lemma {:induction false} NewFilmNeedsVideo(form: FormData, editingId: Option<string>, films: seq<Film>,
                          thumbReply: UploadReply, videoReply: UploadReply)
    requires !Editing(editingId) && form.videoFile.None?
    ensures var sub := Prepare(form, editingId, films, thumbReply, videoReply);
      && sub.Abort? && sub.uploads == Chosen(form)
      && (form.thumbnailFile.None? || thumbReply.UploadOk? ==> sub.message == VideoRequired)
  {
  }

  /** A category outside the four allowed values is never sent. */
  lemma {:induction false} InvalidCategoryNeverSent(form: FormData, editingId: Option<string>, films: seq<Film>,
                                 thumbReply: UploadReply, videoReply: UploadReply)
    requires form.category !in Categories
    ensures Prepare(form, editingId, films, thumbReply, videoReply).Abort?
  {
  }

  /** The category is checked only after the uploads: with an invalid category and uploads
      that succeed, every chosen file has still been uploaded when the error is raised. */
  lemma {:induction false} UploadsBeforeCategoryCheck(form: FormData, editingId: Option<string>, films: seq<Film>,
                                   thumbReply: UploadReply, videoReply: UploadReply)
    requires form.category !in Categories
    requires form.videoFile.Some? || Editing(editingId)
    requires form.thumbnailFile.Some? ==> thumbReply.UploadOk?
    requires form.videoFile.Some? ==> videoReply.UploadOk?
    ensures Prepare(form, editingId, films, thumbReply, videoReply)
            == Abort(Chosen(form), InvalidCategory(form.category))
  {
  }

  /** A sent film has a valid category and a video, every chosen file was uploaded, and the
      request is a PATCH to the film's URL exactly when editing and a POST to the collection
      otherwise. */
  lemma {:induction false} SentRequestMeaning(form: FormData, editingId: Option<string>, films: seq<Film>,
                           thumbReply: UploadReply, videoReply: UploadReply)
    requires Prepare(form, editingId, films, thumbReply, videoReply).Send?
    ensures var sub := Prepare(form, editingId, films, thumbReply, videoReply);
      var r := sub.request;
      && form.category in Categories
      && (form.videoFile.Some? || Editing(editingId))
      && sub.uploads == Chosen(form)
      && (r.httpMethod == "PATCH" <==> Editing(editingId))
      && (r.httpMethod == "PATCH" ==> r.url == "/api/films/" + editingId.value)
      && (r.httpMethod != "PATCH" ==> r.httpMethod == "POST" && r.url == "/api/films")
  {
  }

  /** A sent body carries the form's category, the uploaded video's URL when a file was
      chosen, and the uploaded thumbnail's URL when one was chosen and its URL is not blank. */
  lemma {:induction false} SentBodyMeaning(form: FormData, editingId: Option<string>, films: seq<Film>,
                        thumbReply: UploadReply, videoReply: UploadReply)
    requires Prepare(form, editingId, films, thumbReply, videoReply).Send?
    ensures var body := Prepare(form, editingId, films, thumbReply, videoReply).request.body;
      && Category in body && body[Category] == JStr(form.category)
      && VideoUrl in body
      && (form.videoFile.Some? ==> body[VideoUrl] == JStr(videoReply.url))
      && (form.thumbnailFile.Some? && !Text.Blank(thumbReply.url) ==>
            Thumbnail in body && body[Thumbnail] == JStr(thumbReply.url))
  {
    var src := SentSources(form, editingId, films, thumbReply, videoReply);
    SentBodyIsPayload(form, editingId, films, thumbReply, videoReply);
    PayloadAlwaysCarries(src);
    PayloadAt(src, Thumbnail);
  }

  /** What a sent body is built from: the form, the video the request carries, and the
      uploaded thumbnail's URL when a file was chosen. */
  function SentSources(form: FormData, editingId: Option<string>, films: seq<Film>,
                       thumbReply: UploadReply, videoReply: UploadReply): Sources
    requires form.videoFile.Some? ==> videoReply.UploadOk?
    requires form.thumbnailFile.Some? ==> thumbReply.UploadOk?
  {
    var video := SentVideo(form, editingId, films, videoReply);
    Sources(form, video.url, video.size, video.format,
            if form.thumbnailFile.Some? then thumbReply.url else form.thumbnail)
  }

  /** A sent body is the payload of its sources. */
  lemma {:induction false} SentBodyIsPayload(form: FormData, editingId: Option<string>, films: seq<Film>,
                                             thumbReply: UploadReply, videoReply: UploadReply)
    requires Prepare(form, editingId, films, thumbReply, videoReply).Send?
    ensures Prepare(form, editingId, films, thumbReply, videoReply).request.body
            == Payload(SentSources(form, editingId, films, thumbReply, videoReply))
  {
  }

  /** What an edited film is sent from: its form, with its own video URL, size and format
      and its thumbnail. */
  function EditSources(film: Film): Sources {
    Sources(EditForm(film), film.videoUrl, if film.videoSize.Some? then film.videoSize.value else 0,
            OrEmpty(film.videoFormat), OrEmpty(film.thumbnail))
  }

  /** Saving a listed film loaded into the form, without choosing files, sends a PATCH to its
      URL with no upload and the body built from the film itself. */
  lemma {:induction false} EditedFilmSubmission(film: Film, films: seq<Film>, thumbReply: UploadReply,
                             videoReply: UploadReply)
    requires Find(films, film.id) == Some(film) && film.id != ""
    requires film.category in Categories
    ensures Prepare(EditForm(film), Some(film.id), films, thumbReply, videoReply)
            == Send([], Request("PATCH", "/api/films/" + film.id, Payload(EditSources(film))))
  {
    var form := EditForm(film);
    assert SentVideo(form, Some(film.id), films, videoReply)
           == Video(film.videoUrl, EditSources(film).videoSize, EditSources(film).videoFormat);
  }

  /** The body an edited film is sent with gives the film back: its title, year, category
      and video URL, its size and format when both are truthy, and its thumbnail and
      translations when present. */
  lemma {:induction false} EditedFilmBody(film: Film)
    ensures var body := Payload(EditSources(film));
      && Title in body && body[Title] == JStr(film.title)
      && Year in body && body[Year] == JNum(film.year)
      && Category in body && body[Category] == JStr(film.category)
      && VideoUrl in body && body[VideoUrl] == JStr(film.videoUrl)
      && (VideoSize in body <==> film.videoSize.Some? && film.videoSize.value != 0
                                 && film.videoFormat.Some? && film.videoFormat.value != "")
      && (Thumbnail in body <==> film.thumbnail.Some? && !Text.Blank(film.thumbnail.value))
      && (TitleEn in body <==> film.titleEn.Some? && film.titleEn.value != "")
  {
    var src := EditSources(film);
    PayloadAlwaysCarries(src);
    PayloadAt(src, VideoSize);
    PayloadAt(src, Thumbnail);
    PayloadAt(src, TitleEn);
  }

  // -----------------------------------------------------------------------------------------
  // The page's state

  /** What the films route answered the save request: success, or a failure with the body's
      `message` and first issue's message (each "" when absent, and both "" when the body is
      not JSON), the HTTP status and its text. */
  datatype SaveReply = SaveOk | SaveError(message: string, issueMessage: string, status: int,
                                          statusText: string)

  /** A toast: title, description, and whether it is the destructive variant. */
  datatype Toast = Toast(title: string, description: string, destructive: bool)

  const SaveFailed := "Erro ao salvar filme"

  /** The message thrown for a failed save: the body's message, else its first issue's
      message, else "Erro <status>: <statusText>"; it is never empty, so the generic
      fallback of the toast is never shown for a failed save. */
  function SaveErrorMessage(message: string, issueMessage: string, status: int,
                            statusText: string): (r: string)
    ensures r != ""
    ensures r == message || r == issueMessage
            || Text.StartsWith(r, "Erro " + Text.IntString(status) + ": ")
  {
    if message != "" then message
    else if issueMessage != "" then issueMessage
    else "Erro " + Text.IntString(status) + ": " + statusText
  }

  /** The toast shown after a submission: success names the update or the addition; a
      failure shows the thrown message, or the generic one when that is empty. */
  function SubmitToast(sub: Submission, editing: bool, save: SaveReply): (t: Toast)
    ensures t.destructive <==> !(sub.Send? && save.SaveOk?)
    ensures t.description != ""
  {
    if sub.Send? && save.SaveOk? then
      Toast("Sucesso!", if editing then "Filme atualizado com sucesso!" else "Filme adicionado com sucesso!", false)
    else
      var message :=
        if sub.Abort? then sub.message
        else SaveErrorMessage(save.message, save.issueMessage, save.status, save.statusText);
      Toast("Erro", OrElse(message, SaveFailed), true)
  }

  /** A failed submission never shows the generic message: every error raised on the way
      carries a message of its own, which the toast shows. */
  lemma {:induction false} FailureToastNamesTheError(form: FormData, editingId: Option<string>, films: seq<Film>,
                                  thumbReply: UploadReply, videoReply: UploadReply, save: SaveReply)
    requires var sub := Prepare(form, editingId, films, thumbReply, videoReply);
      !(sub.Send? && save.SaveOk?)
    ensures var sub := Prepare(form, editingId, films, thumbReply, videoReply);
      var t := SubmitToast(sub, Editing(editingId), save);
      && t.destructive && t.title == "Erro" && t.description != ""
      && (sub.Abort? ==> t.description == sub.message)
      && (sub.Send? ==> t.description == SaveErrorMessage(save.message, save.issueMessage,
                                                         save.status, save.statusText))
  {
    var sub := Prepare(form, editingId, films, thumbReply, videoReply);
    if sub.Abort? {
      assert sub.message != "" by {
        assert VideoRequired[0] == 'V';
        assert InvalidCategory(form.category)[0] == 'C';
        assert ThumbnailUploadFailed[0] == 'E' && VideoUploadFailed[0] == 'E';
      }
    }
  }

  /** The admin page: the form, the listed films, the film being edited, whether the form is
      shown, the submission in flight, the last toast, and the requests sent so far (the files
      sent to the upload route and the save requests sent to the films route). */
  class AdminPage {
    var form: FormData
    var films: seq<Film>
    var editingId: Option<string>
    var showForm: bool
    var loading: bool
    var toast: Option<Toast>
    var uploaded: seq<Upload.FileInfo>
    var saved: seq<Request>

    constructor(currentYear: int)
      ensures form == InitialForm(currentYear) && films == [] && editingId == None
      ensures !showForm && !loading && toast == None && uploaded == [] && saved == []
    {
      form := InitialForm(currentYear);
      films := [];
      editingId := None;
      showForm := false;
      loading := false;
      toast := None;
      uploaded := [];
      saved := [];
    }

    /** `handleEdit`: the film is loaded into the form and the form is shown. */
    method Edit(film: Film)
      modifies this`form, this`editingId, this`showForm
      ensures form == EditForm(film) && editingId == Some(film.id) && showForm
    {
      form := EditForm(film);
      editingId := Some(film.id);
      showForm := true;
    }

    /** `resetForm`: the empty form, nothing edited, the form hidden. */
    method ResetForm(currentYear: int)
      modifies this`form, this`editingId, this`showForm
      ensures form == InitialForm(currentYear) && editingId == None && !showForm
    {
      form := InitialForm(currentYear);
      editingId := None;
      showForm := false;
    }

    /** The display-order input's `onChange`. */
    method SetDisplayOrder(value: string)
      modifies this`form
      ensures form == old(form).(displayOrder := DisplayOrderInput(value))
    {
      form := form.(displayOrder := DisplayOrderInput(value));
    }

    /** The year input's `onChange`: `parseInt`, NaN when it reads nothing. */
    method SetYear(value: string)
      modifies this`form
      ensures form == old(form).(year := Text.ParseInt(value))
    {
      form := form.(year := Text.ParseInt(value));
    }

    /** The video input's `onChange`: a chosen file replaces the form's; no file leaves it. */
    method ChooseVideo(file: Option<Upload.FileInfo>)
      modifies this`form
      ensures file.Some? ==> form == old(form).(videoFile := file)
      ensures file.None? ==> form == old(form)
    {
      if file.Some? {
        form := form.(videoFile := file);
      }
    }

    /** The thumbnail input's `onChange`, alike. */
    method ChooseThumbnail(file: Option<Upload.FileInfo>)
      modifies this`form
      ensures file.Some? ==> form == old(form).(thumbnailFile := file)
      ensures file.None? ==> form == old(form)
    {
      if file.Some? {
        form := form.(thumbnailFile := file);
      }
    }

    /** `handleSubmit`: the uploads and the save request `Prepare` describes are sent; a
        saved film resets the form, leaves editing and hides the form; any error leaves the
        form as it was; the toast reports the outcome, and loading ends either way. */
    method HandleSubmit(currentYear: int, thumbReply: UploadReply, videoReply: UploadReply,
                        save: SaveReply)
      modifies this
      ensures var sub := Prepare(old(form), old(editingId), old(films), thumbReply, videoReply);
        && uploaded == old(uploaded) + sub.uploads
        && saved == old(saved) + (if sub.Send? then [sub.request] else [])
        && films == old(films) && !loading
        && toast == Some(SubmitToast(sub, Editing(old(editingId)), save))
        && (sub.Send? && save.SaveOk? ==>
              form == InitialForm(currentYear) && editingId == None && !showForm)
        && (!(sub.Send? && save.SaveOk?) ==>
              form == old(form) && editingId == old(editingId) && showForm == old(showForm))
    {
      loading := true;
      var sub := Submit(form, editingId, films, thumbReply, videoReply);
      uploaded := uploaded + sub.uploads;
      var editing := Editing(editingId);
      if sub.Send? {
        saved := saved + [sub.request];
      }
      toast := Some(SubmitToast(sub, editing, save));
      if sub.Send? && save.SaveOk? {
        ResetForm(currentYear);
      }
      loading := false;
    }
  }
}
