/** The public profile page's film list: the films of the published listing turned into video
    cards, the first four shown until "view more" is pressed, the count badge, the category
    colours of the tags, and the video dialog. */
module Profile {
  import opened Values
  import opened Films
  import Text
  import UseFilms
  import FilmsRoute

  /** A video card. */
  datatype VideoItem = VideoItem(
    id: string,
    title: string,
    thumbnail: string,
    duration: string,
    views: string,
    link: string,
    year: int,
    category: string,
    filmType: Option<string>)

  const Placeholder := "/placeholder.svg"

  /** The page asks the hook for published films only, and the listing route then filters on
      publication and on no category. */
  lemma {:induction false} ListsPublishedFilmsOnly()
    ensures var q := UseFilms.Query(Some(true), None);
      FilmsRoute.WhereOf(UseFilms.Get(q, "published"), UseFilms.Get(q, "category"))
      == FilmsRoute.Where(true, None)
  {
    UseFilms.QueryReachesRoute(Some(true), None);
  }

  /** One film as a card: its thumbnail or the placeholder when it has none or an empty one,
      its view count in decimal, its video URL as the link, and its type when non-empty. */
  function ToVideo(film: Film): (v: VideoItem)
    ensures v.thumbnail != ""
    ensures v.id == film.id && v.link == film.videoUrl && v.title == film.title
    ensures film.thumbnail.Some? && film.thumbnail.value != "" ==> v.thumbnail == film.thumbnail.value
    ensures Text.AllDigits(v.views) && Text.DigitsValue(v.views) == film.views
  {
    Text.DecimalRoundTrip(film.views);
    VideoItem(
      film.id, film.title,
      if film.thumbnail.Some? && film.thumbnail.value != "" then film.thumbnail.value else Placeholder,
      film.duration, Text.Decimal(film.views), film.videoUrl, film.year, film.category,
      if film.filmType.Some? && film.filmType.value != "" then film.filmType else None)
  }

  /** `films.map(...)`: one card per film, in the same order. */
  function Videos(films: seq<Film>): (r: seq<VideoItem>)
    ensures |r| == |films|
    ensures forall i :: 0 <= i < |films| ==> r[i] == ToVideo(films[i])
  {
    seq(|films|, i requires 0 <= i < |films| => ToVideo(films[i]))
  }

  /** The cards keep the films' ids and order, and every card has a thumbnail to show. */
  lemma {:induction false} VideosFollowFilms(films: seq<Film>, i: nat, j: nat)
    requires i < j < |films|
    ensures var r := Videos(films);
      r[i].id == films[i].id && r[j].id == films[j].id && r[i].thumbnail != "" && r[j].link == films[j].videoUrl
  {
  }

  /** `showAll ? videos : videos.slice(0, 4)`. */
  function Displayed(videos: seq<VideoItem>, showAll: bool): (r: seq<VideoItem>)
    ensures |r| == if showAll || |videos| <= 4 then |videos| else 4
    ensures r == videos[..|r|]
  {
    if showAll || |videos| <= 4 then videos else videos[..4]
  }

  /** The "view more" button is shown once loaded, while the list is cut, and only when there
      are more than four videos. */
  predicate ShowViewMore(loading: bool, showAll: bool, count: nat) {
    !loading && !showAll && count > 4
  }

  /** Once loaded, the button is shown exactly when some videos are hidden. */
  lemma {:induction false} ViewMoreIffHidden(videos: seq<VideoItem>, showAll: bool)
    ensures ShowViewMore(false, showAll, |videos|) <==> |Displayed(videos, showAll)| < |videos|
  {
  }

  /** The count badge: the number and "filme" or "filmes". */
  function CountLabel(count: nat): string {
    Text.Decimal(count) + " " + (if count == 1 then "filme" else "filmes")
  }

  /** The badge is shown once loaded and when there is a video. */
  predicate ShowCount(loading: bool, count: nat) {
    !loading && count > 0
  }

  /** The badge is singular exactly for one video, and starts with the count. */
  lemma {:induction false} CountLabelMeaning(count: nat)
    ensures var badge := CountLabel(count);
      var digits := Text.Decimal(count);
      && badge[..|digits|] == digits
      && Text.DigitsValue(badge[..|digits|]) == count
      && (badge[|digits| + 1..] == "filme" <==> count == 1)
  {
    var digits := Text.Decimal(count);
    var badge := CountLabel(count);
    assert badge[..|digits|] == digits;
    Text.DecimalRoundTrip(count);
    assert badge[|digits| + 1..] == if count == 1 then "filme" else "filmes";
  }

  /** A tag's colour classes: tinted with an OKLCH hue, or the neutral zinc set. */
  datatype Colors = Tinted(hue: nat) | Neutral

  /** The class names of a colour set. */
  function ClassNames(c: Colors): string {
    match c
    case Tinted(h) =>
      var hue := Text.Decimal(h);
      "bg-oklch(0.96 0.02 " + hue + ") text-oklch(0.55 0.12 " + hue + ") border-oklch(0.90 0.04 "
      + hue + ")"
    case Neutral => "bg-zinc-100 text-zinc-700 border-zinc-200"
  }

  /** `getCategoryColors`: hue 35 for fiction, 25 for drama, 45 for documentary, 30 for
      commercial, neutral for any other category. */
  function CategoryColors(category: string): Colors {
    if category == "Ficção" then Tinted(35)
    else if category == "Drama" then Tinted(25)
    else if category == "Documentário" then Tinted(45)
    else if category == "Comercial" then Tinted(30)
    else Neutral
  }

  /** A category gets the neutral colours exactly when it is not one of the four, and the four
      get four different colour sets. */
  lemma {:induction false} CategoryColorsMeaning(a: string, b: string)
    ensures CategoryColors(a) == Neutral <==> a !in Categories
    ensures a in Categories && b in Categories && a != b ==> CategoryColors(a) != CategoryColors(b)
  {
  }

  /** The page's own state: whether every video is listed, and the video open in the
      dialog. */
  class ProfilePage {
    var showAll: bool
    var selectedVideo: Option<string>

    constructor()
      ensures !showAll && selectedVideo == None && !DialogOpen()
    {
      showAll := false;
      selectedVideo := None;
    }

    /** `open={!!selectedVideo}`: an empty link keeps the dialog closed. */
    predicate DialogOpen()
      reads this
    {
      selectedVideo.Some? && selectedVideo.value != ""
    }

    /** The "view more" button lists every video. */
    method ViewMore()
      modifies this`showAll
      ensures showAll
    {
      showAll := true;
    }

    /** Clicking a card selects its link; the dialog opens when the link is non-empty. */
    method SelectVideo(video: VideoItem)
      modifies this`selectedVideo
      ensures selectedVideo == Some(video.link)
      ensures DialogOpen() <==> video.link != ""
    {
      selectedVideo := Some(video.link);
    }

    /** `onOpenChange`: closing clears the selection; opening changes nothing. */
    method OpenChange(open: bool)
      modifies this`selectedVideo
      ensures !open ==> selectedVideo == None && !DialogOpen()
      ensures open ==> selectedVideo == old(selectedVideo)
    {
      if !open {
        selectedVideo := None;
      }
    }
  }
}
