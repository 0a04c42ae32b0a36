/** The portfolio section of the home page: the published films as cards, or six built-in
    projects when the listing is empty, each with a category badge whose label key comes from
    a fixed map with a default, and the count of cards shown. */
module Portfolio {
  import opened Values
  import opened Films
  import Text

  /** A card. Built-in projects have no id. */
  datatype Project = Project(
    id: Option<string>,
    title: string,
    year: string,
    projectType: string,
    thumbnail: string,
    duration: string,
    category: string,
    link: string)

  /** The six built-in projects shown when there are no films. */
  const StaticProjects: seq<Project> := [
    Project(None, "Procreare", "2021", "Official Trailer", "/dark-forest-cinematic-scene.jpg", "00:46",
            "Ficção", "https://vimeo.com/alicestamato/procreare"),
    Project(None, "The Inside", "2020", "Official Trailer", "/swimming-underwater-black-and-white.jpg",
            "00:33", "Drama", "https://vimeo.com/alicestamato/the-inside"),
    Project(None, "Projeto Closet São Paulo", "2018", "Official Trailer",
            "/person-filming-close-up-cinematic.jpg", "02:06", "Documentário",
            "https://vimeo.com/alicestamato/projeto-closet-sp"),
    Project(None, "Documentary Project", "2022", "Short Film", "/urban-street-scene-documentary.jpg",
            "05:24", "Documentário", "https://vimeo.com/alicestamato/documentary-project"),
    Project(None, "Narrative Film", "2023", "Feature Film", "/dramatic-portrait-cinematic-lighting.jpg",
            "01:45", "Ficção", "https://vimeo.com/alicestamato/narrative-film"),
    Project(None, "Commercial Project", "2023", "Campaign", "/modern-architecture-cinematic.jpg",
            "00:58", "Comercial", "https://vimeo.com/alicestamato/commercial-project")
  ]

  const Placeholder := "/placeholder.svg"

  /** A film as a card: type "Film", the year as text, the placeholder for a missing or empty
      thumbnail, the video URL as the link. */
  function FromFilm(film: Film): Project {
    Project(Some(film.id), film.title, Text.IntString(film.year), "Film",
            if film.thumbnail.Some? && film.thumbnail.value != "" then film.thumbnail.value else Placeholder,
            film.duration, film.category, film.videoUrl)
  }

  /** `displayFilms`: one card per film, in order, or the built-in projects when there are no
      films. */
  function DisplayFilms(films: seq<Film>): (r: seq<Project>)
    ensures |films| > 0 ==> |r| == |films| && forall i :: 0 <= i < |films| ==> r[i] == FromFilm(films[i])
    ensures |films| == 0 ==> r == StaticProjects
  {
    if |films| > 0 then seq(|films|, i requires 0 <= i < |films| => FromFilm(films[i]))
    else StaticProjects
  }

  /** A film's card says "Film", always has a thumbnail, links to the video, and its year text
      reads back as the film's year. */
  lemma {:induction false} FilmCardMeaning(film: Film)
    ensures var p := FromFilm(film);
      && p.projectType == "Film" && p.thumbnail != "" && p.link == film.videoUrl
      && p.id == Some(film.id)
      && Text.ParseInt(p.year) == Some(film.year)
  {
    Text.ParseIntRoundTrip(film.year);
  }

  /** The count shown under the cards: the number of films, or six for the built-in ones. */
  lemma {:induction false} DisplayedCount(films: seq<Film>)
    ensures |DisplayFilms(films)| == if |films| > 0 then |films| else 6
  {
  }

  /** The translation keys of the category badge. */
  datatype CategoryKey = Fiction | DramaKey | Documentary | Commercial

  /** The members every object literal inherits from `Object.prototype`. Looking one of them
      up in the category map finds a function or, for `__proto__`, the prototype itself. */
  const InheritedMembers: set<string> := {
    "constructor", "__proto__", "hasOwnProperty", "isPrototypeOf", "propertyIsEnumerable",
    "toString", "toLocaleString", "valueOf", "__defineGetter__", "__defineSetter__",
    "__lookupGetter__", "__lookupSetter__"}

  /** `t.portfolio.categories[categoryMap[category] || 'fiction']`: the four categories map to
      their keys and any other name falls back to fiction, except an inherited member, which is
      truthy and names no label, so the badge has no label (`None`). */
  function CategoryLabel(category: string): (r: Option<CategoryKey>)
  {
    if category == "Ficção" then Some(Fiction)
    else if category == "Drama" then Some(DramaKey)
    else if category == "Documentário" then Some(Documentary)
    else if category == "Comercial" then Some(Commercial)
    else if category in InheritedMembers then None
    else Some(Fiction)
  }

  /** Any category outside the four that is not an inherited member is labelled as fiction;
      an inherited member gets no label; the four get four different labels. */
  lemma {:induction false} CategoryLabelMeaning(a: string, b: string)
    ensures a !in Categories && a !in InheritedMembers ==> CategoryLabel(a) == Some(Fiction)
    ensures CategoryLabel(a).None? <==> a in InheritedMembers
    ensures CategoryLabel(a).Some? && CategoryLabel(a) != Some(Fiction) ==> a in Categories
    ensures a in Categories && b in Categories && a != b ==> CategoryLabel(a) != CategoryLabel(b)
  {
    assert forall c :: c in Categories ==> c !in InheritedMembers;
  }

  /** Every film the routes store has one of the four categories, and so a label. */
  lemma {:induction false} StoredCategoriesLabelled(category: string)
    requires category in Categories
    ensures CategoryLabel(category).Some?
  {
    CategoryLabelMeaning(category, category);
  }

  /** The built-in projects all belong to one of the four categories. */
  lemma {:induction false} StaticProjectsKnownCategories()
    ensures forall i :: 0 <= i < |StaticProjects| ==> StaticProjects[i].category in Categories
  {
  }
}
