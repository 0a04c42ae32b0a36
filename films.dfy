/** The film record as the listing route returns it, and the closed value sets the create
    schema and the admin form check it against. */
module Films {
  import opened Values

  /** One film. `createdAt` is the creation instant in milliseconds; the database always sets
      it. Optional columns are `None` when the database holds null. */
  datatype Film = Film(
    id: string,
    title: string,
    titleEn: Option<string>,
    titleEs: Option<string>,
    description: Option<string>,
    descriptionEn: Option<string>,
    descriptionEs: Option<string>,
    year: int,
    duration: string,
    category: string,
    filmType: Option<string>,
    thumbnail: Option<string>,
    videoUrl: string,
    videoSize: Option<int>,
    videoFormat: Option<string>,
    views: nat,
    isPublished: bool,
    displayOrder: Option<int>,
    createdAt: int)

  /** The four categories the create schema, the route's pre-check and the admin form accept. */
  const Categories: seq<string> := ["Ficção", "Drama", "Documentário", "Comercial"]

  /** The five values the create schema accepts for `type`. */
  const FilmTypes: seq<string> :=
    ["Vídeo Clipe", "Curta Metragem", "Longa Metragem", "Propaganda", "Institucional"]
}
