/** The films hook of the public pages: it builds the query string from its two optional
    arguments, fetches the listing route and keeps the films, the loading flag and the last
    error. The route's answer is a parameter. */
module UseFilms {
  import opened Values
  import opened Films
  import FilmsRoute

  /** A query parameter: name and value. */
  datatype Param = Param(name: string, value: string)

  /** The query the hook sends: `published` as "true" or "false" when the argument is given,
      then `category` when the argument is truthy. */
  function Query(published: Option<bool>, category: Option<string>): seq<Param> {
    (if published.Some? then [Param("published", if published.value then "true" else "false")] else [])
    + (if category.Some? && category.value != "" then [Param("category", category.value)] else [])
  }

  /** `URLSearchParams.get`: the value of the first parameter with that name; no earlier
      parameter has it. */
  function Get(params: seq<Param>, name: string): (r: Option<string>)
    ensures r.None? <==> forall i :: 0 <= i < |params| ==> params[i].name != name
    ensures r.Some? ==> exists i ::
      && 0 <= i < |params| && params[i] == Param(name, r.value)
      && forall j :: 0 <= j < i ==> params[j].name != name
  {
    if params == [] then None
    else if params[0].name == name then Some(params[0].value)
    else Get(params[1..], name)
  }

  /** The `published` parameter is present exactly when the argument is given, as "true" or
      "false"; the `category` parameter exactly when the argument is truthy, with its value. */
  lemma {:induction false} QueryMeaning(published: Option<bool>, category: Option<string>)
    ensures var q := Query(published, category);
      && (Get(q, "published").Some? <==> published.Some?)
      && (published.Some? ==> Get(q, "published") == Some(if published.value then "true" else "false"))
      && (Get(q, "category").Some? <==> category.Some? && category.value != "")
      && (Get(q, "category").Some? ==> Get(q, "category") == category)
  {
    var q := Query(published, category);
    if published.Some? {
      assert q[0].name == "published";
    }
    if category.Some? && category.value != "" {
      assert q[|q| - 1] == Param("category", category.value);
    }
  }

  /** What the listing route makes of the hook's query: it keeps only published films when
      asked for published ones, and "false" filters nothing, so `useFilms(false)` lists the
      unpublished films too; the category filter applies exactly when a category is given. */
  lemma {:induction false} QueryReachesRoute(published: Option<bool>, category: Option<string>)
    ensures var q := Query(published, category);
      var w := FilmsRoute.WhereOf(Get(q, "published"), Get(q, "category"));
      && (w.publishedOnly <==> published == Some(true))
      && w.category == (if category.Some? && category.value != "" then category else None)
  {
    QueryMeaning(published, category);
  }

  /** `URLSearchParams` built by appending, as the hook does. */
  method BuildParams(published: Option<bool>, category: Option<string>) returns (params: seq<Param>)
    ensures params == Query(published, category)
  {
    params := [];
    if published.Some? {
      params := params + [Param("published", if published.value then "true" else "false")];
    }
    if category.Some? && category.value != "" {
      params := params + [Param("category", category.value)];
    }
  }

  /** The listing route's answer as the hook reads it: the JSON body's `success`, `data` and
      `message` ("" when absent), or a failure to fetch or to read the body. */
  datatype Reply = Listed(success: bool, data: seq<Film>, message: string) | FetchFailed

  const LoadFailed := "Erro ao carregar filmes"

  /** The hook's state, and the queries it has sent. */
  class FilmsHook {
    var films: seq<Film>
    var loading: bool
    var error: Option<string>
    var queries: seq<seq<Param>>

    /** No films, loading, no error. */
    constructor()
      ensures films == [] && loading && error == None && queries == []
    {
      films := [];
      loading := true;
      error := None;
      queries := [];
    }

    /** `fetchFilms`: one request with the built query. A successful answer replaces the
        films and leaves the error as it was; an unsuccessful one keeps the films and
        records the server's message or the default; a failed fetch records the default.
        Loading ends on every path. */
    method FetchFilms(published: Option<bool>, category: Option<string>, reply: Reply)
      modifies this
      ensures queries == old(queries) + [Query(published, category)]
      ensures !loading
      ensures reply.Listed? && reply.success ==> films == reply.data && error == old(error)
      ensures reply.Listed? && !reply.success ==>
        films == old(films) && error == Some(if reply.message != "" then reply.message else LoadFailed)
      ensures reply.FetchFailed? ==> films == old(films) && error == Some(LoadFailed)
    {
      loading := true;
      var params := BuildParams(published, category);
      queries := queries + [params];
      match reply {
        case Listed(success, data, message) =>
          if success {
            films := data;
          } else {
            error := Some(if message != "" then message else LoadFailed);
          }
        case FetchFailed =>
          error := Some(LoadFailed);
      }
      loading := false;
    }
  }
}
