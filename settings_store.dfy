/** The settings document shared by the banner and bio routes: one JSON file that is either
    absent, present but unreadable (a failed read or a failed parse), or a parsed object.
    The routes read it and write it whole; the file system itself is not modelled. */
module SettingsStore {
  import opened Values

  datatype StoredFile = Missing | Unreadable | Doc(fields: Object)

  /** The settings file, held as a field that the POST routes reassign. */
  class Store {
    var stored: StoredFile

    constructor(initial: StoredFile)
      ensures stored == initial
    {
      stored := initial;
    }
  }

  /** The outcome of a settings POST: the saved document, a rejected request, or a failure
      (an unparsable body, an unreadable file or a failed write). */
  datatype PostResponse = Saved(data: Object) | BadRequest | Failed

  function Status(r: PostResponse): (code: int)
    ensures code == 200 <==> r.Saved?
    ensures code == 400 <==> r.BadRequest?
    ensures code == 500 <==> r.Failed?
  {
    match r
    case Saved(_) => 200
    case BadRequest => 400
    case Failed => 500
  }
}
