/** The browser state the components share: the two `localStorage` entries
    they use and the router's navigation history. */
module Browser {
  import opened Wrappers

  /** The signed-in user record. */
  datatype User = User(id: string, email: string, name: string, avatar: string)

  /** `localStorage`, one field per key. The user record is kept as the
      record itself rather than as its JSON text. */
  class LocalStorage {
    /** The entry under "sonara-user". */
    var user: Option<User>
    /** The entry under "sonara-phone-model". */
    var phoneModel: Option<string>

    constructor (user: Option<User>, phoneModel: Option<string>)
      ensures this.user == user && this.phoneModel == phoneModel
    {
      this.user := user;
      this.phoneModel := phoneModel;
    }
  }

  /** The router, seen through the paths pushed onto it. */
  class Router {
    var history: seq<string>

    constructor ()
      ensures history == []
    {
      history := [];
    }

    method Push(path: string)
      modifies this
      ensures history == old(history) + [path]
    {
      history := history + [path];
    }
  }
}
