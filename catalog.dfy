/** Optional values, standing for JavaScript's `null`/`undefined`. */
module Optional {
  datatype Option<T> = None | Some(value: T)
}

/** The catalog entry the backend table supplies (its fetch is not part of the model). */
module Catalog {
  import opened Optional

  /** A row of the functions table: `id`, the display name `funcao`, an optional
      description and an optional link to an external page. */
  datatype FunctionRecord = FunctionRecord(id: int, funcao: string, descricao: Option<string>, link: Option<string>)
}

/** The navigation context: the one process-wide "current function" selection
    that screens set and clear. */
module Navigation {
  import opened Optional

  class NavigationState {
    var currentFunction: Option<string>

    constructor ()
      ensures currentFunction == None
    {
      currentFunction := None;
    }

    /** `setCurrentFunction(f)`: the selection becomes `f`; `None` returns to the catalog. */
    method SetCurrentFunction(f: Option<string>)
      modifies this
      ensures currentFunction == f
    {
      currentFunction := f;
    }
  }
}
