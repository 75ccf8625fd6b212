/** Values held in the page's result store (`actionResults`), and the store
    the page starts from. */
module Values {

  datatype Option<+T> = None | Some(value: T) {
    /** JavaScript's `x || d` on a property that is either absent or set. */
    function GetOr(default: T): T {
      match this
      case Some(v) => v
      case None => default
    }
  }

  /** A value under one key of the result store. Values produced by caller
      code (commands, providers, the seed store) are opaque tokens. */
  datatype Value =
    | Undefined
    | Null
    | Data(token: string)
    | FailHandler                              // the error handler exposed as `fail`
    | Location(href: string)                   // the browser location captured as `route`
    | Dataset(attributes: map<string, string>) // copy of the root node's data attributes

  /** An opaque virtual-dom tree, as produced by the caller's `renderPage`. */
  datatype Tree = Tree(markup: string)

  const ErrorsKey := "errors"
  const FailKey := "fail"
  const RouteKey := "route"
  const DatasetKey := "parseRootNodeDataset"

  const CancelErrorKey := "cancelError"
  const RedirectKey := "redirect"
  const ReloadKey := "reload"

  /** The three built-in commands; they replace caller commands of the same name. */
  const BuiltIns: set<string> := {CancelErrorKey, RedirectKey, ReloadKey}

  /** The store right after initialisation, before any provider runs: the seed
      values, with any seeded `errors` dropped (the error table starts empty and
      is kept apart from the plain keys), then `fail`, `route` and
      `parseRootNodeDataset` set. */
  function InitialStore(seed: map<string, Value>, route: string, dataset: map<string, string>): (s: map<string, Value>)
    ensures ErrorsKey !in s
    ensures s.Keys == (seed.Keys - {ErrorsKey}) + {FailKey, RouteKey, DatasetKey}
    ensures s[FailKey] == FailHandler && s[RouteKey] == Location(route) && s[DatasetKey] == Dataset(dataset)
    ensures forall k | k in seed && k !in {ErrorsKey, FailKey, RouteKey, DatasetKey} :: s[k] == seed[k]
  {
    (seed - {ErrorsKey})[FailKey := FailHandler][RouteKey := Location(route)][DatasetKey := Dataset(dataset)]
  }
}
