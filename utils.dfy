/**
 * Collaborators of the story layer that live outside it: `dramatic_capitalize`
 * and `partial_match` come from utility modules that are not part of this model,
 * so they enter as values, and the model assumes of them only what their callers
 * rely on.
 */
module Utils {

  datatype Option<+T> = None | Some(value: T) {
    /** `dict.get(key, default)` / `attributes.get(key, default=...)` */
    function GetOr(default: T): T {
      if Some? then value else default
    }
  }

  /** `dramatic_capitalize`: nothing is assumed about it. */
  type Capitalizer = string -> string

  /**
   * `partial_match(text, options)`: the only assumption is that it answers with
   * nothing or with a member of the list it was given. The handlers import it
   * from two places (`world.utils` for the stat and power handlers,
   * `athanor.utils` for the templates); both are taken to be this one function.
   */
  type Matcher = m: (string, seq<string>) -> Option<string>
    | forall q, ops :: m(q, ops).Some? ==> m(q, ops).value in ops
    witness (q: string, ops: seq<string>) => None

  /** The two helpers every handler is built with. */
  datatype Helpers = Helpers(capitalize: Capitalizer, partialMatch: Matcher)

  /** Python truthiness of a `partial_match` answer: `None` and `""` are both falsy. */
  predicate Truthy(o: Option<string>) {
    o.Some? && o.value != ""
  }
}
