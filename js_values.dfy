/** Values of the JavaScript runtime that the plugin's logic observes. */
module JsValues {

  /** `undefined`/`null` versus a present value. */
  datatype Option<+T> = None | Some(value: T)

  /** The exceptions the modelled code can raise or receive. */
  datatype Exception =
    /** TypeError: reading `chunks` of the `undefined` that `entrypoints.get(name)` returned. */
    | UndefinedEntrypoint(name: string)
    /** TypeError: calling a member (such as `forEach`) that the value does not have. */
    | NotAFunction(member: string)
    /** The migration error reported for a configuration older than version 3. */
    | LegacyConfiguration
    /** An exception thrown by a collaborator whose code is not modelled (minifier, tag rewriting). */
    | Raised(detail: string)

  /** A call that either returns a value or throws. */
  datatype Outcome<+T> = Returned(value: T) | Threw(exception: Exception)

  /** JavaScript truthiness of an optional string: `undefined`, `null` and `""` are falsy. */
  predicate Truthy(s: Option<string>) {
    s.Some? && s.value != ""
  }
}
