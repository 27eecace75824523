/**
 * The JavaScript values and host collaborators the modelled code relies on:
 * `undefined` as `None`, the truthiness of strings, the string a value turns
 * into when it is used as an object key or concatenated, and the path and
 * key-normalising helpers whose bodies live outside the modelled files.
 */
module Env {

  /** A JavaScript value that may be `undefined`. */
  datatype Option<T> = None | Some(value: T)

  /** JavaScript truthiness of a possibly-undefined string: `undefined` and `''` are falsy. */
  predicate Truthy(v: Option<string>) {
    v.Some? && v.value != ""
  }

  /** `v || fallback` on a possibly-undefined string. */
  function OrElse(v: Option<string>, fallback: string): string {
    if Truthy(v) then v.value else fallback
  }

  /**
   * `String(v)`: what a value becomes as an object property name or as an
   * operand of `+` on strings; `undefined` becomes the text "undefined".
   */
  function AsString(v: Option<string>): string {
    match v
    case Some(s) => s
    case None => "undefined"
  }

  /**
   * The collaborators the core calls but does not define: `path.join` and
   * `path.basename`, the key normalisers of utilities.js (which may answer
   * `undefined`), and the two configured roots.
   */
  datatype Host = Host(
    join: (string, string) -> string,
    basename: string -> string,
    keyFromString: string -> Option<string>,
    guidFromString: string -> Option<string>,
    uploadedRoot: string,
    appRoot: string)
}
