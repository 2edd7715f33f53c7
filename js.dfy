/** JavaScript's optional values and the truthiness rules the source applies to
    them: `undefined` is `None`, and an empty string, like `undefined`, is falsy. */
module Js {

  datatype Option<+T> = None | Some(value: T)

  /** A string value that JavaScript treats as true: present and non-empty. */
  predicate Truthy(x: Option<string>) {
    x.Some? && x.value != ""
  }

  /** `x || fallback` on an optional string. */
  function Or(x: Option<string>, fallback: string): (r: string)
    ensures Truthy(x) ==> r == x.value
    ensures !Truthy(x) ==> r == fallback
  {
    if Truthy(x) then x.value else fallback
  }

  /** `a || b` on two optional strings: the first truthy one, else the second as it is. */
  function OrOption(a: Option<string>, b: Option<string>): (r: Option<string>)
    ensures Truthy(a) ==> r == a
    ensures !Truthy(a) ==> r == b
  {
    if Truthy(a) then a else b
  }

  /** An error value a library returns or a `catch` receives: its `message`, and whether
      it is an instance of `Error` (the hooks show the message only then). */
  datatype Failure = Failure(message: string, isErrorInstance: bool)

  /** `err instanceof Error ? err.message : fallback`. */
  function ErrorText(f: Failure, fallback: string): string {
    if f.isErrorInstance then f.message else fallback
  }
}
