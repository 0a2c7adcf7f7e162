/** What a JavaScript `throw` can carry, as far as the application looks at
    it: an `Error` object, whose `name` and `message` are read, or some other
    value, which the callers treat as having no usable message. */
module JsError {
  datatype Thrown = Error(name: string, message: string) | NonError

  /** `new Error(message)`. */
  function NewError(message: string): Thrown {
    Error("Error", message)
  }

  /** Whether the thrown value is the `AbortError` a cancelled fetch rejects with. */
  predicate IsAbort(e: Thrown) {
    e.Error? && e.name == "AbortError"
  }
}
