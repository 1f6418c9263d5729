/** Optional values, for the JSON body fields a client may leave out. */
module Wrappers {

  datatype Option<+T> = None | Some(value: T)
}

/** The third-party text generator, seen from its callers.

    Every call of the generator (the Gemini SDK on the server, `fetch` in the
    browser tutor) is replaced by a value the caller receives: either the
    generated text, or a failure (network error, non-ok status, or a response
    without the expected candidate/part shape). The callers never inspect why
    a call failed. */
module Generator {

  datatype Generation = Generated(text: string) | Failed
}
