/** The outcome of one `fetch`, given to the model as an oracle. */
module Http {
  import opened Wrappers
  import opened Json

  /** `response.ok`. */
  predicate IsOk(status: int) {
    200 <= status <= 299
  }

  /**
   * A response: its status, its text, and what `JSON.parse` makes of that
   * text (None when it throws).
   */
  datatype Reply = Reply(status: int, text: string, parsed: Option<Json>) {
    predicate Ok() {
      IsOk(status)
    }

    /** The body as the source reads it: parsed JSON, the raw text, or null. */
    function Body(): Json {
      BodyOf(text, parsed)
    }
  }

  /** A request either throws (network error, abort on timeout) or yields a response. */
  datatype Fetched = Threw(message: string) | Responded(reply: Reply)
}
