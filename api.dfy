/** What the route handlers answer, and what the document store answers them. */
module Api {

  /** The `details` member of an error body. */
  datatype Details = NoDetails | Message(text: string) | Messages(texts: seq<string>)

  /** A JSON reply: the payload with status 200, or an error body with its status. */
  datatype Response<T> = Ok(body: T) | Error(status: nat, error: string, details: Details) {
    function Status(): nat {
      if Ok? then 200 else status
    }
  }

  /**
   * How the store answers an insert of a document that passed schema validation: a new
   * document id with its creation timestamp, a duplicate-key error (code 11000), or any other failure.
   */
  datatype StoreReply = Inserted(id: string, timestamp: int) | DuplicateKey | StoreError(message: string)
}
