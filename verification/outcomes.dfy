/** What one stage of a request can report, abstracted from the Go
    library calls that produce it. Messages are the opaque `err.Error()`
    texts; nothing in the model depends on their wording. */
module Outcomes {

  /** `http.NewRequestWithContext`: either a request or an error. */
  datatype BuildOutcome = Built | BuildFailed(msg: string)

  /** A call bounded by a context (`http.DefaultClient.Do`, `db.ExecContext`).
      `TimedOut` is a failure after which `ctx.Err()` reports
      `context.DeadlineExceeded`; `Failed` is every other failure. */
  datatype CallOutcome = Completed | TimedOut(msg: string) | Failed(msg: string)

  /** `json.NewDecoder(body).Decode(&v)`: a value or an error. */
  datatype Decoding<+T> = Decoded(value: T) | DecodeFailed(msg: string)
}

/** The JSON shapes exchanged on the wire, with the fields the programs read. */
module Wire {

  /** The `"USDBRL"` member of the provider's reply (Go type `USDBRL`). */
  datatype ProviderQuote = ProviderQuote(bid: string)

  /** The provider's reply (Go type `APIResponse`): other fields are ignored,
      and a missing member decodes to the zero value, an empty bid. */
  datatype ProviderEnvelope = ProviderEnvelope(usdbrl: ProviderQuote)

  /** The server's success body `{"bid": ...}` (Go type `CotacaoResponse`,
      declared identically in the server and in the client). */
  datatype QuoteResponse = QuoteResponse(bid: string)
}
