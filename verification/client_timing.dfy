/** Where the client's stage outcomes come from: one 300 ms context, created
    at start, bounds the request and the reading of the body it decodes; the
    file write that follows is not bound to it. Instants are milliseconds
    since the client started. */
module ClientTiming {
  import opened Optional
  import opened Outcomes
  import opened Wire
  import opened Deadlines
  import opened Client

  /** Whether building the request fails, how the server exchange goes, and
      what the file system does with the write. */
  datatype ClientWorld = ClientWorld(
    buildFailure: Option<string>,
    server: Exchange<QuoteResponse>,
    write: WriteOutcome)

  /** The client's only context: `context.WithTimeout(context.Background(), clientTimeout)`. */
  const ClientContext: Ctx := WithTimeout(Background, 0, ClientTimeoutMs)

  function StagesOf(w: ClientWorld): (s: ClientStages)
    ensures s.build.Built? <==> w.buildFailure.None?
    // the request has 300 ms from the start ...
    ensures s.fetch.TimedOut? <==> w.server.afterMs > ClientTimeoutMs
    ensures w.server.Unreachable? ==> !s.fetch.Completed?
    // ... and the same 300 ms cover reading and decoding the body
    ensures w.server.Answers? && w.server.afterMs + w.server.readMs <= ClientTimeoutMs ==>
              s.fetch.Completed? && s.decode == w.server.payload
    ensures w.server.Answers? && w.server.afterMs + w.server.readMs > ClientTimeoutMs ==>
              !(s.fetch.Completed? && s.decode.Decoded?)
    ensures s.write == w.write
  {
    ClientStages(
      if w.buildFailure.Some? then BuildFailed(w.buildFailure.value) else Built,
      DoUnder(ClientContext, 0, ServerURL, w.server),
      DecodeUnder(ClientContext, 0, w.server),
      w.write)
  }

  /** The single deadline bounds the request and the decode together: when
      they need more than 300 ms in all, the run is fatal and the file is left
      as it was; otherwise the deadline plays no part and the run goes as the
      exchange and the write go, however long the write takes. */
  lemma DeadlineCoversRequestAndDecode(w: ClientWorld, file: Option<string>)
    requires w.buildFailure.None? && w.server.Answers?
    ensures w.server.afterMs + w.server.readMs > ClientTimeoutMs ==>
              Run(StagesOf(w), file).exit.Fatal? && Run(StagesOf(w), file).file == file
    ensures w.server.afterMs + w.server.readMs <= ClientTimeoutMs ==>
              Run(StagesOf(w), file) == Run(ClientStages(Built, Completed, w.server.payload, w.write), file)
  {
  }

  /** The timeout is reported as such only when the response headers are
      late; running out while reading the body is reported as a decode error. */
  lemma TimeoutReportedOnlyBeforeHeaders(w: ClientWorld, file: Option<string>)
    requires w.buildFailure.None?
    ensures Run(StagesOf(w), file).exit == Fatal(ClientTimeout) <==> w.server.afterMs > ClientTimeoutMs
    ensures w.server.Answers? && w.server.afterMs <= ClientTimeoutMs < w.server.afterMs + w.server.readMs ==>
              Run(StagesOf(w), file).exit == Fatal(ClientDecodeError)
  {
  }
}
