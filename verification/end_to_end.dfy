/** The client talking to the server: the client's request reaches the
    server `upMs` after the client starts, the server's answer travels back
    in `downMs`, and the client reads its body in `clientReadMs`. When the
    client's deadline fires it abandons the connection, which cancels the
    server's request context; the closed connection is taken to reach the
    server instantly, at 300 ms minus `upMs` on the server's clock. */
module EndToEnd {
  import opened Optional
  import opened Outcomes
  import opened Wire
  import opened Deadlines
  import opened Handler
  import Client
  import ServerTiming
  import ClientTiming

  datatype Trip = Trip(upMs: nat, downMs: nat, clientReadMs: nat)

  /** What the client's decoder makes of a server body. The success shape
      decodes to itself; what an error text decodes to is left open. */
  function ClientDecodes(body: Body, textDecoding: Decoding<QuoteResponse>): (d: Decoding<QuoteResponse>)
    ensures body.Json? ==> d == Decoded(body.quote)
  {
    match body
    case Json(quote) => Decoded(quote)
    case Text(_) => textDecoding
  }

  /** The server's world, with the disconnect the client's deadline causes. */
  function ServerWorld(provider: Exchange<ProviderEnvelope>, database: ServerTiming.Database, trip: Trip): ServerTiming.World {
    ServerTiming.World(None, provider, database,
      Some(if trip.upMs < Client.ClientTimeoutMs then Client.ClientTimeoutMs - trip.upMs else 0))
  }

  function ServerResponse(provider: Exchange<ProviderEnvelope>, database: ServerTiming.Database, trip: Trip, store: seq<string>): Response {
    Handle(ServerTiming.StagesOf(ServerWorld(provider, database, trip)), store)
  }

  /** The client's world: the server's answer, arriving when the server
      finishes plus the two transit times. */
  function ClientWorld(provider: Exchange<ProviderEnvelope>, database: ServerTiming.Database, trip: Trip, store: seq<string>,
                       textDecoding: Decoding<QuoteResponse>, write: Client.WriteOutcome): ClientTiming.ClientWorld
  {
    var sw := ServerWorld(provider, database, trip);
    var response := ServerResponse(provider, database, trip, store);
    ClientTiming.ClientWorld(None,
      Answers(trip.upMs + ServerTiming.Elapsed(sw) + trip.downMs, trip.clientReadMs, ClientDecodes(response.body, textDecoding)),
      write)
  }

  function RunClient(provider: Exchange<ProviderEnvelope>, database: ServerTiming.Database, trip: Trip, store: seq<string>,
                     textDecoding: Decoding<QuoteResponse>, write: Client.WriteOutcome, file: Option<string>): Client.RunResult
  {
    Client.Run(ClientTiming.StagesOf(ClientWorld(provider, database, trip, store, textDecoding, write)), file)
  }

  /** A non-empty bid the provider delivers within both server budgets, and a
      round trip within the client's budget, ends with the server answering
      200 with that bid, the store holding one more record with that bid, and
      the client's file holding exactly that bid's line. */
  lemma QuoteReachesFile(provider: Exchange<ProviderEnvelope>, database: ServerTiming.Database, trip: Trip,
                         store: seq<string>, textDecoding: Decoding<QuoteResponse>, file: Option<string>)
    requires provider.Answers? && provider.payload.Decoded? && provider.payload.value.usdbrl.bid != ""
    requires provider.afterMs + provider.readMs <= ApiTimeoutMs
    requires database.failure.None? && database.afterMs <= DbTimeoutMs
    requires trip.upMs + provider.afterMs + provider.readMs + database.afterMs + trip.downMs + trip.clientReadMs
             <= Client.ClientTimeoutMs
    ensures var bid := provider.payload.value.usdbrl.bid;
            var response := ServerResponse(provider, database, trip, store);
            var run := RunClient(provider, database, trip, store, textDecoding, Client.Written, file);
            && response.status == StatusOK
            && response.body == Json(QuoteResponse(bid))
            && response.store == store + [bid]
            && run.exit == Client.Saved
            && run.file == Some(Client.FileContent(bid))
  {
  }

  /** The client's 300 ms cover the server's worst case of 210 ms: with at
      most 90 ms spent in transit and reading, the client never times out and
      decodes whatever the server answered. */
  lemma ClientBudgetCoversServer(provider: Exchange<ProviderEnvelope>, database: ServerTiming.Database, trip: Trip,
                                 store: seq<string>, textDecoding: Decoding<QuoteResponse>, write: Client.WriteOutcome)
    requires trip.upMs + trip.downMs + trip.clientReadMs <= Client.ClientTimeoutMs - (ApiTimeoutMs + DbTimeoutMs)
    ensures var s := ClientTiming.StagesOf(ClientWorld(provider, database, trip, store, textDecoding, write));
            s.fetch.Completed? && s.decode == ClientDecodes(ServerResponse(provider, database, trip, store).body, textDecoding)
  {
  }

  /** When the server does not answer 200 and its error text does not decode
      to a non-empty bid, the client's file is left exactly as it was. */
  lemma FailedQuoteNeverSaved(provider: Exchange<ProviderEnvelope>, database: ServerTiming.Database, trip: Trip,
                              store: seq<string>, textDecoding: Decoding<QuoteResponse>, write: Client.WriteOutcome,
                              file: Option<string>)
    requires ServerResponse(provider, database, trip, store).status != StatusOK
    requires textDecoding.Decoded? ==> textDecoding.value.bid == ""
    ensures RunClient(provider, database, trip, store, textDecoding, write, file).file == file
    ensures RunClient(provider, database, trip, store, textDecoding, write, file).exit.Fatal?
  {
  }

  /** The quote 5.25, delivered in 50 ms and stored in 3 ms, with 10 ms each
      way and 1 ms to read: the client's file ends up holding "Dólar: 5.25\n". */
  lemma ExampleQuote(store: seq<string>, file: Option<string>)
    ensures var provider := Answers(40, 10, Decoded(ProviderEnvelope(ProviderQuote("5.25"))));
            var trip := Trip(10, 10, 1);
            var database := ServerTiming.Database(3, None);
            && ServerResponse(provider, database, trip, store).store == store + ["5.25"]
            && RunClient(provider, database, trip, store, DecodeFailed("invalid character"), Client.Written, file).file
               == Some("Dólar: 5.25\n")
  {
    var provider := Answers(40, 10, Decoded(ProviderEnvelope(ProviderQuote("5.25"))));
    QuoteReachesFile(provider, ServerTiming.Database(3, None), Trip(10, 10, 1), store, DecodeFailed("invalid character"), file);
    assert Client.FileContent("5.25") == "Dólar: 5.25\n";
  }
}
