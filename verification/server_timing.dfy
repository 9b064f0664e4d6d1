/** Where the server's stage outcomes come from: the provider call and the
    body read run under a 200 ms context derived from the request's context
    when the handler starts; the insert runs under a separate 10 ms context
    derived, again from the request's context, when persistence starts.
    Instants are milliseconds since the request arrived. */
module ServerTiming {
  import opened Optional
  import opened Outcomes
  import opened Wire
  import opened Deadlines
  import opened Handler

  /** The provider endpoint the handler calls. */
  const ProviderURL: string := "https://economia.awesomeapi.com.br/json/last/USD-BRL"

  /** What the store does with the insert when given unlimited time. */
  datatype Database = Database(afterMs: nat, failure: Option<string>)

  /** Everything outside the handler: whether building the provider request
      fails, how the provider and the store behave, and when (if ever) the
      client disconnects, which cancels the request's context. */
  datatype World = World(
    buildFailure: Option<string>,
    provider: Exchange<ProviderEnvelope>,
    database: Database,
    disconnectAt: Option<nat>)

  /** `ctxAPI`: created when the handler starts. */
  function ApiContext(w: World): (c: Ctx)
    ensures c == Ctx(w.disconnectAt, Some(ApiTimeoutMs))
  {
    WithTimeout(RequestContext(w.disconnectAt), 0, ApiTimeoutMs)
  }

  /** When persistence starts: once the body has been read and decoded. */
  function PersistStart(w: World): nat {
    match w.provider
    case Answers(afterMs, readMs, _) => afterMs + readMs
    case Unreachable(afterMs, _) => afterMs
  }

  /** `ctxDB`: created when persistence starts, with the request's context as
      parent; the fetch context plays no part. */
  function DbContext(w: World): (c: Ctx)
    ensures c == Ctx(w.disconnectAt, Some(PersistStart(w) + DbTimeoutMs))
  {
    WithTimeout(RequestContext(w.disconnectAt), PersistStart(w), DbTimeoutMs)
  }

  /** The stage outcomes the handler observes in world `w`. */
  function StagesOf(w: World): (s: Stages)
    ensures s.build.Built? <==> w.buildFailure.None?
    // with the client connected: the provider call has 200 ms from the start
    ensures w.disconnectAt.None? ==> (s.fetch.TimedOut? <==> w.provider.afterMs > ApiTimeoutMs)
    ensures w.disconnectAt.None? && w.provider.Unreachable? ==> !s.fetch.Completed?
    // the same 200 ms cover reading and decoding the body
    ensures w.disconnectAt.None? && w.provider.Answers? && w.provider.payload.Decoded? ==>
              ((s.fetch.Completed? && s.decode == w.provider.payload) <==>
               w.provider.afterMs + w.provider.readMs <= ApiTimeoutMs)
    ensures w.disconnectAt.None? && w.provider.Answers? && w.provider.afterMs + w.provider.readMs > ApiTimeoutMs ==>
              !(s.fetch.Completed? && s.decode.Decoded?)
    // the insert has its own 10 ms from the start of persistence
    ensures w.disconnectAt.None? ==> (s.insert.TimedOut? <==> w.database.afterMs > DbTimeoutMs)
    ensures w.disconnectAt.None? ==>
              (s.insert.Completed? <==> w.database.afterMs <= DbTimeoutMs && w.database.failure.None?)
  {
    Stages(
      if w.buildFailure.Some? then BuildFailed(w.buildFailure.value) else Built,
      DoUnder(ApiContext(w), 0, ProviderURL, w.provider),
      DecodeUnder(ApiContext(w), 0, w.provider),
      CallUnder(DbContext(w), PersistStart(w), w.database.afterMs, w.database.failure))
  }

  /** The instant the handler returns. Whatever the provider and the store
      do, it is within the two budgets added up, 210 ms; a handler that gets
      through every stage returns when the insert completes. */
  function Elapsed(w: World): (t: nat)
    ensures t <= ApiTimeoutMs + DbTimeoutMs
    ensures w.buildFailure.Some? ==> t == 0
    ensures Succeeds(StagesOf(w)) ==> t == PersistStart(w) + w.database.afterMs
  {
    var s := StagesOf(w);
    if !s.build.Built? then 0
    else if !s.fetch.Completed? then ReturnTime(ApiContext(w), 0, w.provider.afterMs)
    else if !ReachesPersist(s) then ReturnTime(ApiContext(w), w.provider.afterMs, w.provider.readMs)
    else ReturnTime(DbContext(w), PersistStart(w), w.database.afterMs)
  }

  /** With the client still connected, the provider call is logged as a
      timeout exactly when the provider needs more than 200 ms, and every
      failed provider call, timed out or not, is answered 504. */
  lemma FetchTimesOutIff(w: World, store: seq<string>)
    requires w.buildFailure.None? && w.disconnectAt.None?
    ensures Handle(StagesOf(w), store).logged == Some(FetchTimeout) <==> w.provider.afterMs > ApiTimeoutMs
    ensures Handle(StagesOf(w), store).status == StatusGatewayTimeout <==>
              w.provider.afterMs > ApiTimeoutMs || w.provider.Unreachable?
  {
  }

  /** The 200 ms budget also covers reading the body; running out while
      reading surfaces as a decode failure, answered 500 and not 504. */
  lemma SlowBodyIsDecodeError(w: World, store: seq<string>)
    requires w.buildFailure.None? && w.disconnectAt.None? && w.provider.Answers?
    requires w.provider.afterMs <= ApiTimeoutMs < w.provider.afterMs + w.provider.readMs
    ensures Handle(StagesOf(w), store).status == StatusInternalServerError
    ensures Handle(StagesOf(w), store).logged == Some(DecodeError)
    ensures Handle(StagesOf(w), store).store == store
  {
  }

  /** The insert gets its full 10 ms counted from the start of persistence,
      whatever the fetch used of its 200 ms: with the client connected and a
      bid to store, the handler logs a persist timeout exactly when the store
      needs more than 10 ms, and then answers 500 and stores nothing. */
  lemma PersistTimesOutIff(w: World, store: seq<string>)
    requires w.disconnectAt.None?
    requires ReachesPersist(StagesOf(w))
    ensures Handle(StagesOf(w), store).logged == Some(PersistTimeout) <==> w.database.afterMs > DbTimeoutMs
    ensures w.database.afterMs > DbTimeoutMs ==>
              Handle(StagesOf(w), store).status == StatusInternalServerError
              && Handle(StagesOf(w), store).store == store
              && Handle(StagesOf(w), store).body.Text?
  {
  }

  /** The deadline the insert would get if its context were derived from the
      fetch context rather than from the request's context. */
  function ChainedDbContext(w: World): Ctx {
    WithTimeout(ApiContext(w), PersistStart(w), DbTimeoutMs)
  }

  /** The actual insert deadline is persistence start plus 10 ms; a chained
      one would be cut to the fetch deadline, which is strictly earlier exactly
      when persistence starts after 190 ms. */
  lemma PersistBudgetNotChained(w: World)
    ensures DbContext(w).deadline == Some(PersistStart(w) + DbTimeoutMs)
    ensures ChainedDbContext(w).deadline.value <= DbContext(w).deadline.value
    ensures ChainedDbContext(w).deadline.value < DbContext(w).deadline.value <==>
              PersistStart(w) + DbTimeoutMs > ApiTimeoutMs
  {
  }

  /** A client disconnecting before the provider answers cancels the provider
      call: it is answered 504 but logged as an ordinary fetch error, and the
      store is untouched. */
  lemma DisconnectCancelsFetch(w: World, store: seq<string>)
    requires w.buildFailure.None? && w.disconnectAt.Some?
    requires w.disconnectAt.value < w.provider.afterMs && w.disconnectAt.value < ApiTimeoutMs
    ensures StagesOf(w).fetch == Failed(UrlErrorText(ProviderURL, "context canceled"))
    ensures Handle(StagesOf(w), store).status == StatusGatewayTimeout
    ensures Handle(StagesOf(w), store).logged == Some(FetchError)
    ensures Handle(StagesOf(w), store).store == store
  {
  }
}
