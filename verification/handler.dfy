/** The server's `/cotacao` handler as a pure function of the outcomes its
    stages report: build the provider request, call the provider, decode the
    envelope, reject an empty bid, insert the bid, answer `{bid}`. The first
    failing stage decides the status and body, and no later stage runs. */
module Handler {
  import opened Optional
  import opened Outcomes
  import opened Wire

  /** Budget of the provider call, in ms (Go `apiTimeout`). */
  const ApiTimeoutMs: nat := 200
  /** Budget of the insert, in ms (Go `dbTimeout`). */
  const DbTimeoutMs: nat := 10

  const StatusOK: nat := 200
  const StatusInternalServerError: nat := 500
  const StatusGatewayTimeout: nat := 504

  /** The fixed body of the empty-bid rejection. */
  const EmptyBidText: string := "bid vazio"
  const JsonContentType: string := "application/json"
  /** The content type `http.Error` sets. */
  const TextContentType: string := "text/plain; charset=utf-8"

  /** What each stage reports, in the order the handler runs them. A stage is
      only consulted when every earlier one succeeded. */
  datatype Stages = Stages(
    build: BuildOutcome,
    fetch: CallOutcome,
    decode: Decoding<ProviderEnvelope>,
    insert: CallOutcome)

  /** Which failure was logged. */
  datatype ServerError =
    | RequestBuildError
    | FetchTimeout
    | FetchError
    | DecodeError
    | EmptyBidError
    | PersistTimeout
    | PersistError

  /** The response body: the JSON success shape or `http.Error` text (the wire
      form of either carries a trailing newline, not modelled). */
  datatype Body = Json(quote: QuoteResponse) | Text(text: string)

  /** Effects on the outside world, in the order they are attempted. */
  datatype Effect = CallProvider | InsertRow(bid: string)

  /** Everything one request leaves behind. `store` is the table of bids
      after the request, oldest first. */
  datatype Response = Response(
    status: nat,
    contentType: string,
    body: Body,
    store: seq<string>,
    effects: seq<Effect>,
    logged: Option<ServerError>)

  /** The provider call happened (the request could be built) and failed. */
  predicate FetchFails(s: Stages) {
    s.build.Built? && !s.fetch.Completed?
  }

  /** Request built, provider answered, envelope decoded and the bid is
      non-empty: the handler goes on to insert. */
  predicate ReachesPersist(s: Stages) {
    && s.build.Built?
    && s.fetch.Completed?
    && s.decode.Decoded?
    && s.decode.value.usdbrl.bid != ""
  }

  /** Every stage succeeded. */
  predicate Succeeds(s: Stages) {
    ReachesPersist(s) && s.insert.Completed?
  }

  /** The bid the provider sent. */
  function ProviderBid(s: Stages): string
    requires s.decode.Decoded?
  {
    s.decode.value.usdbrl.bid
  }

  /** An `http.Error` response: text body, store untouched. */
  function Reject(status: nat, text: string, store: seq<string>, effects: seq<Effect>, e: ServerError): Response {
    Response(status, TextContentType, Text(text), store, effects, Some(e))
  }

  function Handle(s: Stages, store: seq<string>): (r: Response)
    // status: 200 exactly on full success, 504 exactly when the provider call
    // fails for any reason, 500 for every other failure
    ensures r.status == StatusOK <==> Succeeds(s)
    ensures r.status == StatusGatewayTimeout <==> FetchFails(s)
    ensures r.status == StatusInternalServerError <==> !Succeeds(s) && !FetchFails(s)
    // body: the success JSON carries exactly the provider's bid and appears
    // only on full success; every failure answers with plain text
    ensures r.body.Json? <==> Succeeds(s)
    ensures r.body.Json? ==> r.body.quote == QuoteResponse(ProviderBid(s)) && r.contentType == JsonContentType
    ensures r.body.Text? ==> r.contentType == TextContentType
    ensures s.build.BuildFailed? ==> r.body == Text(s.build.msg)
    ensures FetchFails(s) ==> r.body == Text(s.fetch.msg)
    ensures s.build.Built? && s.fetch.Completed? && s.decode.DecodeFailed? ==> r.body == Text(s.decode.msg)
    ensures s.build.Built? && s.fetch.Completed? && s.decode.Decoded? && ProviderBid(s) == "" ==>
              r.status == StatusInternalServerError && r.body == Text(EmptyBidText)
    ensures ReachesPersist(s) && !s.insert.Completed? ==> r.body == Text(s.insert.msg)
    // store: appended to once, with the provider's bid, on full success only
    ensures Succeeds(s) ==> r.store == store + [ProviderBid(s)]
    ensures !Succeeds(s) ==> r.store == store
    // effects: the provider is called iff the request was built; the insert is
    // attempted at most once, second, and only with the decoded non-empty bid
    ensures |r.effects| <= 2
    ensures CallProvider in r.effects <==> s.build.Built?
    ensures forall i :: 0 <= i < |r.effects| ==> (r.effects[i].InsertRow? <==> i == 1)
    ensures ReachesPersist(s) <==> |r.effects| == 2
    ensures forall e :: e in r.effects && e.InsertRow? ==> ReachesPersist(s) && e.bid == ProviderBid(s)
    // log: a timeout is logged apart from other failures of the same stage
    ensures r.logged.None? <==> Succeeds(s)
    ensures r.logged == Some(RequestBuildError) <==> s.build.BuildFailed?
    ensures r.logged == Some(DecodeError) <==> s.build.Built? && s.fetch.Completed? && s.decode.DecodeFailed?
    ensures r.logged == Some(EmptyBidError) <==>
              s.build.Built? && s.fetch.Completed? && s.decode.Decoded? && ProviderBid(s) == ""
    ensures r.logged == Some(FetchTimeout) <==> s.build.Built? && s.fetch.TimedOut?
    ensures r.logged == Some(FetchError) <==> s.build.Built? && s.fetch.Failed?
    ensures r.logged == Some(PersistTimeout) <==> ReachesPersist(s) && s.insert.TimedOut?
    ensures r.logged == Some(PersistError) <==> ReachesPersist(s) && s.insert.Failed?
  {
    match s.build
    case BuildFailed(msg) => Reject(StatusInternalServerError, msg, store, [], RequestBuildError)
    case Built =>
      match s.fetch
      case TimedOut(msg) => Reject(StatusGatewayTimeout, msg, store, [CallProvider], FetchTimeout)
      case Failed(msg) => Reject(StatusGatewayTimeout, msg, store, [CallProvider], FetchError)
      case Completed =>
        match s.decode
        case DecodeFailed(msg) => Reject(StatusInternalServerError, msg, store, [CallProvider], DecodeError)
        case Decoded(envelope) =>
          var bid := envelope.usdbrl.bid;
          if bid == "" then
            Reject(StatusInternalServerError, EmptyBidText, store, [CallProvider], EmptyBidError)
          else
            var effects := [CallProvider, InsertRow(bid)];
            match s.insert
            case TimedOut(msg) => Reject(StatusInternalServerError, msg, store, effects, PersistTimeout)
            case Failed(msg) => Reject(StatusInternalServerError, msg, store, effects, PersistError)
            case Completed =>
              Response(StatusOK, JsonContentType, Json(QuoteResponse(bid)), store + [bid], effects, None)
  }

  /** Whether the provider call timed out or failed otherwise changes only
      which error is logged: same status, body, store and effects. */
  lemma FetchTimeoutOnlyChangesLog(s: Stages, msg: string, store: seq<string>)
    requires s.build.Built?
    ensures var t := Handle(s.(fetch := TimedOut(msg)), store);
            var f := Handle(s.(fetch := Failed(msg)), store);
            t.(logged := f.logged) == f && t.logged != f.logged
  {
  }

  /** Likewise for the insert: a timeout and any other store error answer alike. */
  lemma PersistTimeoutOnlyChangesLog(s: Stages, msg: string, store: seq<string>)
    requires ReachesPersist(s)
    ensures var t := Handle(s.(insert := TimedOut(msg)), store);
            var f := Handle(s.(insert := Failed(msg)), store);
            t.(logged := f.logged) == f && t.logged != f.logged
  {
  }

  /** No stage runs after a failed one: the outcomes of later stages cannot
      change the response. */
  lemma LaterStagesIgnoredAfterFailure(s: Stages, s': Stages, store: seq<string>)
    requires s.build == s'.build
    requires s.build.Built? ==> s.fetch == s'.fetch
    requires s.build.Built? && s.fetch.Completed? ==> s.decode == s'.decode
    requires !ReachesPersist(s)
    ensures Handle(s, store) == Handle(s', store)
  {
  }

  /** The state a server is left in after requests handled one after another. */
  datatype Served = Served(responses: seq<Response>, store: seq<string>)

  /** Requests handled in order, each seeing the store the previous one left. */
  function Serve(requests: seq<Stages>, store: seq<string>): (r: Served)
    ensures |r.responses| == |requests|
    decreases |requests|
  {
    if requests == [] then Served([], store)
    else
      var first := Handle(requests[0], store);
      var rest := Serve(requests[1..], first.store);
      Served([first] + rest.responses, rest.store)
  }

  /** The bids of the fully successful requests, in order, computed from the
      stage outcomes alone. */
  function PersistedBids(requests: seq<Stages>): (bids: seq<string>)
    ensures |bids| <= |requests|
    ensures forall i :: 0 <= i < |bids| ==> bids[i] != ""
    decreases |requests|
  {
    if requests == [] then []
    else if Succeeds(requests[0]) then [ProviderBid(requests[0])] + PersistedBids(requests[1..])
    else PersistedBids(requests[1..])
  }

  /** The table only ever grows, by exactly the bids of the requests answered
      200, in the order they were answered; every other request leaves it alone. */
  lemma {:induction false} ServeAppendsPersistedBids(requests: seq<Stages>, store: seq<string>)
    ensures Serve(requests, store).store == store + PersistedBids(requests)
    ensures forall i :: 0 <= i < |requests| ==>
              (Serve(requests, store).responses[i].status == StatusOK <==> Succeeds(requests[i]))
    decreases |requests|
  {
    if requests != [] {
      var first := Handle(requests[0], store);
      ServeAppendsPersistedBids(requests[1..], first.store);
      var rest := Serve(requests[1..], first.store);
      assert Serve(requests, store).responses == [first] + rest.responses;
      if Succeeds(requests[0]) {
        assert store + PersistedBids(requests) == (store + [ProviderBid(requests[0])]) + PersistedBids(requests[1..]);
      }
      forall i | 0 <= i < |requests|
        ensures Serve(requests, store).responses[i].status == StatusOK <==> Succeeds(requests[i])
      {
        if i > 0 {
          assert Serve(requests, store).responses[i] == rest.responses[i - 1];
          assert requests[i] == requests[1..][i - 1];
        }
      }
    }
  }

  /** Hence a table holding only non-empty bids keeps holding only non-empty bids. */
  lemma StoredBidsStayNonEmpty(requests: seq<Stages>, store: seq<string>)
    requires forall i :: 0 <= i < |store| ==> store[i] != ""
    ensures var final := Serve(requests, store).store;
            forall i :: 0 <= i < |final| ==> final[i] != ""
  {
  }
}
