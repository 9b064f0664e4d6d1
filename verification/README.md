# Quote server and client: stage outcomes and cascading deadlines

A Dafny model of the two decision procedures of a small Go system that
fetches the USD/BRL quote:

- the server's `/cotacao` handler (`handlerCotacao`): build the provider
  request, call the provider under a 200 ms context, decode the envelope,
  reject an empty bid, insert the bid under a separate 10 ms context, and
  answer `{"bid": ...}`;
- the one-shot client (`main` in the client): one 300 ms context for the
  request and the decode, reject an empty bid, then replace `cotacao.txt`
  with `Dólar: <bid>\n`.

Each program is modelled twice over. `Handler.Handle` and `Client.Run` are
pure functions from the outcome of each stage (an immutable vector of
abstract results) to what the run leaves behind: status, body, the table of
stored bids (a `seq<string>`, appended to at most once), the effects
attempted, the error logged; or the exit and the file's contents
(`Option<string>`, `None` when the file does not exist). `ServerTiming` and
`ClientTiming` then derive those outcomes from latencies in whole
milliseconds, using `Deadlines`, a model of Go's `context`: a context is done
at the earlier of its ancestors' cancellation and its deadline, and
`WithTimeout` takes the earlier of the parent's deadline and now plus the
timeout. `EndToEnd` plugs the server's answer into the client.

Modules: `Optional`, `Outcomes`/`Wire` (stage results and JSON shapes),
`Deadlines`, `Handler`, `HandlerMachine` (the handler as a stepped state
machine Start, Fetching, Persisting, Responding, proved to answer as
`Handle` does), `ServerTiming`, `Client`, `ClientTiming`, `EndToEnd`.

What the code does, where one might expect otherwise:

- Every failed provider call is answered 504, not only timeouts; timeout or
  not only changes the log line. A client disconnecting before the provider
  answers also yields 504; a later disconnect yields 500.
- The insert's 10 ms are counted from the start of persistence: its context
  is derived from the request's context, not from the fetch context, so a
  fetch that used 195 ms still leaves the insert its full 10 ms
  (`ServerTiming.PersistBudgetNotChained`). The handler therefore always
  answers within 210 ms.
- The 200 ms also bound reading the provider's body; running out there is a
  decode failure, answered 500 rather than 504. Likewise the client reports a
  timeout only when the response headers are late; a slow body is reported
  as a decode error. Both are fatal either way.
- `os.WriteFile` truncates before writing, so a write that fails part-way
  leaves a prefix of the new contents; only a failure to open leaves the
  old file intact.
- The client never looks at the HTTP status: it writes whatever body decodes
  to a non-empty bid.
- A timeout is "the operation needs strictly more than its budget"; a call
  ending exactly at the deadline completes.

## Model

| member | source | states |
|---|---|---|
| `Deadlines.WithTimeout` | server.go:104 | a derived context keeps its parent's cancellation and is due no later than now plus the timeout, nor later than the parent's deadline |
| `Deadlines.ErrAfter` | server.go:79 | `ctx.Err()` is nil exactly when neither cancellation nor deadline came before the operation's end; DeadlineExceeded only when the deadline came first |
| `Deadlines.ReturnTime` | server.go:77 | a bounded call returns no later than it would have completed, and no later than its context's deadline when it starts before it |
| `Deadlines.CallUnder` | server.go:107-113 | a bounded call is a timeout exactly when its context's deadline interrupted it, succeeds exactly when uninterrupted and error-free, and otherwise fails, with its own error text when its context did not interrupt it |
| `Deadlines.UrlErrorText` | client.go:33 | the error `Do` returns reads `Get "`, the URL, `": `, then the cause |
| `Deadlines.DoUnder` | client.go:33-41 | `Do` succeeds exactly when the server answers before the context is done; it is a timeout exactly when the deadline interrupted it; an interrupted call reports the context's error wrapped as `Get "<url>": <cause>`, a transport failure its own text |
| `Deadlines.DecodeUnder` | server.go:87-94 | the body is read under the request's context: the decode yields the payload when the read ends in time and fails otherwise |
| `Deadlines.TimeoutFiresIff` | server.go:16-19 | a timeout fires exactly when the operation needs more than the budget |
| `Deadlines.ChildInterruptedWithParent` | server.go:104 | cancelling the request's context interrupts every context derived from it |
| `Handler.Handle` | server.go:65-121 | 200 iff every stage succeeds, 504 iff the provider call fails, 500 otherwise; the JSON body carries exactly the provider's bid and only on success; empty bid answers "bid vazio"; every other failure answers its stage's own error text and logs its own error kind; the store gains exactly that bid on success and is untouched otherwise; the provider is called iff the request was built and the insert is attempted at most once, after it, with the non-empty bid |
| `Handler.FetchTimeoutOnlyChangesLog` | server.go:77-86 | a provider timeout and any other provider error give the same status, body, store and effects; only the log differs |
| `Handler.PersistTimeoutOnlyChangesLog` | server.go:107-116 | an insert timeout and any other insert error give the same response; only the log differs |
| `Handler.LaterStagesIgnoredAfterFailure` | server.go:70-101 | once a stage before the insert fails, nothing that later stages would report changes the response |
| `Handler.Serve` | server.go:65-121 | handling requests one after another yields one response per request |
| `Handler.PersistedBids` | server.go:96-101 | the bids of the successful requests are never empty and never more than the requests |
| `Handler.ServeAppendsPersistedBids` | server.go:96-120 | after any sequence of requests the table is the old table followed by the bids of exactly the requests answered 200, in order |
| `Handler.StoredBidsStayNonEmpty` | server.go:96-101 | no empty bid is ever stored |
| `HandlerMachine.Step` | server.go:65-121 | one stage of the handler: terminal phases stay put, the store changes only on a successful insert, effects are only appended, and each step makes progress |
| `HandlerMachine.RunTerminates` | server.go:65-121 | three steps from Start always reach Responding or a failure, and more steps change nothing |
| `HandlerMachine.MachineAgreesWithHandler` | server.go:65-121 | running the stage machine from Start answers exactly as `Handle` does |
| `ServerTiming.ApiContext` | server.go:67 | the fetch context is due 200 ms after the request arrives and is cancelled with the request |
| `ServerTiming.DbContext` | server.go:104 | the insert context is due 10 ms after persistence starts and is cancelled with the request, not with the fetch context |
| `ServerTiming.StagesOf` | server.go:67-107 | with the client connected: the fetch times out iff the provider needs more than 200 ms; for a well-formed payload, fetch and decode both succeed with it iff headers and body arrive within 200 ms, and otherwise no envelope is decoded; the insert times out iff the store needs more than 10 ms, and succeeds iff it answers without error within them |
| `ServerTiming.Elapsed` | server.go:65-121 | however slow the provider and the store, the handler returns within 200 + 10 ms; a failed build returns at once; a fully successful request returns when the insert completes |
| `ServerTiming.FetchTimesOutIff` | server.go:67-86 | with the client connected, the handler logs a fetch timeout iff the provider needs more than 200 ms, and answers 504 iff it timed out or the provider was unreachable |
| `ServerTiming.SlowBodyIsDecodeError` | server.go:87-94 | a provider whose body read crosses the 200 ms deadline gets a 500 decode error and nothing is stored |
| `ServerTiming.PersistTimesOutIff` | server.go:104-116 | with a bid to store, the handler logs a persist timeout iff the store needs more than 10 ms, whatever time the fetch used, and then answers 500 with text and stores nothing |
| `ServerTiming.PersistBudgetNotChained` | server.go:104 | the insert deadline is persistence start plus 10 ms; parenting on the fetch context would make it strictly earlier exactly when persistence starts after 190 ms |
| `ServerTiming.DisconnectCancelsFetch` | server.go:77-86 | a client disconnecting before the provider answers makes the fetch fail with `Get "<provider URL>": context canceled`: 504, logged as a fetch error, nothing stored |
| `Client.ExitStatus` | client.go:40 | the process exits 0 exactly on success and 1 after `log.Fatal` |
| `Client.FileContent` | client.go:54 | the file is the prefix "Dólar: ", then the bid, then a newline |
| `Client.ParseSavedInvertsFileContent` | client.go:54 | the saved line reads back as exactly its bid |
| `Client.FileContentInvertsParseSaved` | client.go:54 | a file that reads back as a bid is that bid's saved line, so different bids never produce the same file |
| `Client.Run` | client.go:23-60 | success iff every stage and the write succeed, and then the file holds exactly the bid's line whatever it held before; the file is untouched unless all stages before the write succeeded; a failed open leaves the old file; a failure after the open leaves the first charsWritten characters of the new contents; each failure maps to its own fatal error; the success line is logged only on success |
| `Client.TimeoutOnlyChangesError` | client.go:33-41 | a timed-out request and any other transport failure are both fatal with the file untouched; only the reported error differs |
| `Client.LastSuccessfulRunWins` | client.go:55 | after two successful runs the file records only the second bid |
| `ClientTiming.StagesOf` | client.go:25-47 | the request times out iff the headers take more than 300 ms; when headers and body arrive within 300 ms in all the fetch completes and the decode is the server's payload, and when they take longer the run cannot get a decoded quote; the write outcome is passed through untouched by the deadline |
| `ClientTiming.DeadlineCoversRequestAndDecode` | client.go:25-47 | when request and decode together need more than 300 ms the run is fatal and the file untouched; otherwise the deadline plays no part |
| `ClientTiming.TimeoutReportedOnlyBeforeHeaders` | client.go:33-47 | the timeout is reported iff the headers take more than 300 ms; a body read crossing the deadline is a decode error |
| `EndToEnd.ClientDecodes` | client.go:44-47 | the client decodes the server's success body to the same bid |
| `EndToEnd.QuoteReachesFile` | server.go:96-120 | a non-empty bid delivered within both server budgets and a round trip within 300 ms ends with 200 and that bid, one more stored record with it, and the client's file holding exactly its line |
| `EndToEnd.ClientBudgetCoversServer` | client.go:14-15 | with at most 90 ms of transit and reading, the client never times out, because the server answers within 210 ms |
| `EndToEnd.FailedQuoteNeverSaved` | client.go:44-51 | a non-200 answer whose text does not decode to a non-empty bid leaves the client's file exactly as it was |
| `EndToEnd.ExampleQuote` | client.go:54 | the quote 5.25 delivered in time is stored once and saved as "Dólar: 5.25\n" |

## Left out

- The server's `main` (opening the database, route registration, listening): process and network plumbing.
- `criarTabela` and the SQL text: the store is an append-only sequence of bids; the id and timestamp columns are not modelled.
- JSON encoding and decoding, `http.DefaultClient`, TLS: their results are inputs (`Decoding`, `Exchange`).
- `EndToEnd.ClientDecodes`: what Go's decoder makes of an `http.Error` text body is left as a parameter, since it depends on decoder internals.
- Real clocks and `context` machinery: replaced by whole-millisecond instants compared with the budgets; sub-millisecond races at a deadline are resolved as "a call ending exactly at the deadline completes".
- The error text of an interrupted body read or insert is approximated by the context's own text ("context deadline exceeded", "context canceled"); the JSON decoder and the database driver may word or wrap it differently.
- An insert that fails or times out is assumed to leave the table unchanged (the statement is rolled back when interrupted).
- Concurrent requests sharing the database handle: requests are handled one after another in `Handler.Serve`.
- Log message wording, the `X-Content-Type-Options` header and trailing newline `http.Error` and the JSON encoder add, and the file's permission bits.
- The client's file is a sequence of Unicode characters, not UTF-8 bytes: "ó" counts as one character where Go writes two bytes, so lengths differ from the bytes written and a partial write splitting "ó" is not represented.
