/** Go's `context` package as far as the two programs use it: a context is
    done at the earlier of the instant its parent chain is cancelled and its
    deadline. All instants are whole milliseconds on one clock. */
module Deadlines {
  import opened Optional
  import opened Outcomes

  /** What `ctx.Err()` reports. */
  datatype CtxErr = NoErr | Canceled | DeadlineExceeded

  /** `cancelAt`: when an ancestor is cancelled (a server request's context is
      cancelled when the client goes away); `deadline`: the absolute deadline. */
  datatype Ctx = Ctx(cancelAt: Option<nat>, deadline: Option<nat>)

  /** `context.Background()`: never done. */
  const Background: Ctx := Ctx(None, None)

  /** `r.Context()` of an inbound request: no deadline, cancelled on disconnect. */
  function RequestContext(disconnectAt: Option<nat>): Ctx {
    Ctx(disconnectAt, None)
  }

  /** `context.WithTimeout(parent, timeoutMs)` called at instant `now`. When the
      parent's deadline is earlier, Go hands back a plain cancellable child of
      the parent, which is done exactly when the parent is. */
  function WithTimeout(parent: Ctx, now: nat, timeoutMs: nat): (c: Ctx)
    ensures c.cancelAt == parent.cancelAt
    ensures c.deadline.Some? && c.deadline.value <= now + timeoutMs
    ensures parent.deadline.Some? ==> c.deadline.value <= parent.deadline.value
    ensures c.deadline.value == now + timeoutMs || c.deadline == parent.deadline
  {
    if parent.deadline.Some? && parent.deadline.value < now + timeoutMs then parent
    else Ctx(parent.cancelAt, Some(now + timeoutMs))
  }

  /** What `ctx.Err()` reports when an operation that would need until `end`
      returns: the context interrupts it exactly when it was done strictly
      before `end`, and the reason is whichever of cancellation and deadline
      came first. */
  function ErrAfter(c: Ctx, end: nat): (e: CtxErr)
    ensures e == NoErr <==>
              (c.cancelAt.None? || end <= c.cancelAt.value) && (c.deadline.None? || end <= c.deadline.value)
    ensures e == DeadlineExceeded ==>
              c.deadline.Some? && c.deadline.value < end && (c.cancelAt.None? || c.deadline.value <= c.cancelAt.value)
    ensures e == Canceled ==>
              c.cancelAt.Some? && c.cancelAt.value < end && (c.deadline.None? || c.cancelAt.value < c.deadline.value)
  {
    if c.cancelAt.Some? && c.cancelAt.value < end && (c.deadline.None? || c.cancelAt.value < c.deadline.value) then
      Canceled
    else if c.deadline.Some? && c.deadline.value < end then
      DeadlineExceeded
    else
      NoErr
  }

  /** The text of the error a context-aware call returns when interrupted. */
  function CtxMessage(e: CtxErr): string {
    match e
    case Canceled => "context canceled"
    case _ => "context deadline exceeded"
  }

  /** The instant a call started at `start` needing `latencyMs` returns: on
      completion, or as soon as its context is done (at once if already done). */
  function ReturnTime(c: Ctx, start: nat, latencyMs: nat): (t: nat)
    ensures start <= t <= start + latencyMs
    ensures c.deadline.Some? && start <= c.deadline.value ==> t <= c.deadline.value
    ensures ErrAfter(c, start + latencyMs) == NoErr ==> t == start + latencyMs
  {
    var end := start + latencyMs;
    match ErrAfter(c, end)
    case NoErr => end
    case Canceled => if c.cancelAt.value < start then start else c.cancelAt.value
    case DeadlineExceeded => if c.deadline.value < start then start else c.deadline.value
  }

  /** A call under `c` that, left alone, would end after `latencyMs` with
      `failure` (or succeed). The caller tells a timeout apart by asking
      whether `ctx.Err()` is `context.DeadlineExceeded`. */
  function CallUnder(c: Ctx, start: nat, latencyMs: nat, failure: Option<string>): (r: CallOutcome)
    ensures r.TimedOut? <==> ErrAfter(c, start + latencyMs) == DeadlineExceeded
    ensures r.Completed? <==> ErrAfter(c, start + latencyMs) == NoErr && failure.None?
    ensures r.Failed? && ErrAfter(c, start + latencyMs) == NoErr ==> r.msg == failure.value
  {
    var e := ErrAfter(c, start + latencyMs);
    if e == DeadlineExceeded then TimedOut(CtxMessage(e))
    else if e == Canceled then Failed(CtxMessage(e))
    else if failure.Some? then Failed(failure.value)
    else Completed
  }

  /** What one HTTP exchange does when given unlimited time: the transport
      fails after `afterMs`, or the response headers arrive after `afterMs`,
      reading the body takes `readMs` more, and decoding it gives `payload`. */
  datatype Exchange<+T> =
    | Unreachable(afterMs: nat, msg: string)
    | Answers(afterMs: nat, readMs: nat, payload: Decoding<T>)

  /** The text of the `*url.Error` that `Do` wraps every failure in:
      the method, the quoted URL, then the cause. */
  function UrlErrorText(url: string, cause: string): (t: string)
    ensures |t| == |url| + |cause| + 8
    ensures t[..5] == "Get \"" && t[5..5 + |url|] == url && t[|t| - |cause|..] == cause
    ensures t[5 + |url|..|t| - |cause|] == "\": "
  {
    "Get \"" + url + "\": " + cause
  }

  /** `http.DefaultClient.Do(req)` for a GET of `url` bound to `c`, sent at
      `start`. An interrupted call reports the context's error wrapped with
      the URL; a transport failure's `msg` is already the whole error text. */
  function DoUnder<T>(c: Ctx, start: nat, url: string, x: Exchange<T>): (r: CallOutcome)
    ensures r.Completed? <==> x.Answers? && ErrAfter(c, start + x.afterMs) == NoErr
    ensures r.TimedOut? <==> ErrAfter(c, start + x.afterMs) == DeadlineExceeded
    ensures ErrAfter(c, start + x.afterMs) != NoErr ==>
              !r.Completed? && r.msg == UrlErrorText(url, CtxMessage(ErrAfter(c, start + x.afterMs)))
    ensures ErrAfter(c, start + x.afterMs) == NoErr && x.Unreachable? ==> r == Failed(x.msg)
  {
    var e := ErrAfter(c, start + x.afterMs);
    if e == DeadlineExceeded then TimedOut(UrlErrorText(url, CtxMessage(e)))
    else if e == Canceled then Failed(UrlErrorText(url, CtxMessage(e)))
    else if x.Unreachable? then Failed(x.msg)
    else Completed
  }

  /** Decoding the response body, which is read under the same context as the
      request: a context done before the read finishes makes the decode fail.
      Without a response there is no body, and the decode reports the
      transport's error (callers never consult it in that case). */
  function DecodeUnder<T>(c: Ctx, start: nat, x: Exchange<T>): (r: Decoding<T>)
    ensures x.Answers? && ErrAfter(c, start + x.afterMs + x.readMs) == NoErr ==> r == x.payload
    ensures x.Answers? && ErrAfter(c, start + x.afterMs + x.readMs) != NoErr ==> r.DecodeFailed?
  {
    match x
    case Unreachable(_, msg) => DecodeFailed(msg)
    case Answers(afterMs, readMs, payload) =>
      var e := ErrAfter(c, start + afterMs + readMs);
      if e != NoErr then DecodeFailed(CtxMessage(e)) else payload
  }

  /** A timeout derived from a context that is never done fires exactly when
      the operation needs more than the timeout. */
  lemma TimeoutFiresIff(now: nat, timeoutMs: nat, latencyMs: nat)
    ensures ErrAfter(WithTimeout(Background, now, timeoutMs), now + latencyMs) ==
            (if latencyMs > timeoutMs then DeadlineExceeded else NoErr)
  {
  }

  /** Cancellation propagates downward: whenever the parent interrupts an
      operation, so does any child derived from it with a timeout. */
  lemma ChildInterruptedWithParent(parent: Ctx, now: nat, timeoutMs: nat, end: nat)
    requires ErrAfter(parent, end) != NoErr
    ensures ErrAfter(WithTimeout(parent, now, timeoutMs), end) != NoErr
  {
  }
}
