/** The handler described as a state machine, Start -> Fetching ->
    Persisting -> Responding, with a failure exit from each stage, stepped one
    stage at a time. It is an independent reference for `Handler.Handle`:
    running it to completion gives the same response. */
module HandlerMachine {
  import opened Optional
  import opened Outcomes
  import opened Wire
  import opened Handler

  datatype Phase =
    | Start
    | Fetching
    | Persisting(bid: string)
    | Responding(bid: string)
    | Aborted(error: ServerError, status: nat, text: string)

  datatype Machine = Machine(phase: Phase, store: seq<string>, effects: seq<Effect>)

  predicate Terminal(p: Phase) {
    p.Responding? || p.Aborted?
  }

  /** How many steps are left before `p` is terminal. */
  function Remaining(p: Phase): nat {
    match p
    case Start => 3
    case Fetching => 2
    case Persisting(_) => 1
    case _ => 0
  }

  /** One stage. The store changes only when leaving `Persisting` successfully;
      effects are only ever appended. */
  function Step(s: Stages, m: Machine): (m': Machine)
    ensures Terminal(m.phase) ==> m' == m
    ensures !Terminal(m.phase) ==> Remaining(m'.phase) < Remaining(m.phase)
    ensures m'.store == m.store || (m.phase.Persisting? && m'.store == m.store + [m.phase.bid])
    ensures m'.store != m.store ==> m.phase.Persisting? && s.insert.Completed? && m'.phase == Responding(m.phase.bid)
    ensures |m.effects| <= |m'.effects| <= |m.effects| + 1 && m'.effects[..|m.effects|] == m.effects
  {
    match m.phase
    case Start =>
      if s.build.BuildFailed? then m.(phase := Aborted(RequestBuildError, StatusInternalServerError, s.build.msg))
      else m.(phase := Fetching, effects := m.effects + [CallProvider])
    case Fetching =>
      if s.fetch.TimedOut? then m.(phase := Aborted(FetchTimeout, StatusGatewayTimeout, s.fetch.msg))
      else if s.fetch.Failed? then m.(phase := Aborted(FetchError, StatusGatewayTimeout, s.fetch.msg))
      else if s.decode.DecodeFailed? then m.(phase := Aborted(DecodeError, StatusInternalServerError, s.decode.msg))
      else if s.decode.value.usdbrl.bid == "" then m.(phase := Aborted(EmptyBidError, StatusInternalServerError, EmptyBidText))
      else m.(phase := Persisting(s.decode.value.usdbrl.bid))
    case Persisting(bid) =>
      var effects := m.effects + [InsertRow(bid)];
      if s.insert.TimedOut? then Machine(Aborted(PersistTimeout, StatusInternalServerError, s.insert.msg), m.store, effects)
      else if s.insert.Failed? then Machine(Aborted(PersistError, StatusInternalServerError, s.insert.msg), m.store, effects)
      else Machine(Responding(bid), m.store + [bid], effects)
    case _ => m
  }

  /** At most `fuel` steps. */
  function Run(s: Stages, m: Machine, fuel: nat): Machine
    decreases fuel
  {
    if fuel == 0 then m else Run(s, Step(s, m), fuel - 1)
  }

  /** The response a terminal machine sends. */
  function Emit(m: Machine): Response
    requires Terminal(m.phase)
  {
    match m.phase
    case Responding(bid) => Response(StatusOK, JsonContentType, Json(QuoteResponse(bid)), m.store, m.effects, None)
    case Aborted(e, status, text) => Response(status, TextContentType, Text(text), m.store, m.effects, Some(e))
  }

  /** Enough fuel always reaches a terminal phase, and further steps change nothing. */
  lemma {:induction false} RunTerminates(s: Stages, m: Machine, fuel: nat)
    requires fuel >= Remaining(m.phase)
    ensures Terminal(Run(s, m, fuel).phase)
    ensures Run(s, m, fuel) == Run(s, m, Remaining(m.phase))
    decreases fuel
  {
    if Terminal(m.phase) {
      RunIdleWhenTerminal(s, m, fuel);
      RunIdleWhenTerminal(s, m, Remaining(m.phase));
    } else {
      RunTerminates(s, Step(s, m), fuel - 1);
      RunTerminates(s, Step(s, m), Remaining(m.phase) - 1);
    }
  }

  lemma {:induction false} RunIdleWhenTerminal(s: Stages, m: Machine, fuel: nat)
    requires Terminal(m.phase)
    ensures Run(s, m, fuel) == m
    decreases fuel
  {
    if fuel > 0 {
      RunIdleWhenTerminal(s, Step(s, m), fuel - 1);
    }
  }

  /** Running the machine from `Start` answers exactly as the handler does. */
  lemma MachineAgreesWithHandler(s: Stages, store: seq<string>)
    ensures var m := Run(s, Machine(Start, store, []), 3);
            Terminal(m.phase) && Emit(m) == Handle(s, store)
  {
  }
}
