/** The protocol of the route /v1/responses of gateway/app.ts: requests for managed text
    interleave over the result store and the usage ledger, each call of which may fail, and
    the process may restart. One event is one stretch of code that runs without waiting;
    a crash inside a stretch is the failure of its remaining calls, then a restart. */
module ManagedText {
  import L = UsageLedger
  import R = ResultStore

  /** A request whose text was asked of the provider. `reading` says that a pull of its
      stream is under way; `stored` and `terminal` are the flags of the stream. */
  datatype Phase = Waiting | Streaming(reading: bool, stored: bool, terminal: bool)

  datatype Flight = Flight(binding: R.Binding, token: nat, fence: nat, phase: Phase)

  type Request = nat

  datatype System = System(
    results: R.Rows, ledger: L.Ledger, flights: map<Request, Flight>, dispatched: map<L.Key, nat>)

  const Initial := System(map[], L.Empty, map[], map[])

  /** The ledger names a text operation `<operation>:text` of the principal; the number
      stands for that name. */
  function ChargeKey(k: R.Key): L.Key { L.Key(k.principal, k.operation) }

  function Dispatches(s: System, k: L.Key): nat { if k in s.dispatched then s.dispatched[k] else 0 }

  datatype Response = NotOk(status: nat) | Thrown(status: nat) | NoBody | Body

  /** Which of the calls in a stretch the stores let through. */
  datatype Luck = Luck(result: bool, charge: bool, resultAgain: bool, chargeAgain: bool)

  datatype Event =
    | Arrive(request: Request, key: R.Key, fingerprint: R.Name, keyFormed: bool,
             account: L.Name, amount: L.Amount, claimFormed: bool,
             now: nat, day: nat, token: nat, begins: bool, reserves: bool, luck: Luck)
    | Respond(request: Request, response: Response, luck: Luck)
    | Interrupt(request: Request, failed: bool, luck: Luck)
    | Finish(request: Request, text: R.Name, bytes: nat, actual: L.Amount, readable: bool, now: nat, luck: Luck)
    | Confirm(binding: R.Binding, now: nat, stale: set<R.Key>)
    | Restart

  // ---- Calls of the stores ----

  ghost predicate Charges(s: System, f: Flight, final: L.Final, works: bool) {
    works && L.FinalizeReply(s.ledger, f.binding.key.operation, f.fence, final).Receipt?
  }

  ghost function Charge(s: System, f: Flight, final: L.Final, works: bool): System {
    if works then s.(ledger := L.FinalizeStep(s.ledger, f.binding.key.operation, f.fence, final)) else s
  }

  function Mark(s: System, f: Flight, works: bool): System {
    if works then s.(results := R.MarkStep(s.results, f.binding, f.token)) else s
  }

  function Drop(s: System, f: Flight, works: bool): System {
    if works then s.(results := R.ReleaseStep(s.results, f.binding, f.token)) else s
  }

  // ---- Arrival ----

  function TextBinding(e: Event): R.Binding
    requires e.Arrive?
  {
    R.Binding(e.key, R.TextReasoning, e.fingerprint, e.keyFormed)
  }

  function Claim(e: Event): L.Input
    requires e.Arrive?
  {
    L.Input(ChargeKey(e.key), e.key.installation, L.TextReasoning, e.account, e.fingerprint, e.amount, e.claimFormed)
  }

  ghost function Started(s: System, e: Event): R.Start
    requires e.Arrive?
  {
    R.BeginReply(s.results, TextBinding(e), e.now, e.token, true)
  }

  ghost function Reserved(policy: L.Policy, s: System, e: Event): L.Reply
    requires e.Arrive?
  {
    L.ReserveReply(policy, s.ledger, Claim(e), e.day)
  }

  /** `begin`, then `reserve`: a started operation is dispatched only on a row of its own in
      the ledger, a stored result is replayed after its charge is settled. */
  ghost function ArriveStep(policy: L.Policy, s: System, e: Event): System
    requires e.Arrive?
  {
    if !e.begins || e.request in s.flights then s
    else
      var begun := s.(results := R.BeginStep(s.results, TextBinding(e), e.now, e.token, true));
      match Started(s, e)
      case Started(token) => Admit(policy, begun, e, token)
      case Replay(payload) => SettleReplay(policy, begun, e, payload)
      case _ => begun
  }

  ghost predicate Admits(policy: L.Policy, s: System, e: Event)
    requires e.Arrive?
  {
    e.reserves && Reserved(policy, s, e).Receipt? && !Reserved(policy, s, e).duplicate
  }

  ghost function Admit(policy: L.Policy, s: System, e: Event, token: nat): System
    requires e.Arrive?
  {
    if Admits(policy, s, e) then
      s.(ledger := L.ReserveStep(policy, s.ledger, Claim(e), e.day),
         flights := s.flights[e.request := Flight(TextBinding(e), token, s.ledger.next, Waiting)],
         dispatched := s.dispatched[ChargeKey(e.key) := Dispatches(s, ChargeKey(e.key)) + 1])
    else Drop(s, Flight(TextBinding(e), token, 0, Waiting), e.luck.result)
  }

  ghost function Claimed(policy: L.Policy, s: System, e: Event): System
    requires e.Arrive?
  {
    if e.reserves then s.(ledger := L.ReserveStep(policy, s.ledger, Claim(e), e.day)) else s
  }

  /** The ledger has the operation and the stored text can be read. */
  ghost predicate Readable(policy: L.Policy, s: System, e: Event, payload: R.Payload)
    requires e.Arrive?
  {
    e.reserves && Reserved(policy, s, e).Receipt? && payload.readable
  }

  ghost function SettleReplay(policy: L.Policy, s: System, e: Event, payload: R.Payload): System
    requires e.Arrive?
  {
    if !Readable(policy, s, e, payload) then Claimed(policy, s, e)
    else Charge(Claimed(policy, s, e), Replayer(policy, s, e), L.Settle(payload.actual, 0, true), e.luck.charge)
  }

  ghost function Replayer(policy: L.Policy, s: System, e: Event): Flight
    requires e.Arrive? && Reserved(policy, s, e).Receipt?
  {
    Flight(TextBinding(e), 0, Reserved(policy, s, e).row.fence, Waiting)
  }

  /** The request was answered with the stored text. */
  ghost predicate Replays(policy: L.Policy, s: System, e: Event) {
    && e.Arrive? && e.begins && e.request !in s.flights
    && Started(s, e).Replay? && Readable(policy, s, e, Started(s, e).payload)
    && Charges(Claimed(policy, s, e), Replayer(policy, s, e),
               L.Settle(Started(s, e).payload.actual, 0, true), e.luck.charge)
  }

  // ---- The provider's answer ----

  predicate Severe(status: nat) { status == 499 || status >= 500 }

  /** The failure path: the charge first; only if that worked, the result row. */
  ghost function Fail(s: System, f: Flight, status: nat, charge: bool, result: bool): System {
    var final := if Severe(status) then L.Unknown else L.Release;
    if !Charges(s, f, final, charge) then s
    else
      var charged := Charge(s, f, final, true);
      if Severe(status) then Mark(charged, f, result) else Drop(charged, f, result)
  }

  ghost function RespondStep(s: System, r: Request, response: Response, luck: Luck): System {
    if r !in s.flights || s.flights[r].phase != Waiting then s
    else
      var f := s.flights[r];
      var over := s.(flights := s.flights - {r});
      match response
      case NotOk(status) =>
        if Charges(over, f, if Severe(status) then L.Unknown else L.Release, luck.charge)
        then Fail(over, f, status, true, luck.result)
        else Fail(over, f, 500, luck.chargeAgain, luck.result)
      case Thrown(status) => Fail(over, f, status, luck.charge, luck.result)
      case NoBody =>
        Fail(Charge(Mark(over, f, luck.result), f, L.Unknown, luck.charge), f, 502, luck.chargeAgain, luck.resultAgain)
      case Body => s.(flights := s.flights[r := f.(phase := Streaming(true, false, false))])
  }

  // ---- The stream ----

  ghost function MarkUnknown(s: System, r: Request, luck: Luck): System
    requires r in s.flights && s.flights[r].phase.Streaming?
  {
    var f := s.flights[r];
    if f.phase.terminal || f.phase.stored then s
    else
      var over := s.(flights := s.flights[r := f.(phase := f.phase.(terminal := true))]);
      Charge(Mark(over, f, luck.result), f, L.Unknown, luck.charge)
  }

  function StopReading(s: System, r: Request): System
    requires r in s.flights && s.flights[r].phase.Streaming?
  {
    s.(flights := s.flights[r := s.flights[r].(phase := s.flights[r].phase.(reading := false))])
  }

  /** The client cancels, or the pull under way fails; a cancel leaves that pull running. */
  ghost function InterruptStep(s: System, r: Request, failed: bool, luck: Luck): System {
    if r !in s.flights || !s.flights[r].phase.Streaming? then s
    else if failed then
      if s.flights[r].phase.reading then MarkUnknown(StopReading(s, r), r, luck) else s
    else MarkUnknown(s, r, luck)
  }

  function PayloadOf(e: Event): R.Payload
    requires e.Finish?
  {
    R.Payload(e.text, e.bytes, true, e.actual, e.readable)
  }

  /** The event ends a stream and the store takes its result. */
  predicate Stores(s: System, e: Event) {
    && e.Finish? && e.request in s.flights && s.flights[e.request].phase.Streaming?
    && s.flights[e.request].phase.reading
    && e.luck.result
    && R.CompleteReply(s.results, s.flights[e.request].binding, s.flights[e.request].token, PayloadOf(e)) == R.Ok
  }

  /** The end of the stream: the result is stored first, then its charge is settled. Note
      that this branch does not look at `terminal`. */
  ghost function FinishStep(s: System, e: Event): System
    requires e.Finish?
  {
    var r := e.request;
    if r !in s.flights || !s.flights[r].phase.Streaming? || !s.flights[r].phase.reading then s
    else
      var f := s.flights[r];
      if Stores(s, e) then
        var settles := Charges(s, f, L.Settle(e.actual, 0, true), e.luck.charge);
        var stored := s.(
          results := R.CompleteStep(s.results, f.binding, f.token, PayloadOf(e), true, e.now, {}),
          flights := s.flights[r := f.(phase := Streaming(false, true, f.phase.terminal || settles))]);
        Charge(stored, f, L.Settle(e.actual, 0, true), e.luck.charge)
      else MarkUnknown(StopReading(s, r), r, Luck(e.luck.resultAgain, e.luck.chargeAgain, false, false))
  }

  // ---- Runs ----

  ghost function Step(policy: L.Policy, s: System, e: Event): System {
    match e
    case Arrive(_, _, _, _, _, _, _, _, _, _, _, _, _) => ArriveStep(policy, s, e)
    case Respond(r, response, luck) => RespondStep(s, r, response, luck)
    case Interrupt(r, failed, luck) => InterruptStep(s, r, failed, luck)
    case Finish(_, _, _, _, _, _, _) => FinishStep(s, e)
    case Confirm(b, now, stale) => s.(results := R.AckStep(s.results, b, now, stale))
    case Restart => s.(results := R.Restart(s.results), flights := map[])
  }

  ghost function Run(policy: L.Policy, events: seq<Event>): System
    decreases |events|
  {
    if events == [] then Initial else Step(policy, Run(policy, events[..|events| - 1]), events[|events| - 1])
  }
}
