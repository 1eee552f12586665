/**
 Sending a bridge payment (payBridgeInvoice and awaitBridgePayment, server_bridge.go) against the router it is sent
 with, as a transition system: the router sets the payment up, records it, sends HTLCs and answers in its own
 goroutine, while the bridge waits, may be told to stop, and asks whether the payment is recorded.

 Assumed of the router: it records a payment before it sends anything, and the record stays. A lookup that fails counts
 as recorded.
 */
module BridgePayment {

  import opened Options

  type Preimage = nat

  datatype Answer = Paid(preimage: Preimage) | Failed

  datatype Router = SettingUp | Sending | Returned(answer: Answer)

  /** What payBridgeInvoice reports: an error that the payment was not sent, that it is in flight, or that it
      settled. */
  datatype Verdict = NotSent | InFlight | Settled(preimage: Preimage)

  /** Where the bridge is: at the first select, at the look for an answer, at the question whether there is a record, at
      the second select, with an answer, leaving the payment to the router, or done. */
  datatype Pc =
    | AtFirstSelect
    | AtPoll
    | AtRecordCheck
    | AtTick
    | GotAnswer(answer: Answer)
    | Left
    | Finished(verdict: Verdict)

  /** `recorded` is whether the router holds a record of the payment's hash, this payment's or another's; `htlcs` counts
      what this call sent. `saidYes` and `failedOnce` log the answers the wait and the lookups had. */
  datatype State = State(
    router: Router, recorded: bool, othersRecord: bool, htlcs: nat, done: bool, ctxDone: bool, pc: Pc,
    saidYes: bool, failedOnce: bool)

  /** The start of the wait; the hash may have a record already. */
  function Init(recorded: bool): State {
    State(SettingUp, recorded, recorded, 0, false, false, AtFirstSelect, false, false)
  }

  datatype Event =
    // The router's goroutine.
    | Refuse
    | Record
    | SendHtlc
    | Answers(answer: Answer)
    | PutAnswer
    // Anyone else.
    | OtherRecord
    | ContextEnds
    // The bridge.
    | TakeAnswer
    | SeeStop
    | FindNoAnswer
    | AskRecord(fails: bool)
    | Tick
    | Conclude(fails: bool)

  predicate IsWaiting(pc: Pc) {
    pc in {AtFirstSelect, AtPoll, AtRecordCheck, AtTick}
  }

  /** A step of the bridge's own. */
  predicate IsBridges(e: Event) {
    e.TakeAnswer? || e.SeeStop? || e.FindNoAnswer? || e.AskRecord? || e.Tick? || e.Conclude?
  }

  predicate Can(s: State, e: Event) {
    match e
    case Refuse => s.router == SettingUp
    case Record => s.router == SettingUp
    case SendHtlc => s.router == Sending && s.recorded
    case Answers(a) => s.router == Sending && (a.Paid? ==> s.htlcs > 0)
    case PutAnswer => s.router.Returned?
    case OtherRecord => true
    case ContextEnds => true
    case TakeAnswer => s.pc in {AtFirstSelect, AtPoll, AtTick} && s.done && s.router.Returned?
    case SeeStop => s.pc == AtFirstSelect && s.ctxDone
    case FindNoAnswer => s.pc == AtPoll && !s.done
    case AskRecord(_) => s.pc == AtRecordCheck
    case Tick => s.pc == AtTick
    case Conclude(_) => s.pc.GotAnswer? || s.pc == Left
  }

  /** bridgePaymentRecorded: anything but a clear "never initiated" counts as recorded. */
  function RecordedAnswer(s: State, fails: bool): bool {
    s.recorded || fails
  }

  /** What an answer of the router's is reported as; a record is only asked for after a failure. */
  function Conclusion(answer: Answer, recorded: bool): Verdict {
    match answer
    case Paid(preimage) => Settled(preimage)
    case Failed => if recorded then InFlight else NotSent
  }

  /** A step, or nothing if it is not enabled. */
  function Do(s: State, e: Event): State {
    if !Can(s, e) then s
    else match e
      case Refuse => s.(router := Returned(Failed))
      case Record => s.(router := Sending, recorded := true)
      case SendHtlc => s.(htlcs := s.htlcs + 1)
      case Answers(a) => s.(router := Returned(a))
      case PutAnswer => s.(done := true)
      case OtherRecord => s.(recorded := true, othersRecord := true)
      case ContextEnds => s.(ctxDone := true)
      case TakeAnswer => s.(pc := GotAnswer(s.router.answer))
      case SeeStop => s.(pc := AtPoll)
      case FindNoAnswer => s.(pc := AtRecordCheck)
      case AskRecord(fails) =>
        s.(pc := if RecordedAnswer(s, fails) then Left else AtTick,
           saidYes := s.saidYes || RecordedAnswer(s, fails), failedOnce := s.failedOnce || fails)
      case Tick => s.(pc := AtPoll)
      case Conclude(fails) =>
        if s.pc == Left then s.(pc := Finished(InFlight))
        else
          s.(pc := Finished(Conclusion(s.pc.answer, RecordedAnswer(s, fails))),
             failedOnce := s.failedOnce || (s.pc.answer == Failed && fails))
  }

  function Run(s: State, es: seq<Event>): State
    decreases |es|
  {
    if es == [] then s else Do(Run(s, es[..|es| - 1]), es[|es| - 1])
  }

  // ---------------------------------------------------------------- invariants

  predicate RouterOk(s: State) {
    && (s.htlcs > 0 ==> s.recorded)
    && (s.router == Sending ==> s.recorded)
    && (s.router == SettingUp ==> s.htlcs == 0)
    && (s.done ==> s.router.Returned?)
    && (s.router == SettingUp && s.recorded ==> s.othersRecord)
    && (s.othersRecord ==> s.recorded)
    && (s.router.Returned? && s.router.answer.Paid? ==> s.htlcs > 0)
  }

  predicate BridgeOk(s: State) {
    match s.pc
    case GotAnswer(a) => s.router == Returned(a)
    case Left => s.ctxDone && s.saidYes && (s.failedOnce || s.recorded)
    case Finished(Settled(preimage)) => s.router == Returned(Paid(preimage))
    case Finished(NotSent) => s.router == Returned(Failed) && s.htlcs == 0 && (s.recorded ==> s.othersRecord)
    case Finished(InFlight) =>
      (s.failedOnce || s.recorded) && ((s.ctxDone && s.saidYes) || s.router == Returned(Failed))
    case AtFirstSelect => true
    case _ => s.ctxDone
  }

  predicate SaidYesOk(s: State) {
    s.saidYes ==> s.ctxDone && s.pc in {Left, Finished(InFlight)}
  }

  /** A verdict given without a record's word is the router's own answer. */
  predicate OwnAnswer(s: State) {
    s.pc.Finished? && !s.saidYes ==>
      && s.router.Returned?
      && (s.router.answer.Paid? ==> s.pc.verdict == Settled(s.router.answer.preimage))
      && (s.router.answer.Failed? ==> s.pc.verdict in {InFlight, NotSent})
  }

  predicate Inv(s: State) {
    RouterOk(s) && BridgeOk(s) && SaidYesOk(s) && OwnAnswer(s)
  }

  lemma RouterKept(s: State, e: Event)
    requires RouterOk(s)
    ensures RouterOk(Do(s, e))
  {
  }

  /** What others do leaves the bridge where it is. */
  lemma OthersLeaveBridge(s: State, e: Event)
    requires !IsBridges(e)
    ensures var t := Do(s, e); t.pc == s.pc && t.saidYes == s.saidYes && t.failedOnce == s.failedOnce
  {
  }

  /** And takes nothing back. */
  lemma OthersOnlyAdd(s: State, e: Event)
    requires !IsBridges(e)
    ensures var t := Do(s, e);
            && (s.recorded ==> t.recorded) && (s.ctxDone ==> t.ctxDone)
            && (s.router.Returned? ==> t.router == s.router && t.htlcs == s.htlcs)
            && (s.router.Returned? && t.recorded && !s.recorded ==> t.othersRecord)
            && (s.othersRecord ==> t.othersRecord)
  {
  }

  lemma OthersKeepBridge(s: State, e: Event)
    requires RouterOk(s) && BridgeOk(s) && !IsBridges(e)
    ensures BridgeOk(Do(s, e))
  {
    OthersLeaveBridge(s, e);
    OthersOnlyAdd(s, e);
    match s.pc
    case Finished(NotSent) =>
    case _ =>
  }

  lemma ConcludeKeepsBridge(s: State, fails: bool)
    requires RouterOk(s) && BridgeOk(s)
    ensures BridgeOk(Do(s, Conclude(fails)))
  {
  }

  lemma WaitKeepsBridge(s: State, e: Event)
    requires RouterOk(s) && BridgeOk(s) && IsBridges(e) && !e.Conclude?
    ensures BridgeOk(Do(s, e))
  {
    match e
    case TakeAnswer =>
    case AskRecord(_) =>
    case _ =>
  }

  lemma BridgeKept(s: State, e: Event)
    requires RouterOk(s) && BridgeOk(s)
    ensures BridgeOk(Do(s, e))
  {
    if !IsBridges(e) {
      OthersKeepBridge(s, e);
    } else if e.Conclude? {
      ConcludeKeepsBridge(s, e.fails);
    } else {
      WaitKeepsBridge(s, e);
    }
  }

  lemma VerdictKept(s: State, e: Event)
    requires RouterOk(s) && BridgeOk(s) && SaidYesOk(s) && OwnAnswer(s)
    ensures SaidYesOk(Do(s, e)) && OwnAnswer(Do(s, e))
  {
  }

  lemma EventKeeps(s: State, e: Event)
    requires Inv(s)
    ensures Inv(Do(s, e))
  {
    RouterKept(s, e);
    BridgeKept(s, e);
    VerdictKept(s, e);
  }

  lemma {:induction false} InvKept(s: State, es: seq<Event>)
    requires Inv(s)
    ensures Inv(Run(s, es))
    decreases |es|
  {
    if es != [] {
      InvKept(s, es[..|es| - 1]);
      EventKeeps(Run(s, es[..|es| - 1]), es[|es| - 1]);
    }
  }

  lemma InvOnEveryRun(recorded: bool, es: seq<Event>)
    ensures Inv(Run(Init(recorded), es))
  {
    InvKept(Init(recorded), es);
  }

  // ---------------------------------------------------------------- what every run promises

  lemma ReturnedStays(s: State, e: Event)
    requires s.router.Returned?
    ensures Do(s, e).htlcs == s.htlcs && Do(s, e).router == s.router
  {
    if !IsBridges(e) {
      OthersOnlyAdd(s, e);
    }
  }

  lemma {:induction false} ReturnedSendsNoMore(s: State, es: seq<Event>)
    requires s.router.Returned?
    ensures Run(s, es).htlcs == s.htlcs && Run(s, es).router == s.router
    decreases |es|
  {
    if es != [] {
      ReturnedSendsNoMore(s, es[..|es| - 1]);
      ReturnedStays(Run(s, es[..|es| - 1]), es[|es| - 1]);
    }
  }

  /** Payment safety: in every run, when the bridge reports that the payment was not sent, this call has sent no HTLC,
      and sends none whatever happens afterwards. */
  lemma NotSentMeansNothingSent(recorded: bool, es: seq<Event>, later: seq<Event>)
    requires Run(Init(recorded), es).pc == Finished(NotSent)
    ensures Run(Run(Init(recorded), es), later).htlcs == 0
  {
    InvOnEveryRun(recorded, es);
    ReturnedSendsNoMore(Run(Init(recorded), es), later);
  }

  /** Nothing is reported not sent for a reason other than that: unless a lookup failed or another payment of the hash
      was recorded, the bridge reports a payment not sent exactly when the router never recorded it. */
  lemma NotSentExactly(recorded: bool, es: seq<Event>)
    requires var s := Run(Init(recorded), es); s.pc.Finished? && !s.failedOnce && !s.othersRecord
    ensures var s := Run(Init(recorded), es); s.pc.verdict == NotSent <==> !s.recorded
  {
    InvOnEveryRun(recorded, es);
  }

  /** The bridge leaves a payment to the router only once it was told to stop and was answered that the payment is
      recorded. If it never was answered so, it reports what the router answered: settled with the router's preimage if
      it was paid, and only then; otherwise in flight or not sent. */
  lemma AnswerIsTheRouters(recorded: bool, es: seq<Event>)
    requires Run(Init(recorded), es).pc.Finished?
    ensures var s := Run(Init(recorded), es);
            && (s.saidYes ==> s.ctxDone && s.pc.verdict == InFlight)
            && (!s.saidYes ==>
                 s.router.Returned?
                 && match s.router.answer
                    case Paid(preimage) => s.pc.verdict == Settled(preimage)
                    case Failed => s.pc.verdict in {InFlight, NotSent})
            && (s.pc.verdict.Settled? ==> s.router == Returned(Paid(s.pc.verdict.preimage)) && s.htlcs > 0)
  {
    InvOnEveryRun(recorded, es);
  }

  lemma RunOfTwo(s: State, a: Event, b: Event)
    ensures Run(s, [a, b]) == Do(Do(s, a), b)
  {
    assert [a, b][..1] == [a] && [a][..0] == [];
    assert Run(s, [a]) == Do(s, a);
  }

  lemma {:induction false} RunSplit(s: State, a: seq<Event>, b: seq<Event>)
    ensures Run(s, a + b) == Run(Run(s, a), b)
    decreases |b|
  {
    if b == [] {
      assert a + b == a;
    } else {
      assert (a + b)[..|a + b| - 1] == a + b[..|b| - 1];
      RunSplit(s, a, b[..|b| - 1]);
    }
  }

  lemma RunOfFour(s: State, a: Event, b: Event, c: Event, d: Event)
    ensures Run(s, [a, b, c, d]) == Do(Do(Do(Do(s, a), b), c), d)
  {
    assert [a, b, c, d] == [a, b] + [c, d];
    RunSplit(s, [a, b], [c, d]);
    RunOfTwo(s, a, b);
    RunOfTwo(Do(Do(s, a), b), c, d);
  }

  /** What a bridge that waits makes of an answer. */
  lemma AnswerIsReported(s: State, answer: Answer)
    requires s.router == Sending && s.pc == AtFirstSelect && s.recorded && s.htlcs > 0
    ensures Do(Do(Do(Do(s, Answers(answer)), PutAnswer), TakeAnswer), Conclude(false))
            == s.(router := Router.Returned(answer), done := true,
                  pc := Finished(if answer.Paid? then Settled(answer.preimage) else InFlight))
  {
  }

  /** A payment that is sent and answered, with nobody stopping: settled if it was paid, and otherwise in flight, since
      it is on record. */
  lemma SentIsReported(answer: Answer)
    ensures var s := Run(Init(false), [Record, SendHtlc, Answers(answer), PutAnswer, TakeAnswer, Conclude(false)]);
            && s.pc == Finished(if answer.Paid? then Settled(answer.preimage) else InFlight)
            && s.recorded && !s.othersRecord && s.htlcs == 1 && !s.ctxDone && !s.failedOnce
  {
    var sent := Do(Do(Init(false), Record), SendHtlc);
    assert [Record, SendHtlc] + [Answers(answer), PutAnswer, TakeAnswer, Conclude(false)]
        == [Record, SendHtlc, Answers(answer), PutAnswer, TakeAnswer, Conclude(false)];
    RunSplit(Init(false), [Record, SendHtlc], [Answers(answer), PutAnswer, TakeAnswer, Conclude(false)]);
    RunOfTwo(Init(false), Record, SendHtlc);
    RunOfFour(sent, Answers(answer), PutAnswer, TakeAnswer, Conclude(false));
    AnswerIsReported(sent, answer);
  }

  /** And one that is refused before it is on record is reported not sent. */
  lemma RefusedIsReported()
    ensures Run(Init(false), [Refuse, PutAnswer, TakeAnswer, Conclude(false)])
            == State(Router.Returned(Failed), false, false, 0, true, false, Finished(NotSent), false, false)
  {
    RunOfFour(Init(false), Refuse, PutAnswer, TakeAnswer, Conclude(false));
  }

  /** What a bridge that is told to stop makes of a record. */
  lemma RecordIsReported(s: State)
    requires s.pc == AtFirstSelect && s.ctxDone && s.recorded && !s.done
    ensures Do(Do(Do(Do(s, SeeStop), FindNoAnswer), AskRecord(false)), Conclude(false))
            == s.(pc := Finished(InFlight), saidYes := true)
  {
  }

  /** A payment may be reported in flight though nothing of it was sent, because another of the same hash is on
      record. */
  lemma InFlightForAnother()
    ensures var es := [OtherRecord, ContextEnds, SeeStop, FindNoAnswer, AskRecord(false), Conclude(false)];
            var s := Run(Init(false), es);
            s.pc == Finished(InFlight) && s.router == SettingUp && s.htlcs == 0 && !s.failedOnce && s.othersRecord
  {
    var stopped := Do(Do(Init(false), OtherRecord), ContextEnds);
    assert [OtherRecord, ContextEnds] + [SeeStop, FindNoAnswer, AskRecord(false), Conclude(false)]
        == [OtherRecord, ContextEnds, SeeStop, FindNoAnswer, AskRecord(false), Conclude(false)];
    RunSplit(Init(false), [OtherRecord, ContextEnds], [SeeStop, FindNoAnswer, AskRecord(false), Conclude(false)]);
    RunOfTwo(Init(false), OtherRecord, ContextEnds);
    RunOfFour(stopped, SeeStop, FindNoAnswer, AskRecord(false), Conclude(false));
    RecordIsReported(stopped);
  }

  lemma SentHere(s: State, e: Event)
    ensures Do(s, e).htlcs == s.htlcs + if e == SendHtlc && Can(s, e) then 1 else 0
  {
    match e
    case AskRecord(_) =>
    case Conclude(_) =>
    case _ =>
  }

  /** Nothing counts as sent but what the router sent. */
  lemma {:induction false} SentAtMost(recorded: bool, es: seq<Event>)
    ensures Run(Init(recorded), es).htlcs <= multiset(es)[SendHtlc]
    decreases |es|
  {
    if es != [] {
      SentAtMost(recorded, es[..|es| - 1]);
      SentHere(Run(Init(recorded), es[..|es| - 1]), es[|es| - 1]);
      assert es == es[..|es| - 1] + [es[|es| - 1]];
    }
  }

  // ---------------------------------------------------------------- an answer already in wins

  /** An answer is in, and the bridge has not gone past it: it has still to look, or has it, or has reported it. */
  predicate AnswerIn(s: State) {
    && s.done && s.router.Returned? && !s.saidYes
    && (s.pc in {AtFirstSelect, AtPoll, AtTick} || s.pc == GotAnswer(s.router.answer)
        || (s.pc.Finished?
            && match s.router.answer
               case Paid(preimage) => s.pc.verdict == Settled(preimage)
               case Failed => s.pc.verdict in {InFlight, NotSent}))
  }

  lemma AnswerInKept(s: State, e: Event)
    requires AnswerIn(s)
    ensures AnswerIn(Do(s, e)) && Do(s, e).router == s.router
  {
  }

  lemma {:induction false} AnswerInStays(s: State, es: seq<Event>)
    requires AnswerIn(s)
    ensures AnswerIn(Run(s, es)) && Run(s, es).router == s.router
    decreases |es|
  {
    if es != [] {
      AnswerInStays(s, es[..|es| - 1]);
      AnswerInKept(Run(s, es[..|es| - 1]), es[|es| - 1]);
    }
  }

  /** In every run: once an answer is in and the bridge has a look to come, no record is ever asked for, the payment is
      never left, and what is reported is the router's own answer. Only an answer that comes in after the last look may
      be passed over. */
  lemma AnswerInWins(recorded: bool, past: seq<Event>, later: seq<Event>)
    requires var s := Run(Init(recorded), past); s.done && s.pc in {AtFirstSelect, AtPoll, AtTick}
    ensures var s, t := Run(Init(recorded), past), Run(Run(Init(recorded), past), later);
            && !t.saidYes && t.pc != Left && t.pc != AtRecordCheck
            && s.router.Returned?
            && (t.pc.Finished? ==>
                 match s.router.answer
                 case Paid(preimage) => t.pc.verdict == Settled(preimage)
                 case Failed => t.pc.verdict in {InFlight, NotSent})
  {
    InvOnEveryRun(recorded, past);
    AnswerInStays(Run(Init(recorded), past), later);
  }

  // ---------------------------------------------------------------- a lookup that fails

  /** A lookup that fails: while waiting, or after the router gave up. */
  predicate Fails(s: State, e: Event) {
    (e == AskRecord(true) && s.pc == AtRecordCheck) || (e == Conclude(true) && s.pc == GotAnswer(Failed))
  }

  predicate FailsAt(recorded: bool, es: seq<Event>, n: nat)
    requires n < |es|
  {
    Fails(Run(Init(recorded), es[..n]), es[n])
  }

  lemma FailedHere(s: State, e: Event)
    ensures Do(s, e).failedOnce <==> s.failedOnce || Fails(s, e)
  {
    if !IsBridges(e) {
      OthersLeaveBridge(s, e);
    } else {
      match e
      case AskRecord(_) =>
      case Conclude(_) =>
      case _ =>
    }
  }

  /** In every run a lookup counts as failed exactly if one did: none is made after a payment was paid. */
  lemma {:induction false} FailedOnceExactly(recorded: bool, es: seq<Event>)
    ensures Run(Init(recorded), es).failedOnce <==> exists n | 0 <= n < |es| :: FailsAt(recorded, es, n)
    decreases |es|
  {
    if es != [] {
      var last := |es| - 1;
      FailedOnceExactly(recorded, es[..last]);
      FailedHere(Run(Init(recorded), es[..last]), es[last]);
      forall n | 0 <= n < last ensures FailsAt(recorded, es[..last], n) <==> FailsAt(recorded, es, n) {
        assert es[..last][..n] == es[..n];
      }
      assert FailsAt(recorded, es, last) <==> Fails(Run(Init(recorded), es[..last]), es[last]);
    }
  }

  /** A lookup that fails keeps the payment in flight: asked while waiting, it leaves it to the router; asked after the
      router gave up, it reports it in flight. One that does not fail says what there is. */
  lemma FailedLookupKeepsInFlight(s: State, fails: bool)
    requires s.pc == AtRecordCheck || s.pc == GotAnswer(Failed)
    ensures s.pc == AtRecordCheck ==> (Do(s, AskRecord(fails)).pc == if fails || s.recorded then Left else AtTick)
    ensures s.pc == GotAnswer(Failed) ==>
              Do(s, Conclude(fails)).pc == Finished(if fails || s.recorded then InFlight else NotSent)
  {
  }

  // ---------------------------------------------------------------- stopping is quick

  /** The most steps of its own that a stopped bridge waits for, if the payment is recorded. */
  function StepsLeft(pc: Pc): nat {
    match pc
    case AtFirstSelect => 3
    case AtTick => 3
    case AtPoll => 2
    case AtRecordCheck => 1
    case _ => 0
  }

  /** How many of the events are steps the bridge makes. */
  function BridgeSteps(s: State, es: seq<Event>): nat
    decreases |es|
  {
    if es == [] then 0
    else
      var rest, e := es[..|es| - 1], es[|es| - 1];
      BridgeSteps(s, rest) + if IsBridges(e) && Can(Run(s, rest), e) then 1 else 0
  }

  predicate Stopping(s: State) {
    s.ctxDone && s.recorded
  }

  lemma StoppingStep(s: State, e: Event)
    requires Stopping(s)
    ensures Stopping(Do(s, e))
    ensures IsWaiting(Do(s, e).pc) ==> IsWaiting(s.pc)
    ensures IsWaiting(Do(s, e).pc) ==>
              StepsLeft(Do(s, e).pc) + (if IsBridges(e) && Can(s, e) then 1 else 0) <= StepsLeft(s.pc)
  {
    if !IsBridges(e) {
      OthersLeaveBridge(s, e);
      OthersOnlyAdd(s, e);
    }
  }

  lemma {:induction false} StepsLeftFall(s: State, es: seq<Event>)
    requires Stopping(s)
    ensures var t := Run(s, es);
            && Stopping(t)
            && (IsWaiting(t.pc) ==> IsWaiting(s.pc) && StepsLeft(t.pc) + BridgeSteps(s, es) <= StepsLeft(s.pc))
    decreases |es|
  {
    if es != [] {
      StepsLeftFall(s, es[..|es| - 1]);
      StoppingStep(Run(s, es[..|es| - 1]), es[|es| - 1]);
    }
  }

  /** A turn: what everyone else does before the next step of the bridge, whether an answer is taken where a select may
      choose, and whether a lookup fails. */
  datatype Turn = Turn(others: seq<Event>, answerFirst: bool, fails: bool)

  /** The bridge's next step in a state, if it has one. An answer already in wins over a record, and a record over an
      answer still to come. */
  function BridgeStep(s: State, turn: Turn): Option<Event> {
    match s.pc
    case AtFirstSelect =>
      if s.done && (turn.answerFirst || !s.ctxDone) then Some(TakeAnswer)
      else if s.ctxDone then Some(SeeStop)
      else None
    case AtPoll => Some(if s.done then TakeAnswer else FindNoAnswer)
    case AtRecordCheck => Some(AskRecord(turn.fails))
    case AtTick => Some(if s.done && turn.answerFirst then TakeAnswer else Tick)
    case GotAnswer(_) => Some(Conclude(turn.fails))
    case Left => Some(Conclude(turn.fails))
    case Finished(_) => None
  }

  /** Wherever the bridge is, once it is told to stop and the payment is recorded, it no longer waits after three steps
      of its own, whatever the router and anyone else do in between; and while it waits it always has a step to make, so
      nothing of the router's or the payee's is waited for. */
  lemma StopIsNotHeldUp(recorded: bool, past: seq<Event>, es: seq<Event>)
    requires Stopping(Run(Init(recorded), past))
    ensures var s := Run(Init(recorded), past);
            && (BridgeSteps(s, es) >= 3 ==> !IsWaiting(Run(s, es).pc))
            && (IsWaiting(Run(s, es).pc) ==> exists e :: IsBridges(e) && Can(Run(s, es), e))
  {
    var s := Run(Init(recorded), past);
    InvOnEveryRun(recorded, past);
    InvKept(s, es);
    StepsLeftFall(s, es);
    var t := Run(s, es);
    if IsWaiting(t.pc) {
      var e := BridgeStep(t, Turn([], false, false));
      assert IsBridges(e.value) && Can(t, e.value);
    }
  }

  // ---------------------------------------------------------------- the calls themselves

  predicate OthersOnlyIn(turns: seq<Turn>) {
    forall i | 0 <= i < |turns| :: forall e | e in turns[i].others :: !IsBridges(e)
  }

  function PlayTurn(s: State, turn: Turn): State {
    var t := Run(s, turn.others);
    var e := BridgeStep(t, turn);
    if e.Some? then Do(t, e.value) else t
  }

  function Played(s: State, turns: seq<Turn>): State
    decreases |turns|
  {
    if turns == [] then s else PlayTurn(Played(s, turns[..|turns| - 1]), turns[|turns| - 1])
  }

  lemma RunOneMore(s: State, es: seq<Event>, e: Event)
    ensures Run(s, es + [e]) == Do(Run(s, es), e)
  {
    assert (es + [e])[..|es|] == es;
  }

  /** The bridge waits only where it has no step at all to make. */
  lemma NeverStalls(s: State, turn: Turn)
    requires RouterOk(s)
    ensures BridgeStep(s, turn).Some? ==> IsBridges(BridgeStep(s, turn).value) && Can(s, BridgeStep(s, turn).value)
    ensures BridgeStep(s, turn).Some? <==> exists e :: IsBridges(e) && Can(s, e)
  {
    var e := BridgeStep(s, turn);
    assert e.Some? ==> IsBridges(e.value) && Can(s, e.value);
  }

  lemma PlayedOneMore(s: State, turns: seq<Turn>, n: nat)
    requires n < |turns|
    ensures Played(s, turns[..n + 1]) == PlayTurn(Played(s, turns[..n]), turns[n])
  {
    assert turns[..n + 1][..n] == turns[..n];
  }

  /** What turns come to is a run of the system. */
  lemma {:induction false} PlayedIsRun(s: State, turns: seq<Turn>) returns (es: seq<Event>)
    ensures Played(s, turns) == Run(s, es)
    decreases |turns|
  {
    if turns == [] {
      es := [];
    } else {
      var n := |turns| - 1;
      es := PlayedIsRun(s, turns[..n]);
      RunSplit(s, es, turns[n].others);
      es := es + turns[n].others;
      var e := BridgeStep(Run(s, es), turns[n]);
      if e.Some? {
        RunOneMore(s, es, e.value);
        es := es + [e.value];
      }
    }
  }

  /** The turn whose step an enabled event of the bridge is. */
  function TurnFor(others: seq<Event>, e: Event): Turn {
    Turn(others, e.TakeAnswer?,
         match e case AskRecord(fails) => fails case Conclude(fails) => fails case _ => false)
  }

  lemma StepOfTurn(s: State, e: Event)
    requires IsBridges(e) && Can(s, e)
    ensures BridgeStep(s, TurnFor([], e)) == Some(e)
  {
  }

  /** And every run of the system is what some turns come to, and then something of the others'. */
  lemma {:induction false} RunIsPlayed(s: State, es: seq<Event>) returns (turns: seq<Turn>, rest: seq<Event>)
    ensures OthersOnlyIn(turns) && (forall e | e in rest :: !IsBridges(e))
    ensures Run(s, es) == Run(Played(s, turns), rest)
    decreases |es|
  {
    if es == [] {
      turns, rest := [], [];
    } else {
      turns, rest := RunIsPlayed(s, es[..|es| - 1]);
      var before, e := Run(s, es[..|es| - 1]), es[|es| - 1];
      if !IsBridges(e) {
        RunOneMore(Played(s, turns), rest, e);
        rest := rest + [e];
      } else if Can(before, e) {
        StepOfTurn(before, e);
        var turn := TurnFor(rest, e);
        assert BridgeStep(before, turn) == BridgeStep(before, TurnFor([], e));
        assert (turns + [turn])[..|turns|] == turns;
        turns, rest := turns + [turn], [];
      }
    }
  }

  /** An answer is in only once the router has answered. */
  predicate DoneOk(s: State) {
    s.done ==> s.router.Returned?
  }

  lemma DoneKept(s: State, e: Event)
    requires DoneOk(s)
    ensures DoneOk(Do(s, e))
  {
  }

  class Call {
    var router: Router
    var recorded: bool
    var othersRecord: bool
    var htlcs: nat
    var done: bool
    var ctxDone: bool
    var pc: Pc
    var saidYes: bool
    var failedOnce: bool

    function View(): State
      reads this
    {
      State(router, recorded, othersRecord, htlcs, done, ctxDone, pc, saidYes, failedOnce)
    }

    constructor (recorded: bool)
      ensures View() == Init(recorded)
    {
      router, this.recorded, othersRecord, htlcs, done, ctxDone := SettingUp, recorded, recorded, 0, false, false;
      pc, saidYes, failedOnce := AtFirstSelect, false, false;
    }

    /** Whatever the others do, one step after another. */
    method Others(es: seq<Event>)
      requires DoneOk(View()) && forall e | e in es :: !IsBridges(e)
      modifies this
      ensures View() == Run(old(View()), es) && DoneOk(View()) && pc == old(pc)
    {
      for i := 0 to |es|
        invariant View() == Run(old(View()), es[..i]) && DoneOk(View()) && pc == old(pc)
      {
        assert es[..i + 1][..i] == es[..i];
        assert es[i] in es;
        DoneKept(View(), es[i]);
        OthersLeaveBridge(View(), es[i]);
        var t := Do(View(), es[i]);
        router, recorded, othersRecord, htlcs := t.router, t.recorded, t.othersRecord, t.htlcs;
        done, ctxDone := t.done, t.ctxDone;
      }
      assert es[..|es|] == es;
    }

    /** The select before the loop: an answer, or the end of the context. */
    method FirstSelect(turn: Turn)
      requires DoneOk(View()) && pc == AtFirstSelect && forall e | e in turn.others :: !IsBridges(e)
      modifies this
      ensures View() == PlayTurn(old(View()), turn) && DoneOk(View())
      ensures pc in {AtFirstSelect, AtPoll} || pc.GotAnswer?
    {
      Others(turn.others);
      if done && (turn.answerFirst || !ctxDone) {
        pc := GotAnswer(router.answer);
      } else if ctxDone {
        pc := AtPoll;
      }
    }

    /** At the top of the polling loop: is there an answer already? */
    method LookForAnswer(turn: Turn)
      requires DoneOk(View()) && pc == AtPoll && forall e | e in turn.others :: !IsBridges(e)
      modifies this
      ensures View() == PlayTurn(old(View()), turn) && DoneOk(View())
      ensures pc == AtRecordCheck || pc.GotAnswer?
    {
      Others(turn.others);
      if done {
        pc := GotAnswer(router.answer);
      } else {
        pc := AtRecordCheck;
      }
    }

    /** Is there a record? A lookup that fails says so too. */
    method CheckRecord(turn: Turn)
      requires DoneOk(View()) && pc == AtRecordCheck && forall e | e in turn.others :: !IsBridges(e)
      modifies this
      ensures View() == PlayTurn(old(View()), turn) && DoneOk(View())
      ensures pc in {AtTick, Left}
    {
      Others(turn.others);
      var yes := recorded || turn.fails;
      saidYes, failedOnce := saidYes || yes, failedOnce || turn.fails;
      pc := if yes then Left else AtTick;
    }

    /** The select at the end of the loop: an answer, or the next tick. */
    method AwaitTick(turn: Turn)
      requires DoneOk(View()) && pc == AtTick && forall e | e in turn.others :: !IsBridges(e)
      modifies this
      ensures View() == PlayTurn(old(View()), turn) && DoneOk(View())
      ensures pc == AtPoll || pc.GotAnswer?
    {
      Others(turn.others);
      if done && turn.answerFirst {
        pc := GotAnswer(router.answer);
      } else {
        pc := AtPoll;
      }
    }

    /** The next step of the polling loop. */
    method Poll(turn: Turn)
      requires DoneOk(View()) && pc in {AtPoll, AtRecordCheck, AtTick} && forall e | e in turn.others :: !IsBridges(e)
      modifies this
      ensures View() == PlayTurn(old(View()), turn) && DoneOk(View())
      ensures IsWaiting(pc) ==> pc != AtFirstSelect
      ensures IsWaiting(pc) || pc == Left || pc.GotAnswer?
    {
      if pc == AtPoll {
        LookForAnswer(turn);
      } else if pc == AtRecordCheck {
        CheckRecord(turn);
      } else {
        AwaitTick(turn);
      }
    }

    /** awaitBridgePayment, for as many turns as it takes, or as there are. */
    method AwaitBridgePayment(turns: seq<Turn>) returns (used: nat)
      requires DoneOk(View()) && pc == AtFirstSelect && OthersOnlyIn(turns)
      modifies this
      ensures used <= |turns| && View() == Played(old(View()), turns[..used]) && DoneOk(View())
      ensures if IsWaiting(pc) then used == |turns| else pc == Left || pc.GotAnswer?
    {
      used := 0;
      while pc == AtFirstSelect && used < |turns|
        invariant used <= |turns| && View() == Played(old(View()), turns[..used]) && DoneOk(View())
        invariant pc in {AtFirstSelect, AtPoll} || pc.GotAnswer?
        decreases |turns| - used
      {
        PlayedOneMore(old(View()), turns, used);
        FirstSelect(turns[used]);
        used := used + 1;
      }
      while pc in {AtPoll, AtRecordCheck, AtTick} && used < |turns|
        invariant used <= |turns| && View() == Played(old(View()), turns[..used]) && DoneOk(View())
        invariant pc == AtFirstSelect ==> used == |turns|
        invariant IsWaiting(pc) || pc == Left || pc.GotAnswer?
        decreases |turns| - used
      {
        PlayedOneMore(old(View()), turns, used);
        Poll(turns[used]);
        used := used + 1;
      }
    }

    /** What the wait came to is reported; after a failure, once a record was looked for. */
    method Report(turn: Turn) returns (verdict: Verdict)
      requires DoneOk(View()) && (pc == Left || pc.GotAnswer?) && forall e | e in turn.others :: !IsBridges(e)
      modifies this
      ensures View() == PlayTurn(old(View()), turn) && DoneOk(View()) && pc == Finished(verdict)
    {
      Others(turn.others);
      if pc == Left {
        pc := Finished(InFlight);
        return InFlight;
      }
      var answer := pc.answer;
      if answer.Paid? {
        verdict := Settled(answer.preimage);
      } else {
        failedOnce := failedOnce || turn.fails;
        if !(recorded || turn.fails) {
          verdict := NotSent;
        } else {
          verdict := InFlight;
        }
      }
      pc := Finished(verdict);
    }
  }

  /** A request, as payBridgeInvoice checks it. */
  datatype Request = Request(invoiceGiven: bool, cltvLimit: nat, timeout: int)

  const MAX_INT_32: nat := 0x7fff_ffff

  /** An error in the request, an intent the router backend refused (which is not sent either), what is reported of the
      call, or nothing yet if the turns run out. */
  datatype Reply = Invalid | IntentRefused | Reported(verdict: Verdict) | Unfinished

  predicate Valid(req: Request) {
    req.invoiceGiven && 0 < req.cltvLimit <= MAX_INT_32 && req.timeout > 0
  }

  /** payBridgeInvoice. What it reports is what a run of the system, with these turns, ends in; so if it reports the
      payment not sent, this call sent nothing and never will, and if it reports it settled, the router answered so. */
  method PayBridgeInvoice(req: Request, intentRefused: bool, recorded: bool, turns: seq<Turn>)
    returns (reply: Reply, call: Option<Call>)
    requires OthersOnlyIn(turns)
    ensures reply == Invalid
            <==> !req.invoiceGiven || req.cltvLimit == 0 || req.cltvLimit > 0x7fff_ffff || req.timeout <= 0
    ensures reply == IntentRefused <==> Valid(req) && intentRefused
    ensures call.Some? <==> Valid(req) && !intentRefused
    ensures call.Some? ==>
              && fresh(call.value)
              && (exists used | 0 <= used <= |turns| :: call.value.View() == Played(Init(recorded), turns[..used]))
              && (reply.Unfinished? ==> call.value.View() == Played(Init(recorded), turns))
              && (!reply.Unfinished? ==> reply.Reported? && call.value.pc == Finished(reply.verdict))
    ensures call.Some? && reply == Reported(NotSent) ==>
              forall later: seq<Event> :: Run(call.value.View(), later).htlcs == 0
    ensures call.Some? && reply.Reported? && reply.verdict.Settled? ==>
              call.value.router == Returned(Paid(reply.verdict.preimage))
  {
    if !req.invoiceGiven {
      return Invalid, None;
    }
    if req.cltvLimit == 0 {
      return Invalid, None;
    }
    if req.cltvLimit > MAX_INT_32 {
      return Invalid, None;
    }
    if req.timeout <= 0 {
      return Invalid, None;
    }
    if intentRefused {
      return IntentRefused, None;
    }
    var c := new Call(recorded);
    var used := c.AwaitBridgePayment(turns);
    if used == |turns| {
      assert turns[..used] == turns;
      return Unfinished, Some(c);
    }
    assert turns[..used + 1][..used] == turns[..used];
    var verdict := c.Report(turns[used]);
    ghost var es := PlayedIsRun(Init(recorded), turns[..used + 1]);
    InvOnEveryRun(recorded, es);
    if verdict == NotSent {
      forall later: seq<Event> ensures Run(c.View(), later).htlcs == 0 {
        ReturnedSendsNoMore(c.View(), later);
      }
    }
    return Reported(verdict), Some(c);
  }
}
