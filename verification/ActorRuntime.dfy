/**
 The actor runtime (actor/actor.go): one actor, its mailbox and its process loop, and any number of Tell and Ask calls
 on it, as a transition system. Every access to shared state that another goroutine can come between is a step.

 The mailbox is the one mailbox.go promises: first in first out, Send fails once it is closed, Close and a Send exclude
 each other, Drain yields what is left. Send may also fail because either context is done, or drop the message.
 */
module ActorRuntime {

  import opened Options

  /** A call on the actor, and the message it carries. */
  type Id = nat

  datatype Kind = Tell | Ask

  /** Why a Send failed. */
  datatype Why = MailboxClosed | ActorStopped | CallerGone | Shed

  /** How a call returned: its message is the mailbox's, went to the dead letter office, or went nowhere; or, for an
      Ask, was not sent. */
  datatype Fate = Accepted | DeadLettered | Lost(why: Why) | Refused(cause: Option<Why>)

  datatype Pc =
    | AtActorCheck
    | AtCallerCheck
    | AtSend
    | AtFailure(failure: Why)
    | AtCallerFailure(failure: Why)
    | Returned(fate: Fate)

  datatype Result = Reply(value: int) | ErrActorTerminated | ErrContext | ErrMessageDropped

  /** A call, what was done with its message (the behaviour's answer, how often it was handled, drained and told to the
      office), and its promise with every call of Complete on it. */
  datatype Call = Call(
    kind: Kind, callerDone: bool, pc: Pc,
    answer: Option<int>, handles: nat, drains: nat, letters: nat, promise: Option<Result>, completions: nat)

  datatype Phase = NotStarted | Receiving | Handling(id: Id) | Leaving | Draining | Finished

  /** `accepted`, `handled` and `drained` log the messages in the order they were. */
  datatype State = State(
    hasDlo: bool, ctxDone: bool, closed: bool, phase: Phase, mailbox: seq<Id>, calls: map<Id, Call>,
    accepted: seq<Id>, handled: seq<Id>, drained: seq<Id>)

  /** NewActor. */
  function Init(hasDlo: bool): State {
    State(hasDlo, false, false, NotStarted, [], map[], [], [], [])
  }

  // ---------------------------------------------------------------- steps

  datatype Event =
    | Begin(id: Id, kind: Kind)
    | CallerCancels(id: Id)
    | CheckActor(id: Id)
    | CheckCaller(id: Id)
    | SendOk(id: Id)
    | SendFails(id: Id, why: Why)
    | AfterFailure(id: Id)
    | AfterCallerFailure(id: Id)
    | Start
    | Stop
    | Take
    | Handle(value: int)
    | Leave
    | CloseMailbox
    | DrainOne
    | Finish

  predicate At(s: State, id: Id, pc: Pc) {
    id in s.calls && s.calls[id].pc == pc
  }

  predicate Can(s: State, e: Event) {
    match e
    case Begin(id, _) => id !in s.calls
    case CallerCancels(id) => id in s.calls
    case CheckActor(id) => At(s, id, AtActorCheck)
    case CheckCaller(id) => At(s, id, AtCallerCheck)
    case SendOk(id) => At(s, id, AtSend) && !s.closed
    case SendFails(id, why) =>
      && At(s, id, AtSend)
      && (why == MailboxClosed ==> s.closed)
      && (why == ActorStopped ==> s.ctxDone)
      && (why == CallerGone ==> s.calls[id].callerDone)
    case AfterFailure(id) => id in s.calls && s.calls[id].pc.AtFailure?
    case AfterCallerFailure(id) => id in s.calls && s.calls[id].pc.AtCallerFailure?
    case Start => s.phase == NotStarted
    case Stop => true
    case Take => s.phase == Receiving && s.mailbox != []
    case Handle(_) => s.phase.Handling? && s.phase.id in s.calls
    case Leave => s.phase == Receiving && s.ctxDone
    case CloseMailbox => s.phase == Leaving
    case DrainOne => s.phase == Draining && s.mailbox != [] && s.mailbox[0] in s.calls
    case Finish => s.phase == Draining && s.mailbox == []
  }

  /** Promise.Complete: only the first has an effect. */
  function Complete(c: Call, r: Result): Call {
    c.(completions := c.completions + 1, promise := if c.promise.Some? then c.promise else Some(r))
  }

  function CompleteAsk(c: Call, r: Result): Call {
    if c.kind == Ask then Complete(c, r) else c
  }

  /** trySendToDLO, for a Tell that could not be sent. */
  function ToOffice(s: State, c: Call, why: Why): Call {
    if s.hasDlo then c.(pc := Returned(DeadLettered), letters := c.letters + 1) else c.(pc := Returned(Lost(why)))
  }

  /** The call a step is about: the one that makes it, or whose message the loop handles or drains. */
  function Subject(s: State, e: Event): Option<Id>
    requires Can(s, e)
  {
    match e
    case Handle(_) => Some(s.phase.id)
    case DrainOne => Some(s.mailbox[0])
    case Start => None
    case Stop => None
    case Take => None
    case Leave => None
    case CloseMailbox => None
    case Finish => None
    case _ => Some(e.id)
  }

  /** What a step makes of the call it is about. */
  function Changed(s: State, e: Event): Call
    requires Can(s, e) && Subject(s, e).Some?
  {
    match e
    case Begin(id, kind) => Call(kind, false, AtActorCheck, None, 0, 0, 0, None, 0)
    case CallerCancels(id) => s.calls[id].(callerDone := true)
    case CheckActor(id) =>
      var c := s.calls[id];
      if c.kind == Tell then
        if s.ctxDone then ToOffice(s, c, ActorStopped) else c.(pc := AtSend)
      else
        if s.ctxDone then Complete(c.(pc := Returned(Refused(None))), ErrActorTerminated) else c.(pc := AtCallerCheck)
    case CheckCaller(id) =>
      var c := s.calls[id];
      if c.callerDone then Complete(c.(pc := Returned(Refused(None))), ErrContext) else c.(pc := AtSend)
    case SendOk(id) => s.calls[id].(pc := Returned(Accepted))
    case SendFails(id, why) => s.calls[id].(pc := AtFailure(why))
    case AfterFailure(id) =>
      var c := s.calls[id];
      var why := c.pc.failure;
      if c.kind == Tell then
        if s.ctxDone then ToOffice(s, c, why) else c.(pc := Returned(Lost(why)))
      else
        if s.ctxDone then Complete(c.(pc := Returned(Refused(Some(why)))), ErrActorTerminated)
        else c.(pc := AtCallerFailure(why))
    case AfterCallerFailure(id) =>
      var c := s.calls[id];
      Complete(c.(pc := Returned(Refused(Some(c.pc.failure)))), if c.callerDone then ErrContext else ErrMessageDropped)
    case Handle(value) =>
      var c := s.calls[s.phase.id];
      CompleteAsk(c.(answer := Some(value), handles := c.handles + 1), Reply(value))
    case DrainOne =>
      var c := s.calls[s.mailbox[0]];
      CompleteAsk(c.(drains := c.drains + 1, letters := if s.hasDlo then c.letters + 1 else c.letters),
                  ErrActorTerminated)
  }

  /** What a step makes of everything but the calls. */
  function Moved(s: State, e: Event): State
    requires Can(s, e)
  {
    match e
    case SendOk(id) => s.(mailbox := s.mailbox + [id], accepted := s.accepted + [id])
    case Start => s.(phase := Receiving)
    case Stop => s.(ctxDone := true)
    case Take => s.(phase := Handling(s.mailbox[0]), mailbox := s.mailbox[1..])
    case Handle(_) => s.(phase := Receiving, handled := s.handled + [s.phase.id])
    case Leave => s.(phase := Leaving)
    case CloseMailbox => s.(closed := true, phase := Draining)
    case DrainOne => s.(mailbox := s.mailbox[1..], drained := s.drained + [s.mailbox[0]])
    case Finish => s.(phase := Finished)
    case _ => s
  }

  /** A step, or nothing if it is not enabled. */
  function Do(s: State, e: Event): State {
    if !Can(s, e) then s
    else if Subject(s, e).None? then Moved(s, e)
    else Moved(s, e).(calls := s.calls[Subject(s, e).value := Changed(s, e)])
  }

  function Run(s: State, es: seq<Event>): State
    decreases |es|
  {
    if es == [] then s else Do(Run(s, es[..|es| - 1]), es[|es| - 1])
  }

  // ---------------------------------------------------------------- invariants

  /** The messages accepted and neither handled nor drained. */
  function Waiting(s: State): seq<Id> {
    (if s.phase.Handling? then [s.phase.id] else []) + s.mailbox
  }

  predicate NoRepeats(ids: seq<Id>) {
    forall i, j | 0 <= i < j < |ids| :: ids[i] != ids[j]
  }

  predicate PhaseOk(s: State) {
    && (s.phase in {Leaving, Draining, Finished} ==> s.ctxDone)
    && (s.closed <==> s.phase in {Draining, Finished})
    && (s.phase == NotStarted ==> s.handled == [])
    && (!s.closed ==> s.drained == [])
    && (s.phase == Finished ==> s.mailbox == [])
  }

  /** Every accepted message is, in the order sent, handled, drained or waiting. */
  predicate Conserved(s: State) {
    s.accepted == s.handled + s.drained + Waiting(s)
  }

  ghost predicate AcceptedOk(s: State) {
    && NoRepeats(s.accepted)
    && (forall id :: id in s.accepted <==> At(s, id, Returned(Accepted)))
  }

  predicate Untouched(c: Call) {
    c.answer.None? && c.handles == 0 && c.drains == 0 && c.letters == 0 && c.promise.None? && c.completions == 0
  }

  predicate HandledOnce(c: Call) {
    && c.handles == 1 && c.drains == 0 && c.letters == 0 && c.answer.Some?
    && c.promise == (if c.kind == Ask then Some(Reply(c.answer.value)) else None)
    && c.completions == (if c.kind == Ask then 1 else 0)
  }

  predicate DrainedOnce(s: State, c: Call) {
    && c.handles == 0 && c.drains == 1 && c.letters == (if s.hasDlo then 1 else 0) && s.ctxDone
    && c.promise == (if c.kind == Ask then Some(ErrActorTerminated) else None)
    && c.completions == (if c.kind == Ask then 1 else 0)
  }

  /** A failure that was the actor's shows in its context, one that was the caller's in the caller's. */
  predicate WhyOk(s: State, c: Call, why: Why) {
    && (why in {MailboxClosed, ActorStopped} ==> s.ctxDone)
    && (why == CallerGone ==> c.callerDone)
  }

  predicate RefusedOnce(s: State, c: Call, cause: Option<Why>) {
    && c.kind == Ask && c.answer.None? && c.handles == 0 && c.drains == 0 && c.letters == 0
    && c.completions == 1 && c.promise.Some?
    && match c.promise.value
       case Reply(_) => false
       case ErrActorTerminated => s.ctxDone
       case ErrContext => c.callerDone
       case ErrMessageDropped => cause == Some(Shed)
  }

  predicate CallOk(s: State, c: Call, waiting: bool) {
    match c.pc
    case AtCallerCheck => Untouched(c) && c.kind == Ask
    case AtFailure(why) => Untouched(c) && WhyOk(s, c, why)
    case AtCallerFailure(why) => Untouched(c) && WhyOk(s, c, why) && c.kind == Ask && why in {CallerGone, Shed}
    case Returned(Accepted) => if waiting then Untouched(c) else HandledOnce(c) || DrainedOnce(s, c)
    case Returned(DeadLettered) =>
      && c.kind == Tell && s.hasDlo && s.ctxDone && c.letters == 1
      && c.handles == 0 && c.drains == 0 && c.completions == 0 && c.promise.None?
    case Returned(Lost(why)) =>
      c.kind == Tell && Untouched(c) && WhyOk(s, c, why) && (s.hasDlo ==> why in {CallerGone, Shed})
    case Returned(Refused(cause)) => RefusedOnce(s, c, cause)
    case _ => Untouched(c)
  }

  ghost predicate CallsOk(s: State) {
    forall id | id in s.calls :: CallOk(s, s.calls[id], id in Waiting(s))
  }

  ghost predicate Inv(s: State) {
    PhaseOk(s) && Conserved(s) && AcceptedOk(s) && CallsOk(s)
  }

  // ---------------------------------------------------------------- every step keeps them

  lemma PhaseKept(s: State, e: Event)
    requires PhaseOk(s)
    ensures PhaseOk(Do(s, e))
  {
  }

  /** The logs grow by the message sent, handled or drained. */
  lemma LogsAfter(s: State, e: Event)
    requires Can(s, e)
    ensures Do(s, e).accepted == if e.SendOk? then s.accepted + [e.id] else s.accepted
    ensures Do(s, e).handled == if e.Handle? then s.handled + [Subject(s, e).value] else s.handled
    ensures Do(s, e).drained == if e.DrainOne? then s.drained + [Subject(s, e).value] else s.drained
  {
  }

  /** What waits changes at its ends alone. */
  lemma WaitingAfter(s: State, e: Event)
    requires Can(s, e) && PhaseOk(s)
    ensures var w := Waiting(Do(s, e));
            if e.SendOk? then w == Waiting(s) + [e.id]
            else if e.Handle? || e.DrainOne? then Waiting(s) == [Subject(s, e).value] + w
            else w == Waiting(s)
  {
    if e.Take? || e.DrainOne? {
      assert s.mailbox == [s.mailbox[0]] + s.mailbox[1..];
    }
  }

  lemma MovedOver(handled: seq<Id>, drained: seq<Id>, id: Id, w: seq<Id>)
    ensures handled + drained + ([id] + w) == handled + (drained + [id]) + w
    ensures drained == [] ==> handled + drained + ([id] + w) == (handled + [id]) + drained + w
  {
  }

  /** The logs and what waits, each grown or shortened by the same message, still make up what was accepted. */
  lemma ConservedFrom(s: State, e: Event, t: State)
    requires Can(s, e) && Conserved(s) && (e.Handle? ==> s.drained == [])
    requires t.accepted == if e.SendOk? then s.accepted + [e.id] else s.accepted
    requires t.handled == if e.Handle? then s.handled + [Subject(s, e).value] else s.handled
    requires t.drained == if e.DrainOne? then s.drained + [Subject(s, e).value] else s.drained
    requires if e.SendOk? then Waiting(t) == Waiting(s) + [e.id]
             else if e.Handle? || e.DrainOne? then Waiting(s) == [Subject(s, e).value] + Waiting(t)
             else Waiting(t) == Waiting(s)
    ensures Conserved(t)
  {
    var w := Waiting(t);
    if e.Handle? {
      MovedOver(s.handled, [], Subject(s, e).value, w);
    } else if e.DrainOne? {
      MovedOver(s.handled, s.drained, Subject(s, e).value, w);
    }
  }

  lemma ConservedKept(s: State, e: Event)
    requires PhaseOk(s) && Conserved(s)
    ensures Conserved(Do(s, e))
  {
    if Can(s, e) {
      LogsAfter(s, e);
      WaitingAfter(s, e);
      ConservedFrom(s, e, Do(s, e));
    }
  }

  /** Only by its Send is a call accepted, and it stays so. */
  lemma AcceptedHere(s: State, e: Event, id: Id)
    requires Can(s, e)
    ensures At(Do(s, e), id, Returned(Accepted)) <==> At(s, id, Returned(Accepted)) || e == SendOk(id)
  {
  }

  lemma AcceptedKept(s: State, e: Event)
    requires AcceptedOk(s)
    ensures AcceptedOk(Do(s, e))
  {
    if Can(s, e) {
      var t := Do(s, e);
      LogsAfter(s, e);
      if e.SendOk? {
        assert !At(s, e.id, Returned(Accepted));
      }
      forall id ensures id in t.accepted <==> At(t, id, Returned(Accepted)) {
        AcceptedHere(s, e, id);
      }
    }
  }

  lemma FirstWaitsOnce(s: State)
    requires Conserved(s) && AcceptedOk(s) && Waiting(s) != []
    ensures Waiting(s)[0] !in Waiting(s)[1..]
    ensures At(s, Waiting(s)[0], Returned(Accepted))
  {
    var w, n := Waiting(s), |s.handled + s.drained|;
    assert forall i | 0 <= i < |w| :: s.accepted[n + i] == w[i];
    assert w[0] in s.accepted;
  }

  lemma OtherCallKept(s: State, e: Event, id: Id)
    requires Can(s, e) && id in s.calls && Subject(s, e) != Some(id)
    requires CallOk(s, s.calls[id], id in Waiting(s)) && (id in Waiting(Do(s, e)) <==> id in Waiting(s))
    ensures CallOk(Do(s, e), s.calls[id], id in Waiting(Do(s, e))) && Do(s, e).calls[id] == s.calls[id]
  {
    var t := Do(s, e);
    assert t.hasDlo == s.hasDlo && (s.ctxDone ==> t.ctxDone);
  }

  /** A message the loop handles or drains. */
  lemma LoopCallKept(s: State, e: Event)
    requires PhaseOk(s) && Can(s, e) && (e.Handle? || e.DrainOne?)
    requires CallOk(s, s.calls[Subject(s, e).value], true)
    requires s.calls[Subject(s, e).value].pc == Returned(Accepted)
    ensures CallOk(Do(s, e), Do(s, e).calls[Subject(s, e).value], false)
  {
  }

  /** A step of the call itself. */
  lemma SenderKept(s: State, e: Event)
    requires PhaseOk(s) && Can(s, e) && Subject(s, e).Some? && !e.Handle? && !e.DrainOne?
    requires e.id in s.calls ==> CallOk(s, s.calls[e.id], e.id in Waiting(s))
    requires e.SendOk? ==> e.id in Waiting(Do(s, e))
    requires !e.SendOk? ==> (e.id in Waiting(Do(s, e)) <==> e.id in Waiting(s))
    ensures CallOk(Do(s, e), Do(s, e).calls[e.id], e.id in Waiting(Do(s, e)))
  {
    var t := Do(s, e);
    assert t.hasDlo == s.hasDlo && t.ctxDone == s.ctxDone;
    assert t.calls[e.id] == Changed(s, e);
    match e
    case CallerCancels(_) =>
    case AfterFailure(_) =>
    case CheckActor(_) =>
    case _ =>
  }

  lemma CallsKept(s: State, e: Event)
    requires Inv(s) && Can(s, e)
    ensures CallsOk(Do(s, e))
  {
    var t := Do(s, e);
    WaitingAfter(s, e);
    if e.Handle? || e.DrainOne? {
      FirstWaitsOnce(s);
      assert Waiting(t) == Waiting(s)[1..];
    }
    forall id | id in t.calls ensures CallOk(t, t.calls[id], id in Waiting(t)) {
      if id in s.calls {
        assert CallOk(s, s.calls[id], id in Waiting(s));
      } else {
        assert !At(s, id, Returned(Accepted));
        assert id !in s.accepted;
      }
      if Subject(s, e) != Some(id) {
        OtherCallKept(s, e, id);
      } else if e.Handle? || e.DrainOne? {
        LoopCallKept(s, e);
      } else {
        SenderKept(s, e);
      }
    }
  }

  lemma StepKeeps(s: State, e: Event)
    requires Inv(s)
    ensures Inv(Do(s, e)) && Do(s, e).hasDlo == s.hasDlo
  {
    if Can(s, e) {
      PhaseKept(s, e);
      ConservedKept(s, e);
      AcceptedKept(s, e);
      CallsKept(s, e);
    }
  }

  lemma {:induction false} InvKept(s: State, es: seq<Event>)
    requires Inv(s)
    ensures Inv(Run(s, es)) && Run(s, es).hasDlo == s.hasDlo
    decreases |es|
  {
    if es != [] {
      InvKept(s, es[..|es| - 1]);
      StepKeeps(Run(s, es[..|es| - 1]), es[|es| - 1]);
    }
  }

  lemma InvOnEveryRun(hasDlo: bool, es: seq<Event>)
    ensures Inv(Run(Init(hasDlo), es)) && Run(Init(hasDlo), es).hasDlo == hasDlo
  {
    assert AcceptedOk(Init(hasDlo));
    InvKept(Init(hasDlo), es);
  }

  // ---------------------------------------------------------------- what every run promises

  /** The number of times an id is in a list. */
  function Count(ids: seq<Id>, id: Id): nat {
    multiset(ids)[id]
  }

  lemma {:induction false} NoRepeatsCount(ids: seq<Id>, id: Id)
    requires NoRepeats(ids)
    ensures Count(ids, id) == if id in ids then 1 else 0
  {
    if ids != [] {
      assert ids == [ids[0]] + ids[1..];
      NoRepeatsCount(ids[1..], id);
    }
  }

  /** Conservation: in every run, each accepted message is in exactly one place, once: handled, drained or waiting;
      and messages are handled in the order they were sent. */
  lemma AcceptedOnceAndInOrder(hasDlo: bool, es: seq<Event>, id: Id)
    ensures var s := Run(Init(hasDlo), es);
            && s.handled <= s.accepted
            && Count(s.handled, id) + Count(s.drained, id) + Count(Waiting(s), id)
               == (if At(s, id, Returned(Accepted)) then 1 else 0)
  {
    var s := Run(Init(hasDlo), es);
    InvOnEveryRun(hasDlo, es);
    NoRepeatsCount(s.accepted, id);
    assert multiset(s.accepted) == multiset(s.handled) + multiset(s.drained) + multiset(Waiting(s));
  }

  /** A Tell that is over and whose message nobody got or will get: it went nowhere, or was drained and not told to an
      office. */
  predicate Dropped(c: Call) {
    c.kind == Tell && c.pc.Returned? && c.letters == 0
    && (c.pc.fate.Lost? || (c.pc.fate.Accepted? && c.handles == 0 && c.drains > 0))
  }

  predicate IsDropped(s: State, id: Id) {
    id in s.calls && Dropped(s.calls[id])
  }

  /** The steps that drop a message: its Tell finds the actor stopped and no office set; its Send failed, and it finds
      the context live or no office set; or it is drained with no office set. */
  predicate Drops(s: State, e: Event, id: Id) {
    && Can(s, e) && Subject(s, e) == Some(id) && id in s.calls && s.calls[id].kind == Tell
    && match e
       case CheckActor(_) => s.ctxDone && !s.hasDlo
       case AfterFailure(_) => !s.ctxDone || !s.hasDlo
       case DrainOne => !s.hasDlo
       case _ => false
  }

  /** A step of a call's own. */
  lemma DroppedBySender(s: State, e: Event, id: Id)
    requires Can(s, e) && Subject(s, e) == Some(id) && !e.Handle? && !e.DrainOne?
    requires id in s.calls ==> CallOk(s, s.calls[id], id in Waiting(s))
    ensures IsDropped(Do(s, e), id) <==> IsDropped(s, id) || Drops(s, e, id)
  {
    assert Do(s, e).calls[id] == Changed(s, e);
  }

  lemma DroppedByLoop(s: State, e: Event, id: Id)
    requires Can(s, e) && Subject(s, e) == Some(id) && (e.Handle? || e.DrainOne?)
    requires At(s, id, Returned(Accepted)) && Untouched(s.calls[id])
    ensures IsDropped(Do(s, e), id) <==> IsDropped(s, id) || Drops(s, e, id)
  {
    assert Do(s, e).calls[id] == Changed(s, e);
  }

  /** In every reachable state a step drops a message exactly when it is one of these, and what is dropped stays so. */
  lemma DroppedExactly(s: State, e: Event, id: Id)
    requires Inv(s)
    ensures IsDropped(Do(s, e), id) <==> IsDropped(s, id) || Drops(s, e, id)
  {
    if Can(s, e) && Subject(s, e) == Some(id) {
      if id in s.calls {
        assert CallOk(s, s.calls[id], id in Waiting(s));
      }
      if e.Handle? || e.DrainOne? {
        FirstWaitsOnce(s);
        assert Waiting(s)[0] == id;
        DroppedByLoop(s, e, id);
      } else {
        DroppedBySender(s, e, id);
      }
    }
  }

  /** The step at a place of a run drops a message. */
  predicate DropsAt(hasDlo: bool, es: seq<Event>, n: nat, id: Id)
    requires n < |es|
  {
    Drops(Run(Init(hasDlo), es[..n]), es[n], id)
  }

  lemma SameEarlier(hasDlo: bool, es: seq<Event>, m: nat, n: nat, id: Id)
    requires n < m <= |es|
    ensures DropsAt(hasDlo, es[..m], n, id) <==> DropsAt(hasDlo, es, n, id)
  {
    assert es[..m][..n] == es[..n];
  }

  /** In every run a message is dropped exactly when one of its steps drops it. */
  lemma {:induction false} DroppedByAStep(hasDlo: bool, es: seq<Event>, id: Id)
    ensures IsDropped(Run(Init(hasDlo), es), id) <==> exists n | 0 <= n < |es| :: DropsAt(hasDlo, es, n, id)
    decreases |es|
  {
    if es != [] {
      var last := |es| - 1;
      DroppedByAStep(hasDlo, es[..last], id);
      InvOnEveryRun(hasDlo, es[..last]);
      DroppedExactly(Run(Init(hasDlo), es[..last]), es[last], id);
      assert IsDropped(Run(Init(hasDlo), es), id)
             <==> IsDropped(Run(Init(hasDlo), es[..last]), id) || DropsAt(hasDlo, es, last, id);
      forall n | 0 <= n < last ensures DropsAt(hasDlo, es[..last], n, id) <==> DropsAt(hasDlo, es, n, id) {
        SameEarlier(hasDlo, es, last, n, id);
      }
    }
  }

  /** Once the actor's loop is over, every Tell that returned was exactly one of handled, once, dead-lettered, once, and
      dropped, by a step that drops. With a dead letter office set that step looked after a failed Send and found the
      actor's context live: its caller had left, or the mailbox shed the message. */
  lemma EveryTellIsAccountedFor(hasDlo: bool, es: seq<Event>, id: Id)
    requires Run(Init(hasDlo), es).phase == Finished
    requires var s := Run(Init(hasDlo), es); id in s.calls && s.calls[id].kind == Tell && s.calls[id].pc.Returned?
    ensures var c := Run(Init(hasDlo), es).calls[id];
            && (if Dropped(c) then c.handles == 0 && c.letters == 0 else c.handles + c.letters == 1)
            && (Dropped(c) <==> exists n | 0 <= n < |es| :: DropsAt(hasDlo, es, n, id))
            && (Dropped(c) && hasDlo ==>
                 && c.pc.fate.Lost? && (c.pc.fate.why == Shed || (c.pc.fate.why == CallerGone && c.callerDone))
                 && exists n | 0 <= n < |es| :: es[n] == AfterFailure(id) && !Run(Init(hasDlo), es[..n]).ctxDone)
  {
    var s := Run(Init(hasDlo), es);
    InvOnEveryRun(hasDlo, es);
    assert CallOk(s, s.calls[id], id in Waiting(s));
    DroppedByAStep(hasDlo, es, id);
    if Dropped(s.calls[id]) && hasDlo {
      var n :| 0 <= n < |es| && DropsAt(hasDlo, es, n, id);
      InvOnEveryRun(hasDlo, es[..n]);
    }
  }

  /** What an Ask may be told, and when it is true: the answer the behaviour gave to its message; that the actor
      stopped; that the caller gave up; that the mailbox shed the message. */
  predicate TrueResult(s: State, c: Call, r: Result) {
    match r
    case Reply(value) => c.handles == 1 && c.answer == Some(value)
    case ErrActorTerminated => s.ctxDone && c.handles == 0
    case ErrContext => c.callerDone && c.handles == 0 && c.drains == 0
    case ErrMessageDropped => c.pc == Returned(Refused(Some(Shed))) && c.handles == 0
  }

  lemma AnsweredOnce(s: State, id: Id)
    requires PhaseOk(s) && CallsOk(s) && id in s.calls
    ensures var c := s.calls[id];
            && c.completions == (if c.promise.Some? then 1 else 0)
            && (c.promise.Some? ==> c.kind == Ask && TrueResult(s, c, c.promise.value))
            && (s.phase == Finished && c.kind == Ask && c.pc.Returned? ==> c.promise.Some?)
  {
    assert CallOk(s, s.calls[id], id in Waiting(s));
  }

  /** Every promise is completed at most once, of an Ask alone, and with what is true. Once the actor's loop is over no
      Ask that returned is left pending. */
  lemma EveryAskIsAnsweredOnce(hasDlo: bool, es: seq<Event>, id: Id)
    requires id in Run(Init(hasDlo), es).calls
    ensures var s := Run(Init(hasDlo), es);
            var c := s.calls[id];
            && c.completions == (if c.promise.Some? then 1 else 0)
            && (c.promise.Some? ==> c.kind == Ask && TrueResult(s, c, c.promise.value))
            && (s.phase == Finished && c.kind == Ask && c.pc.Returned? ==> c.promise.Some?)
  {
    InvOnEveryRun(hasDlo, es);
    AnsweredOnce(Run(Init(hasDlo), es), id);
  }

  // ---------------------------------------------------------------- what a call is told, and when

  /** The step that gives an Ask an answer: the behaviour's; that the actor stopped, found before the Send, after it
      failed, or by the drain; that its caller gave up, found before the Send or after it failed; or, after a Send that
      failed with both still there, that the message was dropped. */
  predicate Answers(s: State, e: Event, id: Id, r: Result) {
    && Can(s, e) && Subject(s, e) == Some(id) && id in s.calls && s.calls[id].kind == Ask
    && match r
       case Reply(value) => e == Handle(value)
       case ErrActorTerminated => e.DrainOne? || ((e.CheckActor? || e.AfterFailure?) && s.ctxDone)
       case ErrContext => (e.CheckCaller? || e.AfterCallerFailure?) && s.calls[id].callerDone
       case ErrMessageDropped => e.AfterCallerFailure? && !s.calls[id].callerDone
  }

  predicate Told(s: State, id: Id, r: Result) {
    id in s.calls && s.calls[id].promise == Some(r)
  }

  lemma ToldBySender(s: State, e: Event, id: Id, r: Result)
    requires Can(s, e) && Subject(s, e) == Some(id) && !e.Handle? && !e.DrainOne?
    requires id in s.calls ==> CallOk(s, s.calls[id], id in Waiting(s))
    ensures Told(Do(s, e), id, r) <==> Told(s, id, r) || Answers(s, e, id, r)
  {
    assert Do(s, e).calls[id] == Changed(s, e);
    match e
    case CheckActor(_) =>
    case CheckCaller(_) =>
    case AfterFailure(_) =>
    case AfterCallerFailure(_) =>
    case _ =>
  }

  lemma ToldByLoop(s: State, e: Event, id: Id, r: Result)
    requires Can(s, e) && Subject(s, e) == Some(id) && (e.Handle? || e.DrainOne?)
    requires At(s, id, Returned(Accepted)) && Untouched(s.calls[id])
    ensures Told(Do(s, e), id, r) <==> Told(s, id, r) || Answers(s, e, id, r)
  {
    assert Do(s, e).calls[id] == Changed(s, e);
  }

  lemma ToldBySubject(s: State, e: Event, id: Id, r: Result)
    requires Inv(s) && Can(s, e) && Subject(s, e) == Some(id)
    ensures Told(Do(s, e), id, r) <==> Told(s, id, r) || Answers(s, e, id, r)
  {
    if id in s.calls {
      assert CallOk(s, s.calls[id], id in Waiting(s));
    }
    if e.Handle? || e.DrainOne? {
      FirstWaitsOnce(s);
      assert Waiting(s)[0] == id;
      ToldByLoop(s, e, id, r);
    } else {
      ToldBySender(s, e, id, r);
    }
  }

  lemma ToldElsewhere(s: State, e: Event, id: Id, r: Result)
    requires !(Can(s, e) && Subject(s, e) == Some(id))
    ensures (Told(Do(s, e), id, r) <==> Told(s, id, r)) && !Answers(s, e, id, r)
  {
  }

  /** In every reachable state a step gives an Ask an answer exactly when it is one of these, and the answer stays. */
  lemma AnsweredExactly(s: State, e: Event, id: Id, r: Result)
    requires Inv(s)
    ensures Told(Do(s, e), id, r) <==> Told(s, id, r) || Answers(s, e, id, r)
  {
    if Can(s, e) && Subject(s, e) == Some(id) {
      ToldBySubject(s, e, id, r);
    } else {
      ToldElsewhere(s, e, id, r);
    }
  }

  /** An Ask whose caller gave up before it was sent: still to be refused, or refused. */
  predicate GivenUp(s: State, id: Id) {
    id in s.calls &&
    var c := s.calls[id];
    && c.kind == Ask && c.callerDone && c.handles == 0
    && (c.pc in {AtActorCheck, AtCallerCheck}
        || (c.pc == Returned(Refused(None)) && c.promise in {Some(ErrContext), Some(ErrActorTerminated)}))
  }

  lemma GivenUpKept(s: State, e: Event, id: Id)
    requires Inv(s) && GivenUp(s, id)
    ensures GivenUp(Do(s, e), id)
  {
    assert CallOk(s, s.calls[id], id in Waiting(s));
    if Can(s, e) && Subject(s, e) == Some(id) {
      assert Do(s, e).calls[id] == Changed(s, e);
      if e.Handle? || e.DrainOne? {
        FirstWaitsOnce(s);
      }
    }
  }

  /** An Ask whose caller's context was done when the call looked, or before, is never sent: whatever happens later it
      is not accepted and not handled, and once it has returned its caller was told that it gave up, or that the actor
      stopped. */
  lemma {:induction false} GivenUpIsNeverSent(hasDlo: bool, past: seq<Event>, later: seq<Event>, id: Id)
    requires var s := Run(Init(hasDlo), past);
             && id in s.calls && s.calls[id].kind == Ask && s.calls[id].callerDone
             && s.calls[id].pc in {AtActorCheck, AtCallerCheck}
    ensures var t := Run(Run(Init(hasDlo), past), later);
            && GivenUp(t, id) && t.calls[id].pc != Returned(Accepted)
            && (t.calls[id].pc.Returned? ==> t.calls[id].promise in {Some(ErrContext), Some(ErrActorTerminated)})
    decreases |later|
  {
    InvOnEveryRun(hasDlo, past);
    if later == [] {
      assert CallOk(Run(Init(hasDlo), past), Run(Init(hasDlo), past).calls[id], id in Waiting(Run(Init(hasDlo), past)));
    } else {
      GivenUpIsNeverSent(hasDlo, past, later[..|later| - 1], id);
      InvKept(Run(Init(hasDlo), past), later[..|later| - 1]);
      GivenUpKept(Run(Run(Init(hasDlo), past), later[..|later| - 1]), later[|later| - 1], id);
    }
  }

  /** A call that has still to look at an actor that has stopped, or found it so. */
  predicate TooLate(s: State, id: Id) {
    id in s.calls && s.ctxDone &&
    var c := s.calls[id];
    && c.handles == 0 && c.drains == 0
    && (c.pc == AtActorCheck
        || (c.kind == Ask && c.pc == Returned(Refused(None)) && c.promise == Some(ErrActorTerminated))
        || (c.kind == Tell && c.pc == if s.hasDlo then Returned(DeadLettered) else Returned(Lost(ActorStopped))))
  }

  lemma TooLateKept(s: State, e: Event, id: Id)
    requires Inv(s) && TooLate(s, id)
    ensures TooLate(Do(s, e), id)
  {
    assert CallOk(s, s.calls[id], id in Waiting(s));
    if Can(s, e) && Subject(s, e) == Some(id) {
      assert Do(s, e).calls[id] == Changed(s, e);
      if e.Handle? || e.DrainOne? {
        FirstWaitsOnce(s);
      }
    }
  }

  /** A call that looks at the actor after it stopped is never sent: whatever happens later it is not accepted, and once
      it has returned an Ask was told that the actor stopped, and a Tell's message is the dead letter office's, or lost
      if there is none. */
  lemma {:induction false} TooLateIsNeverSent(hasDlo: bool, past: seq<Event>, later: seq<Event>, id: Id)
    requires var s := Run(Init(hasDlo), past); s.ctxDone && At(s, id, AtActorCheck)
    ensures var t := Run(Run(Init(hasDlo), past), later);
            TooLate(t, id) && t.calls[id].pc != Returned(Accepted)
    decreases |later|
  {
    InvOnEveryRun(hasDlo, past);
    if later == [] {
      assert CallOk(Run(Init(hasDlo), past), Run(Init(hasDlo), past).calls[id], id in Waiting(Run(Init(hasDlo), past)));
    } else {
      TooLateIsNeverSent(hasDlo, past, later[..|later| - 1], id);
      InvKept(Run(Init(hasDlo), past), later[..|later| - 1]);
      TooLateKept(Run(Run(Init(hasDlo), past), later[..|later| - 1]), later[|later| - 1], id);
    }
  }

  /** The step at a place of a run is the call's caller giving up. */
  predicate CancelsAt(hasDlo: bool, es: seq<Event>, n: nat, id: Id)
    requires n < |es|
  {
    es[n] == CallerCancels(id) && id in Run(Init(hasDlo), es[..n]).calls
  }

  lemma SignalsHere(s: State, e: Event, id: Id)
    ensures var t := Do(s, e);
            && (t.ctxDone <==> s.ctxDone || e.Stop?)
            && (id in t.calls <==> id in s.calls || (e.Begin? && e.id == id))
            && (id in t.calls ==>
                 (t.calls[id].callerDone <==> id in s.calls && (s.calls[id].callerDone || e == CallerCancels(id))))
  {
    if Can(s, e) && Subject(s, e) == Some(id) {
      assert Do(s, e).calls[id] == Changed(s, e);
    }
  }

  lemma CancelledBefore(hasDlo: bool, es: seq<Event>, id: Id)
    requires es != []
    ensures var last := |es| - 1;
            (exists n | 0 <= n < |es| :: CancelsAt(hasDlo, es, n, id))
            <==> || (exists n | 0 <= n < last :: CancelsAt(hasDlo, es[..last], n, id))
                 || CancelsAt(hasDlo, es, last, id)
  {
    var last := |es| - 1;
    forall n | 0 <= n < last ensures CancelsAt(hasDlo, es[..last], n, id) <==> CancelsAt(hasDlo, es, n, id) {
      assert es[..last][..n] == es[..n];
    }
  }

  /** In every run the actor's context is done exactly if Stop was called, and a caller's exactly if it gave up after
      its call began. */
  lemma {:induction false} SignalsExactly(hasDlo: bool, es: seq<Event>, id: Id)
    ensures var s := Run(Init(hasDlo), es);
            && (s.ctxDone <==> Event.Stop in es)
            && (id in s.calls ==>
                 (s.calls[id].callerDone <==> exists n | 0 <= n < |es| :: CancelsAt(hasDlo, es, n, id)))
    ensures (exists n | 0 <= n < |es| :: CancelsAt(hasDlo, es, n, id)) ==> id in Run(Init(hasDlo), es).calls
    decreases |es|
  {
    if es != [] {
      var last := |es| - 1;
      SignalsExactly(hasDlo, es[..last], id);
      assert es == es[..last] + [es[last]];
      SignalsHere(Run(Init(hasDlo), es[..last]), es[last], id);
      CancelledBefore(hasDlo, es, id);
    }
  }

  // ---------------------------------------------------------------- every call returns

  /** A step that a call makes itself. */
  predicate IsCallers(e: Event, id: Id) {
    e in {CheckActor(id), CheckCaller(id), SendOk(id), AfterFailure(id), AfterCallerFailure(id)}
    || (e.SendFails? && e.id == id)
  }

  /** The most steps of its own a call has still to make. */
  function StepsLeft(c: Call): nat {
    match c.pc
    case AtActorCheck => if c.kind == Tell then 3 else 5
    case AtCallerCheck => if c.kind == Tell then 3 else 4
    case AtSend => if c.kind == Tell then 2 else 3
    case AtFailure(_) => if c.kind == Tell then 1 else 2
    case AtCallerFailure(_) => 1
    case Returned(_) => 0
  }

  /** How many steps of its own a call made in a run. */
  function CallSteps(s: State, es: seq<Event>, id: Id): nat
    decreases |es|
  {
    if es == [] then 0
    else
      var before, last := es[..|es| - 1], es[|es| - 1];
      CallSteps(s, before, id) + if IsCallers(last, id) && Can(Run(s, before), last) then 1 else 0
  }

  lemma StepsLeftAfter(s: State, e: Event, id: Id)
    requires id in s.calls
    ensures id in Do(s, e).calls
    ensures StepsLeft(Do(s, e).calls[id]) + (if IsCallers(e, id) && Can(s, e) then 1 else 0) <= StepsLeft(s.calls[id])
  {
    if Can(s, e) && Subject(s, e) == Some(id) {
      assert Do(s, e).calls[id] == Changed(s, e);
    }
  }

  /** Neither Tell nor Ask waits for the loop: whatever it and other callers do, a call makes at most five steps of its
      own, a Tell three, and until it returned it has one to make. */
  lemma {:induction false} EveryCallReturns(s: State, es: seq<Event>, id: Id)
    requires id in s.calls
    ensures id in Run(s, es).calls
    ensures StepsLeft(Run(s, es).calls[id]) + CallSteps(s, es, id) <= StepsLeft(s.calls[id]) <= 5
    ensures !Run(s, es).calls[id].pc.Returned? ==> exists e :: IsCallers(e, id) && Can(Run(s, es), e)
    decreases |es|
  {
    if es != [] {
      EveryCallReturns(s, es[..|es| - 1], id);
      StepsLeftAfter(Run(s, es[..|es| - 1]), es[|es| - 1], id);
    }
    var t := Run(s, es);
    match t.calls[id].pc
    case AtActorCheck => assert IsCallers(CheckActor(id), id) && Can(t, CheckActor(id));
    case AtCallerCheck => assert IsCallers(CheckCaller(id), id) && Can(t, CheckCaller(id));
    case AtSend => assert IsCallers(SendFails(id, Shed), id) && Can(t, SendFails(id, Shed));
    case AtFailure(_) => assert IsCallers(AfterFailure(id), id) && Can(t, AfterFailure(id));
    case AtCallerFailure(_) => assert IsCallers(AfterCallerFailure(id), id) && Can(t, AfterCallerFailure(id));
    case _ =>
  }

  // ---------------------------------------------------------------- an actor that is never started

  lemma {:induction false} UnstartedTouchesNothing(hasDlo: bool, es: seq<Event>)
    requires Start !in es
    ensures Run(Init(hasDlo), es).phase == NotStarted
    decreases |es|
  {
    if es != [] {
      UnstartedTouchesNothing(hasDlo, es[..|es| - 1]);
      assert es[|es| - 1] in es;
    }
  }

  /** An actor that is never started leaves every Ask it accepted pending, stopped or not. */
  lemma UnstartedLeavesAsksPending(hasDlo: bool, es: seq<Event>, id: Id)
    requires Start !in es
    requires At(Run(Init(hasDlo), es), id, Returned(Accepted))
    ensures Run(Init(hasDlo), es).calls[id].promise.None?
  {
    var s := Run(Init(hasDlo), es);
    UnstartedTouchesNothing(hasDlo, es);
    InvOnEveryRun(hasDlo, es);
    assert id in s.accepted && s.accepted == Waiting(s);
    assert CallOk(s, s.calls[id], true);
  }

  // ---------------------------------------------------------------- the loop among callers

  /** A step of the loop's own. */
  predicate IsLoops(e: Event) {
    e.Start? || e.Take? || e.Handle? || e.Leave? || e.CloseMailbox? || e.DrainOne? || e.Finish?
  }

  /** A turn of the loop: what callers do before its next step, whether it receives where the select may choose, and
      what the behaviour answers. */
  datatype Turn = Turn(callers: seq<Event>, receives: bool, answer: int)

  /** The loop's next step; one that is not enabled waits. */
  function LoopStep(s: State, turn: Turn): Event {
    match s.phase
    case Receiving => if s.mailbox != [] && (turn.receives || !s.ctxDone) then Take else Event.Leave
    case Handling(_) => Handle(turn.answer)
    case Leaving => CloseMailbox
    case Draining => if s.mailbox == [] then Event.Finish else DrainOne
    case _ => Event.Finish
  }

  function PlayTurn(s: State, turn: Turn): State {
    var t := Run(s, turn.callers);
    Do(t, LoopStep(t, turn))
  }

  function Played(s: State, turns: seq<Turn>): State
    decreases |turns|
  {
    if turns == [] then s else PlayTurn(Played(s, turns[..|turns| - 1]), turns[|turns| - 1])
  }

  lemma {:induction false} RunSplit(s: State, a: seq<Event>, b: seq<Event>)
    ensures Run(s, a + b) == Run(Run(s, a), b)
    decreases |b|
  {
    if b == [] {
      assert a + b == a;
    } else {
      assert (a + b)[..|a + b| - 1] == a + b[..|b| - 1];
      RunSplit(s, a, b[..|b| - 1]);
    }
  }

  /** What turns come to is a run of the system, so all that is promised of runs holds of it. */
  lemma {:induction false} PlayedIsRun(s: State, turns: seq<Turn>) returns (es: seq<Event>)
    ensures Played(s, turns) == Run(s, es)
    decreases |turns|
  {
    if turns == [] {
      es := [];
    } else {
      var n := |turns| - 1;
      es := PlayedIsRun(s, turns[..n]);
      RunSplit(s, es, turns[n].callers);
      es := es + turns[n].callers;
      var e := LoopStep(Run(s, es), turns[n]);
      assert (es + [e])[..|es|] == es;
      es := es + [e];
    }
  }

  /** The turn whose step an enabled event of the loop is. */
  function TurnFor(callers: seq<Event>, e: Event): Turn {
    Turn(callers, e.Take?, if e.Handle? then e.value else 0)
  }

  lemma StepOfTurn(s: State, e: Event)
    requires IsLoops(e) && !e.Start? && Can(s, e)
    ensures LoopStep(s, TurnFor([], e)) == e
  {
  }

  lemma RunOneMore(s: State, es: seq<Event>, e: Event)
    ensures Run(s, es + [e]) == Do(Run(s, es), e)
  {
    assert (es + [e])[..|es|] == es;
  }

  predicate CallersOnly(turns: seq<Turn>) {
    forall i | 0 <= i < |turns| :: forall e | e in turns[i].callers :: !IsLoops(e)
  }

  /** And every run of a started actor is what some turns come to, and then something of the callers'. */
  lemma {:induction false} RunIsPlayed(s: State, es: seq<Event>) returns (turns: seq<Turn>, rest: seq<Event>)
    requires s.phase != NotStarted
    ensures CallersOnly(turns) && (forall e | e in rest :: !IsLoops(e))
    ensures Run(s, es) == Run(Played(s, turns), rest) && Run(s, es).phase != NotStarted
    decreases |es|
  {
    if es == [] {
      turns, rest := [], [];
    } else {
      turns, rest := RunIsPlayed(s, es[..|es| - 1]);
      var before, e := Run(s, es[..|es| - 1]), es[|es| - 1];
      if !IsLoops(e) {
        RunOneMore(Played(s, turns), rest, e);
        rest := rest + [e];
      } else if Can(before, e) {
        StepOfTurn(before, e);
        var turn := TurnFor(rest, e);
        assert LoopStep(before, turn) == LoopStep(before, TurnFor([], e));
        assert (turns + [turn])[..|turns|] == turns;
        turns, rest := turns + [turn], [];
      }
    }
  }

  lemma HandlingKnown(s: State)
    requires Inv(s) && s.phase.Handling?
    ensures s.phase.id in s.calls
  {
    FirstWaitsOnce(s);
    assert Waiting(s)[0] == s.phase.id;
  }

  lemma DrainingKnown(s: State)
    requires Inv(s) && s.phase == Draining && s.mailbox != []
    ensures s.mailbox[0] in s.calls
  {
    FirstWaitsOnce(s);
    assert Waiting(s)[0] == s.mailbox[0];
  }

  /** The loop waits only where it has no step at all to make: for a message or the end of its context. */
  lemma NeverStalls(s: State, turn: Turn)
    requires Inv(s) && s.phase !in {NotStarted, Finished}
    ensures Can(s, LoopStep(s, turn)) <==> !(s.phase == Receiving && s.mailbox == [] && !s.ctxDone)
    ensures IsLoops(LoopStep(s, turn))
  {
    if s.phase.Handling? {
      HandlingKnown(s);
    } else if s.phase == Draining && s.mailbox != [] {
      DrainingKnown(s);
    }
  }

  /** After the close: that many messages wait, each of a call there is, or the loop is over. */
  predicate Closing(t: State, waiting: nat) {
    && t.closed && t.phase == Draining && |t.mailbox| == waiting
    && forall id | id in t.mailbox :: id in t.calls
  }

  predicate Over(t: State) {
    t.closed && t.phase == Finished
  }

  /** Nothing callers do touches a closed mailbox. */
  lemma CallerLeavesClosed(s: State, e: Event)
    requires s.closed && !IsLoops(e)
    ensures var t := Do(s, e);
            && t.mailbox == s.mailbox && t.phase == s.phase && t.closed
            && forall id | id in s.calls :: id in t.calls
  {
  }

  lemma {:induction false} CallersLeaveClosed(s: State, es: seq<Event>)
    requires s.closed && forall e | e in es :: !IsLoops(e)
    ensures var t := Run(s, es);
            && t.mailbox == s.mailbox && t.phase == s.phase && t.closed
            && forall id | id in s.calls :: id in t.calls
    decreases |es|
  {
    if es != [] {
      CallersLeaveClosed(s, es[..|es| - 1]);
      assert es[|es| - 1] in es;
      CallerLeavesClosed(Run(s, es[..|es| - 1]), es[|es| - 1]);
    }
  }

  /** The loop's step then drains a message, or ends the loop. */
  lemma ClosingStep(m: State, turn: Turn, waiting: nat)
    requires Closing(m, waiting)
    ensures var t := Do(m, LoopStep(m, turn)); if waiting > 0 then Closing(t, waiting - 1) else Over(t)
  {
    if waiting > 0 {
      assert m.mailbox[0] in m.mailbox;
      assert forall id | id in m.mailbox[1..] :: id in m.mailbox;
    }
  }

  lemma ClosingTurn(s: State, turn: Turn, waiting: nat)
    requires Closing(s, waiting) && forall e | e in turn.callers :: !IsLoops(e)
    ensures var t := PlayTurn(s, turn); if waiting > 0 then Closing(t, waiting - 1) else Over(t)
  {
    CallersLeaveClosed(s, turn.callers);
    ClosingStep(Run(s, turn.callers), turn, waiting);
  }

  lemma OverTurn(s: State, turn: Turn)
    requires Over(s) && forall e | e in turn.callers :: !IsLoops(e)
    ensures Over(PlayTurn(s, turn))
  {
    CallersLeaveClosed(s, turn.callers);
  }

  lemma {:induction false} DrainedSoFar(s: State, waiting: nat, turns: seq<Turn>, n: nat)
    requires Closing(s, waiting) && n <= |turns| && CallersOnly(turns)
    ensures var t := Played(s, turns[..n]); if n <= waiting then Closing(t, waiting - n) else Over(t)
  {
    if n > 0 {
      DrainedSoFar(s, waiting, turns, n - 1);
      assert turns[..n][..n - 1] == turns[..n - 1];
      if n - 1 <= waiting {
        ClosingTurn(Played(s, turns[..n - 1]), turns[n - 1], waiting - (n - 1));
      } else {
        OverTurn(Played(s, turns[..n - 1]), turns[n - 1]);
      }
    }
  }

  /** Callers cannot put off the end of the draining: each turn drains a message, and none is added. */
  lemma DrainingEnds(s: State, turns: seq<Turn>)
    requires Inv(s) && s.phase == Draining && |turns| > |s.mailbox| && CallersOnly(turns)
    ensures Played(s, turns).phase == Finished
  {
    forall id | id in s.mailbox ensures id in s.calls {
      assert id in s.accepted;
    }
    DrainedSoFar(s, |s.mailbox|, turns, |turns|);
    assert turns[..|turns|] == turns;
  }

  /** How far a stopped loop is from closing its mailbox. */
  function TurnsToClose(phase: Phase): nat {
    match phase
    case NotStarted => 4
    case Handling(_) => 3
    case Receiving => 2
    case Leaving => 1
    case _ => 0
  }

  lemma CallerLeavesLoop(s: State, e: Event)
    requires !IsLoops(e)
    ensures Do(s, e).phase == s.phase && (s.ctxDone ==> Do(s, e).ctxDone)
  {
  }

  lemma {:induction false} CallersLeaveLoop(s: State, es: seq<Event>)
    requires forall e | e in es :: !IsLoops(e)
    ensures Run(s, es).phase == s.phase && (s.ctxDone ==> Run(s, es).ctxDone)
    decreases |es|
  {
    if es != [] {
      CallersLeaveLoop(s, es[..|es| - 1]);
      assert es[|es| - 1] in es;
      CallerLeavesLoop(Run(s, es[..|es| - 1]), es[|es| - 1]);
    }
  }

  lemma TurnNearsClose(s: State, turn: Turn)
    requires Inv(s) && s.ctxDone && s.phase != NotStarted && !turn.receives
    requires forall e | e in turn.callers :: !IsLoops(e)
    ensures var t := PlayTurn(s, turn);
            && Inv(t) && t.ctxDone && t.phase != NotStarted
            && (TurnsToClose(t.phase) < TurnsToClose(s.phase) || TurnsToClose(t.phase) == 0)
  {
    var m := Run(s, turn.callers);
    InvKept(s, turn.callers);
    CallersLeaveLoop(s, turn.callers);
    StepKeeps(m, LoopStep(m, turn));
    if m.phase.Handling? {
      HandlingKnown(m);
    }
  }

  lemma {:induction false} StoppedCloses(s: State, turns: seq<Turn>)
    requires Inv(s) && s.ctxDone && s.phase != NotStarted && CallersOnly(turns)
    requires forall i | 0 <= i < |turns| :: !turns[i].receives
    ensures var t := Played(s, turns);
            && Inv(t) && t.ctxDone && t.phase != NotStarted
            && (TurnsToClose(t.phase) == 0 || TurnsToClose(t.phase) + |turns| <= TurnsToClose(s.phase))
    decreases |turns|
  {
    if turns != [] {
      var n := |turns| - 1;
      StoppedCloses(s, turns[..n]);
      TurnNearsClose(Played(s, turns[..n]), turns[n]);
    }
  }

  lemma {:induction false} StaysOver(s: State, turns: seq<Turn>)
    requires Over(s) && CallersOnly(turns)
    ensures Over(Played(s, turns))
    decreases |turns|
  {
    if turns != [] {
      StaysOver(s, turns[..|turns| - 1]);
      OverTurn(Played(s, turns[..|turns| - 1]), turns[|turns| - 1]);
    }
  }

  /** A stopped actor's loop ends, also if it is only started then: after three turns that look at the context before
      the mailbox it has closed the mailbox, and one turn more than that then holds messages ends it. */
  lemma StoppedActorEnds(s: State, turns: seq<Turn>, rest: seq<Turn>)
    requires Inv(s) && s.ctxDone && |turns| == 3 && CallersOnly(turns) && CallersOnly(rest)
    requires forall i | 0 <= i < |turns| :: !turns[i].receives
    ensures var t := Played(Do(s, Start), turns);
            && t.closed
            && (|rest| > |t.mailbox| ==> Over(Played(t, rest)))
  {
    StepKeeps(s, Start);
    StoppedCloses(Do(s, Start), turns);
    var t := Played(Do(s, Start), turns);
    if |rest| > |t.mailbox| {
      if t.phase == Draining {
        forall id | id in t.mailbox ensures id in t.calls {
          assert id in t.accepted;
        }
        DrainedSoFar(t, |t.mailbox|, rest, |rest|);
        assert rest[..|rest|] == rest;
      } else {
        StaysOver(t, rest);
      }
    }
  }

  lemma KeepsOffice(s: State, e: Event)
    ensures Do(s, e).hasDlo == s.hasDlo
  {
  }

  // ---------------------------------------------------------------- the loop

  /** The steps of the loop that handles the next messages, finds the context done, closes the mailbox and drains it. */
  function Handlings(answers: seq<int>): seq<Event> {
    if answers == [] then [] else Handlings(answers[..|answers| - 1]) + [Take, Handle(answers[|answers| - 1])]
  }

  function Drainings(n: nat): (es: seq<Event>)
    ensures |es| == n
  {
    if n == 0 then [] else Drainings(n - 1) + [DrainOne]
  }

  /** The state the loop leaves: a run of its steps. */
  function AfterProcess(s: State, answers: seq<int>): State
    requires |answers| <= |s.mailbox|
  {
    var closed := Do(Do(Run(s, Handlings(answers)), Event.Leave), CloseMailbox);
    Do(Run(closed, Drainings(|s.mailbox| - |answers|)), Event.Finish)
  }

  /** The first `n` messages of a box went, in order, to the end of a log. */
  predicate TakenOff(box: seq<Id>, n: nat, left: seq<Id>, before: seq<Id>, log: seq<Id>) {
    n <= |box| && left == box[n..] && log == before + box[..n]
  }

  lemma OneMoreOff(box: seq<Id>, n: nat, left: seq<Id>, before: seq<Id>, log: seq<Id>)
    requires TakenOff(box, n, left, before, log) && n < |box|
    ensures left != [] && left[0] in box
    ensures TakenOff(box, n + 1, left[1..], before, log + [left[0]])
  {
  }

  lemma TurnOfDraining(start: State, before: State, n: nat)
    requires before == Run(start, Drainings(n))
    ensures Do(before, DrainOne) == Run(start, Drainings(n + 1))
  {
    assert Drainings(n + 1)[..n] == Drainings(n);
  }

  lemma TurnOfTheLoop(start: State, before: State, answers: seq<int>, answer: int)
    requires before == Run(start, Handlings(answers))
    ensures Do(Do(before, Take), Handle(answer)) == Run(start, Handlings(answers + [answer]))
  {
    assert (answers + [answer])[..|answers|] == answers;
    var es := Handlings(answers);
    var all := es + [Take, Handle(answer)];
    assert all[..|all| - 1] == es + [Take];
    assert (es + [Take])[..|es|] == es;
  }

  class Actor {
    const hasDlo: bool
    var ctxDone: bool
    var closed: bool
    var phase: Phase
    var mailbox: seq<Id>
    var calls: map<Id, Call>
    var accepted: seq<Id>
    var handled: seq<Id>
    var drained: seq<Id>

    function View(): State
      reads this
    {
      State(hasDlo, ctxDone, closed, phase, mailbox, calls, accepted, handled, drained)
    }

    constructor (hasDlo: bool)
      ensures View() == Init(hasDlo)
    {
      this.hasDlo := hasDlo;
      ctxDone, closed, phase, mailbox, calls := false, false, NotStarted, [], map[];
      accepted, handled, drained := [], [], [];
    }

    method Stop()
      modifies this
      ensures View() == Do(old(View()), Event.Stop)
    {
      ctxDone := true;
    }

    method CompletePromise(id: Id, r: Result)
      requires id in calls
      modifies this`calls
      ensures calls == old(calls)[id := Complete(old(calls)[id], r)]
      ensures old(calls)[id].promise.Some? ==> calls[id].promise == old(calls)[id].promise
      ensures old(calls)[id].promise.None? ==> calls[id].promise == Some(r)
    {
      var c := calls[id];
      calls := calls[id := c.(completions := c.completions + 1,
                              promise := if c.promise.Some? then c.promise else Some(r))];
    }

    /** Receive: a message, or the end of the context; one of the two where both are there. */
    method ReceiveNext(turn: Turn)
      requires phase == Receiving
      modifies this`phase, this`mailbox
      ensures View() == Do(old(View()), LoopStep(old(View()), turn))
    {
      if mailbox != [] && (turn.receives || !ctxDone) {
        phase, mailbox := Handling(mailbox[0]), mailbox[1..];
      } else if ctxDone {
        phase := Leaving;
      }
    }

    /** The behaviour answers the message received. */
    method HandleReceived(answer: int)
      requires phase.Handling? && phase.id in calls
      modifies this
      ensures View() == Do(old(View()), Handle(answer))
    {
      var id := phase.id;
      handled, phase := handled + [id], Receiving;
      var c := calls[id];
      calls := calls[id := c.(answer := Some(answer), handles := c.handles + 1)];
      if c.kind == Ask {
        CompletePromise(id, Reply(answer));
      }
    }

    method CloseMailboxNow()
      requires phase == Leaving
      modifies this`phase, this`closed
      ensures View() == Do(old(View()), CloseMailbox)
    {
      closed, phase := true, Draining;
    }

    /** One turn of the loop: a message is received and the behaviour gives `answer`. */
    method HandleNext(answer: int)
      requires phase == Receiving && mailbox != [] && mailbox[0] in calls
      modifies this
      ensures View() == Do(Do(old(View()), Take), Handle(answer))
      ensures phase == Receiving && ctxDone == old(ctxDone) && calls.Keys == old(calls.Keys)
      ensures mailbox == old(mailbox)[1..] && handled == old(handled) + [old(mailbox)[0]] && drained == old(drained)
    {
      ReceiveNext(Turn([], true, answer));
      HandleReceived(answer);
    }

    /** One turn of the loop that drains. */
    method DrainNext()
      requires phase == Draining && mailbox != [] && mailbox[0] in calls
      modifies this
      ensures View() == Do(old(View()), DrainOne)
      ensures phase == Draining && calls.Keys == old(calls.Keys)
      ensures mailbox == old(mailbox)[1..] && drained == old(drained) + [old(mailbox)[0]] && handled == old(handled)
    {
      var id := mailbox[0];
      mailbox := mailbox[1..];
      drained := drained + [id];
      var c := calls[id];
      c := c.(drains := c.drains + 1);
      if hasDlo {
        c := c.(letters := c.letters + 1);
      }
      calls := calls[id := c];
      if c.kind == Ask {
        CompletePromise(id, ErrActorTerminated);
      }
    }

    /** A turn of the loop over what Receive yields, the `n`th since `start`. */
    method HandleOneOf(ghost start: State, ghost answers: seq<int>, answer: int)
      requires phase == Receiving && TakenOff(start.mailbox, |answers|, mailbox, start.handled, handled)
      requires |answers| < |start.mailbox| && View() == Run(start, Handlings(answers))
      requires forall id | id in start.mailbox :: id in calls
      modifies this
      ensures View() == Run(start, Handlings(answers + [answer]))
      ensures phase == Receiving && ctxDone == old(ctxDone) && calls.Keys == old(calls.Keys) && drained == old(drained)
      ensures TakenOff(start.mailbox, |answers| + 1, mailbox, start.handled, handled)
    {
      ghost var before := View();
      OneMoreOff(start.mailbox, |answers|, mailbox, start.handled, handled);
      HandleNext(answer);
      TurnOfTheLoop(start, before, answers, answer);
    }

    /** The loop over what Receive yields, if no caller comes between, for as many messages as there are answers. */
    method HandleAll(answers: seq<int>)
      requires phase == Receiving && |answers| <= |mailbox| && forall id | id in mailbox :: id in calls
      modifies this
      ensures View() == Run(old(View()), Handlings(answers))
      ensures phase == Receiving && ctxDone == old(ctxDone) && calls.Keys == old(calls.Keys)
      ensures mailbox == old(mailbox)[|answers|..]
      ensures handled == old(handled) + old(mailbox)[..|answers|] && drained == old(drained)
    {
      ghost var start := View();
      for i := 0 to |answers|
        invariant View() == Run(start, Handlings(answers[..i]))
        invariant phase == Receiving && ctxDone == start.ctxDone && calls.Keys == start.calls.Keys
        invariant drained == start.drained && TakenOff(start.mailbox, i, mailbox, start.handled, handled)
      {
        HandleOneOf(start, answers[..i], answers[i]);
        assert answers[..i + 1] == answers[..i] + [answers[i]];
      }
      assert answers[..|answers|] == answers;
    }

    /** A turn of the loop over what Drain yields, the `n`th since `start`. */
    method DrainOneOf(ghost start: State, ghost n: nat)
      requires phase == Draining && TakenOff(start.mailbox, n, mailbox, start.drained, drained)
      requires n < |start.mailbox| && View() == Run(start, Drainings(n))
      requires forall id | id in start.mailbox :: id in calls
      modifies this
      ensures View() == Run(start, Drainings(n + 1))
      ensures phase == Draining && calls.Keys == old(calls.Keys) && handled == old(handled)
      ensures TakenOff(start.mailbox, n + 1, mailbox, start.drained, drained)
    {
      ghost var before := View();
      OneMoreOff(start.mailbox, n, mailbox, start.drained, drained);
      DrainNext();
      TurnOfDraining(start, before, n);
    }

    /** The loop over what Drain yields. */
    method DrainAll()
      requires phase == Draining && forall id | id in mailbox :: id in calls
      modifies this
      ensures View() == Run(old(View()), Drainings(|old(mailbox)|))
      ensures phase == Draining && mailbox == []
      ensures handled == old(handled) && drained == old(drained) + old(mailbox)
    {
      ghost var start := View();
      ghost var n: nat := 0;
      while mailbox != []
        invariant View() == Run(start, Drainings(n))
        invariant phase == Draining && calls.Keys == start.calls.Keys
        invariant handled == start.handled && TakenOff(start.mailbox, n, mailbox, start.drained, drained)
        decreases |mailbox|
      {
        DrainOneOf(start, n);
        n := n + 1;
      }
    }

    /** The loop over what Receive yields ends, and the mailbox is closed. */
    method CloseAfter()
      requires phase == Receiving && ctxDone
      modifies this`phase, this`mailbox, this`closed
      ensures View() == Do(Do(old(View()), Event.Leave), CloseMailbox)
      ensures phase == Draining
    {
      ReceiveNext(Turn([], false, 0));
      CloseMailboxNow();
    }

    method FinishLoop()
      requires phase == Draining && mailbox == []
      modifies this`phase
      ensures View() == Do(old(View()), Event.Finish)
      ensures phase == Finished
    {
      phase := Finished;
    }

    /** process, from a stopped actor's mailbox, if no caller comes between: the behaviour handles as many messages as
        it has answers, as the select may let it, and the rest are drained. */
    method ProcessAlone(answers: seq<int>)
      requires phase == Receiving && ctxDone && |answers| <= |mailbox| && forall id | id in mailbox :: id in calls
      modifies this
      ensures View() == AfterProcess(old(View()), answers)
      ensures phase == Finished && mailbox == []
      ensures handled == old(handled) + old(mailbox)[..|answers|]
      ensures drained == old(drained) + old(mailbox)[|answers|..]
    {
      HandleAll(answers);
      CloseAfter();
      DrainAll();
      FinishLoop();
    }

    /** Whatever callers do, one step after another. */
    method Callers(es: seq<Event>)
      requires forall e | e in es :: !IsLoops(e)
      modifies this
      ensures View() == Run(old(View()), es)
    {
      for i := 0 to |es|
        invariant View() == Run(old(View()), es[..i])
      {
        assert es[..i + 1][..i] == es[..i];
        var t := Do(View(), es[i]);
        KeepsOffice(View(), es[i]);
        ctxDone, closed, phase, mailbox, calls := t.ctxDone, t.closed, t.phase, t.mailbox, t.calls;
        accepted, handled, drained := t.accepted, t.handled, t.drained;
      }
      assert es[..|es|] == es;
    }

    /** The loop's next step. */
    method Step(turn: Turn)
      requires phase.Handling? ==> phase.id in calls
      requires phase == Draining && mailbox != [] ==> mailbox[0] in calls
      modifies this
      ensures View() == Do(old(View()), LoopStep(old(View()), turn))
    {
      if phase == Receiving {
        ReceiveNext(turn);
      } else if phase.Handling? {
        HandleReceived(turn.answer);
      } else if phase == Leaving {
        CloseMailboxNow();
      } else if phase == Draining {
        if mailbox == [] {
          FinishLoop();
        } else {
          DrainNext();
        }
      }
    }

    /** The loop's next step, after what callers did meanwhile. */
    method TakeTurn(turn: Turn)
      requires Inv(View()) && forall e | e in turn.callers :: !IsLoops(e)
      modifies this
      ensures View() == PlayTurn(old(View()), turn) && Inv(View())
    {
      InvKept(View(), turn.callers);
      Callers(turn.callers);
      if phase.Handling? {
        HandlingKnown(View());
      } else if phase == Draining && mailbox != [] {
        DrainingKnown(View());
      }
      StepKeeps(View(), LoopStep(View(), turn));
      Step(turn);
    }

    /** process, whatever callers do between its steps, for as many turns as it is given: it is done once it has drained
        the mailbox it closed. */
    method Process(turns: seq<Turn>)
      requires Inv(View()) && CallersOnly(turns)
      modifies this
      ensures View() == Played(old(View()), turns) && Inv(View())
    {
      for i := 0 to |turns|
        invariant View() == Played(old(View()), turns[..i]) && Inv(View())
      {
        assert turns[..i + 1][..i] == turns[..i];
        TakeTurn(turns[i]);
      }
      assert turns[..|turns|] == turns;
    }
  }
}
