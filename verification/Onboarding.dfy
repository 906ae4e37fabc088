/** The onboarding engine: a session walks through six steps, and a completed session must carry
    the whole history of having passed each. */
module Onboarding {
  import opened Options

  datatype Step = Organization | Kyb | Sandbox | ApiKey | Webhook | FirstTransfer | Completed
  datatype Status = Created | InProgress | RequiresAction | PendingReview | Done | Failed | Canceled

  /** What step_state records for a step; the free-form input of some steps is not kept. */
  datatype Entry = Collected | KybUnavailable | KybRequiresAction | KybApproved | Provisioned | KeyCreated | Configured
                 | Projected(yes: bool)

  datatype Session = Session(status: Status, currentStep: Option<Step>, stepState: map<Step, Entry>,
                             kybDecisionId: Option<string>, firstApiKeyId: Option<string>,
                             firstTransferIntentId: Option<string>, completionEventId: Option<string>,
                             completedAt: Option<int>)

  /** The fields of a step's input that a step looks at, and the clock. */
  datatype Input = Input(outage: bool, approved: bool, decision: string, decisionId: Option<string>, keyId: Option<string>,
                         transferIntentId: Option<string>, projected: bool, eventId: Option<string>, now: int)

  datatype Event = OnboardingRequiresAction | OnboardingCompleted
  datatype Result = Ok(session: Session, event: Option<Event>) | ExpectedStep(step: Step) | UnsupportedStep(step: Step)

  function Or(first: Option<string>, second: Option<string>, last: string): string {
    if first.Some? then first.value else if second.Some? then second.value else last
  }

  // ---- steps

  function OrganizationStep(s: Session): Session {
    s.(status := InProgress, currentStep := Some(Kyb), stepState := s.stepState[Organization := Collected])
  }

  function KybStep(s: Session, i: Input): Session {
    if i.outage then
      s.(status := PendingReview, currentStep := Some(Kyb), stepState := s.stepState[Kyb := KybUnavailable])
    else if i.approved || i.decision == "approved" then
      s.(status := InProgress, currentStep := Some(Sandbox), kybDecisionId := Some(Or(i.decisionId, None, "kyb_approved")),
         stepState := s.stepState[Kyb := KybApproved])
    else
      s.(status := RequiresAction, currentStep := Some(Kyb), stepState := s.stepState[Kyb := KybRequiresAction])
  }

  function SandboxStep(s: Session): Session {
    s.(status := InProgress, currentStep := Some(ApiKey), stepState := s.stepState[Sandbox := Provisioned])
  }

  function ApiKeyStep(s: Session, i: Input): Session {
    s.(status := InProgress, currentStep := Some(Webhook),
       firstApiKeyId := Some(Or(i.keyId, s.firstApiKeyId, "key_onboarding")), stepState := s.stepState[ApiKey := KeyCreated])
  }

  function WebhookStep(s: Session): Session {
    s.(status := InProgress, currentStep := Some(FirstTransfer), stepState := s.stepState[Webhook := Configured])
  }

  function FirstTransferStep(s: Session, i: Input): Session {
    var id := Some(Or(i.transferIntentId, s.firstTransferIntentId, "trint_onboarding"));
    if !i.projected then
      s.(status := InProgress, currentStep := Some(FirstTransfer), firstTransferIntentId := id,
         stepState := s.stepState[FirstTransfer := Projected(false)])
    else
      s.(status := Done, currentStep := Some(Completed), firstTransferIntentId := id,
         completionEventId := Some(Or(i.eventId, None, "evt_onboarding_completed")), completedAt := Some(i.now),
         stepState := s.stepState[FirstTransfer := Projected(true)])
  }

  function Handle(s: Session, step: Step, i: Input): Option<Session> {
    match step
    case Organization => Some(OrganizationStep(s))
    case Kyb => Some(KybStep(s, i))
    case Sandbox => Some(SandboxStep(s))
    case ApiKey => Some(ApiKeyStep(s, i))
    case Webhook => Some(WebhookStep(s))
    case FirstTransfer => Some(FirstTransferStep(s, i))
    case Completed => None
  }

  function EventOf(status: Status): Option<Event> {
    match status
    case Done => Some(OnboardingCompleted)
    case RequiresAction => Some(OnboardingRequiresAction)
    case PendingReview => Some(OnboardingRequiresAction)
    case _ => None
  }

  function AdvanceSession(s: Session, step: Step, i: Input): Result {
    if s.status == Done || s.status == Canceled then Ok(s, None)
    else if s.currentStep.Some? && s.currentStep.value != step then ExpectedStep(s.currentStep.value)
    else
      match Handle(s, step, i)
      case None => UnsupportedStep(step)
      case Some(next) => Ok(next, EventOf(next.status))
  }

  const FRESH: Session := Session(InProgress, Some(Organization), map[], None, None, None, None, None)

  // ---- runs

  datatype Call = Call(step: Step, input: Input)

  function Next(s: Session, c: Call): Session {
    var r := AdvanceSession(s, c.step, c.input);
    if r.Ok? then r.session else s
  }

  function Emitted(s: Session, c: Call): seq<Event> {
    var r := AdvanceSession(s, c.step, c.input);
    if r.Ok? && r.event.Some? then [r.event.value] else []
  }

  function Run(s: Session, calls: seq<Call>): Session
    decreases |calls|
  {
    if calls == [] then s else Run(Next(s, calls[0]), calls[1..])
  }

  function Events(s: Session, calls: seq<Call>): seq<Event>
    decreases |calls|
  {
    if calls == [] then [] else Emitted(s, calls[0]) + Events(Next(s, calls[0]), calls[1..])
  }

  function Rank(step: Step): nat {
    match step
    case Organization => 0 case Kyb => 1 case Sandbox => 2 case ApiKey => 3 case Webhook => 4 case FirstTransfer => 5
    case Completed => 6
  }

  /** The entry a step leaves when it is passed. */
  function Passed(step: Step): Entry {
    match step
    case Organization => Collected
    case Kyb => KybApproved
    case Sandbox => Provisioned
    case ApiKey => KeyCreated
    case Webhook => Configured
    case _ => Projected(true)
  }

  /** A session holds the passed entry of exactly the steps behind it, at most a pending one for
      the step it is at, and nothing of the steps ahead. */
  ghost predicate HistoryOf(state: map<Step, Entry>, at: Step) {
    && (forall step :: Rank(step) < Rank(at) ==> step in state && state[step] == Passed(step))
    && (forall step :: step in state ==> Rank(step) <= Rank(at) && step != Completed)
    && (at in state ==> state[at] != Passed(at))
  }

  ghost predicate Inv(s: Session) {
    && s.currentStep.Some?
    && (s.status == Done <==> s.currentStep.value == Completed)
    && s.status in {InProgress, RequiresAction, PendingReview, Done}
    && HistoryOf(s.stepState, s.currentStep.value)
    && (Rank(s.currentStep.value) > 1 <==> s.kybDecisionId.Some?)
    && (Rank(s.currentStep.value) > 3 <==> s.firstApiKeyId.Some?)
    && (s.status == Done <==> s.completionEventId.Some?)
    && (s.status == Done <==> s.completedAt.Some?)
    && (s.status == Done ==> s.firstTransferIntentId.Some?)
  }

  lemma PassingKeepsHistory(state: map<Step, Entry>, at: Step, next: Step)
    requires HistoryOf(state, at) && Rank(next) == Rank(at) + 1
    ensures HistoryOf(state[at := Passed(at)], next)
  {
  }

  lemma PendingKeepsHistory(state: map<Step, Entry>, at: Step, pending: Entry)
    requires HistoryOf(state, at) && pending != Passed(at) && at != Completed
    ensures HistoryOf(state[at := pending], at)
  {
  }

  lemma NextKeepsInv(s: Session, c: Call)
    requires Inv(s)
    ensures Inv(Next(s, c))
    ensures Rank(s.currentStep.value) <= Rank(Next(s, c).currentStep.value) <= Rank(s.currentStep.value) + 1
  {
    if s.status != Done && s.currentStep.value == c.step {
      var after := Next(s, c).currentStep.value;
      if after == c.step {
        PendingKeepsHistory(s.stepState, c.step, Next(s, c).stepState[c.step]);
      } else {
        PassingKeepsHistory(s.stepState, c.step, after);
      }
    }
  }

  lemma {:induction false} RunKeepsInv(s: Session, calls: seq<Call>)
    requires Inv(s)
    ensures Inv(Run(s, calls)) && Rank(s.currentStep.value) <= Rank(Run(s, calls).currentStep.value)
    decreases |calls|
  {
    if calls != [] {
      NextKeepsInv(s, calls[0]);
      RunKeepsInv(Next(s, calls[0]), calls[1..]);
    }
  }

  lemma RunAppend(s: Session, a: seq<Call>, b: seq<Call>)
    ensures Run(s, a + b) == Run(Run(s, a), b)
    decreases |a|
  {
    if a == [] {
      assert a + b == b;
    } else {
      assert (a + b)[1..] == a[1..] + b;
      RunAppend(Next(s, a[0]), a[1..], b);
    }
  }

  /** However a client calls the engine, a session never goes back a step. */
  lemma StepsNeverGoBack(before: seq<Call>, after: seq<Call>)
    ensures var s, t := Run(FRESH, before), Run(FRESH, before + after);
      s.currentStep.Some? && t.currentStep.Some? && Rank(s.currentStep.value) <= Rank(t.currentStep.value)
  {
    RunAppend(FRESH, before, after);
    RunKeepsInv(FRESH, before);
    RunKeepsInv(Run(FRESH, before), after);
  }

  /** A session completes only with every step passed: KYB approved, transfer projected, and the
      ids of the decision, the key, the transfer and the completion event on record. */
  lemma CompletedHasTheWholeHistory(calls: seq<Call>)
    requires Run(FRESH, calls).status == Done
    ensures var s := Run(FRESH, calls);
      && s.stepState == map[Organization := Collected, Kyb := KybApproved, Sandbox := Provisioned, ApiKey := KeyCreated,
                            Webhook := Configured, FirstTransfer := Projected(true)]
      && s.kybDecisionId.Some? && s.firstApiKeyId.Some? && s.firstTransferIntentId.Some?
      && s.completionEventId.Some? && s.completedAt.Some?
  {
    RunKeepsInv(FRESH, calls);
  }

  function Completions(events: seq<Event>): nat {
    if events == [] then 0 else (if events[0] == OnboardingCompleted then 1 else 0) + Completions(events[1..])
  }

  lemma CompletionsAppend(a: seq<Event>, b: seq<Event>)
    ensures Completions(a + b) == Completions(a) + Completions(b)
  {
    if a == [] {
      assert a + b == b;
    } else {
      assert (a + b)[1..] == a[1..] + b;
      CompletionsAppend(a[1..], b);
    }
  }

  lemma DoneStaysDone(s: Session, calls: seq<Call>)
    requires s.status == Done
    ensures Run(s, calls) == s && Events(s, calls) == []
    decreases |calls|
  {
    if calls != [] {
      DoneStaysDone(s, calls[1..]);
    }
  }

  lemma {:induction false} CompletionsOfRun(s: Session, calls: seq<Call>)
    requires Inv(s) && s.status != Done
    ensures Completions(Events(s, calls)) == if Run(s, calls).status == Done then 1 else 0
    decreases |calls|
  {
    if calls != [] {
      var t := Next(s, calls[0]);
      NextKeepsInv(s, calls[0]);
      CompletionsAppend(Emitted(s, calls[0]), Events(t, calls[1..]));
      assert Completions(Emitted(s, calls[0])) == if t.status == Done then 1 else 0 by {
        OneEvent(s, calls[0]);
      }
      if t.status == Done {
        DoneStaysDone(t, calls[1..]);
      } else {
        CompletionsOfRun(t, calls[1..]);
      }
    }
  }

  lemma OneEvent(s: Session, c: Call)
    requires Inv(s) && s.status != Done
    ensures Completions(Emitted(s, c)) == if Next(s, c).status == Done then 1 else 0
  {
    var e := Emitted(s, c);
    assert e != [] ==> e[1..] == [];
  }

  /** The completed event is emitted exactly once by a run that completes and never by one that
      does not; after that nothing changes and nothing is emitted. */
  lemma CompletedOnce(calls: seq<Call>, later: seq<Call>)
    ensures Completions(Events(FRESH, calls)) == if Run(FRESH, calls).status == Done then 1 else 0
    ensures Run(FRESH, calls).status == Done ==>
      Run(FRESH, calls + later) == Run(FRESH, calls) && Events(Run(FRESH, calls), later) == []
  {
    CompletionsOfRun(FRESH, calls);
    RunAppend(FRESH, calls, later);
    if Run(FRESH, calls).status == Done {
      DoneStaysDone(Run(FRESH, calls), later);
    }
  }

  /** A call asks for action exactly when it leaves the session held at the KYB step. */
  lemma HoldsAreAnnounced(s: Session, c: Call)
    requires Inv(s) && s.status != Done
    ensures Emitted(s, c) == [OnboardingRequiresAction] <==>
            c.step == Kyb && s.currentStep == Some(Kyb) && Next(s, c).currentStep == Some(Kyb)
  {
    match c.step
    case Kyb =>
    case FirstTransfer =>
    case _ =>
  }

  predicate Approves(i: Input) {
    !i.outage && (i.approved || i.decision == "approved")
  }

  /** A call passes the step the session is at exactly when it is for that step, KYB was approved
      with the adapter up, and the transfer was projected; a session that is held at KYB shows why. */
  lemma PassesIff(s: Session, c: Call)
    requires Inv(s)
    ensures Rank(Next(s, c).currentStep.value) == Rank(s.currentStep.value) + 1 <==>
            && s.status != Done && s.currentStep == Some(c.step)
            && (c.step == Kyb ==> Approves(c.input)) && (c.step == FirstTransfer ==> c.input.projected)
    ensures s.status != Done && s.currentStep == Some(Kyb) && c.step == Kyb && !Approves(c.input) ==>
            Next(s, c).status == (if c.input.outage then PendingReview else RequiresAction)
  {
    match c.step
    case Kyb =>
    case FirstTransfer =>
    case _ =>
  }

  /** A call for any other step is refused by naming the one that is due, and changes nothing. */
  lemma OutOfTurnIsRefused(s: Session, c: Call)
    requires Inv(s) && s.status != Done && s.currentStep != Some(c.step)
    ensures AdvanceSession(s, c.step, c.input) == ExpectedStep(s.currentStep.value) && Next(s, c) == s && Emitted(s, c) == []
  {
  }

  /** Ids a call brings are the ids on record. */
  lemma GivenIdsAreRecorded(s: Session, c: Call)
    requires Inv(s) && s.status != Done && s.currentStep == Some(c.step)
    ensures c.step == Kyb && Approves(c.input) && c.input.decisionId.Some? ==> Next(s, c).kybDecisionId == c.input.decisionId
    ensures c.step == ApiKey && c.input.keyId.Some? ==> Next(s, c).firstApiKeyId == c.input.keyId
    ensures c.step == FirstTransfer && c.input.transferIntentId.Some? ==> Next(s, c).firstTransferIntentId == c.input.transferIntentId
    ensures c.step == FirstTransfer && c.input.transferIntentId.None? && s.firstTransferIntentId.Some? ==>
            Next(s, c).firstTransferIntentId == s.firstTransferIntentId
    ensures c.step == FirstTransfer && c.input.projected ==>
            Next(s, c).completedAt == Some(c.input.now) && (c.input.eventId.Some? ==> Next(s, c).completionEventId == c.input.eventId)
  {
  }

  const GOOD_INPUT := Input(false, true, "", None, None, None, true, None, 0)

  /** However a session has been held up, it can still be completed. */
  lemma {:induction false} CanAlwaysComplete(s: Session) returns (calls: seq<Call>)
    requires Inv(s)
    ensures Run(s, calls).status == Done
    decreases 6 - Rank(s.currentStep.value)
  {
    calls := [];
    if s.status != Done {
      var c := Call(s.currentStep.value, GOOD_INPUT);
      NextKeepsInv(s, c);
      PassesIff(s, c);
      var rest := CanAlwaysComplete(Next(s, c));
      calls := [c] + rest;
      assert calls[1..] == rest;
    }
  }
}
