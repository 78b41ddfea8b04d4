/**
 * What the bootstrap lease achieves. A first installation on an unclaimed owner and an empty gate is
 * released, and a reconciliation of a claimed one is closed, however the two sides and the gate's
 * statements interleave, as long as both sides keep moving and neither was signalled, failed or died.
 */
module LeaseProgress {
  import opened Lease

  /** What the helper checks before it claims or reconciles. */
  predicate Admissible(s: State) {
    if s.mode == Initial then s.status == Unclaimed && !s.ready && s.pending == Absent
    else s.status != Unclaimed && s.pending != Foreign
  }

  /** Neither side has failed: the controller still counts on its helper, and no signal struck the helper. */
  predicate Unfailed(s: State) {
    && s.controller != Leaving(false) && !s.controller.Failed? && !s.controller.Dead?
    && (s.helper.Fencing? || s.helper.Pend? || s.helper.Sign? || s.helper.Exited? ==> s.helper.code == 0)
  }

  /** Nothing of the event list signals the helper or stops the controller. */
  predicate Undisturbed(events: seq<Event>) {
    HelperIsSignalled !in events && ControllerFails !in events && ControllerDies !in events
  }

  /** Rounds of undisturbed events, in each of which both sides get to move. */
  predicate Fair(rounds: seq<seq<Event>>) {
    forall i :: 0 <= i < |rounds| ==> Undisturbed(rounds[i]) && HelperMoves in rounds[i] && ControllerMoves in rounds[i]
  }

  function Joined(rounds: seq<seq<Event>>): seq<Event> {
    if rounds == [] then [] else Joined(rounds[..|rounds|-1]) + rounds[|rounds|-1]
  }

  // ---------- where the two sides stand together ----------

  predicate Early(h: Helper) {
    h.Starting? || h.Claiming? || h.Gap? || h.Connecting?
  }

  predicate Finishing(h: Helper) {
    h.Releasing? || h.Marking? || h.SayingReleased?
  }

  predicate Gone(c: Controller) {
    c == Leaving(true) || c.Accepted? || c.Recorded?
  }

  /** The stages that can be passed at the same time in a first installation. */
  predicate InstallsTogether(h: Helper, c: Controller) {
    || (Early(h) && c.Waiting?)
    || (h.AwaitingCommit? && (c.Waiting? || c.Working? || c.Committing?))
    || ((h.Acknowledging? || h.Confirming?) && c.Committing?)
    || (h.AwaitingRelease? && (c.Committing? || c.Letting?))
    || (Finishing(h) && c.Letting?)
    || (h == Exited(0) && (c.Letting? || Gone(c)))
  }

  /** And in a reconciliation. */
  predicate ReconcilesTogether(h: Helper, c: Controller) {
    || (Early(h) && !h.Claiming? && c.Waiting?)
    || (h.AwaitingCommit? && (c.Waiting? || c.Working? || c == Leaving(true)))
    || ((h == Fencing(0) || h == Pend(0) || h == Sign(0) || h.SayingClosed?) && c == Leaving(true))
    || (h == Exited(0) && Gone(c))
  }

  /** What has then passed between them. */
  function Said(m: Mode, h: Helper, c: Controller): Wire {
    var first := m == Initial;
    Wire(!Early(h), first && (c.Committing? || c.Letting? || Gone(c)),
         first && (h.AwaitingRelease? || Finishing(h) || h.Exited?), first && (c.Letting? || Gone(c)),
         first && h.Exited?, Gone(c))
  }

  predicate Hopeful(s: State) {
    && s.wire == Said(s.mode, s.helper, s.controller)
    && (if s.mode == Initial then InstallsTogether(s.helper, s.controller) else ReconcilesTogether(s.helper, s.controller))
    && (s.controller.Waiting? ==> s.opening == Idle && !s.closing)
    && (s.helper.Starting? ==> Admissible(s))
    && s.success == (s.mode == Initial && s.controller.Recorded?)
    && (s.mode == Initial && (s.helper.Marking? || s.helper.SayingReleased? || s.helper.Exited?) ==> s.status == Released)
    && (s.mode == Reconciling && (s.helper.SayingClosed? || s.helper.Exited?) ==> s.status == Interrupted)
  }

  // ---------- what is left to do ----------

  function Rank(c: Controller): nat {
    match c
    case Waiting => 6 case Working => 5 case Committing => 4 case Letting => 3 case Leaving(_) => 2 case Accepted => 1
    case _ => 0
  }

  /** A bound on the moves both sides have left. */
  function ToGo(s: State): nat {
    Left(s.helper) + Rank(s.controller)
  }

  predicate HelperMay(s: State) {
    !s.helper.Exited? && (s.helper.AwaitingCommit? ==> s.wire.commit || s.wire.eof)
    && (s.helper.AwaitingRelease? ==> s.wire.release || s.wire.eof)
  }

  predicate ControllerMay(s: State) {
    match s.controller
    case Waiting => s.wire.locked
    case Working => true
    case Committing => s.wire.committed
    case Letting => s.wire.released
    case Leaving(_) => s.helper.Exited?
    case Accepted => true
    case _ => false
  }

  // ---------- every run is hopeful until a side fails ----------

  lemma ArrivalKeepsHope(s: State)
    requires Hopeful(s) && Early(s.helper)
    ensures Hopeful(HelperStep(s)) && ToGo(HelperStep(s)) < ToGo(s)
  {
  }

  lemma ExchangeKeepsHope(s: State)
    requires Hopeful(s) && !Early(s.helper) && s.mode == Initial && !Finishing(s.helper) && !s.helper.Exited?
    ensures Hopeful(HelperStep(s))
    ensures if HelperMay(s) then ToGo(HelperStep(s)) < ToGo(s) else HelperStep(s) == s
  {
  }

  lemma FinishKeepsHope(s: State)
    requires Hopeful(s) && Finishing(s.helper)
    ensures Hopeful(HelperStep(s)) && ToGo(HelperStep(s)) < ToGo(s)
  {
  }

  lemma WaitKeepsHope(s: State)
    requires Hopeful(s) && s.mode == Reconciling && s.helper.AwaitingCommit?
    ensures Hopeful(HelperStep(s))
    ensures if HelperMay(s) then ToGo(HelperStep(s)) < ToGo(s) else HelperStep(s) == s
  {
  }

  lemma FenceKeepsHope(s: State)
    requires Hopeful(s) && (s.helper.Fencing? || s.helper.Pend? || s.helper.Sign? || s.helper.SayingClosed?)
    ensures Hopeful(HelperStep(s)) && ToGo(HelperStep(s)) < ToGo(s)
  {
  }

  /** A helper that can move comes nearer its end, and keeps what there was to hope for. */
  lemma HelperKeepsHope(s: State)
    requires Hopeful(s)
    ensures Hopeful(HelperStep(s))
    ensures if HelperMay(s) then ToGo(HelperStep(s)) < ToGo(s) else HelperStep(s) == s
  {
    if Early(s.helper) {
      ArrivalKeepsHope(s);
      hide HelperStep, Hopeful, ToGo;
    } else if s.helper.Exited? {
    } else if Finishing(s.helper) {
      FinishKeepsHope(s);
      hide HelperStep, Hopeful, ToGo;
    } else if s.mode == Initial {
      ExchangeKeepsHope(s);
      hide HelperStep, Hopeful, ToGo, HelperMay;
    } else if s.helper.AwaitingCommit? {
      WaitKeepsHope(s);
      hide HelperStep, Hopeful, ToGo, HelperMay;
    } else {
      FenceKeepsHope(s);
      hide HelperStep, ToGo;
    }
  }

  lemma ControllerOpensKeepsHope(s: State)
    requires Hopeful(s) && (s.controller.Waiting? || s.controller.Working? || s.controller.Committing?)
    ensures Hopeful(ControllerStep(s))
    ensures if ControllerMay(s) then ToGo(ControllerStep(s)) < ToGo(s) else ControllerStep(s) == s
  {
  }

  lemma ControllerClosesKeepsHope(s: State)
    requires Hopeful(s) && !s.controller.Waiting? && !s.controller.Working? && !s.controller.Committing?
    ensures Hopeful(ControllerStep(s))
    ensures if ControllerMay(s) then ToGo(ControllerStep(s)) < ToGo(s) else ControllerStep(s) == s
  {
  }

  /** So does a controller that can move. */
  lemma ControllerKeepsHope(s: State)
    requires Hopeful(s)
    ensures Hopeful(ControllerStep(s))
    ensures if ControllerMay(s) then ToGo(ControllerStep(s)) < ToGo(s) else ControllerStep(s) == s
  {
    hide ControllerStep, Hopeful, ToGo, ControllerMay;
    if s.controller.Waiting? || s.controller.Working? || s.controller.Committing? {
      ControllerOpensKeepsHope(s);
    } else {
      ControllerClosesKeepsHope(s);
    }
  }

  lemma GateKeepsHope(s: State, e: Event)
    requires Hopeful(s)
    requires e.OpenStarts? || e.OpenTouchesReady? || e.OpenRemovesPending? || e.CloseWritesPending? || e.CloseRemovesReady?
    ensures Hopeful(Step(s, e))
    ensures Step(s, e).helper == s.helper && Step(s, e).controller == s.controller
  {
  }

  lemma AccidentIsFailure(s: State, e: Event)
    requires Hopeful(s) && (e.HelperIsSignalled? || e.ControllerFails? || e.ControllerDies?)
    ensures Hopeful(Step(s, e)) || !Unfailed(Step(s, e))
  {
  }

  lemma EventKeepsHope(s: State, e: Event)
    requires Hopeful(s)
    ensures Hopeful(Step(s, e)) || !Unfailed(Step(s, e))
    ensures Undisturbed([e]) ==> Hopeful(Step(s, e))
  {
    assert e in [e];
    match e
    case HelperMoves => HelperKeepsHope(s); hide HelperStep, Hopeful;
    case ControllerMoves => ControllerKeepsHope(s); hide ControllerStep, Hopeful;
    case HelperIsSignalled => AccidentIsFailure(s, e); hide Step, Hopeful;
    case ControllerFails => AccidentIsFailure(s, e); hide Step, Hopeful;
    case ControllerDies => AccidentIsFailure(s, e); hide Step, Hopeful;
    case _ => GateKeepsHope(s, e); hide Step, Hopeful;
  }

  predicate Forsaken(c: Controller) {
    c == Leaving(false) || c.Failed? || c.Dead?
  }

  predicate Struck(h: Helper) {
    (h.Fencing? || h.Pend? || h.Sign? || h.Exited?) && h.code != 0
  }

  lemma ForsakenStays(s: State, e: Event)
    requires Forsaken(s.controller)
    ensures Forsaken(Step(s, e).controller)
  {
    var c := HelperStep(s).controller;
    assert c == s.controller by { HelperLeavesController(s); }
    hide HelperStep;
  }

  lemma HelperLeavesController(s: State)
    ensures HelperStep(s).controller == s.controller
  {
    match s.helper
    case Starting =>
    case _ =>
  }

  lemma ControllerLeavesHelper(s: State)
    ensures ControllerStep(s).helper == s.helper
  {
    match s.controller
    case Leaving(_) =>
    case _ =>
  }

  lemma StruckStays(s: State, e: Event)
    requires Struck(s.helper)
    ensures Struck(Step(s, e).helper)
  {
    ControllerLeavesHelper(s);
    hide ControllerStep;
  }

  /** A side that failed has failed for good. */
  lemma FailureStays(s: State, e: Event)
    requires !Unfailed(s)
    ensures !Unfailed(Step(s, e))
  {
    hide Step;
    if Forsaken(s.controller) {
      ForsakenStays(s, e);
    } else {
      StruckStays(s, e);
    }
  }

  lemma {:induction false} RunIsHopeful(s: State, events: seq<Event>)
    requires Start(s) && Admissible(s)
    ensures Unfailed(Run(s, events)) ==> Hopeful(Run(s, events))
  {
    if events != [] {
      var front, e := events[..|events|-1], events[|events|-1];
      RunIsHopeful(s, front);
      if Unfailed(Run(s, front)) {
        EventKeepsHope(Run(s, front), e);
      } else {
        FailureStays(Run(s, front), e);
      }
      hide Hopeful, Unfailed, Step;
    }
  }

  // ---------- fair rounds come to an end ----------

  /** One of the two can always go on. */
  lemma NobodyIsStuck(s: State)
    requires Hopeful(s) && ToGo(s) > 0
    ensures HelperMay(s) || ControllerMay(s)
  {
  }

  predicate SameStand(s: State, v: State) {
    v.helper == s.helper && v.controller == s.controller && v.wire == s.wire
  }

  lemma EventAdvances(s: State, e: Event)
    requires Hopeful(s) && Undisturbed([e])
    ensures var v := Step(s, e);
      ToGo(v) < ToGo(s) || (SameStand(s, v) && !(e == HelperMoves && HelperMay(s)) && !(e == ControllerMoves && ControllerMay(s)))
  {
    assert e in [e];
    match e
    case HelperMoves => HelperKeepsHope(s); hide HelperStep, Hopeful, ToGo;
    case ControllerMoves => ControllerKeepsHope(s); hide ControllerStep, Hopeful, ToGo;
    case _ => GateKeepsStand(s, e); hide Step, Hopeful;
  }

  lemma GateKeepsStand(s: State, e: Event)
    requires !e.HelperMoves? && !e.ControllerMoves? && Undisturbed([e])
    ensures SameStand(s, Step(s, e))
  {
    assert e in [e];
  }

  lemma {:induction false} RunsAdd(s: State, a: seq<Event>, b: seq<Event>)
    ensures Run(s, a + b) == Run(Run(s, a), b)
  {
    hide Step;
    if b == [] {
      assert a + b == a;
    } else {
      var front, e := b[..|b|-1], b[|b|-1];
      RunsAdd(s, a, front);
      RunTakes(s, a + front, e);
      RunTakes(Run(s, a), front, e);
      assert a + b == (a + front) + [e] && b == front + [e];
      hide Run;
    }
  }

  /** As long as the bound stays, both stand where they stood, and who could move did not get to. */
  lemma {:induction false} RoundAdvances(s: State, events: seq<Event>)
    requires Hopeful(s) && Undisturbed(events)
    ensures var v := Run(s, events);
      Hopeful(v) && (ToGo(v) < ToGo(s)
        || (SameStand(s, v) && (HelperMoves in events ==> !HelperMay(s)) && (ControllerMoves in events ==> !ControllerMay(s))))
  {
    if events != [] {
      var front, e := events[..|events|-1], events[|events|-1];
      assert events == front + [e];
      RoundAdvances(s, front);
      EventKeepsHope(Run(s, front), e);
      EventAdvances(Run(s, front), e);
      SameStandMayTheSame(s, Run(s, front));
      hide Hopeful, Step, HelperMay, ControllerMay, ToGo;
    }
  }

  lemma SameStandMayTheSame(s: State, v: State)
    ensures SameStand(s, v) ==> HelperMay(s) == HelperMay(v) && ControllerMay(s) == ControllerMay(v) && ToGo(s) == ToGo(v)
  {
  }

  lemma {:induction false} RoundsAdvance(s: State, rounds: seq<seq<Event>>)
    requires Hopeful(s) && Fair(rounds)
    ensures var v := Run(s, Joined(rounds)); Hopeful(v) && (ToGo(v) == 0 || ToGo(v) + |rounds| <= ToGo(s))
  {
    if rounds != [] {
      var n := |rounds| - 1;
      RoundsAdvance(s, rounds[..n]);
      RunsAdd(s, Joined(rounds[..n]), rounds[n]);
      var v := Run(s, Joined(rounds[..n]));
      RoundAdvances(v, rounds[n]);
      if ToGo(v) > 0 { NobodyIsStuck(v); }
      SameStandMayTheSame(v, Run(v, rounds[n]));
      hide Hopeful, Run, HelperMay, ControllerMay, ToGo, SameStand;
    }
  }

  // ---------- what the lease achieves ----------

  /** The journal says success, the owner is released, and the helper exited zero. */
  predicate Installed(s: State) {
    s.success && s.status == Released && s.helper == Exited(0)
  }

  /** The reconciliation is recorded, its helper exited zero, and the owner is interrupted. */
  predicate Reconciled(s: State) {
    s.controller == Recorded && s.status == Interrupted && s.helper == Exited(0)
  }

  lemma NothingLeftIsDone(s: State)
    requires Hopeful(s) && ToGo(s) == 0
    ensures if s.mode == Initial then Installed(s) else Reconciled(s)
  {
  }

  lemma HopeIsBounded(s: State)
    ensures ToGo(s) <= 21
  {
  }

  /**
   * From every state that a run from an admissible start reaches with neither side failed, twenty-one
   * fair rounds install, or close what was to be reconciled.
   */
  lemma {:induction false} FairRoundsConclude(s: State, before: seq<Event>, rounds: seq<seq<Event>>)
    requires Start(s) && Admissible(s) && Unfailed(Run(s, before))
    requires Fair(rounds) && |rounds| >= 21
    ensures var v := Run(s, before + Joined(rounds)); if s.mode == Initial then Installed(v) else Reconciled(v)
  {
    RunIsHopeful(s, before);
    RoundsAdvance(Run(s, before), rounds);
    HopeIsBounded(Run(s, before));
    RunsAdd(s, before, Joined(rounds));
    ModeStays(s, before + Joined(rounds));
    NothingLeftIsDone(Run(s, before + Joined(rounds)));
    hide Hopeful, Run, ToGo, Installed, Reconciled, Unfailed, Admissible;
  }

  // ---------- a controller that is lost is heard to be lost ----------

  predicate Parted(c: Controller) {
    c.Leaving? || c.Accepted? || Over(c)
  }

  predicate Heard(s: State) {
    Parted(s.controller) ==> s.wire.eof
  }

  lemma HearingStays(s: State, e: Event)
    requires Heard(s)
    ensures Heard(Step(s, e))
  {
    HelperLeavesController(s);
    HelperFrame(s);
    if e == ControllerMoves { ControllerIsHeard(s); }
    hide HelperStep, ControllerStep;
  }

  lemma ControllerIsHeard(s: State)
    requires Heard(s)
    ensures Heard(ControllerStep(s))
  {
    match s.controller
    case Waiting =>
    case Working =>
    case Committing =>
    case Letting =>
    case Leaving(_) =>
    case _ =>
  }

  lemma {:induction false} PartingIsHeard(s: State, events: seq<Event>)
    requires Start(s)
    ensures Heard(Run(s, events))
  {
    if events != [] {
      PartingIsHeard(s, events[..|events|-1]);
      HearingStays(Run(s, events[..|events|-1]), events[|events|-1]);
      hide Step, Heard;
    }
  }

  /**
   * However its controller went, by leaving, failing or dying: a claimed helper that met with no accident
   * needs at most fifteen of its own statements to end released or fenced.
   */
  lemma {:induction false} AbandonedHelperIsFenced(s: State, events: seq<Event>)
    requires Start(s) && Run(s, events).claimed && !Torn(s, events) && !Undone(s, events)
    requires var c := Run(s, events).controller; c.Leaving? || c.Failed? || c.Dead?
    ensures var v := Moves(Run(s, events), 15);
      v.helper.Exited? && (Fenced(v) || (v.mode == Initial && v.status == Released))
  {
    PartingIsHeard(s, events);
    LostPeerIsFenced(s, events);
    hide Run, Torn, Undone, Moves, Fenced;
  }

  lemma {:induction false} ForsakenRunStays(s: State, events: seq<Event>)
    requires Forsaken(s.controller)
    ensures Forsaken(Run(s, events).controller)
  {
    if events != [] {
      ForsakenRunStays(s, events[..|events|-1]);
      ForsakenStays(Run(s, events[..|events|-1]), events[|events|-1]);
      hide Step, Forsaken;
    }
  }

  /** An installation whose controller failed or died before it recorded anything never says success. */
  lemma {:induction false} FailureIsNeverSuccess(s: State, before: seq<Event>, e: Event, after: seq<Event>)
    requires Start(s) && (e == ControllerFails || e == ControllerDies) && !Over(Run(s, before).controller)
    ensures !Run(s, before + [e] + after).success
  {
    RunTakes(s, before, e);
    assert Forsaken(Step(Run(s, before), e).controller);
    ForsakenRunStays(Run(s, before + [e]), after);
    RunsAdd(s, before + [e], after);
    RunKeeps(s, before + [e] + after);
    hide Run, Step;
  }

  /** A closing that the working controller may make puts both files right. */
  lemma ClosingCloses(s: State)
    requires s.controller == Working && s.status != Unclaimed && s.pending != Foreign
    ensures var v := Step(Step(s, CloseWritesPending), CloseRemovesReady); !v.ready && v.pending == Own
  {
  }

  // ---------- nor is anything else recorded ----------

  /** Whatever happens, the controller records only what its helper ended with zero. */
  predicate Accredited(s: State) {
    s.controller.Accepted? || s.controller.Recorded? ==> s.helper == Exited(0)
  }

  lemma AccreditationStays(s: State, e: Event)
    requires Accredited(s)
    ensures Accredited(Step(s, e))
  {
    HelperLeavesController(s);
    if s.helper.Exited? { ExitedStays(s); }
    hide HelperStep;
  }

  lemma {:induction false} RecordedEndedWell(s: State, events: seq<Event>)
    requires Start(s)
    ensures Run(s, events).controller.Recorded? ==> Run(s, events).helper == Exited(0)
    ensures Accredited(Run(s, events))
  {
    if events != [] {
      RecordedEndedWell(s, events[..|events|-1]);
      AccreditationStays(Run(s, events[..|events|-1]), events[|events|-1]);
      hide Step;
    }
  }

  // ---------- and only from there ----------

  /** The helper has not begun, or its checks refused it. */
  predicate Refused(s: State) {
    && !Admissible(s) && !s.wire.locked && !s.success
    && (s.helper.Starting? || s.helper == Exited(1))
    && (s.controller.Waiting? || s.controller == Leaving(false) || s.controller.Failed? || s.controller.Dead?)
    && s.opening == Idle && !s.closing
  }

  lemma RefusalStays(s: State, e: Event)
    requires Refused(s)
    ensures Refused(Step(s, e))
  {
  }

  lemma {:induction false} InadmissibleIsRefused(s: State, events: seq<Event>)
    requires Start(s) && !Admissible(s)
    ensures Refused(Run(s, events))
  {
    if events != [] {
      InadmissibleIsRefused(s, events[..|events|-1]);
      RefusalStays(Run(s, events[..|events|-1]), events[|events|-1]);
      hide Refused, Step;
    }
  }

  /** Twenty-one fair rounds install exactly where the owner was unclaimed and the gate empty. */
  lemma {:induction false} InstalledExactly(s: State, rounds: seq<seq<Event>>)
    requires Start(s) && s.mode == Initial && Fair(rounds) && |rounds| >= 21
    ensures Installed(Run(s, Joined(rounds))) <==> s.status == Unclaimed && !s.ready && s.pending == Absent
  {
    if Admissible(s) {
      FairRoundsConclude(s, [], rounds);
      assert [] + Joined(rounds) == Joined(rounds);
    } else {
      InadmissibleIsRefused(s, Joined(rounds));
    }
    hide Run;
  }
}
