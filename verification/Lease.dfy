/**
 * The bootstrap lease: a controller and a containerised helper that hold one kernel lock between
 * them, exchange five lines, and agree on whether the first installation may be believed. Every
 * interleaving of both, of a controller that fails or dies, of signals to the helper, and of the single
 * statements of a gate opening and a gate closing that the controller has in flight.
 */
module Lease {

  datatype Mode = Initial | Reconciling
  datatype Status = Unclaimed | Claimed | Acknowledged | Released | Interrupted
  datatype Pending = Absent | Own | Foreign

  /** Where the helper's script stands; Gap lies between the claim and the guarded region. */
  datatype Helper = Starting | Claiming | Gap | Connecting | AwaitingCommit | Acknowledging | Confirming
    | AwaitingRelease | Releasing | Marking | SayingReleased
    | Fencing(code: nat) | Pend(code: nat) | Sign(code: nat) | SayingClosed | Exited(code: nat)

  datatype Controller = Waiting | Working | Committing | Letting | Leaving(acknowledged: bool)
    | Accepted | Recorded | Failed | Dead

  /** What has passed between the two; each line is written at most once, in this order. */
  datatype Wire = Wire(locked: bool, commit: bool, committed: bool, release: bool, released: bool, eof: bool)

  /** An opening touches READY and then removes PENDING. */
  datatype Opening = Idle | ToReady | ToPending

  datatype State = State(mode: Mode, helper: Helper, controller: Controller, wire: Wire,
                         status: Status, ready: bool, pending: Pending,   // the gate volume
                         opening: Opening,  // a gate opening in flight
                         closing: bool,     // a gate closing in flight, PENDING already written
                         success: bool,     // the installation journal says success
                         claimed: bool)     // the helper got past its own checks

  datatype Event = HelperMoves | HelperIsSignalled | ControllerMoves | ControllerFails | ControllerDies
    | OpenStarts | OpenTouchesReady | OpenRemovesPending | CloseWritesPending | CloseRemovesReady

  predicate Fenced(s: State) {
    !s.ready && s.pending == Own && s.status == Interrupted
  }

  // ---------- the helper ----------

  /** The helper's own next statement; a readline with nothing to read and no end of file blocks. */
  function HelperStep(s: State): State {
    match s.helper
    case Starting =>
      if s.mode == Initial then
        if s.status == Unclaimed && !s.ready && s.pending == Absent then s.(helper := Claiming) else s.(helper := Exited(1))
      else if s.status == Unclaimed || s.pending == Foreign then s.(helper := Exited(1))
      else s.(helper := Gap, claimed := true)
    case Claiming => s.(status := Claimed, helper := Gap, claimed := true)
    case Gap => s.(helper := Connecting)
    case Connecting => s.(wire := s.wire.(locked := true), helper := AwaitingCommit)
    case AwaitingCommit =>
      if s.wire.commit && s.mode == Initial then s.(helper := Acknowledging)
      else if s.wire.eof then s.(helper := Fencing(0)) else s
    case Acknowledging => s.(status := Acknowledged, helper := Confirming)
    case Confirming => s.(wire := s.wire.(committed := true), helper := AwaitingRelease)
    case AwaitingRelease =>
      if s.wire.release then s.(helper := Releasing)
      else if s.wire.eof then s.(helper := Fencing(0)) else s
    case Releasing => s.(status := Released, helper := Marking)
    case Marking => s.(helper := SayingReleased)
    case SayingReleased => s.(wire := s.wire.(released := true), helper := Exited(0))
    case Fencing(code) => s.(ready := false, helper := Pend(code))
    case Pend(code) => s.(pending := Own, helper := Sign(code))
    case Sign(code) => s.(status := Interrupted, helper := if code == 0 then SayingClosed else Exited(code))
    case SayingClosed => s.(helper := Exited(0))
    case Exited(_) => s
  }

  /** The guarded region, in which anything raised falls into the fence. */
  predicate Guarded(h: Helper) {
    h.Connecting? || h.AwaitingCommit? || h.Acknowledging? || h.Confirming? || h.AwaitingRelease? || h.Releasing? || h.Marking?
  }

  /** Outside it and yet past the claim, before the fence is complete. */
  predicate Exposed(h: Helper) {
    h.Gap? || h.Fencing? || h.Pend? || h.Sign?
  }

  /** A handled signal, or an error of the helper's own, raises where the script stands. */
  function HelperSignal(s: State): State {
    if Guarded(s.helper) then s.(helper := Fencing(1))
    else if s.helper.Exited? then s
    else s.(helper := Exited(1))
  }

  // ---------- the controller ----------

  /** The next statement of the controller's own path, where it can take it. */
  function ControllerStep(s: State): State {
    match s.controller
    case Waiting => if s.wire.locked then s.(controller := Working) else s
    case Working =>
      if s.mode == Initial then s.(controller := Committing, wire := s.wire.(commit := true))
      else s.(controller := Leaving(true), wire := s.wire.(eof := true))
    case Committing => if s.wire.committed then s.(controller := Letting, wire := s.wire.(release := true)) else s
    case Letting => if s.wire.released then s.(controller := Leaving(true), wire := s.wire.(eof := true)) else s
    case Leaving(acknowledged) =>
      if !s.helper.Exited? then s
      else s.(controller := if acknowledged && s.helper.code == 0 then Accepted else Failed)
    case Accepted => s.(controller := Recorded, success := s.mode == Initial)
    case _ => s
  }

  predicate Over(c: Controller) {
    c.Recorded? || c.Failed? || c.Dead?
  }

  /** Any refusal, timeout or cancellation closes the helper's input on the way out. */
  function ControllerFailure(s: State): State {
    if Over(s.controller) then s
    else if s.controller.Accepted? then s.(controller := Failed)
    else s.(controller := Leaving(false), wire := s.wire.(eof := true))
  }

  function ControllerDeath(s: State): State {
    if Over(s.controller) then s else s.(controller := Dead, wire := s.wire.(eof := true))
  }

  // ---------- the gate ----------

  datatype File = Ready | PendingFile

  /** The helper's fence has dealt with this file already, or the helper stopped altogether. */
  predicate Past(h: Helper, f: File) {
    h.Sign? || h.SayingClosed? || h.Exited? || (f == Ready && h.Pend?)
  }

  function OpenTouch(s: State): State {
    if s.opening == ToReady then s.(ready := true, opening := ToPending) else s
  }

  function OpenRemove(s: State): State {
    if s.opening == ToPending then s.(pending := Absent, opening := Idle) else s
  }

  /** The controller may close the gate again while it works. */
  predicate MayClose(s: State) {
    s.controller.Working? && s.status != Unclaimed && s.pending != Foreign
  }

  function CloseWrite(s: State): State {
    if MayClose(s) then s.(pending := Own, closing := true) else s
  }

  function CloseRemove(s: State): State {
    if s.closing then s.(ready := false, closing := false) else s
  }

  function Step(s: State, e: Event): State {
    match e
    case HelperMoves => HelperStep(s)
    case HelperIsSignalled => HelperSignal(s)
    case ControllerMoves => ControllerStep(s)
    case ControllerFails => ControllerFailure(s)
    case ControllerDies => ControllerDeath(s)
    case OpenStarts => if s.controller.Working? then s.(opening := ToReady) else s
    case OpenTouchesReady => OpenTouch(s)
    case OpenRemovesPending => OpenRemove(s)
    case CloseWritesPending => CloseWrite(s)
    case CloseRemovesReady => CloseRemove(s)
  }

  function Run(s: State, events: seq<Event>): State {
    if events == [] then s else Step(Run(s, events[..|events|-1]), events[|events|-1])
  }

  const SILENCE := Wire(false, false, false, false, false, false)

  /** A first installation, or the reconciliation of an interrupted one, on any gate. */
  predicate Start(s: State) {
    s.helper == Starting && s.controller == Waiting && s.wire == SILENCE
    && s.opening == Idle && !s.closing && !s.success && !s.claimed
  }

  // ---------- the two accidents ----------

  /** A signal strikes past the claim, outside the guarded region and before the fence is complete. */
  predicate Tears(s: State, e: Event) {
    e == HelperIsSignalled && Exposed(s.helper)
  }

  /** A statement of an opening strikes a file that the fence has dealt with. */
  predicate Undoes(s: State, e: Event, f: File) {
    Past(s.helper, f) &&
    match f
    case Ready => e == OpenTouchesReady && s.opening == ToReady
    case PendingFile => e == OpenRemovesPending && s.opening == ToPending
  }

  /** A statement of a closing puts the file right again. */
  predicate Recloses(s: State, e: Event, f: File) {
    match f
    case Ready => e == CloseRemovesReady && s.closing
    case PendingFile => e == CloseWritesPending && MayClose(s)
  }

  /** Some signal tore the helper out of its claim or its fence. */
  predicate Torn(s: State, events: seq<Event>) {
    exists k :: 0 <= k < |events| && Tears(Run(s, events[..k]), events[k])
  }

  /** Some opening undid the fence of this file, and no closing put it right after that. */
  predicate UndoneAt(s: State, events: seq<Event>, f: File) {
    exists k :: 0 <= k < |events| && Undoes(Run(s, events[..k]), events[k], f) && StaysOpen(s, events, k + 1, f)
  }

  predicate StaysOpen(s: State, events: seq<Event>, k: nat, f: File) {
    forall m :: k <= m < |events| ==> !Recloses(Run(s, events[..m]), events[m], f)
  }

  predicate Undone(s: State, events: seq<Event>) {
    UndoneAt(s, events, Ready) || UndoneAt(s, events, PendingFile)
  }

  lemma {:induction false} TornGrows(s: State, events: seq<Event>)
    requires events != []
    ensures var front, e := events[..|events|-1], events[|events|-1];
      Torn(s, events) <==> Torn(s, front) || Tears(Run(s, front), e)
  {
    hide Run, Tears;
    var n := |events| - 1;
    var front := events[..n];
    if Torn(s, front) {
      var k :| 0 <= k < n && Tears(Run(s, front[..k]), front[k]);
      assert front[..k] == events[..k] && Tears(Run(s, events[..k]), events[k]);
    }
    if Torn(s, events) {
      var k :| 0 <= k < |events| && Tears(Run(s, events[..k]), events[k]);
      if k < n { assert front[..k] == events[..k] && Tears(Run(s, front[..k]), front[k]); }
    }
  }

  lemma {:induction false} StaysOpenGrows(s: State, events: seq<Event>, k: nat, f: File)
    requires k < |events|
    ensures var front, e := events[..|events|-1], events[|events|-1];
      StaysOpen(s, events, k, f) <==> StaysOpen(s, front, k, f) && !Recloses(Run(s, front), e, f)
  {
    hide Run, Recloses;
    var n := |events| - 1;
    var front := events[..n];
    assert forall m :: 0 <= m < n ==> front[..m] == events[..m];
  }

  lemma {:induction false} UndoneGrows(s: State, events: seq<Event>, f: File)
    requires events != []
    ensures var front, e := events[..|events|-1], events[|events|-1];
      UndoneAt(s, events, f) <==> Undoes(Run(s, front), e, f) || (UndoneAt(s, front, f) && !Recloses(Run(s, front), e, f))
  {
    hide Run, Undoes, Recloses, StaysOpen;
    var n := |events| - 1;
    var front, e := events[..n], events[n];
    if Undoes(Run(s, front), e, f) {
      NothingAfterEnd(s, events, f);
      assert events[..n] == front;
    } else if UndoneAt(s, front, f) && !Recloses(Run(s, front), e, f) {
      var k :| 0 <= k < n && Undoes(Run(s, front[..k]), front[k], f) && StaysOpen(s, front, k + 1, f);
      StaysOpenGrows(s, events, k + 1, f);
      assert front[..k] == events[..k] && Undoes(Run(s, events[..k]), events[k], f);
    }
    if UndoneAt(s, events, f) {
      var k :| 0 <= k <= n && Undoes(Run(s, events[..k]), events[k], f) && StaysOpen(s, events, k + 1, f);
      if k < n {
        StaysOpenGrows(s, events, k + 1, f);
        assert front[..k] == events[..k] && Undoes(Run(s, front[..k]), front[k], f);
      }
    }
  }

  lemma NothingAfterEnd(s: State, events: seq<Event>, f: File)
    ensures StaysOpen(s, events, |events|, f)
  {
  }

  // ---------- what holds in every reachable state ----------

  /** Messages go out only in order, and the controller stands where the last one put it. */
  predicate WireFits(s: State) {
    && (s.wire.release ==> s.wire.commit && s.wire.committed)
    && (s.wire.commit ==> s.mode == Initial)
    && (s.wire.locked ==> s.claimed)
    && (s.controller.Waiting? || s.controller.Working? ==> !s.wire.commit)
    && (s.controller.Committing? ==> s.wire.commit)
    && (s.controller.Letting? ==> s.wire.release)
  }

  /** Each stage of the helper presupposes the messages it read and the status it wrote. */
  predicate HelperFits(s: State) {
    && (s.helper.Starting? || s.helper.Claiming? ==> !s.claimed)
    && (s.helper.Claiming? ==> s.mode == Initial)
    && (!s.helper.Starting? && !s.helper.Claiming? && !s.helper.Exited? ==> s.claimed)
    && (s.helper.Acknowledging? || s.helper.Confirming? || s.helper.AwaitingRelease? ==> s.wire.commit)
    && (s.helper.Releasing? || s.helper.Marking? || s.helper.SayingReleased? ==> s.wire.release)
    && (s.mode == Initial && (s.helper.Gap? || s.helper.Connecting? || s.helper.AwaitingCommit? || s.helper.Acknowledging?)
        ==> s.status == Claimed)
    && (s.helper.Confirming? || s.helper.AwaitingRelease? || s.helper.Releasing? ==> s.status == Acknowledged)
    && (s.helper.Marking? || s.helper.SayingReleased? ==> s.status == Released)
  }

  /** A release is believed only where it was written and said. */
  predicate ReleaseFits(s: State) {
    && (s.mode == Initial && s.claimed && s.status == Released ==> s.wire.release)
    && (s.wire.released ==> s.status == Released && s.helper == Exited(0) && s.mode == Initial)
    && (s.mode == Initial && (s.controller == Leaving(true) || s.controller.Accepted? || s.controller.Recorded?) ==> s.wire.released)
    && (s.success ==> s.controller.Recorded? && s.mode == Initial)
  }

  /** The status in which a fence leaves the owner is never there before it, unless a reconciliation found it. */
  predicate StatusFits(s: State, start: Status) {
    && (s.claimed && s.mode == Initial && !s.helper.SayingClosed? && !s.helper.Exited? ==> s.status != Interrupted)
    && (s.mode == Reconciling && !s.helper.SayingClosed? && !s.helper.Exited? ==> s.status == start)
  }

  /** The files of the fence that an accident has undone. */
  datatype Undoing = Undoing(ready: bool, pending: bool)

  predicate Shut(s: State, u: Undoing) {
    (!s.ready || u.ready) && (s.pending == Own || u.pending)
  }

  /** The fence, statement by statement, as far as no accident befell it. */
  predicate FenceFits(s: State, torn: bool, u: Undoing) {
    && (s.helper.Pend? ==> !s.ready || u.ready)
    && (s.helper.Sign? || s.helper.SayingClosed? ==> Shut(s, u))
    && (s.helper.SayingClosed? ==> s.status == Interrupted)
    && (s.helper.Exited? && s.claimed && !torn && !(s.mode == Initial && s.status == Released) ==>
          s.status == Interrupted && Shut(s, u))
  }

  /** What an accident leaves behind. */
  predicate AccidentFits(s: State, start: Status, torn: bool, u: Undoing) {
    && (u.ready ==> s.ready && Past(s.helper, Ready))
    && (u.pending ==> s.pending == Absent && Past(s.helper, PendingFile))
    && (torn ==> s.helper.Exited? && s.claimed && (s.mode == Initial || start != Interrupted ==> s.status != Interrupted))
  }

  /** Status, fence and accidents together. */
  predicate Fits(s: State, start: Status, torn: bool, u: Undoing) {
    StatusFits(s, start) && FenceFits(s, torn, u) && AccidentFits(s, start, torn, u)
  }

  predicate Inv(s: State) {
    WireFits(s) && HelperFits(s) && ReleaseFits(s)
  }

  lemma HelperStepKeepsWire(s: State)
    requires Inv(s)
    ensures WireFits(HelperStep(s))
  {
    match s.helper
    case Starting =>
    case Claiming =>
    case Gap =>
    case Connecting =>
    case AwaitingCommit =>
    case Acknowledging =>
    case Confirming =>
    case AwaitingRelease =>
    case Releasing =>
    case Marking =>
    case SayingReleased =>
    case Fencing(_) =>
    case Pend(_) =>
    case Sign(_) =>
    case SayingClosed =>
    case Exited(_) =>
  }

  lemma HelperStepKeepsStage(s: State)
    requires Inv(s)
    ensures HelperFits(HelperStep(s))
  {
    match s.helper
    case Starting =>
    case Claiming =>
    case Gap =>
    case Connecting =>
    case AwaitingCommit =>
    case Acknowledging =>
    case Confirming =>
    case AwaitingRelease =>
    case Releasing =>
    case Marking =>
    case SayingReleased =>
    case Fencing(_) =>
    case Pend(_) =>
    case Sign(_) =>
    case SayingClosed =>
    case Exited(_) =>
  }

  lemma HelperStepKeepsRelease(s: State)
    requires Inv(s)
    ensures ReleaseFits(HelperStep(s))
  {
    match s.helper
    case Starting =>
    case Claiming =>
    case Gap =>
    case Connecting =>
    case AwaitingCommit =>
    case Acknowledging =>
    case Confirming =>
    case AwaitingRelease =>
    case Releasing =>
    case Marking =>
    case SayingReleased =>
    case Fencing(_) =>
    case Pend(_) =>
    case Sign(_) =>
    case SayingClosed =>
    case Exited(_) =>
  }

  lemma HelperStepKeepsFence(s: State, start: Status, torn: bool, u: Undoing)
    requires Inv(s) && Fits(s, start, torn, u)
    ensures Fits(HelperStep(s), start, torn, u)
  {
    match s.helper
    case Starting =>
    case Claiming =>
    case Gap =>
    case Connecting =>
    case AwaitingCommit =>
    case Acknowledging =>
    case Confirming =>
    case AwaitingRelease =>
    case Releasing =>
    case Marking =>
    case SayingReleased =>
    case Fencing(_) =>
    case Pend(_) =>
    case Sign(_) =>
    case SayingClosed =>
    case Exited(_) =>
  }

  lemma HelperStepKeeps(s: State)
    requires Inv(s)
    ensures Inv(HelperStep(s))
  {
    HelperStepKeepsWire(s);
    HelperStepKeepsStage(s);
    HelperStepKeepsRelease(s);
    hide HelperStep, WireFits, HelperFits, ReleaseFits;
  }

  lemma HelperSignalKeeps(s: State)
    requires Inv(s)
    ensures Inv(HelperSignal(s))
  {
  }

  lemma ControllerStepKeepsWire(s: State)
    requires Inv(s)
    ensures WireFits(ControllerStep(s))
  {
    match s.controller
    case Waiting =>
    case Working =>
    case Committing =>
    case Letting =>
    case Leaving(_) =>
    case Accepted =>
    case Recorded =>
    case Failed =>
    case Dead =>
  }

  lemma ControllerStepKeepsStage(s: State)
    requires Inv(s)
    ensures HelperFits(ControllerStep(s))
  {
    match s.controller
    case Waiting =>
    case Working =>
    case Committing =>
    case Letting =>
    case Leaving(_) =>
    case Accepted =>
    case Recorded =>
    case Failed =>
    case Dead =>
  }

  lemma ControllerStepKeepsRelease(s: State)
    requires Inv(s)
    ensures ReleaseFits(ControllerStep(s))
  {
    match s.controller
    case Waiting =>
    case Working =>
    case Committing =>
    case Letting =>
    case Leaving(_) =>
    case Accepted =>
    case Recorded =>
    case Failed =>
    case Dead =>
  }

  lemma ControllerStepKeeps(s: State)
    requires Inv(s)
    ensures Inv(ControllerStep(s))
  {
    ControllerStepKeepsWire(s);
    ControllerStepKeepsStage(s);
    ControllerStepKeepsRelease(s);
    hide ControllerStep, WireFits, HelperFits, ReleaseFits;
  }

  lemma ControllerFailureKeeps(s: State)
    requires Inv(s)
    ensures Inv(ControllerFailure(s))
  {
    match s.controller
    case Waiting =>
    case Working =>
    case Committing =>
    case Letting =>
    case Leaving(_) =>
    case Accepted =>
    case Recorded =>
    case Failed =>
    case Dead =>
  }

  lemma ControllerDeathKeeps(s: State)
    requires Inv(s)
    ensures Inv(ControllerDeath(s))
  {
    match s.controller
    case Waiting =>
    case Working =>
    case Committing =>
    case Letting =>
    case Leaving(_) =>
    case Accepted =>
    case Recorded =>
    case Failed =>
    case Dead =>
  }

  lemma GateKeeps(s: State)
    requires Inv(s)
    ensures Inv(OpenTouch(s)) && Inv(OpenRemove(s)) && Inv(CloseWrite(s)) && Inv(CloseRemove(s))
  {
  }

  lemma {:induction false} StepKeeps(s: State, e: Event)
    requires Inv(s)
    ensures Inv(Step(s, e))
  {
    HelperStepKeeps(s);
    HelperSignalKeeps(s);
    ControllerStepKeeps(s);
    ControllerFailureKeeps(s);
    ControllerDeathKeeps(s);
    GateKeeps(s);
    hide HelperStep, HelperSignal, ControllerStep, ControllerFailure, ControllerDeath, OpenTouch, OpenRemove, CloseWrite, CloseRemove;
  }

  lemma {:induction false} RunKeeps(s: State, events: seq<Event>)
    requires Start(s)
    ensures Inv(Run(s, events))
  {
    hide Inv, Step;
    if events == [] {
      StartKeeps(s);
    } else {
      RunKeeps(s, events[..|events|-1]);
      StepKeeps(Run(s, events[..|events|-1]), events[|events|-1]);
    }
  }

  lemma StartKeeps(s: State)
    requires Start(s)
    ensures Inv(s)
  {
  }

  // ---------- the fence over whole runs ----------

  lemma ControllerTouchesNoFence(s: State)
    ensures var v := ControllerStep(s);
      v.mode == s.mode && v.helper == s.helper && v.status == s.status && v.claimed == s.claimed
      && v.ready == s.ready && v.pending == s.pending
  {
    match s.controller
    case Leaving(_) =>
    case _ =>
  }

  predicate StillTorn(s: State, e: Event, torn: bool) {
    torn || Tears(s, e)
  }

  function StillUndone(s: State, e: Event, u: Undoing): Undoing {
    Undoing(Undoes(s, e, Ready) || (u.ready && !Recloses(s, e, Ready)),
            Undoes(s, e, PendingFile) || (u.pending && !Recloses(s, e, PendingFile)))
  }

  /** The fence is a matter of the helper, the owner and the gate. */
  predicate SameFence(s: State, v: State) {
    && v.mode == s.mode && v.helper == s.helper && v.status == s.status && v.claimed == s.claimed
    && v.ready == s.ready && v.pending == s.pending
  }

  lemma FitsIsKept(s: State, v: State, start: Status, torn: bool, u: Undoing)
    requires SameFence(s, v) && Fits(s, start, torn, u)
    ensures Fits(v, start, torn, u)
  {
  }

  lemma ControllerKeepsFence(s: State, e: Event, start: Status, torn: bool, u: Undoing)
    requires Fits(s, start, torn, u) && (e.ControllerMoves? || e.ControllerFails? || e.ControllerDies? || e.OpenStarts?)
    ensures Fits(Step(s, e), start, StillTorn(s, e, torn), StillUndone(s, e, u))
  {
    ControllerTouchesNoFence(s);
    assert SameFence(s, Step(s, e));
    FitsIsKept(s, Step(s, e), start, torn, u);
    assert StillUndone(s, e, u) == u && StillTorn(s, e, torn) == torn;
    hide Step, Fits;
  }

  lemma SignalKeepsFence(s: State, start: Status, torn: bool, u: Undoing)
    requires Inv(s) && Fits(s, start, torn, u)
    ensures Fits(HelperSignal(s), start, StillTorn(s, HelperIsSignalled, torn), StillUndone(s, HelperIsSignalled, u))
  {
  }

  lemma TouchKeepsFence(s: State, start: Status, torn: bool, u: Undoing)
    requires Fits(s, start, torn, u)
    ensures Fits(OpenTouch(s), start, StillTorn(s, OpenTouchesReady, torn), StillUndone(s, OpenTouchesReady, u))
  {
  }

  lemma RemoveKeepsFence(s: State, start: Status, torn: bool, u: Undoing)
    requires Fits(s, start, torn, u)
    ensures Fits(OpenRemove(s), start, StillTorn(s, OpenRemovesPending, torn), StillUndone(s, OpenRemovesPending, u))
  {
  }

  lemma CloseKeepsFence(s: State, start: Status, torn: bool, u: Undoing)
    requires Fits(s, start, torn, u)
    ensures Fits(CloseWrite(s), start, StillTorn(s, CloseWritesPending, torn), StillUndone(s, CloseWritesPending, u))
    ensures Fits(CloseRemove(s), start, StillTorn(s, CloseRemovesReady, torn), StillUndone(s, CloseRemovesReady, u))
  {
  }

  lemma EventKeepsFence(s: State, e: Event, start: Status, torn: bool, u: Undoing)
    requires Inv(s) && Fits(s, start, torn, u)
    ensures Fits(Step(s, e), start, StillTorn(s, e, torn), StillUndone(s, e, u))
  {
    match e
    case HelperMoves => HelperStepKeepsFence(s, start, torn, u); hide HelperStep;
    case HelperIsSignalled => SignalKeepsFence(s, start, torn, u); hide HelperSignal;
    case OpenTouchesReady => TouchKeepsFence(s, start, torn, u); hide OpenTouch;
    case OpenRemovesPending => RemoveKeepsFence(s, start, torn, u); hide OpenRemove;
    case CloseWritesPending => CloseKeepsFence(s, start, torn, u); hide CloseWrite;
    case CloseRemovesReady => CloseKeepsFence(s, start, torn, u); hide CloseRemove;
    case _ => ControllerKeepsFence(s, e, start, torn, u);
  }

  /** What of the fence the run has undone. */
  function UndoneFiles(s: State, events: seq<Event>): Undoing {
    Undoing(UndoneAt(s, events, Ready), UndoneAt(s, events, PendingFile))
  }

  lemma {:induction false} RunFits(s: State, events: seq<Event>)
    requires Start(s)
    ensures Inv(Run(s, events)) && Fits(Run(s, events), s.status, Torn(s, events), UndoneFiles(s, events))
  {
    RunKeeps(s, events);
    if events != [] {
      var front, e := events[..|events|-1], events[|events|-1];
      RunFits(s, front);
      TornGrows(s, events);
      UndoneGrows(s, events, Ready);
      UndoneGrows(s, events, PendingFile);
      EventKeepsFence(Run(s, front), e, s.status, Torn(s, front), UndoneFiles(s, front));
      hide Inv, Torn, UndoneAt, Fits, Step;
    }
  }

  // ---------- what the lease promises ----------

  /** The owner ends as released only after COMMIT and then RELEASE were sent and answered. */
  lemma {:induction false} ReleaseNeedsBothMessages(s: State, events: seq<Event>)
    requires Start(s) && s.mode == Initial
    ensures var v := Run(s, events);
      v.claimed && v.status == Released ==> v.wire.commit && v.wire.committed && v.wire.release
  {
    RunKeeps(s, events);
    ModeStays(s, events);
    hide Run;
  }

  /**
   * Whatever ended the helper of a first installation past its claim: it was released, or the gate
   * is fenced for this run, except exactly where a signal tore it out of its claim or its fence, or
   * an opening undid the fence and nothing closed the gate again, and it had not been released.
   */
  lemma {:induction false} ExitIsFenced(s: State, events: seq<Event>)
    requires Start(s) && s.mode == Initial
    ensures var v := Run(s, events);
      v.helper.Exited? && v.claimed ==>
        (!Fenced(v) && v.status != Released <==> (Torn(s, events) || Undone(s, events)) && v.status != Released)
  {
    RunFits(s, events);
    ModeStays(s, events);
    hide Run, Torn, UndoneAt;
  }

  /**
   * A reconciliation that got past its checks and was neither torn nor undone ends closed; unless
   * an earlier run had left the owner interrupted, it does so only then.
   */
  lemma {:induction false} ReconciliationEndsClosed(s: State, events: seq<Event>)
    requires Start(s) && s.mode == Reconciling
    ensures var v := Run(s, events);
      v.helper.Exited? && v.claimed ==>
        (!Torn(s, events) && !Undone(s, events) ==> Fenced(v))
        && (s.status != Interrupted ==> (Fenced(v) <==> !Torn(s, events) && !Undone(s, events)))
  {
    RunFits(s, events);
    ModeStays(s, events);
    hide Run, Torn, UndoneAt;
  }

  lemma {:induction false} ModeStays(s: State, events: seq<Event>)
    ensures Run(s, events).mode == s.mode
  {
    if events != [] {
      ModeStays(s, events[..|events|-1]);
      StepKeepsMode(Run(s, events[..|events|-1]), events[|events|-1]);
    }
  }

  lemma HelperFrame(s: State)
    ensures var v := HelperStep(s);
      v.mode == s.mode && v.wire.eof == s.wire.eof && (s.claimed ==> v.claimed)
  {
    match s.helper
    case Starting =>
    case Claiming =>
    case Gap =>
    case Connecting =>
    case AwaitingCommit =>
    case Acknowledging =>
    case Confirming =>
    case AwaitingRelease =>
    case Releasing =>
    case Marking =>
    case SayingReleased =>
    case Fencing(_) =>
    case Pend(_) =>
    case Sign(_) =>
    case SayingClosed =>
    case Exited(_) =>
  }

  lemma ControllerKeepsMode(s: State)
    ensures ControllerStep(s).mode == s.mode
  {
    match s.controller
    case Leaving(_) =>
    case _ =>
  }

  lemma StepKeepsMode(s: State, e: Event)
    ensures Step(s, e).mode == s.mode
  {
    HelperFrame(s);
    ControllerKeepsMode(s);
    hide HelperStep, ControllerStep;
  }

  /** The journal says success only after the helper wrote its release, said so and exited zero. */
  lemma {:induction false} SuccessIsReleased(s: State, events: seq<Event>)
    requires Start(s)
    ensures var v := Run(s, events);
      v.success ==> v.status == Released && v.wire.released && v.helper == Exited(0)
  {
    RunKeeps(s, events);
    hide Run;
  }

  // ---------- what ends a helper that lost its peer ----------

  /** How many of its own statements a helper with nothing more to read has left. */
  function Left(h: Helper): nat {
    match h
    case Starting => 15 case Claiming => 14 case Gap => 13 case Connecting => 12 case AwaitingCommit => 11
    case Acknowledging => 10 case Confirming => 9 case AwaitingRelease => 8 case Releasing => 7
    case Marking => 6 case SayingReleased => 5
    case Fencing(_) => 4 case Pend(_) => 3 case Sign(_) => 2 case SayingClosed => 1 case Exited(_) => 0
  }

  function Moves(s: State, n: nat): State {
    if n == 0 then s else HelperStep(Moves(s, n - 1))
  }

  predicate Arriving(h: Helper) {
    h.Starting? || h.Claiming? || h.Gap? || h.Connecting?
  }

  lemma ArrivingGoesOn(s: State)
    requires s.wire.eof && Arriving(s.helper)
    ensures Left(HelperStep(s).helper) < Left(s.helper)
  {
  }

  predicate Exchanging(h: Helper) {
    h.AwaitingCommit? || h.Acknowledging? || h.Confirming? || h.AwaitingRelease?
  }

  lemma ExchangingGoesOn(s: State)
    requires s.wire.eof && Exchanging(s.helper)
    ensures Left(HelperStep(s).helper) < Left(s.helper)
  {
  }

  predicate Concluding(h: Helper) {
    h.Releasing? || h.Marking? || h.SayingReleased?
  }

  lemma ConcludingGoesOn(s: State)
    requires s.wire.eof && Concluding(s.helper)
    ensures Left(HelperStep(s).helper) < Left(s.helper)
  {
  }

  predicate Closing(h: Helper) {
    h.Fencing? || h.Pend? || h.Sign? || h.SayingClosed?
  }

  lemma ClosingGoesOn(s: State)
    requires s.wire.eof && Closing(s.helper)
    ensures Left(HelperStep(s).helper) < Left(s.helper)
  {
  }

  lemma HelperGoesOn(s: State)
    requires s.wire.eof && !s.helper.Exited?
    ensures Left(HelperStep(s).helper) < Left(s.helper)
  {
    hide HelperStep, Left;
    if Arriving(s.helper) {
      ArrivingGoesOn(s);
    } else if Exchanging(s.helper) {
      ExchangingGoesOn(s);
    } else if Concluding(s.helper) {
      ConcludingGoesOn(s);
    } else {
      ClosingGoesOn(s);
    }
  }

  lemma {:induction false} MovesEnd(s: State, n: nat)
    requires s.wire.eof
    ensures Moves(s, n).wire.eof && (Moves(s, n).helper.Exited? || Left(Moves(s, n).helper) + n <= Left(s.helper))
  {
    hide HelperStep, Left;
    if n > 0 {
      MovesEnd(s, n - 1);
      var v := Moves(s, n - 1);
      if v.helper.Exited? {
        HelperFrame(v);
        ExitedStays(v);
      } else {
        HelperGoesOn(v);
        HelperFrame(v);
      }
    }
  }

  lemma ExitedStays(s: State)
    requires s.helper.Exited?
    ensures HelperStep(s) == s
  {
  }

  /** Left to itself the helper meets with no accident. */
  lemma {:induction false} MovesFit(s: State, n: nat, start: Status, torn: bool, u: Undoing)
    requires Inv(s) && Fits(s, start, torn, u)
    ensures Inv(Moves(s, n)) && Fits(Moves(s, n), start, torn, u)
    ensures s.claimed ==> Moves(s, n).claimed
  {
    if n > 0 {
      MovesFit(s, n - 1, start, torn, u);
      HelperStepKeeps(Moves(s, n - 1));
      HelperStepKeepsFence(Moves(s, n - 1), start, torn, u);
      HelperFrame(Moves(s, n - 1));
      hide HelperStep, Inv, Fits;
    }
  }

  /**
   * A claimed helper whose controller is lost, and that met with no accident yet, needs at most
   * fifteen of its own statements to end released or fenced.
   */
  lemma {:induction false} LostPeerIsFenced(s: State, events: seq<Event>)
    requires Start(s) && Run(s, events).wire.eof && Run(s, events).claimed && !Torn(s, events) && !Undone(s, events)
    ensures var v := Moves(Run(s, events), 15);
      v.helper.Exited? && (Fenced(v) || (v.mode == Initial && v.status == Released))
  {
    RunFits(s, events);
    var u := Run(s, events);
    FittingMovesFence(u, s.status);
    hide Run, Torn, UndoneAt, Moves, Fits, Inv, Fenced;
  }

  lemma FittingMovesFence(u: State, start: Status)
    requires Inv(u) && Fits(u, start, false, Undoing(false, false))
    requires u.wire.eof && u.claimed
    ensures var v := Moves(u, 15); v.helper.Exited? && (Fenced(v) || (v.mode == Initial && v.status == Released))
  {
    MovesFit(u, 15, start, false, Undoing(false, false));
    MovesEnd(u, 15);
    hide Moves, Inv, StatusFits, AccidentFits;
  }

  // ---------- the accidents happen ----------

  const EMPTY := State(Initial, Starting, Waiting, SILENCE, Unclaimed, false, Absent, Idle, false, false, false)

  /** Up to the guarded region: the checks, the claim, and into it. */
  const ARRIVAL := [HelperMoves, HelperMoves, HelperMoves]
  const GAP_SIGNAL := [HelperMoves, HelperMoves, HelperIsSignalled]
  const FENCE_SIGNAL := ARRIVAL + [HelperIsSignalled, HelperMoves, HelperIsSignalled]
  const LOST_OPENING := ARRIVAL + [HelperMoves, ControllerMoves, OpenStarts, ControllerFails]
  const FENCED_OPENING := LOST_OPENING + [HelperMoves, HelperMoves, HelperMoves, HelperMoves, HelperMoves]
  const LATE_OPENING := FENCED_OPENING + [OpenTouchesReady, OpenRemovesPending]

  lemma {:induction false} RunTakes(s: State, events: seq<Event>, e: Event)
    ensures Run(s, events + [e]) == Step(Run(s, events), e)
  {
    assert (events + [e])[..|events|] == events;
  }

  lemma {:induction false} RunTakesThree(s: State, events: seq<Event>, a: Event, b: Event, c: Event)
    ensures Run(s, events + [a, b, c]) == Step(Step(Step(Run(s, events), a), b), c)
    ensures Run(s, events + [a, b]) == Step(Step(Run(s, events), a), b)
  {
    hide Run, Step;
    RunTakes(s, events, a);
    RunTakes(s, events + [a], b);
    RunTakes(s, events + [a] + [b], c);
    assert events + [a] + [b] == events + [a, b];
    assert events + [a] + [b] + [c] == events + [a, b, c];
  }

  const CLAIMED := EMPTY.(helper := Gap, status := Claimed, claimed := true)

  lemma ClaimSteps()
    ensures Step(Step(EMPTY, HelperMoves), HelperMoves) == CLAIMED
    ensures Step(CLAIMED, HelperMoves) == CLAIMED.(helper := Connecting)
  {
  }

  lemma {:induction false} Arrives(last: Event)
    ensures Run(EMPTY, [HelperMoves, HelperMoves]) == CLAIMED
    ensures Run(EMPTY, [HelperMoves, HelperMoves, last]) == Step(CLAIMED, last)
  {
    assert Run(EMPTY, []) == EMPTY;
    ClaimSteps();
    hide Run, Step;
    RunTakesThree(EMPTY, [], HelperMoves, HelperMoves, last);
    assert [] + [HelperMoves, HelperMoves] == [HelperMoves, HelperMoves];
    assert [] + [HelperMoves, HelperMoves, last] == [HelperMoves, HelperMoves, last];
  }

  /** On an empty gate, a signal between the claim and the guarded region leaves a claim without a fence. */
  lemma {:induction false} SignalInTheGap()
    ensures var v := Run(EMPTY, GAP_SIGNAL);
      Start(EMPTY) && v.helper.Exited? && v.claimed && v.status == Claimed && !Fenced(v) && Torn(EMPTY, GAP_SIGNAL)
  {
    hide Run;
    Arrives(HelperIsSignalled);
    assert GAP_SIGNAL[..2] == [HelperMoves, HelperMoves];
    assert Tears(Run(EMPTY, GAP_SIGNAL[..2]), GAP_SIGNAL[2]);
  }

  lemma FenceIsStruck()
    ensures var u := CLAIMED.(helper := Connecting);
      var v := Step(Step(u, HelperIsSignalled), HelperMoves);
      v == CLAIMED.(helper := Pend(1)) && Step(v, HelperIsSignalled) == CLAIMED.(helper := Exited(1))
  {
  }

  /** A first signal starts the fence, and a second one stops it before PENDING and the owner are written. */
  lemma {:induction false} SignalInTheFence()
    ensures var v := Run(EMPTY, FENCE_SIGNAL);
      Start(EMPTY) && v.helper.Exited? && v.claimed && v.status == Claimed && v.pending == Absent && !Fenced(v)
      && Torn(EMPTY, FENCE_SIGNAL)
  {
    Arrives(HelperMoves);
    ClaimSteps();
    FenceIsStruck();
    hide Run, Step;
    RunTakesThree(EMPTY, ARRIVAL, HelperIsSignalled, HelperMoves, HelperIsSignalled);
    assert FENCE_SIGNAL[..5] == ARRIVAL + [HelperIsSignalled, HelperMoves];
    assert Tears(Run(EMPTY, FENCE_SIGNAL[..5]), FENCE_SIGNAL[5]);
  }

  /** The controller works, has an opening in flight, and fails. */
  const LEFT := CLAIMED.(helper := AwaitingCommit, controller := Leaving(false), opening := ToReady,
                         wire := SILENCE.(locked := true, eof := true))

  const WORKING := LEFT.(controller := Working, wire := SILENCE.(locked := true))

  lemma ControllerLeaves()
    ensures var u := CLAIMED.(helper := Connecting);
      Step(Step(Step(u, HelperMoves), ControllerMoves), OpenStarts) == WORKING && Step(WORKING, ControllerFails) == LEFT
  {
  }

  lemma {:induction false} LeavesWithAnOpening()
    ensures Run(EMPTY, LOST_OPENING) == LEFT
  {
    Arrives(HelperMoves);
    ClaimSteps();
    ControllerLeaves();
    hide Run, Step;
    RunTakesThree(EMPTY, ARRIVAL, HelperMoves, ControllerMoves, OpenStarts);
    RunTakes(EMPTY, ARRIVAL + [HelperMoves, ControllerMoves, OpenStarts], ControllerFails);
    assert LOST_OPENING == ARRIVAL + [HelperMoves, ControllerMoves, OpenStarts] + [ControllerFails];
  }

  const INTERRUPTED := LEFT.(helper := Exited(0), pending := Own, status := Interrupted)

  lemma HelperFences()
    ensures var v := Step(Step(Step(LEFT, HelperMoves), HelperMoves), HelperMoves);
      v == LEFT.(helper := Sign(0), pending := Own) && Step(Step(v, HelperMoves), HelperMoves) == INTERRUPTED
  {
  }

  lemma {:induction false} FencesBesideAnOpening()
    ensures Run(EMPTY, FENCED_OPENING) == INTERRUPTED
  {
    LeavesWithAnOpening();
    HelperFences();
    hide Run, Step;
    var third := LOST_OPENING + [HelperMoves, HelperMoves, HelperMoves];
    RunTakesThree(EMPTY, LOST_OPENING, HelperMoves, HelperMoves, HelperMoves);
    RunTakes(EMPTY, third, HelperMoves);
    RunTakes(EMPTY, third + [HelperMoves], HelperMoves);
    assert FENCED_OPENING == third + [HelperMoves] + [HelperMoves];
  }

  const LATE := INTERRUPTED.(ready := true, opening := ToPending)

  lemma OpeningLands()
    ensures Step(INTERRUPTED, OpenTouchesReady) == LATE
    ensures Step(LATE, OpenRemovesPending) == LATE.(pending := Absent, opening := Idle)
  {
  }

  /** An opening in flight when the controller fails lands on the finished fence. */
  lemma {:induction false} LateOpening()
    ensures Start(EMPTY) && Fenced(Run(EMPTY, FENCED_OPENING)) && Run(EMPTY, FENCED_OPENING).helper.Exited?
    ensures var v := Run(EMPTY, LATE_OPENING);
      v.helper.Exited? && v.claimed && v.ready && v.pending == Absent && !Fenced(v) && Undone(EMPTY, LATE_OPENING)
  {
    FencesBesideAnOpening();
    OpeningLands();
    hide Run, Step;
    var half := FENCED_OPENING + [OpenTouchesReady];
    RunTakes(EMPTY, FENCED_OPENING, OpenTouchesReady);
    RunTakes(EMPTY, half, OpenRemovesPending);
    assert LATE_OPENING == half + [OpenRemovesPending];
    var n := |half|;
    assert LATE_OPENING[..n] == half;
    assert Undoes(Run(EMPTY, LATE_OPENING[..n]), LATE_OPENING[n], PendingFile);
    assert StaysOpen(EMPTY, LATE_OPENING, n + 1, PendingFile);
  }
}
