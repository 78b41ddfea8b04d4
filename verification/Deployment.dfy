/**
 * Release attempts against one isolated runtime: a durable mark before anything is touched, the
 * migration of the same image before activation, and a stop after every failure. Every call may
 * fail before or after its effect, and the process may be killed there.
 */
module Deployment {
  import opened Calls
  import opened Common

  datatype Mark = Running | Success | Failure

  type Image = nat
  type Fingerprint = nat

  /** deployment-state.json. */
  datatype Receipt = Receipt(outcome: Mark, source: nat, image: Image, schema: nat, configuration: nat,
                             history: Option<Fingerprint>, installed: Option<Image>, stopFailed: bool)

  datatype Release = Release(source: nat, image: Image, schema: nat, configuration: nat)

  /** How the repository relates the recorded source to the candidate's. */
  datatype Order = Ahead | Behind | Unrelated

  datatype Effect =
    | WriteState(receipt: Receipt)
    | Stop
    | Migrate(image: Image, history: Fingerprint)
    | Up(image: Image)
    | Look

  /** What has been done to the runtime, in order. */
  datatype Act = Stopped | Migrated(image: Image) | Activated(image: Image)

  datatype Host = Host(state: Option<Receipt>, application: Option<Image>, serving: bool,
                       history: Fingerprint, acts: seq<Act>)

  function Perform(h: Host, e: Effect): Host {
    match e
    case WriteState(r) => h.(state := Some(r))
    case Stop => h.(serving := false, acts := h.acts + [Stopped])
    case Migrate(image, history) => h.(history := history, acts := h.acts + [Migrated(image)])
    case Up(image) => h.(application := Some(image), serving := true, acts := h.acts + [Activated(image)])
    case Look => h
  }

  /** What a migration leaves as history where it is not what it should be. */
  datatype Tick = Tick(fate: Fate, history: Option<Fingerprint>)

  // ---------- what holds of every host ----------

  /** Only an activated image was ever migrated just before: stop, migration, activation, in this order. */
  predicate Ordered(acts: seq<Act>) {
    forall i :: 0 <= i < |acts| && acts[i].Activated? ==> i >= 2 && acts[i-1] == Migrated(acts[i].image) && acts[i-2] == Stopped
  }

  /** A recorded outcome tells what serves: a success its image over its schema, a failure nothing. */
  predicate Recorded(h: Host) {
    && (h.state.None? ==> h.application.None? && !h.serving)
    && (h.state.Some? && h.state.value.outcome == Success ==>
          h.application == Some(h.state.value.image) && h.state.value.installed == h.application
          && h.state.value.history == Some(h.history))
    && (h.state.Some? && h.state.value.outcome == Failure ==> !h.serving || h.state.value.stopFailed)
    && (h.serving ==> h.application.Some?)
  }

  predicate Sound(h: Host) {
    Ordered(h.acts) && Recorded(h)
  }

  /** An attempt was killed, or could not record its end: nothing may be assumed until it is assessed. */
  predicate Unassessed(h: Host) {
    h.state.Some? && h.state.value.outcome == Running
  }

  /** A release older than the recorded one is let in only over the recorded schema. */
  predicate Compatible(a: Host, release: Release, rollback: bool) {
    rollback ==> a.state.Some? && a.state.value.outcome == Success && a.state.value.schema == release.schema
                 && a.state.value.history == Some(a.history)
  }

  /** The release is behind the recorded one in the published history. */
  predicate Older(h: Host, release: Release, lineage: (nat, nat) -> Order) {
    h.state.Some? && h.state.value.source != release.source && lineage(h.state.value.source, release.source) == Behind
  }

  class Deployment {
    var host: Host
    var receipt: Receipt
    var schedule: seq<Tick>
    const lineage: (nat, nat) -> Order   // the published history of sources

    constructor (host: Host, schedule: seq<Tick>, lineage: (nat, nat) -> Order)
      ensures this.host == host && this.schedule == schedule && this.lineage == lineage
    {
      this.host, this.schedule, this.lineage := host, schedule, lineage;
      this.receipt := Receipt(Failure, 0, 0, 0, 0, None, None, false);
    }

    /** One call. */
    method Do(e: Effect) returns (o: Outcome)
      modifies this`host, this`schedule
      ensures o.Done? ==> host == Perform(old(host), e)
      ensures host == old(host) || host == Perform(old(host), e)
      ensures old(schedule) == [] ==> o.Done? && schedule == []
      ensures old(schedule) != [] ==> Struck(old(schedule)[0].fate, old(host), Perform(old(host), e), host, o) && schedule == old(schedule)[1..]
    {
      var tick := Tick(Fine, None);
      if schedule != [] {
        tick, schedule := schedule[0], schedule[1..];
      }
      if tick.fate.TakesEffect() {
        host := Perform(host, e);
      }
      o := tick.fate.Learnt();
    }

    /** What the migration of this image turns the history into. */
    method Peek(asked: Fingerprint) returns (history: Fingerprint)
      ensures schedule == [] ==> history == asked
      ensures schedule != [] && schedule[0].history.Some? ==> history == schedule[0].history.value
    {
      history := if schedule != [] && schedule[0].history.Some? then schedule[0].history.value else asked;
    }

    /** Everything that refuses before the durable mark. */
    method Preflight(release: Release, rollback: bool) returns (o: Outcome)
      modifies this`host, this`schedule
      ensures host == old(host)
      ensures o.Done? ==> Attemptable(host, release, rollback, lineage)
      ensures old(schedule) == [] && Attemptable(host, release, rollback, lineage) ==> o.Done? && schedule == []
    {
      var previous := host.state;
      :- Do(Look);
      if previous.Some? && previous.value.outcome == Running { return Raised; }
      if host.application.Some? && (previous.None? || host.application != previous.value.installed) { return Raised; }
      if previous.Some? && previous.value.configuration != release.configuration { return Raised; }
      :- Do(Look);
      if previous.Some? && previous.value.source != release.source {
        var order := lineage(previous.value.source, release.source);
        if order == Unrelated || (order == Behind) != rollback { return Raised; }
      } else if rollback {
        return Raised;
      }
      if rollback && !(previous.value.outcome == Success && previous.value.schema == release.schema
                       && previous.value.history == Some(host.history)) {
        return Raised;
      }
      o := Done;
    }

    /** The old code stops before the schema moves. */
    method StopAndMigrate(release: Release, rollback: bool, previous: Option<Receipt>) returns (o: Outcome)
      requires rollback ==> previous.Some?
      modifies this`host, this`receipt, this`schedule
      ensures host == old(host).(history := host.history, serving := host.serving, acts := host.acts)
      ensures receipt == old(receipt).(history := receipt.history)
      ensures host.acts == old(host).acts || host.acts == old(host).acts + [Stopped]
        || host.acts == old(host).acts + [Stopped, Migrated(release.image)]
      ensures host.serving ==> old(host).serving
      ensures o.Done? ==> host.acts == old(host).acts + [Stopped, Migrated(release.image)] && receipt.history == Some(host.history)
      ensures o.Done? && rollback ==> Some(host.history) == previous.value.history
      ensures receipt.history == old(receipt).history || receipt.history.Some?
      ensures o.Done? && |old(schedule)| > 1 && old(schedule)[1].history.Some? ==> host.history == old(schedule)[1].history.value
      ensures old(schedule) == [] && (rollback ==> previous.value.history == Some(old(host).history)) ==>
        (o.Done? && schedule == [] && host.history == old(host).history)
    {
      ghost var acts := host.acts;
      :- Do(Stop);
      var history := Peek(host.history);
      o := Do(Migrate(release.image, history));
      assert acts + [Stopped] + [Migrated(release.image)] == acts + [Stopped, Migrated(release.image)];
      if !o.Done? { return; }
      receipt := receipt.(history := Some(host.history));
      if rollback && receipt.history != previous.value.history { return Raised; }
    }

    /** The migrated image, observed healthy and answering. */
    method Activate(release: Release) returns (o: Outcome)
      modifies this`host, this`receipt, this`schedule
      ensures receipt == old(receipt).(installed := Some(release.image))
      ensures host == old(host) || host == Perform(old(host), Up(release.image))
      ensures o.Done? ==> host == Perform(old(host), Up(release.image))
      ensures old(schedule) == [] ==> o.Done? && schedule == []
    {
      receipt := receipt.(installed := Some(release.image));
      :- Do(Up(release.image));
      :- Do(Look);
      o := Do(Look);
    }

    /** Stop, migrate, activate, observe. */
    method Change(release: Release, rollback: bool, previous: Option<Receipt>) returns (o: Outcome)
      requires rollback ==> previous.Some?
      modifies this`host, this`receipt, this`schedule
      ensures host.state == old(host).state
      ensures receipt == old(receipt).(history := receipt.history, installed := receipt.installed)
      ensures receipt.installed in {old(receipt).installed, Some(release.image)}
      ensures receipt.history == old(receipt).history || receipt.history.Some?
      ensures Ordered(old(host).acts) ==> Ordered(host.acts)
      ensures host.serving ==> host.application.Some? || old(host).serving
      ensures o.Done? ==> host.serving && host.application == Some(release.image) && receipt.installed == host.application
      ensures o.Done? ==> receipt.history == Some(host.history)
      ensures o.Done? ==> host.acts == old(host).acts + [Stopped, Migrated(release.image), Activated(release.image)]
      ensures o.Done? && rollback ==> Some(host.history) == previous.value.history
      ensures host.application == old(host).application || host.application == Some(release.image)
      ensures old(schedule) == [] && (rollback ==> previous.value.history == Some(old(host).history)) ==>
        (o.Done? && schedule == [] && host.history == old(host).history)
    {
      hide Ordered;
      ghost var acts := host.acts;
      OrderedGrows(acts, [Stopped]);
      OrderedGrows(acts, [Stopped, Migrated(release.image)]);
      OrderedActivates(acts, release.image);
      :- StopAndMigrate(release, rollback, previous);
      o := Activate(release);
      assert acts + [Stopped, Migrated(release.image)] + [Activated(release.image)]
        == acts + [Stopped, Migrated(release.image), Activated(release.image)];
    }

    /** One attempt, from the durable mark to the recorded end. */
    method Attempt(release: Release, rollback: bool) returns (o: Outcome)
      modifies this
      ensures Sound(old(host)) ==> Sound(host)
      ensures Unassessed(old(host)) ==> !o.Done? && host == old(host)
      ensures o.Done? ==> Deployed(old(host), host, release, rollback, lineage)
      ensures o.Raised? && Sound(old(host)) ==> host == old(host) || Unassessed(host) || Settled(host)
      ensures host.state != old(host).state ==> Describes(host.state, release) && Remembers(old(host).state, host.state.value, release)
      ensures old(schedule) == [] && Attemptable(old(host), release, rollback, lineage) ==> o.Done?
    {
      receipt := Receipt(Failure, release.source, release.image, release.schema, release.configuration, None, None, false);
      var previous := host.state;
      :- Preflight(release, rollback);
      if previous.Some? {
        receipt := receipt.(installed := previous.value.installed,
                            history := if previous.value.history.Some? then Some(host.history) else None);
      }
      :- Do(WriteState(receipt.(outcome := Running)));
      o := Change(release, rollback, previous);
      if o.Dead? { return; }
      o := Close(o);
    }

    /** The end of an attempt that was marked: a failure stops what serves, and either end is recorded. */
    method Close(end: Outcome) returns (o: Outcome)
      requires !end.Dead? && Unassessed(host)
      modifies this
      ensures host == old(host).(state := host.state, serving := host.serving, acts := host.acts)
      ensures Ordered(old(host).acts) ==> Ordered(host.acts)
      ensures host.serving ==> old(host).serving
      ensures host.state == old(host).state || host.state == Some(receipt)
      ensures receipt == old(receipt).(outcome := if end.Done? then Success else Failure, stopFailed := receipt.stopFailed)
      ensures end.Done? ==> host.serving == old(host).serving && host.acts == old(host).acts && receipt.stopFailed == old(receipt).stopFailed
      ensures end.Raised? && host.serving && host.state == Some(receipt) ==> receipt.stopFailed || Unassessed(host)
      ensures o.Done? ==> end.Done? && host.state == Some(receipt)
      ensures old(schedule) == [] && end.Done? ==> o.Done?
    {
      receipt := receipt.(outcome := if end.Done? then Success else Failure);
      if end.Raised? {
        OrderedGrows(host.acts, [Stopped]);
        var stopped := Do(Stop);
        if stopped.Dead? { return Dead; }
        if stopped.Raised? { receipt := receipt.(stopFailed := true); }
      }
      o := Do(WriteState(receipt));
      if o.Done? { o := end; }
    }

    /** Any history of attempts. */
    method Campaign(attempts: seq<(Release, bool)>)
      requires Sound(host)
      modifies this
      ensures Sound(host)
      ensures Unassessed(old(host)) ==> host == old(host)
    {
      for i := 0 to |attempts|
        invariant Sound(host)
        invariant Unassessed(old(host)) ==> host == old(host)
      {
        var _ := Attempt(attempts[i].0, attempts[i].1);
      }
    }
  }

  lemma OrderedGrows(acts: seq<Act>, more: seq<Act>)
    requires forall a :: a in more ==> !a.Activated?
    ensures Ordered(acts) ==> Ordered(acts + more)
  {
    if Ordered(acts) {
      forall k | |acts| <= k < |acts + more| ensures !(acts + more)[k].Activated? {
        assert (acts + more)[k] == more[k - |acts|];
      }
    }
  }

  lemma OrderedActivates(acts: seq<Act>, image: Image)
    ensures Ordered(acts) ==> Ordered(acts + [Stopped, Migrated(image), Activated(image)])
  {
  }

  /** The state a successful attempt leaves, and what it took to get there. */
  predicate Deployed(a: Host, b: Host, release: Release, rollback: bool, lineage: (nat, nat) -> Order) {
    && Attemptable(a, release, rollback, lineage)
    && Describes(b.state, release) && b.state.value.outcome == Success && !b.state.value.stopFailed
    && b.state.value.history == Some(b.history) && b.state.value.installed == Some(release.image)
    && b.application == Some(release.image) && b.serving
    && b.acts == a.acts + [Stopped, Migrated(release.image), Activated(release.image)]
    && (rollback ==> b.history == a.history)
  }

  /** The record is of this release, down to the configuration that the next attempt must repeat. */
  predicate Describes(state: Option<Receipt>, release: Release) {
    && state.Some? && state.value.source == release.source && state.value.image == release.image
    && state.value.schema == release.schema && state.value.configuration == release.configuration
  }

  /** The image recorded as installed is the one recorded before, or the release's; a known history stays known. */
  predicate Remembers(previous: Option<Receipt>, receipt: Receipt, release: Release) {
    && (receipt.installed == Some(release.image) || receipt.installed == (if previous.Some? then previous.value.installed else None))
    && (previous.Some? && previous.value.history.Some? ==> receipt.history.Some?)
  }

  /** A recorded end: what failed does not serve, or its stop is reported as failed. */
  predicate Settled(h: Host) {
    && h.state.Some? && h.state.value.outcome != Running
    && (h.state.value.outcome == Failure ==> !h.serving || h.state.value.stopFailed)
    && (h.state.value.outcome == Success ==> h.serving && h.application == Some(h.state.value.image))
  }

  /**
   * What an undisturbed attempt needs to find on an assessed host: a newer release or the recorded
   * one, or as an explicit rollback an older one over the recorded schema and history.
   */
  predicate Attemptable(h: Host, release: Release, rollback: bool, lineage: (nat, nat) -> Order) {
    && !Unassessed(h)
    && (if rollback then Older(h, release, lineage) && Compatible(h, release, rollback)
        else h.state.Some? && h.state.value.source != release.source ==>
               lineage(h.state.value.source, release.source) == Ahead)
    && (h.application.Some? ==> h.state.Some? && h.application == h.state.value.installed)
    && (h.state.Some? ==> h.state.value.configuration == release.configuration)
  }
}
