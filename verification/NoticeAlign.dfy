/**
 * The registration-notice actor over the realm's whole localization map: the original texts are
 * kept before anything is written, one text is put, and everything is compared again.
 */
module NoticeAlign {
  import opened Calls
  import opened Common

  type Messages = map<string, string>
  type Locales = map<string, Messages>

  const LOCALE := "es"
  const KEY := "termsText"

  /** registration-notice.json. */
  datatype Snapshot = Snapshot(before: Locales, expected: Locales, realm: nat)

  /** The live realm and the snapshot on disk; realm stands for every other setting of the realm. */
  datatype State = State(texts: Locales, realm: nat, snapshot: Option<Snapshot>)

  function Notice(texts: Locales): string {
    if LOCALE in texts && KEY in texts[LOCALE] then texts[LOCALE][KEY] else ""
  }

  /** The texts with exactly the one notice replaced. */
  function Expected(texts: Locales, desired: string): Locales
    requires LOCALE in texts
  {
    texts[LOCALE := texts[LOCALE][KEY := desired]]
  }

  datatype Effect = WriteSnapshot(snapshot: Snapshot) | Put(text: string) | Look

  function Perform(s: State, e: Effect): State {
    match e
    case WriteSnapshot(snapshot) => s.(snapshot := Some(snapshot))
    case Put(text) => if LOCALE in s.texts then s.(texts := Expected(s.texts, text)) else s.(texts := s.texts[LOCALE := map[KEY := text]])
    case Look => s
  }

  /** Only the notice of one locale may differ. */
  predicate OnlyTheNotice(a: Locales, b: Locales, desired: string) {
    && a.Keys == b.Keys
    && (forall l :: l in a && l != "es" ==> a[l] == b[l])
    && "es" in a && b["es"] == a["es"]["termsText" := desired]
  }

  /** The snapshot is a true original, and the live texts are that original or its approved successor. */
  predicate Kept(s: State, desired: string) {
    s.snapshot.Some? ==>
      var saved := s.snapshot.value;
      && LOCALE in saved.before && saved.expected == Expected(saved.before, desired)
      && (s.texts == saved.before || s.texts == saved.expected)
  }

  /** The end of an alignment: the original texts with exactly the notice replaced. */
  predicate Aligned(s: State, desired: string) {
    && s.snapshot.Some? && s.texts == s.snapshot.value.expected && s.realm == s.snapshot.value.realm
    && OnlyTheNotice(s.snapshot.value.before, s.texts, desired)
  }

  lemma ExpectedIsSettled(texts: Locales, desired: string)
    requires LOCALE in texts
    ensures OnlyTheNotice(texts, Expected(texts, desired), desired) && Notice(Expected(texts, desired)) == desired
    ensures LOCALE in Expected(texts, desired)
    ensures Expected(Expected(texts, desired), desired) == Expected(texts, desired)
    ensures Notice(texts) == desired && KEY in texts[LOCALE] ==> Expected(texts, desired) == texts
  {
    var once := texts[LOCALE][KEY := desired];
    assert once[KEY := desired] == once;
    assert Expected(Expected(texts, desired), desired) == texts[LOCALE := once][LOCALE := once];
    if Notice(texts) == desired && KEY in texts[LOCALE] {
      assert once == texts[LOCALE];
    }
  }

  /** What becomes of a call, and what else of the realm somebody changes just before it. */
  datatype Tick = Tick(fate: Fate, drift: Option<nat>)

  function Drifted(s: State, tick: Tick): State {
    if tick.drift.Some? then s.(realm := tick.drift.value) else s
  }

  predicate SameButRealm(a: State, b: State) {
    a == b.(realm := a.realm)
  }

  class Actor {
    var state: State
    var schedule: seq<Tick>

    constructor (state: State, schedule: seq<Tick>)
      ensures this.state == state && this.schedule == schedule
    {
      this.state, this.schedule := state, schedule;
    }

    method Do(e: Effect) returns (o: Outcome)
      modifies this
      ensures SameButRealm(state, old(state)) || SameButRealm(state, Perform(old(state), e))
      ensures o.Done? ==> SameButRealm(state, Perform(old(state), e))
      ensures old(schedule) == [] ==> o.Done? && schedule == [] && state == Perform(old(state), e)
      ensures old(schedule) != [] ==>
        var before := Drifted(old(state), old(schedule)[0]);
        Struck(old(schedule)[0].fate, before, Perform(before, e), state, o) && schedule == old(schedule)[1..]
    {
      var fate := Fine;
      if schedule != [] {
        state := Drifted(state, schedule[0]);
        fate, schedule := schedule[0].fate, schedule[1..];
      }
      if fate.TakesEffect() {
        state := Perform(state, e);
      }
      o := fate.Learnt();
    }

    /**
     * align(): legacy says whether a text is the one reviewed predecessor of the desired notice.
     * Wherever it stops, the snapshot is the first one and the texts are the original or its successor.
     */
    method Align(desired: string, legacy: string -> bool, check: bool) returns (o: Outcome)
      requires Kept(state, desired)
      modifies this
      ensures Kept(state, desired) && (old(schedule) == [] ==> state.realm == old(state).realm)
      ensures old(state).snapshot.Some? ==> state.snapshot == old(state).snapshot
      ensures check ==> SameButRealm(state, old(state))
      ensures state.texts == old(state).texts || (LOCALE in old(state).texts && state.texts == Expected(old(state).texts, desired))
      ensures state.texts != old(state).texts ==> state.snapshot.Some? && legacy(Notice(old(state).texts))
      ensures o.Done? ==> LOCALE in state.texts && Notice(state.texts) == desired
      ensures o.Done? && state.snapshot.Some? ==> state.realm == state.snapshot.value.realm
      ensures o.Done? && !check ==> Aligned(state, desired)
      ensures o.Done? && !check && old(state).snapshot.None? ==> state.snapshot.value.before == old(state).texts
      ensures old(schedule) == [] && !check && Alignable(old(state), desired, legacy) ==> o.Done?
    {
      hide OnlyTheNotice;
      :- Do(Look);
      var texts, current, realm := state.texts, Notice(state.texts), state.realm;
      if LOCALE !in texts || (current != desired && !legacy(current)) { return Raised; }
      ExpectedIsSettled(texts, desired);
      if state.snapshot.Some? { ExpectedIsSettled(state.snapshot.value.before, desired); }
      var expected := Expected(texts, desired);
      hide Expected;
      if state.snapshot.Some? {
        if state.snapshot.value.expected != expected || state.snapshot.value.realm != realm { return Raised; }
      } else if check {
        return if current == desired then Done else Raised;
      } else {
        :- Do(WriteSnapshot(Snapshot(texts, expected, realm)));
      }
      if check {
        return if texts == expected then Done else Raised;
      }
      if current != desired {
        :- Do(Put(desired));
      }
      :- Do(Look);
      o := if state.texts == expected && state.realm == realm then Done else Raised;
    }

    /** Any number of runs and checks, each ending anywhere. */
    method Campaign(desired: string, legacy: string -> bool, checks: seq<bool>)
      requires Kept(state, desired)
      modifies this
      ensures Kept(state, desired)
      ensures old(state).snapshot.Some? ==> state.snapshot == old(state).snapshot
    {
      for i := 0 to |checks|
        invariant Kept(state, desired)
        invariant old(state).snapshot.Some? ==> state.snapshot == old(state).snapshot
      {
        var _ := Align(desired, legacy, checks[i]);
      }
    }
  }

  /** What an undisturbed alignment needs to find. */
  predicate Alignable(s: State, desired: string, legacy: string -> bool) {
    && "es" in s.texts
    && (if Notice(s.texts) == desired then "termsText" in s.texts["es"] else legacy(Notice(s.texts)))
    && (s.snapshot.Some? ==> s.realm == s.snapshot.value.realm)
  }
}
