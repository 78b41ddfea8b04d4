/**
 * The configuration of the next runtime from the active one and a fresh rendering: unchanged
 * services are kept exactly as they run, and every other difference is classified or refused.
 */
module Reconcile {
  import opened Common

  /** A bind source: inside an installation bundle, under the TLS inputs, or anywhere else. */
  datatype Path = InBundle(bundle: nat, rest: string) | InTls(rest: string) | Elsewhere(path: string)

  datatype Mount = Bind(target: string, source: Path, readOnly: bool) | Durable(target: string, volume: string)

  type Settings = map<string, string>

  /** What a service's definition says; everything an upgrade may not touch is one opaque value. */
  datatype Service = Service(image: string, environment: Settings, volumes: seq<Mount>, labels: Settings,
                             memory: nat, rest: nat)

  datatype Config = Config(services: map<string, Service>, sections: nat)

  datatype Field = Image | Environment | Volumes | Labels | Memory | Rest | BoundFiles

  const UPGRADE_LABEL := "gameometro.upgrade.revision"
  const VERSION_ENVIRONMENT := "TELEMETRY_SERVICE_VERSION"
  const DASHBOARD_TARGET := "/etc/grafana/canonical-dashboards/vgp-synchronization.json"
  const PUBLISHED: set<string> := {"application", "migration", "keycloak", "caddy", "catalogue-localizer"}

  // ---------- the exact administration settings ----------

  const GRAFANA := "https://gameometro-prod.tailca0b11.ts.net:8443/"
  const KEYCLOAK := "https://gameometro-prod.tailca0b11.ts.net:10000"

  function AdminEnvironment(name: string): Settings {
    if name == "grafana" then map["GF_SERVER_ROOT_URL" := GRAFANA, "GF_SECURITY_COOKIE_SECURE" := "true"]
    else if name == "keycloak" then map["KC_HOSTNAME_ADMIN" := KEYCLOAK]
    else map[]
  }

  function Get(settings: Settings, key: string): Option<string> {
    if key in settings then Some(settings[key]) else None
  }

  predicate AllowedSetting(name: string, key: string, before: Option<string>, after: Option<string>) {
    && key in AdminEnvironment(name) && after == Some(AdminEnvironment(name)[key])
    && (before == None || before == after || (key == "GF_SERVER_ROOT_URL" && before == Some("http://localhost:3000/")))
  }

  predicate StartsWith(s: string, prefix: string) {
    |prefix| <= |s| && s[..|prefix|] == prefix
  }

  predicate EndsWith(s: string, suffix: string) {
    |suffix| <= |s| && s[|s|-|suffix|..] == suffix
  }

  predicate Protected(key: string) {
    StartsWith(key, "KC_") || StartsWith(key, "OIDC_") || StartsWith(key, "APPLICATION_OIDC_") || EndsWith(key, "_FILE")
  }

  // ---------- comparison ----------

  function WithoutLabel(labels: Settings): Settings {
    labels - {UPGRADE_LABEL}
  }

  /** bundle_relative: the bundle a source lies in is not part of its identity. */
  function Relative(source: Path): Path {
    if source.InBundle? then InBundle(0, source.rest) else source
  }

  function NormalMount(m: Mount): Mount {
    if m.Bind? then m.(source := Relative(m.source)) else m
  }

  function NormalMounts(mounts: seq<Mount>): (r: seq<Mount>)
    ensures |r| == |mounts| && forall i :: 0 <= i < |r| ==> r[i] == NormalMount(mounts[i])
  {
    if mounts == [] then [] else NormalMounts(mounts[..|mounts|-1]) + [NormalMount(mounts[|mounts|-1])]
  }

  /** A service with its bundle identity removed, so only real changes remain to classify. */
  function Normalized(s: Service): Service {
    s.(labels := WithoutLabel(s.labels), volumes := NormalMounts(s.volumes))
  }

  function Differing(before: Service, after: Service): set<Field> {
    (if before.image != after.image then {Image} else {}) +
    (if before.environment != after.environment then {Environment} else {}) +
    (if before.volumes != after.volumes then {Volumes} else {}) +
    (if before.labels != after.labels then {Labels} else {}) +
    (if before.memory != after.memory then {Memory} else {}) +
    (if before.rest != after.rest then {Rest} else {})
  }

  function Targets(mounts: seq<Mount>): set<string> {
    set m | m in mounts :: m.target
  }

  /** The last bind of a target, as a dictionary by target keeps it. */
  function BindAt(mounts: seq<Mount>, target: string): Option<Path> {
    if mounts == [] then None
    else
      var m := mounts[|mounts|-1];
      if m.Bind? && m.target == target then Some(m.source) else BindAt(mounts[..|mounts|-1], target)
  }

  /** The bytes behind every relocated bind are the same; digest stands for tree_digest at this moment. */
  predicate BoundFilesEqual(current: Service, candidate: Service, digest: Path -> nat) {
    forall m :: m in current.volumes && m.Bind? ==>
      var source := BindAt(candidate.volumes, m.target);
      source.Some? && (source.value == m.source || digest(m.source) == digest(source.value))
  }

  function DurableMounts(mounts: seq<Mount>): (r: seq<Mount>)
    ensures forall m :: m in r <==> m in mounts && m.Durable?
  {
    if mounts == [] then []
    else DurableMounts(mounts[..|mounts|-1]) + (if mounts[|mounts|-1].Durable? then [mounts[|mounts|-1]] else [])
  }

  predicate SettingMayBecome(name: string, key: string, before: Option<string>, after: Option<string>) {
    before == after ||
    if key in AdminEnvironment(name) then AllowedSetting(name, key, before, after)
    else !Protected(key) && (key == VERSION_ENVIRONMENT || before == None)
  }

  predicate Attributable(m: Mount, bundle: nat) {
    m.Bind? ==> m.readOnly && ((m.source.InBundle? && m.source.bundle == bundle) || m.source.InTls?)
  }

  predicate SettingsAllowed(name: string, a: Settings, b: Settings) {
    forall key :: key in a.Keys + b.Keys ==> SettingMayBecome(name, key, Get(a, key), Get(b, key))
  }

  predicate MountsAllowed(a: seq<Mount>, b: seq<Mount>, bundle: nat) {
    && DurableMounts(a) == DurableMounts(b)
    && Targets(a) - Targets(b) <= {DASHBOARD_TARGET}
    && (forall m :: m in b && m !in a ==> Attributable(m, bundle))
  }

  /** validate_delta: everything an upgrade may change, per service. */
  predicate AllowedDelta(name: string, current: Service, candidate: Service, fields: set<Field>, bundle: nat) {
    && name != "postgres"
    && fields <= {Image, Environment, Volumes, Labels, Memory}
    && (Image in fields ==> name in PUBLISHED)
    && (Memory in fields ==> candidate.memory >= current.memory)
    && SettingsAllowed(name, current.environment, candidate.environment)
    && MountsAllowed(current.volumes, candidate.volumes, bundle)
  }

  // ---------- one service ----------

  /** The candidate as it will run: labels of the active service win, but for the upgrade's own. */
  function Labelled(current: Service, rendered: Service): Service {
    rendered.(labels := rendered.labels + WithoutLabel(current.labels))
  }

  predicate Unchanged(current: Service, candidate: Service, digest: Path -> nat) {
    && Differing(Normalized(current), Normalized(candidate)) == {}
    && Targets(Normalized(current).volumes) == Targets(Normalized(candidate).volumes)
    && BoundFilesEqual(current, candidate, digest)
  }

  predicate Accepts(name: string, current: Service, rendered: Service, bundle: nat, digest: Path -> nat) {
    var candidate := Labelled(current, rendered);
    Unchanged(current, candidate, digest) ||
    AllowedDelta(name, current, candidate, Differing(Normalized(current), Normalized(candidate)), bundle)
  }

  function Merged(current: Service, rendered: Service, digest: Path -> nat): Service {
    if Unchanged(current, Labelled(current, rendered), digest) then current else Labelled(current, rendered)
  }

  function ChangedFields(current: Service, rendered: Service): set<Field> {
    var fields := Differing(Normalized(current), Normalized(Labelled(current, rendered)));
    if fields == {} then {BoundFiles} else fields
  }

  type Changes = map<string, set<Field>>

  // ---------- the whole configuration ----------

  /** The services once some names have been gone through. */
  function Partly(active: Config, rendered: Config, digest: Path -> nat, done: set<string>): map<string, Service>
    requires active.services.Keys == rendered.services.Keys
  {
    map n | n in rendered.services ::
      if n in done then Merged(active.services[n], rendered.services[n], digest) else rendered.services[n]
  }

  function ChangesAmong(active: Config, rendered: Config, digest: Path -> nat, done: set<string>): Changes
    requires active.services.Keys == rendered.services.Keys
  {
    map n | n in rendered.services && n in done && Moved(active, rendered, digest, n) ::
      ChangedFields(active.services[n], rendered.services[n])
  }

  lemma OneMore(active: Config, rendered: Config, digest: Path -> nat, done: set<string>, n: string)
    requires active.services.Keys == rendered.services.Keys && n in rendered.services
    ensures Partly(active, rendered, digest, done + {n}) ==
      Partly(active, rendered, digest, done)[n := Merged(active.services[n], rendered.services[n], digest)]
    ensures ChangesAmong(active, rendered, digest, done + {n}) ==
      if Moved(active, rendered, digest, n)
      then ChangesAmong(active, rendered, digest, done)[n := ChangedFields(active.services[n], rendered.services[n])]
      else ChangesAmong(active, rendered, digest, done)
  {
    hide Merged, Moved, ChangedFields;
    if n in done {
      assert done + {n} == done;
    }
  }

  /** reconcile(): service by service in the rendering's own order; the first refusal ends it. */
  method Reconcile(active: Config, rendered: Config, names: seq<string>, bundle: nat, digest: Path -> nat)
      returns (r: Result<(Config, Changes)>)
    requires forall n :: n in names <==> n in rendered.services
    ensures r.Ok? <==> Accepted(active, rendered, bundle, digest)
    ensures r.Ok? ==> r.value == (Outcome(active, rendered, digest), ChangesOf(active, rendered, digest))
    ensures r.Ok? ==> Answers(active, rendered, digest, r.value.0, r.value.1)
  {
    hide Answers, Unchanged, AllowedDelta, Labelled, Differing, Normalized, Partly, ChangesAmong;
    if active.sections != rendered.sections { return Refused("Target configuration changes a runtime section."); }
    if active.services.Keys != rendered.services.Keys { return Refused("Target configuration changes the service inventory."); }
    var services, changed: Changes := rendered.services, map[];
    ghost var done: set<string> := {};
    NothingYet(active, rendered, digest);
    for i := 0 to |names|
      invariant forall k :: 0 <= k < i ==> names[k] in done
      invariant done <= rendered.services.Keys
      invariant forall n :: n in done ==> Accepts(n, active.services[n], rendered.services[n], bundle, digest)
      invariant services == Partly(active, rendered, digest, done) && changed == ChangesAmong(active, rendered, digest, done)
    {
      var name := names[i];
      var current := active.services[name];
      var candidate := Labelled(current, rendered.services[name]);
      var fields := Differing(Normalized(current), Normalized(candidate));
      OneMore(active, rendered, digest, done, name);
      if Unchanged(current, candidate, digest) {
        services := services[name := current];
      } else {
        if !AllowedDelta(name, current, candidate, fields, bundle) {
          return Refused("A difference that an in-place upgrade cannot make.");
        }
        services := services[name := candidate];
        changed := changed[name := if fields == {} then {BoundFiles} else fields];
      }
      done := done + {name};
    }
    assert done == rendered.services.Keys;
    AllDone(active, rendered, digest);
    OutcomeAnswers(active, rendered, digest);
    r := Ok((Config(services, rendered.sections), changed));
  }

  lemma NothingYet(active: Config, rendered: Config, digest: Path -> nat)
    requires active.services.Keys == rendered.services.Keys
    ensures Partly(active, rendered, digest, {}) == rendered.services && ChangesAmong(active, rendered, digest, {}) == map[]
  {
  }

  lemma AllDone(active: Config, rendered: Config, digest: Path -> nat)
    requires active.services.Keys == rendered.services.Keys
    ensures Partly(active, rendered, digest, rendered.services.Keys) == Outcome(active, rendered, digest).services
    ensures ChangesAmong(active, rendered, digest, rendered.services.Keys) == ChangesOf(active, rendered, digest)
  {
    hide Merged, Moved, ChangedFields;
  }

  predicate Moved(active: Config, rendered: Config, digest: Path -> nat, n: string)
    requires n in active.services && n in rendered.services
  {
    !Unchanged(active.services[n], Labelled(active.services[n], rendered.services[n]), digest)
  }

  ghost predicate Accepted(active: Config, rendered: Config, bundle: nat, digest: Path -> nat) {
    && active.sections == rendered.sections
    && active.services.Keys == rendered.services.Keys
    && forall n :: n in rendered.services ==> Accepts(n, active.services[n], rendered.services[n], bundle, digest)
  }

  function Outcome(active: Config, rendered: Config, digest: Path -> nat): Config
    requires active.services.Keys == rendered.services.Keys
  {
    Config(map n | n in rendered.services :: Merged(active.services[n], rendered.services[n], digest), rendered.sections)
  }

  function ChangesOf(active: Config, rendered: Config, digest: Path -> nat): Changes
    requires active.services.Keys == rendered.services.Keys
  {
    map n | n in rendered.services && Moved(active, rendered, digest, n) ::
      ChangedFields(active.services[n], rendered.services[n])
  }

  // ---------- what the result takes from where ----------

  predicate SameButBundle(a: Mount, b: Mount) {
    match (a, b)
    case (Durable(_, _), _) => a == b
    case (Bind(target, InBundle(_, rest), readOnly), Bind(t, InBundle(_, r), o)) => target == t && rest == r && readOnly == o
    case (Bind(_, _, _), _) => a == b
  }

  /** The same mounts in the same places, whatever bundle a bind comes from. */
  predicate SameMounts(a: seq<Mount>, b: seq<Mount>) {
    |a| == |b| && forall i :: 0 <= i < |a| ==> SameButBundle(a[i], b[i])
  }

  predicate LastBind(mounts: seq<Mount>, i: nat, target: string) {
    && i < |mounts| && mounts[i].Bind? && mounts[i].target == target
    && forall j :: i < j < |mounts| && mounts[j].Bind? ==> mounts[j].target != target
  }

  /** Behind every bind are the bytes that the last rendered bind of its target brings. */
  predicate SameBytes(a: seq<Mount>, b: seq<Mount>, digest: Path -> nat) {
    forall i, j :: 0 <= i < |a| && 0 <= j < |b| && a[i].Bind? && LastBind(b, j, a[i].target) ==>
      a[i].source == b[j].source || digest(a[i].source) == digest(b[j].source)
  }

  /** Apart from the upgrade's own, the rendering brings no label that is not there already. */
  predicate SameLabels(a: Settings, b: Settings) {
    forall k :: k in b && k != "gameometro.upgrade.revision" ==> k in a
  }

  /** The rendering says nothing that the active service does not do already. */
  predicate SaysNothingNew(current: Service, rendered: Service, digest: Path -> nat) {
    && rendered.image == current.image && rendered.environment == current.environment
    && rendered.memory == current.memory && rendered.rest == current.rest
    && SameLabels(current.labels, rendered.labels)
    && SameMounts(current.volumes, rendered.volumes) && SameBytes(current.volumes, rendered.volumes, digest)
  }

  /** The rendered service in everything but its labels, of which the active ones stay. */
  predicate Renewed(current: Service, rendered: Service, s: Service) {
    && s.image == rendered.image && s.environment == rendered.environment && s.volumes == rendered.volumes
    && s.memory == rendered.memory && s.rest == rendered.rest
    && s.labels.Keys == rendered.labels.Keys + (current.labels.Keys - {"gameometro.upgrade.revision"})
    && forall k :: k in s.labels ==>
         s.labels[k] == (if k in current.labels && k != "gameometro.upgrade.revision" then current.labels[k] else rendered.labels[k])
  }

  /** Exactly the fields that differ are named, and the bytes behind the binds where none does. */
  predicate NamesTheDifferences(current: Service, rendered: Service, fields: set<Field>) {
    && (Image in fields <==> current.image != rendered.image)
    && (Environment in fields <==> current.environment != rendered.environment)
    && (Memory in fields <==> current.memory != rendered.memory)
    && (Rest in fields <==> current.rest != rendered.rest)
    && (Labels in fields <==> !SameLabels(current.labels, rendered.labels))
    && (Volumes in fields <==> !SameMounts(current.volumes, rendered.volumes))
    && (BoundFiles in fields <==> fields == {BoundFiles})
  }

  predicate Answers(active: Config, rendered: Config, digest: Path -> nat, result: Config, changes: Changes)
    requires active.services.Keys == rendered.services.Keys
  {
    && result.sections == active.sections == rendered.sections
    && result.services.Keys == active.services.Keys && changes.Keys <= active.services.Keys
    && forall n :: n in active.services ==>
         if SaysNothingNew(active.services[n], rendered.services[n], digest)
         then result.services[n] == active.services[n] && n !in changes
         else n in changes && Renewed(active.services[n], rendered.services[n], result.services[n])
              && NamesTheDifferences(active.services[n], rendered.services[n], changes[n])
  }

  lemma MountsCompare(a: seq<Mount>, b: seq<Mount>)
    ensures NormalMounts(a) == NormalMounts(b) <==> SameMounts(a, b)
  {
    if NormalMounts(a) == NormalMounts(b) {
      forall i | 0 <= i < |a| ensures SameButBundle(a[i], b[i]) {
        assert NormalMount(a[i]) == NormalMounts(a)[i] == NormalMounts(b)[i] == NormalMount(b[i]);
      }
    }
    if SameMounts(a, b) {
      forall i | 0 <= i < |a| ensures NormalMounts(a)[i] == NormalMounts(b)[i] {
        assert SameButBundle(a[i], b[i]);
      }
    }
  }

  lemma LabelsCompare(current: Service, rendered: Service)
    ensures WithoutLabel(current.labels) == WithoutLabel(Labelled(current, rendered).labels) <==> SameLabels(current.labels, rendered.labels)
  {
    var a, b := WithoutLabel(current.labels), WithoutLabel(Labelled(current, rendered).labels);
    if SameLabels(current.labels, rendered.labels) {
      assert a.Keys == b.Keys;
    } else {
      var k :| k in rendered.labels && k != UPGRADE_LABEL && k !in current.labels;
      assert k in b && k !in a;
    }
  }

  lemma {:induction false} BindAtIsLast(mounts: seq<Mount>, target: string)
    ensures match BindAt(mounts, target)
      case None => forall i :: 0 <= i < |mounts| && mounts[i].Bind? ==> mounts[i].target != target
      case Some(source) => exists i :: 0 <= i < |mounts| && LastBind(mounts, i, target) && mounts[i].source == source
  {
    if mounts != [] {
      var n := |mounts| - 1;
      BindAtIsLast(mounts[..n], target);
      if mounts[n].Bind? && mounts[n].target == target {
        assert LastBind(mounts, n, target);
      } else if BindAt(mounts, target).Some? {
        var i :| 0 <= i < n && LastBind(mounts[..n], i, target) && mounts[i].source == BindAt(mounts, target).value;
        assert LastBind(mounts, i, target);
      }
    }
  }

  /** Every active bind has a rendered one to be compared with, as the mounts are the same. */
  lemma BytesCompare(current: Service, candidate: Service, digest: Path -> nat)
    requires SameMounts(current.volumes, candidate.volumes)
    ensures BoundFilesEqual(current, candidate, digest) <==> SameBytes(current.volumes, candidate.volumes, digest)
  {
    var a, b := current.volumes, candidate.volumes;
    if BoundFilesEqual(current, candidate, digest) {
      forall i, j | 0 <= i < |a| && 0 <= j < |b| && a[i].Bind? && LastBind(b, j, a[i].target)
        ensures a[i].source == b[j].source || digest(a[i].source) == digest(b[j].source)
      {
        BindAtIsLast(b, a[i].target);
      }
    }
    if SameBytes(a, b, digest) {
      forall m | m in a && m.Bind?
        ensures var source := BindAt(b, m.target);
          source.Some? && (source.value == m.source || digest(m.source) == digest(source.value))
      {
        var i :| 0 <= i < |a| && a[i] == m;
        BindAtIsLast(b, m.target);
        assert SameButBundle(a[i], b[i]);
      }
    }
  }

  lemma SameMountsSameTargets(a: seq<Mount>, b: seq<Mount>)
    requires NormalMounts(a) == NormalMounts(b)
    ensures Targets(NormalMounts(a)) == Targets(NormalMounts(b))
  {
  }

  lemma UnchangedSaysNothingNew(current: Service, rendered: Service, digest: Path -> nat)
    ensures Unchanged(current, Labelled(current, rendered), digest) <==> SaysNothingNew(current, rendered, digest)
  {
    MountsCompare(current.volumes, rendered.volumes);
    LabelsCompare(current, rendered);
    hide NormalMounts, SameMounts, SameLabels, SameBytes, BoundFilesEqual, Targets;
    if SameMounts(current.volumes, rendered.volumes) {
      BytesCompare(current, Labelled(current, rendered), digest);
      SameMountsSameTargets(current.volumes, rendered.volumes);
    }
  }

  lemma LabelledRenews(current: Service, rendered: Service)
    ensures Renewed(current, rendered, Labelled(current, rendered))
  {
  }

  lemma ChangedFieldsNameTheDifferences(current: Service, rendered: Service)
    ensures NamesTheDifferences(current, rendered, ChangedFields(current, rendered))
  {
    MountsCompare(current.volumes, rendered.volumes);
    LabelsCompare(current, rendered);
    hide NormalMounts, SameMounts, SameLabels;
  }

  lemma OutcomeAnswers(active: Config, rendered: Config, digest: Path -> nat)
    requires active.services.Keys == rendered.services.Keys && active.sections == rendered.sections
    ensures Answers(active, rendered, digest, Outcome(active, rendered, digest), ChangesOf(active, rendered, digest))
  {
    hide Unchanged, Labelled, ChangedFields, SaysNothingNew, Renewed, NamesTheDifferences;
    forall n | n in active.services
      ensures Unchanged(active.services[n], Labelled(active.services[n], rendered.services[n]), digest)
        <==> SaysNothingNew(active.services[n], rendered.services[n], digest)
      ensures Renewed(active.services[n], rendered.services[n], Labelled(active.services[n], rendered.services[n]))
      ensures NamesTheDifferences(active.services[n], rendered.services[n], ChangedFields(active.services[n], rendered.services[n]))
    {
      UnchangedSaysNothingNew(active.services[n], rendered.services[n], digest);
      LabelledRenews(active.services[n], rendered.services[n]);
      ChangedFieldsNameTheDifferences(active.services[n], rendered.services[n]);
    }
  }

  // ---------- what is accepted, written out ----------

  /** Only these three settings have one reviewed value, which they may take once. */
  function Reviewed(name: string, key: string): Option<string> {
    match (name, key)
    case ("grafana", "GF_SERVER_ROOT_URL") => Some("https://gameometro-prod.tailca0b11.ts.net:8443/")
    case ("grafana", "GF_SECURITY_COOKIE_SECURE") => Some("true")
    case ("keycloak", "KC_HOSTNAME_ADMIN") => Some("https://gameometro-prod.tailca0b11.ts.net:10000")
    case _ => None
  }

  predicate Ordinary(key: string) {
    && !(|key| >= 3 && key[..3] == "KC_") && !(|key| >= 5 && key[..5] == "OIDC_")
    && !(|key| >= 17 && key[..17] == "APPLICATION_OIDC_") && !(|key| >= 5 && key[|key|-5..] == "_FILE")
  }

  /** A setting stays, is a new ordinary one, is the version, or takes its one reviewed value. */
  predicate SettingMoves(name: string, key: string, a: Settings, b: Settings) {
    || (key in a && key in b && a[key] == b[key])
    || (key !in a && key in b && (Reviewed(name, key) == Some(b[key]) || (Reviewed(name, key) == None && Ordinary(key))))
    || key == "TELEMETRY_SERVICE_VERSION"
    || (key == "GF_SERVER_ROOT_URL" && key in a && key in b && a[key] == "http://localhost:3000/" && Reviewed(name, key) == Some(b[key]))
  }

  predicate MountsMove(a: seq<Mount>, b: seq<Mount>, bundle: nat) {
    && DurableMounts(a) == DurableMounts(b)
    && (forall m :: m in a ==> m.target == "/etc/grafana/canonical-dashboards/vgp-synchronization.json" || exists k :: k in b && k.target == m.target)
    && (forall m :: m in b && m.Bind? && m !in a ==> m.readOnly && (m.source.InTls? || (m.source.InBundle? && m.source.bundle == bundle)))
  }

  /** What an in-place upgrade may do to one service. */
  predicate Upgradable(name: string, a: Service, b: Service, bundle: nat) {
    && name != "postgres" && a.rest == b.rest && a.memory <= b.memory
    && (a.image == b.image || name in {"application", "migration", "keycloak", "caddy", "catalogue-localizer"})
    && (forall key :: key in a.environment.Keys + b.environment.Keys ==> SettingMoves(name, key, a.environment, b.environment))
    && MountsMove(a.volumes, b.volumes, bundle)
  }

  lemma AdministrationIsExact(name: string, key: string)
    ensures Reviewed(name, key) == Get(AdminEnvironment(name), key)
  {
  }

  lemma OrdinaryIsUnprotected(key: string)
    ensures Ordinary(key) <==> !Protected(key)
  {
  }

  lemma TheVersionIsOrdinary()
    ensures Ordinary("TELEMETRY_SERVICE_VERSION")
  {
    var key := "TELEMETRY_SERVICE_VERSION";
    assert key[..3][0] == key[..5][0] == key[..17][0] == 'T' && key[|key|-5..][0] == 'R';
  }

  lemma SettingExactly(name: string, key: string, a: Settings, b: Settings)
    requires key in a || key in b
    ensures SettingMayBecome(name, key, Get(a, key), Get(b, key)) <==> SettingMoves(name, key, a, b)
  {
    AdministrationIsExact(name, key);
    AdministrationIsExact(name, "TELEMETRY_SERVICE_VERSION");
    OrdinaryIsUnprotected(key);
    assert Reviewed(name, "TELEMETRY_SERVICE_VERSION") == None;
    OrdinaryIsUnprotected("TELEMETRY_SERVICE_VERSION");
    TheVersionIsOrdinary();
    hide AdminEnvironment, Ordinary, Protected, Reviewed;
  }

  lemma TargetsExactly(a: seq<Mount>, b: seq<Mount>)
    ensures Targets(a) - Targets(b) <= {DASHBOARD_TARGET} <==>
      (forall m :: m in a ==> m.target == DASHBOARD_TARGET || exists k :: k in b && k.target == m.target)
  {
    if Targets(a) - Targets(b) <= {DASHBOARD_TARGET} {
      forall m | m in a && m.target != DASHBOARD_TARGET ensures exists k :: k in b && k.target == m.target {
        assert m.target in Targets(a) && m.target !in Targets(a) - Targets(b);
      }
    }
  }

  lemma MountsExactly(a: seq<Mount>, b: seq<Mount>, bundle: nat)
    ensures MountsAllowed(a, b, bundle) <==> MountsMove(a, b, bundle)
  {
    TargetsExactly(a, b);
    hide DurableMounts, Targets;
  }

  lemma SettingsExactly(name: string, a: Settings, b: Settings)
    ensures SettingsAllowed(name, a, b) <==> forall key :: key in a.Keys + b.Keys ==> SettingMoves(name, key, a, b)
  {
    hide SettingMayBecome, SettingMoves;
    forall key | key in a.Keys + b.Keys
      ensures SettingMayBecome(name, key, Get(a, key), Get(b, key)) <==> SettingMoves(name, key, a, b)
    {
      SettingExactly(name, key, a, b);
    }
  }

  /** The classification allows a changed service exactly what is written out above. */
  lemma AllowedExactly(name: string, current: Service, rendered: Service, bundle: nat)
    ensures AllowedDelta(name, current, Labelled(current, rendered),
        Differing(Normalized(current), Normalized(Labelled(current, rendered))), bundle)
      <==> Upgradable(name, current, rendered, bundle)
  {
    SettingsExactly(name, current.environment, rendered.environment);
    MountsExactly(current.volumes, rendered.volumes, bundle);
    hide SettingsAllowed, SettingMoves, NormalMounts, MountsAllowed, MountsMove;
  }

  /** A rendering is accepted exactly if each service says nothing new or changes only what an upgrade may. */
  lemma {:induction false} AcceptedExactly(active: Config, rendered: Config, bundle: nat, digest: Path -> nat)
    ensures Accepted(active, rendered, bundle, digest) <==>
      active.sections == rendered.sections && active.services.Keys == rendered.services.Keys
      && forall n :: n in active.services ==>
           SaysNothingNew(active.services[n], rendered.services[n], digest)
           || Upgradable(n, active.services[n], rendered.services[n], bundle)
  {
    hide Unchanged, Labelled, AllowedDelta, Differing, Normalized, SaysNothingNew, Upgradable;
    forall n | n in active.services && n in rendered.services
      ensures Accepts(n, active.services[n], rendered.services[n], bundle, digest) <==>
        SaysNothingNew(active.services[n], rendered.services[n], digest)
        || Upgradable(n, active.services[n], rendered.services[n], bundle)
    {
      UnchangedSaysNothingNew(active.services[n], rendered.services[n], digest);
      AllowedExactly(n, active.services[n], rendered.services[n], bundle);
    }
  }

  /** mark_changed: every changed service carries the revision it was changed for. */
  function MarkChanged(config: Config, changed: Changes, revision: string): (r: Config)
    ensures r == config.(services := r.services) && r.services.Keys == config.services.Keys
    ensures forall n :: n in config.services && n !in changed ==> r.services[n] == config.services[n]
    ensures forall n :: n in config.services && n in changed ==>
      var labels := r.services[n].labels;
      r.services[n] == config.services[n].(labels := labels)
      && labels.Keys == config.services[n].labels.Keys + {"gameometro.upgrade.revision"}
      && labels["gameometro.upgrade.revision"] == revision
      && forall k :: k in labels && k != "gameometro.upgrade.revision" ==> labels[k] == config.services[n].labels[k]
  {
    config.(services := map n | n in config.services ::
      if n in changed then config.services[n].(labels := config.services[n].labels[UPGRADE_LABEL := revision])
      else config.services[n])
  }

  // ---------- a second look ----------

  /** The configuration an accepted upgrade leaves active. */
  function Next(active: Config, rendered: Config, digest: Path -> nat, revision: string): Config
    requires active.services.Keys == rendered.services.Keys
  {
    MarkChanged(Outcome(active, rendered, digest), ChangesOf(active, rendered, digest), revision)
  }

  /** One service of that configuration. */
  function NextService(current: Service, rendered: Service, digest: Path -> nat, revision: string): Service {
    var candidate := Labelled(current, rendered);
    if Unchanged(current, candidate, digest) then current
    else candidate.(labels := candidate.labels[UPGRADE_LABEL := revision])
  }

  lemma NextIsServiceWise(active: Config, rendered: Config, digest: Path -> nat, revision: string, n: string)
    requires active.services.Keys == rendered.services.Keys && n in rendered.services
    ensures n in Next(active, rendered, digest, revision).services
    ensures Next(active, rendered, digest, revision).services[n] ==
      NextService(active.services[n], rendered.services[n], digest, revision)
  {
    hide Unchanged, Labelled, ChangedFields;
  }

  lemma SameServiceIsUnchanged(s: Service, t: Service, digest: Path -> nat)
    requires t == s.(labels := t.labels) && WithoutLabel(t.labels) == WithoutLabel(s.labels)
    requires forall m :: m in s.volumes && m.Bind? ==> BindAt(s.volumes, m.target) == Some(m.source)
    ensures Unchanged(s, t, digest)
  {
    hide NormalMounts, Targets, BindAt;
  }

  /** No two binds of a service share a target. */
  predicate DistinctBinds(s: Service) {
    forall m :: m in s.volumes && m.Bind? ==> BindAt(s.volumes, m.target) == Some(m.source)
  }

  lemma RelabellingSettles(current: Service, rendered: Service, revision: string)
    ensures var next := Labelled(current, rendered).(labels := Labelled(current, rendered).labels[UPGRADE_LABEL := revision]);
      WithoutLabel(Labelled(next, rendered).labels) == WithoutLabel(next.labels)
  {
  }

  /** Reconciling the same rendering again, over what it led to, changes nothing. */
  lemma {:induction false} ServiceSettles(current: Service, rendered: Service, digest: Path -> nat, revision: string)
    requires DistinctBinds(rendered)
    ensures var next := NextService(current, rendered, digest, revision);
      Unchanged(next, Labelled(next, rendered), digest)
  {
    var candidate := Labelled(current, rendered);
    if !Unchanged(current, candidate, digest) {
      var next := NextService(current, rendered, digest, revision);
      RelabellingSettles(current, rendered, revision);
      hide Unchanged;
      SameServiceIsUnchanged(next, Labelled(next, rendered), digest);
    }
  }

  /** The fixpoint: after an upgrade its own rendering is accepted as it stands, with nothing changed. */
  lemma {:induction false} SecondReconcileIsStill(active: Config, rendered: Config, bundle: nat, digest: Path -> nat, revision: string)
    requires Accepted(active, rendered, bundle, digest)
    requires forall n :: n in rendered.services ==> DistinctBinds(rendered.services[n])
    ensures var next := Next(active, rendered, digest, revision);
      Accepted(next, rendered, bundle, digest) && ChangesOf(next, rendered, digest) == map[] && Outcome(next, rendered, digest) == next
  {
    hide Unchanged, Labelled, AllowedDelta, Differing, Normalized, DistinctBinds;
    var next := Next(active, rendered, digest, revision);
    assert next.services.Keys == rendered.services.Keys;
    forall n | n in rendered.services
      ensures Unchanged(next.services[n], Labelled(next.services[n], rendered.services[n]), digest)
    {
      NextIsServiceWise(active, rendered, digest, revision, n);
      ServiceSettles(active.services[n], rendered.services[n], digest, revision);
    }
    hide Next;
  }

  // ---------- chains of upgrades ----------

  /** A setting that an upgrade may not move stays; an administration setting only ever takes its exact value. */
  predicate KeepsSettings(name: string, a: Settings, b: Settings) {
    && (forall k :: k in a && k != VERSION_ENVIRONMENT && k !in AdminEnvironment(name) ==> k in b && b[k] == a[k])
    && (forall k :: k in a && k in AdminEnvironment(name) ==> k in b && (b[k] == a[k] || b[k] == AdminEnvironment(name)[k]))
    && (forall k :: k in b && Protected(k) && k !in AdminEnvironment(name) && k != VERSION_ENVIRONMENT ==> k in a && b[k] == a[k])
  }

  predicate KeepsLabels(a: Settings, b: Settings) {
    forall k :: k in a && k != UPGRADE_LABEL ==> k in b && b[k] == a[k]
  }

  /** Read-only, from some bundle or from the TLS inputs. */
  predicate Bundled(m: Mount) {
    m.Bind? ==> m.readOnly && (m.source.InBundle? || m.source.InTls?)
  }

  predicate KeepsMounts(a: seq<Mount>, b: seq<Mount>) {
    && DurableMounts(a) == DurableMounts(b)
    && Targets(a) - Targets(b) <= {DASHBOARD_TARGET}
    && (forall m :: m in b && m !in a ==> Bundled(m))
  }

  predicate KeepsService(name: string, a: Service, b: Service) {
    && (name == "postgres" ==> a == b)
    && a.rest == b.rest && a.memory <= b.memory && (a.image != b.image ==> name in PUBLISHED)
    && KeepsSettings(name, a.environment, b.environment)
    && KeepsLabels(a.labels, b.labels)
    && KeepsMounts(a.volumes, b.volumes)
  }

  predicate Keeps(a: Config, b: Config) {
    && a.sections == b.sections && a.services.Keys == b.services.Keys
    && forall n :: n in a.services ==> KeepsService(n, a.services[n], b.services[n])
  }

  lemma AllowedKeepsSettings(name: string, a: Settings, b: Settings)
    requires forall key :: key in a.Keys + b.Keys ==> SettingMayBecome(name, key, Get(a, key), Get(b, key))
    ensures KeepsSettings(name, a, b)
  {
    hide Protected, AdminEnvironment;
    forall k | k in a || k in b
      ensures SettingMayBecome(name, k, Get(a, k), Get(b, k))
    {
      assert k in a.Keys + b.Keys;
    }
  }

  /** What the classification allows, the kept properties cover. */
  lemma {:induction false} AllowedIsKept(name: string, current: Service, candidate: Service, bundle: nat)
    requires AllowedDelta(name, current, candidate, Differing(Normalized(current), Normalized(candidate)), bundle)
    requires KeepsLabels(current.labels, candidate.labels)
    ensures name != "postgres" && KeepsService(name, current, candidate)
  {
    AllowedKeepsSettings(name, current.environment, candidate.environment);
    hide KeepsSettings, SettingMayBecome, NormalMounts, DurableMounts, Targets, KeepsLabels;
    var fields := Differing(Normalized(current), Normalized(candidate));
    assert Rest !in fields && BoundFiles !in fields;
    assert current.rest == candidate.rest;
    assert KeepsMounts(current.volumes, candidate.volumes);
  }

  lemma LabelsAreKept(current: Service, rendered: Service, revision: string)
    ensures KeepsLabels(current.labels, Labelled(current, rendered).labels)
    ensures KeepsLabels(current.labels, Labelled(current, rendered).labels[UPGRADE_LABEL := revision])
  {
  }

  lemma {:induction false} ServiceIsKept(name: string, current: Service, rendered: Service, bundle: nat, digest: Path -> nat, revision: string)
    requires Accepts(name, current, rendered, bundle, digest)
    ensures KeepsService(name, current, NextService(current, rendered, digest, revision))
  {
    hide Unchanged, AllowedDelta, Labelled, KeepsSettings, KeepsLabels, KeepsMounts, Differing, Normalized;
    var candidate := Labelled(current, rendered);
    LabelsAreKept(current, rendered, revision);
    if Unchanged(current, candidate, digest) {
      ServiceKeepsItself(name, current);
    } else {
      AllowedIsKept(name, current, candidate, bundle);
    }
  }

  lemma ServiceKeepsItself(name: string, s: Service)
    ensures KeepsService(name, s, s)
  {
  }

  /** One accepted upgrade. */
  ghost predicate Follows(a: Config, b: Config) {
    exists rendered: Config, bundle: nat, digest: Path -> nat, revision: string ::
      Accepted(a, rendered, bundle, digest) && b == Next(a, rendered, digest, revision)
  }

  lemma {:induction false} NextKeeps(a: Config, rendered: Config, bundle: nat, digest: Path -> nat, revision: string)
    requires Accepted(a, rendered, bundle, digest)
    ensures Keeps(a, Next(a, rendered, digest, revision))
  {
    hide KeepsService, Accepts, NextService, Merged, Moved, ChangedFields;
    var b := Next(a, rendered, digest, revision);
    assert b.sections == rendered.sections && b.services.Keys == rendered.services.Keys;
    hide Next, Outcome, ChangesOf, MarkChanged;
    forall n | n in a.services ensures n in b.services && KeepsService(n, a.services[n], b.services[n]) {
      NextIsServiceWise(a, rendered, digest, revision, n);
      ServiceIsKept(n, a.services[n], rendered.services[n], bundle, digest, revision);
    }
  }

  lemma {:induction false} FollowingKeeps(a: Config, b: Config)
    requires Follows(a, b)
    ensures Keeps(a, b)
  {
    hide Accepts, Next, Keeps;
    var rendered: Config, bundle: nat, digest: Path -> nat, revision: string :|
      Accepted(a, rendered, bundle, digest) && b == Next(a, rendered, digest, revision);
    NextKeeps(a, rendered, bundle, digest, revision);
  }

  lemma KeepingServicesIsTransitive(name: string, a: Service, b: Service, c: Service)
    requires KeepsService(name, a, b) && KeepsService(name, b, c)
    ensures KeepsService(name, a, c)
  {
    hide Protected, AdminEnvironment, DurableMounts;
  }

  lemma KeepingIsTransitive(a: Config, b: Config, c: Config)
    requires Keeps(a, b) && Keeps(b, c)
    ensures Keeps(a, c)
  {
    hide KeepsService;
    forall n | n in a.services ensures KeepsService(n, a.services[n], c.services[n]) {
      KeepingServicesIsTransitive(n, a.services[n], b.services[n], c.services[n]);
    }
  }

  lemma KeepingIsReflexive(a: Config)
    ensures Keeps(a, a)
  {
  }

  /**
   * However many upgrades lie between two active configurations: the same services, PostgreSQL
   * untouched, durable volumes and everything unclassified equal, memory never lower, labels kept,
   * existing settings kept, and no bind that is not read-only and reviewed.
   */
  lemma {:induction false} ChainKeeps(configs: seq<Config>, i: nat, j: nat)
    requires i <= j < |configs| && forall k :: 0 <= k < |configs| - 1 ==> Follows(configs[k], configs[k+1])
    ensures Keeps(configs[i], configs[j])
    decreases j - i
  {
    hide Keeps, Follows;
    if i == j {
      KeepingIsReflexive(configs[i]);
    } else {
      FollowingKeeps(configs[i], configs[i+1]);
      ChainKeeps(configs, i + 1, j);
      KeepingIsTransitive(configs[i], configs[i+1], configs[j]);
    }
  }
}
