/** The process a rendered service runs: dollars decoded once, then merged over the image's defaults. */
module ProcessArguments {
  import opened Common

  type Argv = seq<string>

  // ---------- dollars ----------

  /** str.replace of every pair of dollars, left to right. */
  function ReplacePairs(a: string, mark: string): string {
    if |a| >= 2 && a[0] == '$' && a[1] == '$' then mark + ReplacePairs(a[2..], mark)
    else if a == "" then ""
    else [a[0]] + ReplacePairs(a[1..], mark)
  }

  /** How Compose renders an argument: every dollar doubled. */
  function Doubled(s: string): string {
    if s == "" then "" else (if s[0] == '$' then "$$" else [s[0]]) + Doubled(s[1..])
  }

  predicate Resolved(a: string) {
    '$' !in ReplacePairs(a, "")
  }

  function Decoded(a: string): string {
    ReplacePairs(a, "$")
  }

  lemma {:induction false} DoubledIsResolved(s: string)
    ensures Resolved(Doubled(s)) && Decoded(Doubled(s)) == s
  {
    if s != "" {
      DoubledIsResolved(s[1..]);
      var rest := Doubled(s[1..]);
      if s[0] == '$' {
        assert Doubled(s) == "$$" + rest && Doubled(s)[2..] == rest;
      } else {
        assert Doubled(s)[1..] == rest;
      }
    }
  }

  lemma {:induction false} ResolvedIsDoubled(a: string)
    requires Resolved(a)
    ensures Doubled(Decoded(a)) == a
  {
    if |a| >= 2 && a[0] == '$' && a[1] == '$' {
      assert "" + ReplacePairs(a[2..], "") == ReplacePairs(a[2..], "");
      ResolvedIsDoubled(a[2..]);
      assert ("$" + Decoded(a[2..]))[1..] == Decoded(a[2..]);
      assert a == "$$" + a[2..];
    } else if a != "" {
      var kept := ReplacePairs(a[1..], "");
      assert ReplacePairs(a, "") == [a[0]] + kept;
      assert a[0] != '$' && '$' !in kept by {
        assert ([a[0]] + kept)[0] == a[0];
        assert forall i :: 0 <= i < |kept| ==> kept[i] == ([a[0]] + kept)[i+1];
      }
      ResolvedIsDoubled(a[1..]);
      assert ([a[0]] + Decoded(a[1..]))[1..] == Decoded(a[1..]);
      assert a == [a[0]] + a[1..];
    }
  }

  /** What the check accepts is exactly what Compose can have rendered, and decoding undoes the rendering. */
  lemma {:induction false} AcceptedIsRendered(a: string)
    ensures Resolved(a) <==> exists s :: a == Doubled(s)
    ensures forall s :: a == Doubled(s) ==> Decoded(a) == s
  {
    if Resolved(a) {
      ResolvedIsDoubled(a);
    }
    forall s | a == Doubled(s) ensures Resolved(a) && Decoded(a) == s {
      DoubledIsResolved(s);
    }
  }

  // ---------- the merge ----------

  datatype Process = Process(entrypoint: Argv, command: Argv)

  /** A service's override of an argv; None is absent. */
  predicate AllResolved(argv: Option<Argv>) {
    argv.Some? ==> forall i :: 0 <= i < |argv.value| ==> Resolved(argv.value[i])
  }

  function DecodedAll(argv: Argv): (r: Argv)
    ensures |r| == |argv| && forall i :: 0 <= i < |r| ==> r[i] == Decoded(argv[i])
  {
    if argv == [] then [] else DecodedAll(argv[..|argv|-1]) + [Decoded(argv[|argv|-1])]
  }

  function DecodedOverride(argv: Option<Argv>): Option<Argv> {
    if argv.None? then None else Some(DecodedAll(argv.value))
  }

  function OrEmpty(argv: Option<Argv>): Argv {
    if argv.None? then [] else argv.value
  }

  /** An argv that says nothing: absent or empty. */
  predicate Silent(argv: Option<Argv>) {
    OrEmpty(argv) == []
  }

  /**
   * The rule of the container engine, case by case. A spoken entrypoint stands alone with the
   * service's own command; a silent one lets the image's command through unless the service has
   * one; only an absent one inherits the image's entrypoint; and one empty word means none.
   */
  function EngineRule(entrypoint: Option<Argv>, command: Option<Argv>, imageEntrypoint: Option<Argv>, imageCommand: Option<Argv>): Process {
    var e := if entrypoint.None? then OrEmpty(imageEntrypoint) else entrypoint.value;
    var c := if Silent(entrypoint) && Silent(command) then OrEmpty(imageCommand) else OrEmpty(command);
    Process(if e == [""] then [] else e, c)
  }

  /** Case by case, for arguments that say something. */
  lemma EngineRuleCaseByCase(e: Argv, c: Argv, ie: Argv, ic: Argv, command: Option<Argv>)
    requires e != [] && e != [""] && c != [] && ie != [""] && (command == None || command == Some([]))
    ensures EngineRule(Some(e), Some(c), Some(ie), Some(ic)) == Process(e, c)
    ensures EngineRule(Some(e), command, Some(ie), Some(ic)) == Process(e, [])
    ensures EngineRule(Some([""]), Some(c), Some(ie), Some(ic)) == Process([], c)
    ensures EngineRule(Some([]), Some(c), Some(ie), Some(ic)) == Process([], c)
    ensures EngineRule(Some([]), command, Some(ie), Some(ic)) == Process([], ic)
    ensures EngineRule(None, Some(c), Some(ie), Some(ic)) == Process(ie, c)
    ensures EngineRule(None, command, Some(ie), Some(ic)) == Process(ie, ic)
    ensures EngineRule(None, command, Some([""]), None) == EngineRule(None, command, None, None) == Process([], [])
  {
  }

  /** The argv is what Compose renders of these words. */
  predicate Renders(argv: Option<Argv>, words: Argv) {
    argv.Some? && |argv.value| == |words| && forall i :: 0 <= i < |words| ==> argv.value[i] == Doubled(words[i])
  }

  /** compose_argv: the override decoded once, or the refusal of an unpaired dollar. */
  method ComposeArgv(argv: Option<Argv>) returns (r: Result<Option<Argv>>)
    ensures r.Ok? <==> AllResolved(argv)
    ensures r.Ok? ==> r.value == DecodedOverride(argv)
  {
    if argv.None? { return Ok(None); }
    for i := 0 to |argv.value|
      invariant forall k :: 0 <= k < i ==> Resolved(argv.value[k])
    {
      if !Resolved(argv.value[i]) {
        return Refused("Unresolved interpolation in reviewed process arguments.");
      }
    }
    r := Ok(Some(DecodedAll(argv.value)));
  }

  /** effective_process, with its local rebinding. */
  method EffectiveProcess(serviceEntrypoint: Option<Argv>, serviceCommand: Option<Argv>,
                          imageEntrypoint: Option<Argv>, imageCommand: Option<Argv>) returns (r: Result<Process>)
    ensures r.Ok? <==> AllResolved(serviceEntrypoint) && AllResolved(serviceCommand)
    ensures r.Ok? ==>
      r.value == EngineRule(DecodedOverride(serviceEntrypoint), DecodedOverride(serviceCommand), imageEntrypoint, imageCommand)
    ensures forall e, c :: Renders(serviceEntrypoint, e) && Renders(serviceCommand, c) && e != [] && e != [""] ==>
      r == Ok(Process(e, c))
  {
    forall e | Renders(serviceEntrypoint, e) ensures AllResolved(serviceEntrypoint) && DecodedOverride(serviceEntrypoint) == Some(e) {
      RenderedRunsAsWritten(e, serviceEntrypoint.value);
    }
    forall c | Renders(serviceCommand, c) ensures AllResolved(serviceCommand) && DecodedOverride(serviceCommand) == Some(c) {
      RenderedRunsAsWritten(c, serviceCommand.value);
    }
    hide Resolved, DecodedAll, Renders;
    var entrypoint :- ComposeArgv(serviceEntrypoint);
    var command :- ComposeArgv(serviceCommand);
    if OrEmpty(entrypoint) == [] {
      if OrEmpty(command) == [] { command := imageCommand; }
      if entrypoint.None? { entrypoint := imageEntrypoint; }
    }
    if entrypoint == Some([""]) { entrypoint := None; }
    r := Ok(Process(OrEmpty(entrypoint), OrEmpty(command)));
  }

  /** What Compose renders of a process, the installer reads back as the engine would have run it. */
  lemma {:induction false} RenderedRunsAsWritten(entrypoint: Argv, rendered: Argv)
    requires |rendered| == |entrypoint| && forall i :: 0 <= i < |rendered| ==> rendered[i] == Doubled(entrypoint[i])
    ensures AllResolved(Some(rendered)) && DecodedOverride(Some(rendered)) == Some(entrypoint)
  {
    forall i | 0 <= i < |rendered| ensures Resolved(rendered[i]) && Decoded(rendered[i]) == entrypoint[i] {
      DoubledIsResolved(entrypoint[i]);
    }
    hide Resolved, Decoded, Doubled;
    assert DecodedAll(rendered) == entrypoint;
  }
}
