/** The rule tables the UI edits and the packet workers read, with the revision that announces edits. */
module Rules {
  import opened Core

  datatype Tables = Tables(process: map<nat, ProcessRule>, global: ProcessRule, revision: nat)
  {
    predicate BlocksAll() {
      global.blockAll
    }

    predicate BlocksProcess(pid: Option<nat>) {
      pid.Some? && pid.value in process && process[pid.value].blockAll
    }

    /** The verdict of the check made right before a packet is reinjected. */
    predicate Blocks(pid: Option<nat>, loopback: bool) {
      !loopback && (BlocksAll() || BlocksProcess(pid))
    }

    function ProcessDelay(pid: Option<nat>, direction: Direction): Option<nat> {
      if pid.Some? && pid.value in process then process[pid.value].Delay(direction) else None
    }

    /** A process value, even an explicit zero, replaces the global one. */
    function EffectiveDelay(pid: Option<nat>, direction: Direction): (ms: nat)
      ensures ms <= MAX_DELAY_MS
    {
      var wanted := ProcessDelay(pid, direction).GetOr(global.Delay(direction).GetOr(0));
      if wanted < MAX_DELAY_MS then wanted else MAX_DELAY_MS
    }

    function ProcessLoss(pid: Option<nat>, direction: Direction): Option<nat> {
      if pid.Some? && pid.value in process then process[pid.value].Loss(direction) else None
    }

    function ProcessRate(pid: Option<nat>, direction: Direction): Option<real> {
      if pid.Some? && pid.value in process then process[pid.value].EffectiveRate(direction) else None
    }
  }

  /** One write to the tables; a UI command is a sequence of these under the send gate. */
  datatype Edit =
    | SetProcess(pid: nat, rule: ProcessRule)
    | SetGlobal(rule: ProcessRule)
    | ClearProcesses
    | ResetGlobal

  datatype Command =
    | UpdateRule(pid: nat, rule: ProcessRule)
    | UpdateRuleForPids(pids: seq<nat>, rule: ProcessRule)
    | SetGlobalRule(rule: ProcessRule)
    | ClearRules

  function EditsOf(c: Command): seq<Edit> {
    match c
    case UpdateRule(pid, rule) => [SetProcess(pid, rule)]
    case UpdateRuleForPids(pids, rule) => seq(|pids|, i requires 0 <= i < |pids| => SetProcess(pids[i], rule))
    case SetGlobalRule(rule) => [SetGlobal(rule)]
    case ClearRules => [ClearProcesses, ResetGlobal]
  }

  /** The differences for which `update_rule` announces a new revision. */
  predicate Announces(current: Option<ProcessRule>, rule: ProcessRule) {
    var now := current.GetOr(DEFAULT_RULE);
    || now.blockAll != rule.blockAll
    || now.downloadLoss != rule.downloadLoss
    || now.uploadLoss != rule.uploadLoss
    || now.downloadDelay != rule.downloadDelay
    || now.uploadDelay != rule.uploadDelay
  }

  function AfterEdit(t: Tables, e: Edit): Tables {
    match e
    case SetProcess(pid, rule) =>
      var current := if pid in t.process then Some(t.process[pid]) else None;
      t.(process := if rule.HasAnyRule() then t.process[pid := rule] else t.process - {pid},
         revision := if Announces(current, rule) then t.revision + 1 else t.revision)
    case SetGlobal(rule) =>
      t.(global := rule,
         revision :=
           if t.global.blockAll != rule.blockAll || t.global.downloadDelay != rule.downloadDelay
              || t.global.uploadDelay != rule.uploadDelay
           then t.revision + 1 else t.revision)
    case ClearProcesses => t.(process := map[], revision := t.revision + 1)
    case ResetGlobal => t.(global := DEFAULT_RULE)
  }

  function AfterEdits(t: Tables, edits: seq<Edit>): Tables
    decreases |edits|
  {
    if edits == [] then t else AfterEdits(AfterEdit(t, edits[0]), edits[1..])
  }

  /** No packet is treated differently by the final block check or the delay stage. */
  ghost predicate SameTreatment(a: Tables, b: Tables) {
    && (forall pid, direction :: a.EffectiveDelay(pid, direction) == b.EffectiveDelay(pid, direction))
    && (forall pid, loopback :: a.Blocks(pid, loopback) == b.Blocks(pid, loopback))
  }

  /** One write that does not announce itself changes no effective delay and no block verdict. */
  lemma QuietEdit(t: Tables, e: Edit)
    ensures AfterEdit(t, e).revision >= t.revision
    ensures AfterEdit(t, e).revision == t.revision && !e.ResetGlobal? ==> SameTreatment(t, AfterEdit(t, e))
  {
  }

  lemma {:induction false} RevisionGrows(t: Tables, edits: seq<Edit>)
    ensures AfterEdits(t, edits).revision >= t.revision
    decreases |edits|
  {
    if edits != [] {
      QuietEdit(t, edits[0]);
      RevisionGrows(AfterEdit(t, edits[0]), edits[1..]);
    }
  }

  lemma {:induction false} QuietEdits(t: Tables, edits: seq<Edit>)
    requires forall i :: 0 <= i < |edits| ==> !edits[i].ResetGlobal?
    requires AfterEdits(t, edits).revision == t.revision
    ensures SameTreatment(t, AfterEdits(t, edits))
    decreases |edits|
  {
    if edits != [] {
      QuietEdit(t, edits[0]);
      RevisionGrows(AfterEdit(t, edits[0]), edits[1..]);
      QuietEdits(AfterEdit(t, edits[0]), edits[1..]);
    }
  }

  /**
   Any command that changes the effective delay or the block verdict of some packet, in either
   direction and also by removing a rule, ends with a different revision.
   */
  lemma CommandAnnouncesChange(t: Tables, c: Command)
    ensures AfterEdits(t, EditsOf(c)).revision == t.revision ==> SameTreatment(t, AfterEdits(t, EditsOf(c)))
  {
    var edits := EditsOf(c);
    if c.ClearRules? {
      assert AfterEdits(t, edits).revision > t.revision by {
        RevisionGrows(AfterEdit(t, edits[0]), edits[1..]);
      }
    } else if AfterEdits(t, edits).revision == t.revision {
      QuietEdits(t, edits);
    }
  }

  lemma {:induction false} AfterEditsLast(t: Tables, edits: seq<Edit>, e: Edit)
    ensures AfterEdits(t, edits + [e]) == AfterEdit(AfterEdits(t, edits), e)
    decreases |edits|
  {
    if edits == [] {
      assert [] + [e] == [e];
    } else {
      assert (edits + [e])[1..] == edits[1..] + [e];
      AfterEditsLast(AfterEdit(t, edits[0]), edits[1..], e);
    }
    hide AfterEdit;
  }

  lemma AfterOneEdit(t: Tables, e: Edit)
    ensures AfterEdits(t, [e]) == AfterEdit(t, e)
  {
    assert [e][1..] == [];
    hide AfterEdit;
  }

  lemma AfterClear(t: Tables)
    ensures AfterEdits(t, EditsOf(ClearRules)) == Tables(map[], DEFAULT_RULE, t.revision + 1)
  {
    AfterOneEdit(AfterEdit(t, ClearProcesses), ResetGlobal);
    assert EditsOf(ClearRules)[1..] == [ResetGlobal];
  }

  /** The tables as the engine holds them. */
  class RuleStore {
    var process: map<nat, ProcessRule>
    var global: ProcessRule
    var revision: nat

    function Value(): Tables
      reads this
    {
      Tables(process, global, revision)
    }

    constructor ()
      ensures Value() == Tables(map[], DEFAULT_RULE, 0)
    {
      process, global, revision := map[], DEFAULT_RULE, 0;
    }

    method UpdateRule(pid: nat, rule: ProcessRule)
      modifies this
      ensures Value() == AfterEdit(old(Value()), SetProcess(pid, rule))
    {
      var present := pid in process;
      var current := if present then process[pid] else DEFAULT_RULE;
      if current.blockAll != rule.blockAll
         || current.downloadLoss != rule.downloadLoss
         || current.uploadLoss != rule.uploadLoss
         || current.downloadDelay != rule.downloadDelay
         || current.uploadDelay != rule.uploadDelay
      {
        revision := revision + 1;
      }
      process := if rule.HasAnyRule() then process[pid := rule] else process - {pid};
    }

    /** The table part of `apply`; the queue is released exactly if the revision has moved. */
    method Apply(command: Command) returns (releases: bool)
      modifies this
      ensures Value() == AfterEdits(old(Value()), EditsOf(command))
      ensures releases <==> revision != old(revision)
      ensures !releases ==> SameTreatment(old(Value()), Value())
    {
      var before := revision;
      ghost var was := Value();
      match command {
        case UpdateRule(pid, rule) =>
          UpdateRule(pid, rule);
          AfterOneEdit(was, SetProcess(pid, rule));
        case UpdateRuleForPids(pids, rule) =>
          ghost var edits := EditsOf(command);
          for i := 0 to |pids|
            invariant Value() == AfterEdits(was, edits[..i])
          {
            assert edits[..i + 1] == edits[..i] + [SetProcess(pids[i], rule)];
            AfterEditsLast(was, edits[..i], SetProcess(pids[i], rule));
            UpdateRule(pids[i], rule);
          }
          assert edits[..|pids|] == edits;
        case SetGlobalRule(rule) =>
          if global.blockAll != rule.blockAll || global.downloadDelay != rule.downloadDelay
            || global.uploadDelay != rule.uploadDelay {
            revision := revision + 1;
          }
          global := rule;
          AfterOneEdit(was, SetGlobal(rule));
        case ClearRules =>
          revision := revision + 1;
          process := map[];
          global := DEFAULT_RULE;
          AfterClear(was);
      }
      CommandAnnouncesChange(was, command);
      releases := revision != before;
    }
  }
}
