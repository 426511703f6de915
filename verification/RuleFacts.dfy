/**
 What the rule tables mean, field by field: which rule decides about a packet, and what an edit
 changes for the packets of its process and for everybody else.
 */
module RuleFacts {
  import opened Core
  import opened Rules

  // ---------------------------------------------------------------- which rule decides

  /** A packet is blocked by the global rule or by the rule of its process, and never on loopback. */
  lemma BlockMeans(t: Tables, pid: Option<nat>, loopback: bool)
    ensures t.Blocks(pid, loopback) <==>
      && !loopback
      && (t.global.blockAll || (pid.Some? && pid.value in t.process && t.process[pid.value].blockAll))
  {
  }

  /** The rule of the process, with nothing set for a process without one. */
  function RuleOf(t: Tables, pid: Option<nat>): ProcessRule {
    if pid.Some? && pid.value in t.process then t.process[pid.value] else DEFAULT_RULE
  }

  /** A process delay that is set decides, even if it is 0; otherwise the global one does. */
  lemma DelayMeans(t: Tables, pid: Option<nat>)
    ensures var own, all := RuleOf(t, pid), t.global;
      && t.EffectiveDelay(pid, Download)
           == Capped(if own.downloadDelay.Some? then own.downloadDelay else all.downloadDelay)
      && t.EffectiveDelay(pid, Upload)
           == Capped(if own.uploadDelay.Some? then own.uploadDelay else all.uploadDelay)
  {
  }

  /** No delay counts as 0, and none counts as more than 5000 ms. */
  function Capped(ms: Option<nat>): nat {
    if ms.None? then 0 else if ms.value > 5000 then 5000 else ms.value
  }

  // ---------------------------------------------------------------- what one edit does

  /** A rule that sets nothing is the default one, whatever the controller has adjusted. */
  lemma SetsSomething(rule: ProcessRule)
    ensures rule.HasAnyRule() <==> rule.(adjustedDownload := 0.0, adjustedUpload := 0.0) != DEFAULT_RULE
  {
  }

  /**
   After a rule is set for a process, its packets are blocked exactly if that rule or the global one
   blocks; other packets and packets on loopback are treated as before.
   */
  lemma BlockAfterUpdate(t: Tables, pid: nat, rule: ProcessRule, other: Option<nat>, loopback: bool)
    ensures var u := AfterEdit(t, SetProcess(pid, rule));
      && (u.Blocks(Some(pid), false) <==> rule.blockAll || t.global.blockAll)
      && (other != Some(pid) ==> u.Blocks(other, loopback) == t.Blocks(other, loopback))
      && !u.Blocks(other, true)
  {
  }

  /** The same for delays: the delay set, even if it is 0, otherwise the global one. */
  lemma DelayAfterUpdate(t: Tables, pid: nat, rule: ProcessRule, other: Option<nat>)
    ensures var u, all := AfterEdit(t, SetProcess(pid, rule)), t.global;
      && u.EffectiveDelay(Some(pid), Download)
           == Capped(if rule.downloadDelay.Some? then rule.downloadDelay else all.downloadDelay)
      && u.EffectiveDelay(Some(pid), Upload)
           == Capped(if rule.uploadDelay.Some? then rule.uploadDelay else all.uploadDelay)
      && (other != Some(pid) ==>
           && u.EffectiveDelay(other, Download) == t.EffectiveDelay(other, Download)
           && u.EffectiveDelay(other, Upload) == t.EffectiveDelay(other, Upload))
  {
  }

  /** And for loss rates and limits of the process itself. */
  lemma LossAndLimitAfterUpdate(t: Tables, pid: nat, rule: ProcessRule, other: Option<nat>)
    ensures var u := AfterEdit(t, SetProcess(pid, rule));
      && u.ProcessLoss(Some(pid), Download) == rule.downloadLoss
      && u.ProcessLoss(Some(pid), Upload) == rule.uploadLoss
      && (u.ProcessRate(Some(pid), Download).Some? <==> rule.limitDownload && rule.downloadKbps > 0)
      && (u.ProcessRate(Some(pid), Upload).Some? <==> rule.limitUpload && rule.uploadKbps > 0)
      && (other != Some(pid) ==> forall d ::
           u.ProcessLoss(other, d) == t.ProcessLoss(other, d) && u.ProcessRate(other, d) == t.ProcessRate(other, d))
      && u.global == t.global
  {
  }

  /** A global rule decides for every packet whose process does not decide for itself. */
  lemma AfterGlobalUpdate(t: Tables, rule: ProcessRule, pid: Option<nat>)
    ensures var u, own := AfterEdit(t, SetGlobal(rule)), RuleOf(t, pid);
      && (u.Blocks(pid, false) <==> rule.blockAll || own.blockAll)
      && u.EffectiveDelay(pid, Download)
           == Capped(if own.downloadDelay.Some? then own.downloadDelay else rule.downloadDelay)
      && u.EffectiveDelay(pid, Upload)
           == Capped(if own.uploadDelay.Some? then own.uploadDelay else rule.uploadDelay)
      && u.process == t.process && u.global == rule
  {
  }

  /** A process update moves the revision exactly if it changes block, loss or delay of the process. */
  lemma RevisionAfterUpdate(t: Tables, pid: nat, rule: ProcessRule)
    ensures var was, u := RuleOf(t, Some(pid)), AfterEdit(t, SetProcess(pid, rule));
      u.revision == t.revision +
        if was.blockAll == rule.blockAll && was.downloadLoss == rule.downloadLoss && was.uploadLoss == rule.uploadLoss
           && was.downloadDelay == rule.downloadDelay && was.uploadDelay == rule.uploadDelay
        then 0 else 1
  {
  }

  /** A global update moves it exactly if it changes block or delay. */
  lemma RevisionAfterGlobal(t: Tables, rule: ProcessRule)
    ensures AfterEdit(t, SetGlobal(rule)).revision == t.revision +
      if t.global.blockAll == rule.blockAll && t.global.downloadDelay == rule.downloadDelay
         && t.global.uploadDelay == rule.uploadDelay
      then 0 else 1
  {
  }

  // ---------------------------------------------------------------- what a command does

  lemma {:induction false} SameRuleForAll(t: Tables, pids: seq<nat>, rule: ProcessRule, edits: seq<Edit>, pid: nat)
    requires |edits| == |pids| && forall i :: 0 <= i < |pids| ==> edits[i] == SetProcess(pids[i], rule)
    ensures var u := AfterEdits(t, edits);
      && u.global == t.global
      && (pid in pids ==> (pid in u.process <==> rule.HasAnyRule()) && (pid in u.process ==> u.process[pid] == rule))
      && (pid !in pids ==>
           (pid in u.process <==> pid in t.process) && (pid in u.process ==> u.process[pid] == t.process[pid]))
    decreases |edits|
  {
    hide ProcessRule.HasAnyRule, Announces;
    if edits != [] {
      var first := AfterEdit(t, edits[0]);
      SameRuleForAll(first, pids[1..], rule, edits[1..], pid);
      assert pid in pids <==> pid == pids[0] || pid in pids[1..];
    }
  }

  /**
   The tables after a command. A rule that sets nothing removes the entry of its process, any other
   one becomes it; nothing else changes. Clearing empties both tables.
   */
  lemma CommandMeans(t: Tables, c: Command, pid: nat)
    ensures var u := AfterEdits(t, EditsOf(c));
      match c
      case ClearRules => u.process == map[] && u.global == DEFAULT_RULE
      case SetGlobalRule(rule) => u.process == t.process && u.global == rule
      case UpdateRule(p, rule) => u.global == t.global && AsSet(t, u, {p}, rule, pid)
      case UpdateRuleForPids(pids, rule) => u.global == t.global && AsSet(t, u, (set p | p in pids), rule, pid)
  {
    match c
    case ClearRules => AfterClear(t);
    case SetGlobalRule(rule) => AfterOneEdit(t, SetGlobal(rule));
    case UpdateRule(p, rule) =>
      SameRuleForAll(t, [p], rule, EditsOf(c), pid);
      SetsSomething(rule);
    case UpdateRuleForPids(pids, rule) =>
      SameRuleForAll(t, pids, rule, EditsOf(c), pid);
      SetsSomething(rule);
  }

  /** `pid` has the new rule if it is among `chosen`, and its old one otherwise. */
  ghost predicate AsSet(t: Tables, u: Tables, chosen: set<nat>, rule: ProcessRule, pid: nat) {
    if pid in chosen then
      && (pid in u.process <==> rule.(adjustedDownload := 0.0, adjustedUpload := 0.0) != DEFAULT_RULE)
      && (pid in u.process ==> u.process[pid] == rule)
    else
      && (pid in u.process <==> pid in t.process)
      && (pid in u.process ==> u.process[pid] == t.process[pid])
  }

  // ---------------------------------------------------------------- limits

  /** A limit in KiB/s counts if it is switched on and not 0; an adaptive rule may use an adjusted rate. */
  lemma LimitMeans(rule: ProcessRule)
    ensures rule.EffectiveRate(Download) ==
      if !rule.limitDownload || rule.downloadKbps == 0 then None
      else if rule.adaptive && rule.adjustedDownload > 0.0 then Some(rule.adjustedDownload)
      else Some(rule.downloadKbps as real * 1024.0)
    ensures rule.EffectiveRate(Upload) ==
      if !rule.limitUpload || rule.uploadKbps == 0 then None
      else if rule.adaptive && rule.adjustedUpload > 0.0 then Some(rule.adjustedUpload)
      else Some(rule.uploadKbps as real * 1024.0)
  {
  }
}
