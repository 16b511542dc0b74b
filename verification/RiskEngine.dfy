/** Pre-trade risk: every leg of a signal against every rule, clamped, checked against the
    venue's minimum, and assembled into one decision; and the kill switch. */
module RiskEngines {
  import opened Types
  import opened OmsModel

  datatype Severity = Info | Warn | Block | Kill

  datatype RuleResult = RuleResult(rule: string, approved: bool, severity: Severity, approvedQuantity: Option<Quantity>)

  /** A rule sees the state of the world, the signal and one leg; None where it raises. */
  datatype Rule<!World> = Rule(name: string, evaluate: (World, Signal, Leg) -> Option<RuleResult>)

  datatype ApprovedLeg = ApprovedLeg(id: LegId, side: Side, quantity: Quantity, clampedBy: Option<string>)

  datatype RejectedLeg = RejectedLeg(id: LegId, side: Side, rule: string, severity: Severity)

  datatype Decision = Decision(
    signal: SignalId,
    approved: bool,
    rule: Option<string>,
    approvedLegs: seq<ApprovedLeg>,
    rejectedLegs: seq<RejectedLeg>
  )

  // ----- One leg -----

  /** A rule that raises rejects. */
  function ResultOf<World>(rule: Rule<World>, world: World, sig: Signal, leg: Leg): RuleResult {
    match rule.evaluate(world, sig, leg)
    case Some(result) => result
    case None => RuleResult(rule.name, false, Block, None)
  }

  function ResultsOf<World>(rules: seq<Rule<World>>, world: World, sig: Signal, leg: Leg): seq<RuleResult> {
    seq(|rules|, i requires 0 <= i < |rules| => ResultOf(rules[i], world, sig, leg))
  }

  function FirstReject(results: seq<RuleResult>): (r: Option<RuleResult>)
    ensures r.None? <==> forall i :: 0 <= i < |results| ==> results[i].approved
    ensures r.Some? ==> r.value in results && !r.value.approved
  {
    if results == [] then None
    else if !results[0].approved then Some(results[0])
    else FirstReject(results[1..])
  }

  /** The clamps in rule order: each smaller one takes over. */
  function Clamped(results: seq<RuleResult>, quantity: Quantity): (Quantity, Option<string>) {
    if results == [] then (quantity, None)
    else
      var (q, clamp) := Clamped(results[..|results| - 1], quantity);
      var r := results[|results| - 1];
      if r.approvedQuantity.Some? && r.approvedQuantity.value < q then (r.approvedQuantity.value, Some(r.rule)) else (q, clamp)
  }

  predicate TooSmall(leg: Leg, quantity: Quantity, minNotional: Option<Price>) {
    minNotional.Some? && leg.price.Some? && leg.price.value > 0.0 && leg.price.value * quantity < minNotional.value
  }

  datatype Verdict =
    | Approve(leg: ApprovedLeg)
    | Refuse(rejected: RejectedLeg, kills: bool)

  function Judge(results: seq<RuleResult>, leg: Leg, minNotional: Option<Price>): Verdict {
    var reject := FirstReject(results);
    if reject.Some? then
      Refuse(RejectedLeg(leg.id, leg.side, reject.value.rule, reject.value.severity), reject.value.severity.Kill?)
    else
      var (q, clamp) := Clamped(results, leg.quantity);
      if TooSmall(leg, q, minNotional) then Refuse(RejectedLeg(leg.id, leg.side, "min_notional", Block), false)
      else Approve(ApprovedLeg(leg.id, leg.side, q, clamp))
  }

  function KilledLeg(leg: Leg): Verdict {
    Refuse(RejectedLeg(leg.id, leg.side, "kill_switch", Kill), false)
  }

  // ----- All legs -----

  /** The verdicts on the legs in order, and the rule that killed, if one did. */
  function Verdicts<World>(rules: seq<Rule<World>>, world: World, sig: Signal, minNotional: Option<Price>, n: nat): (seq<Verdict>, Option<string>)
    requires n <= |sig.legs|
  {
    if n == 0 then ([], None)
    else
      var (before, killed) := Verdicts(rules, world, sig, minNotional, n - 1);
      var leg := sig.legs[n - 1];
      if killed.Some? then (before + [KilledLeg(leg)], killed)
      else
        var v := Judge(ResultsOf(rules, world, sig, leg), leg, minNotional);
        (before + [v], if v.Refuse? && v.kills then Some(v.rejected.rule) else None)
  }

  function Approvals(verdicts: seq<Verdict>): seq<ApprovedLeg> {
    if verdicts == [] then []
    else
      var v := verdicts[|verdicts| - 1];
      Approvals(verdicts[..|verdicts| - 1]) + if v.Approve? then [v.leg] else []
  }

  function Refusals(verdicts: seq<Verdict>): seq<RejectedLeg> {
    if verdicts == [] then []
    else
      var v := verdicts[|verdicts| - 1];
      Refusals(verdicts[..|verdicts| - 1]) + if v.Refuse? then [v.rejected] else []
  }

  lemma {:induction false} OneMoreVerdict(verdicts: seq<Verdict>, v: Verdict)
    ensures Approvals(verdicts + [v]) == Approvals(verdicts) + if v.Approve? then [v.leg] else []
    ensures Refusals(verdicts + [v]) == Refusals(verdicts) + if v.Refuse? then [v.rejected] else []
  {
    assert (verdicts + [v])[..|verdicts|] == verdicts;
  }

  function Assembled(sig: Signal, atomic: bool, approved: seq<ApprovedLeg>, rejected: seq<RejectedLeg>): Decision {
    if (atomic && rejected != []) || approved == [] then
      Decision(sig.id, false, if rejected != [] then Some(rejected[0].rule) else None, [], rejected)
    else Decision(sig.id, true, None, approved, rejected)
  }

  // ----- The kill switch -----

  datatype KillState = Off | Engaged(cause: string, atNs: int)

  function Latched(k: KillState, cause: string, now: int): KillState {
    if k.Engaged? then k else Engaged(cause, now)
  }

  class KillSwitch {
    var state: KillState

    constructor ()
      ensures state == Off
    {
      state := Off;
    }

    /** Idempotent: the first reason wins. */
    method Engage(cause: string, now: int)
      modifies this
      ensures state == Latched(old(state), cause, now)
    {
      if state.Engaged? {
        return;
      }
      state := Engaged(cause, now);
    }

    method Reset()
      modifies this
      ensures state == Off
    {
      state := Off;
    }
  }

  // ----- The engine -----

  /** The latch, the decisions and kill events published, and what was recorded for the
      throttle: every signal, whatever becomes of it. */
  datatype Engine = Engine(latch: KillState, decisions: seq<Decision>, kills: seq<KillState>, recorded: seq<(StrategyId, int)>)

  function Engaging(e: Engine, cause: string, now: int): Engine {
    e.(latch := Latched(e.latch, cause, now), kills := if e.latch.Engaged? then e.kills else e.kills + [Engaged(cause, now)])
  }

  function Evaluated<World>(e: Engine, rules: seq<Rule<World>>, world: World, sig: Signal, atomic: bool,
                            minNotional: Option<Price>, now: int): Engine
  {
    var e0 := e.(recorded := e.recorded + [(sig.strategy, now)]);
    if e.latch.Engaged? then e0.(decisions := e.decisions + [Decision(sig.id, false, Some(e.latch.cause), [], [])])
    else WithVerdicts(e0, rules, world, sig, atomic, minNotional, now)
  }

  /** The engine after every leg was judged: latched if one killed, and with the decision. */
  function WithVerdicts<World>(e: Engine, rules: seq<Rule<World>>, world: World, sig: Signal, atomic: bool,
                               minNotional: Option<Price>, now: int): Engine
  {
    var (verdicts, killed) := Verdicts(rules, world, sig, minNotional, |sig.legs|);
    var e1 := if killed.Some? then Engaging(e, killed.value, now) else e;
    e1.(decisions := e.decisions + [Assembled(sig, atomic, Approvals(verdicts), Refusals(verdicts))])
  }

  class RiskEngine<World> {
    const killSwitch: KillSwitch
    var globalRules: seq<Rule<World>>
    var rules: map<StrategyId, seq<Rule<World>>>
    // What the engine has put on the bus.
    var decisions: seq<Decision>
    var kills: seq<KillState>
    // What it has told the risk state of signals seen.
    var recorded: seq<(StrategyId, int)>

    ghost function View(): Engine
      reads this, killSwitch
    {
      Engine(killSwitch.state, decisions, kills, recorded)
    }

    function RulesFor(strategy: StrategyId): seq<Rule<World>>
      reads this
    {
      globalRules + if strategy in rules then rules[strategy] else []
    }

    constructor (globalRules: seq<Rule<World>>, rules: map<StrategyId, seq<Rule<World>>>)
      ensures View() == Engine(Off, [], [], []) && this.globalRules == globalRules && this.rules == rules
      ensures fresh(killSwitch)
    {
      killSwitch := new KillSwitch();
      this.globalRules, this.rules := globalRules, rules;
      decisions, kills, recorded := [], [], [];
    }

    method EngageKillSwitch(cause: string, now: int)
      modifies this`kills, killSwitch
      ensures View() == Engaging(old(View()), cause, now)
    {
      var wasEngaged := killSwitch.state.Engaged?;
      killSwitch.Engage(cause, now);
      if wasEngaged {
        return;
      }
      kills := kills + [killSwitch.state];
    }

    method OnSignal(sig: Signal, atomic: bool, minNotional: Option<Price>, world: World, now: int)
      modifies this`decisions, this`kills, this`recorded, killSwitch
      ensures View() == Evaluated(old(View()), RulesFor(sig.strategy), world, sig, atomic, minNotional, now)
    {
      recorded := recorded + [(sig.strategy, now)];
      if killSwitch.state.Engaged? {
        decisions := decisions + [Decision(sig.id, false, Some(killSwitch.state.cause), [], [])];
        return;
      }
      EvaluateLegs(sig, atomic, minNotional, world, now);
    }

    method EvaluateLegs(sig: Signal, atomic: bool, minNotional: Option<Price>, world: World, now: int)
      modifies this`decisions, this`kills, killSwitch
      ensures View() == WithVerdicts(old(View()), RulesFor(sig.strategy), world, sig, atomic, minNotional, now)
    {
      var active := RulesFor(sig.strategy);
      var approved, rejected, killTriggered := [], [], false;
      for n := 0 to |sig.legs|
        invariant decisions == old(decisions)
        invariant var (verdicts, killed) := Verdicts(active, world, sig, minNotional, n);
                  && approved == Approvals(verdicts) && rejected == Refusals(verdicts) && killTriggered == killed.Some?
                  && View() == if killed.Some? then Engaging(old(View()), killed.value, now) else old(View())
      {
        var leg := sig.legs[n];
        ghost var before := Verdicts(active, world, sig, minNotional, n).0;
        if killTriggered {
          rejected := rejected + [RejectedLeg(leg.id, leg.side, "kill_switch", Kill)];
          OneMoreVerdict(before, KilledLeg(leg));
          continue;
        }
        var verdict := JudgeLeg(active, world, sig, leg, minNotional);
        OneMoreVerdict(before, verdict);
        match verdict {
          case Refuse(r, kills) =>
            if kills {
              EngageKillSwitch(r.rule, now);
              killTriggered := true;
            }
            rejected := rejected + [r];
          case Approve(a) => approved := approved + [a];
        }
      }
      PublishVerdict(sig, atomic, approved, rejected);
    }

    method PublishVerdict(sig: Signal, atomic: bool, approved: seq<ApprovedLeg>, rejected: seq<RejectedLeg>)
      modifies this`decisions
      ensures decisions == old(decisions) + [Assembled(sig, atomic, approved, rejected)]
    {
      if atomic && rejected != [] {
        decisions := decisions + [Decision(sig.id, false, Some(rejected[0].rule), [], rejected)];
        return;
      }
      if approved == [] {
        decisions := decisions + [Decision(sig.id, false, if rejected != [] then Some(rejected[0].rule) else None, [], rejected)];
        return;
      }
      decisions := decisions + [Decision(sig.id, true, None, approved, rejected)];
    }

    method JudgeLeg(active: seq<Rule<World>>, world: World, sig: Signal, leg: Leg, minNotional: Option<Price>) returns (v: Verdict)
      ensures v == Judge(ResultsOf(active, world, sig, leg), leg, minNotional)
    {
      var results: seq<RuleResult> := [];
      for i := 0 to |active|
        invariant |results| == i && forall j :: 0 <= j < i ==> results[j] == ResultOf(active[j], world, sig, leg)
      {
        results := results + [ResultOf(active[i], world, sig, leg)];
      }
      assert results == ResultsOf(active, world, sig, leg);
      var reject := FirstReject(results);
      if reject.Some? {
        return Refuse(RejectedLeg(leg.id, leg.side, reject.value.rule, reject.value.severity), reject.value.severity.Kill?);
      }
      var quantity := leg.quantity;
      var clampedBy := None;
      for i := 0 to |results|
        invariant (quantity, clampedBy) == Clamped(results[..i], leg.quantity)
      {
        assert results[..i + 1][..i] == results[..i];
        var r := results[i];
        if r.approvedQuantity.Some? && r.approvedQuantity.value < quantity {
          quantity := r.approvedQuantity.value;
          clampedBy := Some(r.rule);
        }
      }
      assert results[..|results|] == results;
      if TooSmall(leg, quantity, minNotional) {
        return Refuse(RejectedLeg(leg.id, leg.side, "min_notional", Block), false);
      }
      v := Approve(ApprovedLeg(leg.id, leg.side, quantity, clampedBy));
    }
  }

  // ----- What a verdict means -----

  /** The rule answered, and approves; one that raises does not. */
  predicate Approves<World>(rule: Rule<World>, world: World, sig: Signal, leg: Leg) {
    var answer := rule.evaluate(world, sig, leg);
    answer.Some? && answer.value.approved
  }

  predicate RejectsFirst<World>(rules: seq<Rule<World>>, world: World, sig: Signal, leg: Leg, k: nat) {
    k < |rules| && !Approves(rules[k], world, sig, leg) && forall j :: 0 <= j < k ==> Approves(rules[j], world, sig, leg)
  }

  /** The first rule that rejects the leg answered with KILL. */
  predicate Kills<World>(rules: seq<Rule<World>>, world: World, sig: Signal, leg: Leg) {
    exists k :: 0 <= k < |rules| && RejectsFirst(rules, world, sig, leg, k)
                && var answer := rules[k].evaluate(world, sig, leg); answer.Some? && answer.value.severity == Severity.Kill
  }

  function ClampOf<World>(rule: Rule<World>, world: World, sig: Signal, leg: Leg): Option<Quantity> {
    match rule.evaluate(world, sig, leg)
    case Some(result) => result.approvedQuantity
    case None => None
  }

  /** The least of the request and the clamps. */
  predicate IsLeastClamp<World>(rules: seq<Rule<World>>, world: World, sig: Signal, leg: Leg, q: Quantity) {
    && q <= leg.quantity
    && (forall k :: 0 <= k < |rules| && ClampOf(rules[k], world, sig, leg).Some? ==> q <= ClampOf(rules[k], world, sig, leg).value)
    && (q == leg.quantity || exists k :: 0 <= k < |rules| && ClampOf(rules[k], world, sig, leg) == Some(q))
  }

  /** Price times size reaches the venue's minimum, as far as either is known. */
  predicate MeetsMinimum(leg: Leg, q: Quantity, minNotional: Option<Price>) {
    minNotional.None? || leg.price.None? || leg.price.value <= 0.0 || minNotional.value <= leg.price.value * q
  }

  /** A leg passes exactly when no earlier leg of the signal kills, every rule approves it,
      and its clamped size meets the venue's minimum where that can be told. */
  ghost predicate Passes<World>(rules: seq<Rule<World>>, world: World, sig: Signal, minNotional: Option<Price>, i: nat)
    requires i < |sig.legs|
  {
    var leg := sig.legs[i];
    && !SomeKills(rules, world, sig, i)
    && (forall k :: 0 <= k < |rules| ==> Approves(rules[k], world, sig, leg))
    && (exists q :: IsLeastClamp(rules, world, sig, leg, q) && MeetsMinimum(leg, q, minNotional))
  }

  lemma {:induction false} ClampIsLeastOf(results: seq<RuleResult>, request: Quantity)
    ensures var q := Clamped(results, request).0;
            && q <= request
            && (forall k :: 0 <= k < |results| && results[k].approvedQuantity.Some? ==> q <= results[k].approvedQuantity.value)
            && (q == request || exists k :: 0 <= k < |results| && results[k].approvedQuantity == Some(q))
            && (Clamped(results, request).1.None? <==> q == request)
  {
    if results != [] {
      var n := |results| - 1;
      ClampIsLeastOf(results[..n], request);
      var q := Clamped(results[..n], request).0;
      if q != request {
        var k :| 0 <= k < n && results[..n][k].approvedQuantity == Some(q);
        assert results[k].approvedQuantity == Some(q);
      }
      assert forall k :: 0 <= k < n ==> results[..n][k] == results[k];
    }
  }

  lemma {:induction false} ClampIsLeast<World>(rules: seq<Rule<World>>, world: World, sig: Signal, leg: Leg)
    ensures var (q, clamp) := Clamped(ResultsOf(rules, world, sig, leg), leg.quantity);
            IsLeastClamp(rules, world, sig, leg, q) && (clamp.None? <==> q == leg.quantity)
  {
    var results := ResultsOf(rules, world, sig, leg);
    ClampIsLeastOf(results, leg.quantity);
    assert forall k :: 0 <= k < |rules| ==> results[k].approvedQuantity == ClampOf(rules[k], world, sig, leg);
  }

  lemma {:induction false} LeastClampIsUnique<World>(rules: seq<Rule<World>>, world: World, sig: Signal, leg: Leg, p: Quantity, q: Quantity)
    requires IsLeastClamp(rules, world, sig, leg, p) && IsLeastClamp(rules, world, sig, leg, q)
    ensures p == q
  {
  }

  lemma {:induction false} FirstRejectAt(results: seq<RuleResult>, k: nat)
    requires k < |results| && !results[k].approved && forall j :: 0 <= j < k ==> results[j].approved
    ensures FirstReject(results) == Some(results[k])
  {
    if k > 0 {
      assert results[1..][k - 1] == results[k] && forall j :: 0 <= j < k - 1 ==> results[1..][j] == results[j + 1];
      FirstRejectAt(results[1..], k - 1);
    }
  }

  lemma {:induction false} SomeRejectsFirst<World>(rules: seq<Rule<World>>, world: World, sig: Signal, leg: Leg) returns (k: nat)
    requires exists j :: 0 <= j < |rules| && !Approves(rules[j], world, sig, leg)
    ensures RejectsFirst(rules, world, sig, leg, k)
  {
    k := 0;
    while Approves(rules[k], world, sig, leg)
      invariant k < |rules| && forall j :: 0 <= j < k ==> Approves(rules[j], world, sig, leg)
      decreases |rules| - k
    {
      k := k + 1;
    }
  }

  lemma {:induction false} FirstRejectIs<World>(rules: seq<Rule<World>>, world: World, sig: Signal, leg: Leg, k: nat)
    requires RejectsFirst(rules, world, sig, leg, k)
    ensures FirstReject(ResultsOf(rules, world, sig, leg)) == Some(ResultOf(rules[k], world, sig, leg))
  {
    var results := ResultsOf(rules, world, sig, leg);
    assert forall j :: 0 <= j < |rules| ==> (results[j].approved <==> Approves(rules[j], world, sig, leg));
    FirstRejectAt(results, k);
  }

  lemma {:induction false} FirstRejectMeans<World>(rules: seq<Rule<World>>, world: World, sig: Signal, leg: Leg)
    ensures var reject := FirstReject(ResultsOf(rules, world, sig, leg));
            && (reject.None? <==> forall k :: 0 <= k < |rules| ==> Approves(rules[k], world, sig, leg))
            && (reject.Some? && reject.value.severity.Kill? <==> Kills(rules, world, sig, leg))
  {
    var results := ResultsOf(rules, world, sig, leg);
    assert forall j :: 0 <= j < |rules| ==> (results[j].approved <==> Approves(rules[j], world, sig, leg));
    if exists j :: 0 <= j < |rules| && !Approves(rules[j], world, sig, leg) {
      var k := SomeRejectsFirst(rules, world, sig, leg);
      FirstRejectIs(rules, world, sig, leg, k);
      if Kills(rules, world, sig, leg) {
        var i :| 0 <= i < |rules| && RejectsFirst(rules, world, sig, leg, i)
                 && rules[i].evaluate(world, sig, leg).Some? && rules[i].evaluate(world, sig, leg).value.severity == Severity.Kill;
        FirstRejectIs(rules, world, sig, leg, i);
      }
    }
  }

  lemma {:induction false} JudgeKills<World>(rules: seq<Rule<World>>, world: World, sig: Signal, leg: Leg, minNotional: Option<Price>)
    ensures var v := Judge(ResultsOf(rules, world, sig, leg), leg, minNotional);
            v.Refuse? && v.kills <==> Kills(rules, world, sig, leg)
  {
    FirstRejectMeans(rules, world, sig, leg);
  }

  lemma {:induction false} JudgeRefuses<World>(rules: seq<Rule<World>>, world: World, sig: Signal, leg: Leg, minNotional: Option<Price>)
    ensures var v := Judge(ResultsOf(rules, world, sig, leg), leg, minNotional);
            v.Refuse? ==> v.rejected.id == leg.id && v.rejected.side == leg.side
                          && RefusedBy(rules, world, sig, leg, v.rejected.rule, v.rejected.severity)
  {
    FirstRejectMeans(rules, world, sig, leg);
    if FirstReject(ResultsOf(rules, world, sig, leg)).Some? {
      var k := SomeRejectsFirst(rules, world, sig, leg);
      FirstRejectIs(rules, world, sig, leg, k);
    }
  }

  lemma {:induction false} JudgeMeans<World>(rules: seq<Rule<World>>, world: World, sig: Signal, leg: Leg, minNotional: Option<Price>)
    ensures var v := Judge(ResultsOf(rules, world, sig, leg), leg, minNotional);
            && (v.Approve? <==> (forall k :: 0 <= k < |rules| ==> Approves(rules[k], world, sig, leg))
                                && exists q :: IsLeastClamp(rules, world, sig, leg, q) && MeetsMinimum(leg, q, minNotional))
            && (v.Approve? ==> IsLeastClamp(rules, world, sig, leg, v.leg.quantity) && MeetsMinimum(leg, v.leg.quantity, minNotional)
                               && v.leg.id == leg.id && v.leg.side == leg.side
                               && (v.leg.clampedBy.None? <==> v.leg.quantity == leg.quantity))
  {
    FirstRejectMeans(rules, world, sig, leg);
    ClampIsLeast(rules, world, sig, leg);
    var least := Clamped(ResultsOf(rules, world, sig, leg), leg.quantity).0;
    forall q | IsLeastClamp(rules, world, sig, leg, q) ensures q == least {
      LeastClampIsUnique(rules, world, sig, leg, q, least);
    }
  }

  /** The name and severity of a refusal: of the first rule that rejects, by its own answer if
      it gave one; else the minimum's. */
  predicate RefusedBy<World>(rules: seq<Rule<World>>, world: World, sig: Signal, leg: Leg, rule: string, severity: Severity) {
    if exists k :: 0 <= k < |rules| && !Approves(rules[k], world, sig, leg) then
      exists k :: 0 <= k < |rules| && RejectsFirst(rules, world, sig, leg, k)
                  && match rules[k].evaluate(world, sig, leg)
                     case Some(result) => rule == result.rule && severity == result.severity
                     case None => rule == rules[k].name && severity == Severity.Block
    else rule == "min_notional" && severity == Severity.Block
  }

  /** Some leg among the first `n` kills. */
  predicate SomeKills<World>(rules: seq<Rule<World>>, world: World, sig: Signal, n: nat)
    requires n <= |sig.legs|
  {
    exists j :: 0 <= j < n && Kills(rules, world, sig, sig.legs[j])
  }

  lemma {:induction false} SomeMoreKills<World>(rules: seq<Rule<World>>, world: World, sig: Signal, n: nat)
    requires n < |sig.legs|
    ensures SomeKills(rules, world, sig, n + 1) <==> SomeKills(rules, world, sig, n) || Kills(rules, world, sig, sig.legs[n])
  {
  }

  lemma {:induction false} OneVerdictPerLeg<World>(rules: seq<Rule<World>>, world: World, sig: Signal, minNotional: Option<Price>, n: nat)
    requires n <= |sig.legs|
    ensures |Verdicts(rules, world, sig, minNotional, n).0| == n
  {
    if n > 0 {
      OneVerdictPerLeg(rules, world, sig, minNotional, n - 1);
    }
  }

  lemma {:induction false} OneMoreLegJudged<World>(rules: seq<Rule<World>>, world: World, sig: Signal, minNotional: Option<Price>, n: nat)
    requires n < |sig.legs|
    requires Verdicts(rules, world, sig, minNotional, n).1.Some? <==> SomeKills(rules, world, sig, n)
    ensures Verdicts(rules, world, sig, minNotional, n + 1).1.Some? <==> SomeKills(rules, world, sig, n + 1)
  {
    JudgeKills(rules, world, sig, sig.legs[n], minNotional);
    SomeMoreKills(rules, world, sig, n);
  }

  lemma {:induction false} NoLegsJudged<World>(rules: seq<Rule<World>>, world: World, sig: Signal, minNotional: Option<Price>)
    ensures Verdicts(rules, world, sig, minNotional, 0).1.None? && !SomeKills(rules, world, sig, 0)
  {
  }

  lemma {:induction false} KilledIffSomeLegKills<World>(rules: seq<Rule<World>>, world: World, sig: Signal, minNotional: Option<Price>, n: nat)
    requires n <= |sig.legs|
    ensures |Verdicts(rules, world, sig, minNotional, n).0| == n
    ensures Verdicts(rules, world, sig, minNotional, n).1.Some? <==> SomeKills(rules, world, sig, n)
    decreases n
  {
    OneVerdictPerLeg(rules, world, sig, minNotional, n);
    if n > 0 {
      var k: nat := n - 1;
      KilledIffSomeLegKills(rules, world, sig, minNotional, k);
      OneMoreLegJudged(rules, world, sig, minNotional, k);
      assert k + 1 == n;
    } else {
      NoLegsJudged(rules, world, sig, minNotional);
    }
  }

  /** What is decided about leg i. */
  ghost predicate Decided<World>(rules: seq<Rule<World>>, world: World, sig: Signal, minNotional: Option<Price>, i: nat, v: Verdict)
    requires i < |sig.legs|
  {
    var leg := sig.legs[i];
    && (v.Approve? <==> Passes(rules, world, sig, minNotional, i))
    && (v.Approve? ==> v.leg.id == leg.id && v.leg.side == leg.side
                       && IsLeastClamp(rules, world, sig, leg, v.leg.quantity) && MeetsMinimum(leg, v.leg.quantity, minNotional)
                       && (v.leg.clampedBy.None? <==> v.leg.quantity == leg.quantity))
    && (v.Refuse? ==> v.rejected.id == leg.id && v.rejected.side == leg.side
                      && if SomeKills(rules, world, sig, i)
                         then v.rejected.rule == "kill_switch" && v.rejected.severity == Severity.Kill
                         else RefusedBy(rules, world, sig, leg, v.rejected.rule, v.rejected.severity))
  }

  lemma {:induction false} EveryLegIsDecided<World>(rules: seq<Rule<World>>, world: World, sig: Signal, minNotional: Option<Price>, n: nat)
    requires n <= |sig.legs|
    ensures var vs := Verdicts(rules, world, sig, minNotional, n).0;
            |vs| == n && forall i :: 0 <= i < n ==> Decided(rules, world, sig, minNotional, i, vs[i])
  {
    if n > 0 {
      EveryLegIsDecided(rules, world, sig, minNotional, n - 1);
      LastLegIsDecided(rules, world, sig, minNotional, n - 1);
      var before := Verdicts(rules, world, sig, minNotional, n - 1).0;
      var vs := Verdicts(rules, world, sig, minNotional, n).0;
      forall i | 0 <= i < n ensures Decided(rules, world, sig, minNotional, i, vs[i]) {
        assert i < n - 1 ==> vs[i] == before[i];
      }
    }
  }

  lemma {:induction false} LastLegIsDecided<World>(rules: seq<Rule<World>>, world: World, sig: Signal, minNotional: Option<Price>, n: nat)
    requires n < |sig.legs|
    ensures var before := Verdicts(rules, world, sig, minNotional, n).0;
            var vs := Verdicts(rules, world, sig, minNotional, n + 1).0;
            |before| == n && |vs| == n + 1 && vs[..n] == before && Decided(rules, world, sig, minNotional, n, vs[n])
  {
    KilledIffSomeLegKills(rules, world, sig, minNotional, n);
    JudgeMeans(rules, world, sig, sig.legs[n], minNotional);
    JudgeRefuses(rules, world, sig, sig.legs[n], minNotional);
  }

  // ----- What a decision means -----

  function DecisionOn<World>(rules: seq<Rule<World>>, world: World, sig: Signal, atomic: bool, minNotional: Option<Price>): Decision {
    var verdicts := Verdicts(rules, world, sig, minNotional, |sig.legs|).0;
    Assembled(sig, atomic, Approvals(verdicts), Refusals(verdicts))
  }

  predicate DistinctLegs(legs: seq<Leg>) { forall i, j :: 0 <= i < j < |legs| ==> legs[i].id != legs[j].id }

  predicate IsApproved(approved: seq<ApprovedLeg>, id: LegId) { exists a :: a in approved && a.id == id }

  predicate IsRejected(rejected: seq<RejectedLeg>, id: LegId) { exists r :: r in rejected && r.id == id }

  lemma {:induction false} ListsFollowVerdicts(verdicts: seq<Verdict>)
    ensures forall a :: a in Approvals(verdicts) <==> Approve(a) in verdicts
    ensures forall r :: r in Refusals(verdicts) <==> exists k :: Refuse(r, k) in verdicts
    ensures |Approvals(verdicts)| + |Refusals(verdicts)| == |verdicts|
  {
    if verdicts != [] {
      var n := |verdicts| - 1;
      ListsFollowVerdicts(verdicts[..n]);
      assert verdicts == verdicts[..n] + [verdicts[n]];
      forall r | r in Refusals(verdicts) ensures exists k :: Refuse(r, k) in verdicts {
        if r in Refusals(verdicts[..n]) {
          var k :| Refuse(r, k) in verdicts[..n];
          assert Refuse(r, k) in verdicts;
        } else {
          assert Refuse(r, verdicts[n].kills) in verdicts;
        }
      }
      forall r, k | Refuse(r, k) in verdicts ensures r in Refusals(verdicts) {
        if Refuse(r, k) in verdicts[..n] {
          assert r in Refusals(verdicts[..n]);
        }
      }
    }
  }

  /** Each leg is on exactly one of the two lists, and on the approved one exactly when it
      passes. */
  lemma {:induction false} EachLegDecidedOnce<World>(rules: seq<Rule<World>>, world: World, sig: Signal, minNotional: Option<Price>, i: nat)
    requires DistinctLegs(sig.legs) && i < |sig.legs|
    ensures var verdicts := Verdicts(rules, world, sig, minNotional, |sig.legs|).0;
            && (IsApproved(Approvals(verdicts), sig.legs[i].id) <==> Passes(rules, world, sig, minNotional, i))
            && (IsRejected(Refusals(verdicts), sig.legs[i].id) <==> !Passes(rules, world, sig, minNotional, i))
            && |Approvals(verdicts)| + |Refusals(verdicts)| == |sig.legs|
  {
    EveryLegIsDecided(rules, world, sig, minNotional, |sig.legs|);
    var verdicts := Verdicts(rules, world, sig, minNotional, |sig.legs|).0;
    ListsFollowVerdicts(verdicts);
    OnListIffVerdict(sig, verdicts, i);
    assert Decided(rules, world, sig, minNotional, i, verdicts[i]);
  }

  lemma {:induction false} OnListIffVerdict(sig: Signal, verdicts: seq<Verdict>, i: nat)
    requires DistinctLegs(sig.legs) && |verdicts| == |sig.legs| && i < |sig.legs|
    requires forall k :: 0 <= k < |verdicts| ==>
               (if verdicts[k].Approve? then verdicts[k].leg.id else verdicts[k].rejected.id) == sig.legs[k].id
    ensures IsApproved(Approvals(verdicts), sig.legs[i].id) <==> verdicts[i].Approve?
    ensures IsRejected(Refusals(verdicts), sig.legs[i].id) <==> verdicts[i].Refuse?
  {
    ListsFollowVerdicts(verdicts);
    if IsApproved(Approvals(verdicts), sig.legs[i].id) {
      var a :| a in Approvals(verdicts) && a.id == sig.legs[i].id;
      var k :| 0 <= k < |verdicts| && verdicts[k] == Approve(a);
      assert k == i;
    }
    if IsRejected(Refusals(verdicts), sig.legs[i].id) {
      var r :| r in Refusals(verdicts) && r.id == sig.legs[i].id;
      var kills :| Refuse(r, kills) in verdicts;
      var k :| 0 <= k < |verdicts| && verdicts[k] == Refuse(r, kills);
      assert k == i;
    }
    match verdicts[i] {
      case Approve(a) => assert Approve(a) in verdicts && a in Approvals(verdicts);
      case Refuse(r, kills) => assert Refuse(r, kills) in verdicts && r in Refusals(verdicts);
    }
  }

  /** An atomic signal is approved exactly when it has legs and all of them pass; another
      exactly when some leg passes. */
  lemma {:induction false} ApprovedIffLegsPass<World>(rules: seq<Rule<World>>, world: World, sig: Signal, atomic: bool, minNotional: Option<Price>)
    ensures var d := DecisionOn(rules, world, sig, atomic, minNotional);
            && (atomic ==> (d.approved <==> sig.legs != [] && forall i :: 0 <= i < |sig.legs| ==> Passes(rules, world, sig, minNotional, i)))
            && (!atomic ==> (d.approved <==> exists i :: 0 <= i < |sig.legs| && Passes(rules, world, sig, minNotional, i)))
            && d.signal == sig.id && d.rejectedLegs == Refusals(Verdicts(rules, world, sig, minNotional, |sig.legs|).0)
            && d.approvedLegs == (if d.approved then Approvals(Verdicts(rules, world, sig, minNotional, |sig.legs|).0) else [])
            && d.rule == if d.approved || d.rejectedLegs == [] then None else Some(d.rejectedLegs[0].rule)
  {
    EveryLegIsDecided(rules, world, sig, minNotional, |sig.legs|);
    var verdicts := Verdicts(rules, world, sig, minNotional, |sig.legs|).0;
    NoneApproved(verdicts);
    NoneRefused(verdicts);
    assert forall i :: 0 <= i < |verdicts| ==> Decided(rules, world, sig, minNotional, i, verdicts[i]);
    assert forall i :: 0 <= i < |verdicts| ==> (verdicts[i].Approve? <==> Passes(rules, world, sig, minNotional, i));
  }

  lemma {:induction false} NoneApproved(verdicts: seq<Verdict>)
    ensures Approvals(verdicts) == [] <==> forall i :: 0 <= i < |verdicts| ==> verdicts[i].Refuse?
  {
    if verdicts != [] {
      NoneApproved(verdicts[..|verdicts| - 1]);
    }
  }

  lemma {:induction false} NoneRefused(verdicts: seq<Verdict>)
    ensures Refusals(verdicts) == [] <==> forall i :: 0 <= i < |verdicts| ==> verdicts[i].Approve?
  {
    if verdicts != [] {
      NoneRefused(verdicts[..|verdicts| - 1]);
    }
  }

  // ----- What the OMS does with it -----

  /** The OMS looks the approved sizes up by leg id. */
  function ById(approved: seq<ApprovedLeg>): map<LegId, Quantity> {
    if approved == [] then map[]
    else
      var a := approved[|approved| - 1];
      ById(approved[..|approved| - 1])[a.id := a.quantity]
  }

  /** The legs with an approval, at the approved size, in the signal's order. */
  function Resized(legs: seq<Leg>, verdicts: seq<Verdict>): seq<Leg>
    requires |verdicts| == |legs|
  {
    if legs == [] then []
    else
      var n := |legs| - 1;
      Resized(legs[..n], verdicts[..n]) + if verdicts[n].Approve? then [legs[n].(quantity := verdicts[n].leg.quantity)] else []
  }

  lemma {:induction false} ApprovedLegsSplit(a: seq<Leg>, b: seq<Leg>, approved: map<LegId, Quantity>)
    ensures ApprovedLegs(a + b, approved) == ApprovedLegs(a, approved) + ApprovedLegs(b, approved)
  {
    if a == [] {
      assert a + b == b;
    } else {
      assert (a + b)[1..] == a[1..] + b;
      ApprovedLegsSplit(a[1..], b, approved);
    }
  }

  lemma {:induction false} OtherLegsUnmoved(legs: seq<Leg>, approved: map<LegId, Quantity>, id: LegId, q: Quantity)
    requires forall i :: 0 <= i < |legs| ==> legs[i].id != id
    ensures ApprovedLegs(legs, approved[id := q]) == ApprovedLegs(legs, approved)
  {
    if legs != [] {
      OtherLegsUnmoved(legs[1..], approved, id, q);
    }
  }

  predicate SameIds(legs: seq<Leg>, verdicts: seq<Verdict>) {
    |legs| == |verdicts| && forall i :: 0 <= i < |legs| && verdicts[i].Approve? ==> verdicts[i].leg.id == legs[i].id
  }

  lemma {:induction false} ResizedIsApproved(legs: seq<Leg>, verdicts: seq<Verdict>)
    requires DistinctLegs(legs) && SameIds(legs, verdicts)
    ensures ApprovedLegs(legs, ById(Approvals(verdicts))) == Resized(legs, verdicts)
  {
    if legs != [] {
      var n := |legs| - 1;
      var v := verdicts[n];
      ResizedIsApproved(legs[..n], verdicts[..n]);
      assert legs == legs[..n] + [legs[n]];
      LastLegApproved(legs[..n], legs[n], ById(Approvals(verdicts)));
      ApprovedIdsAreLegs(legs[..n], verdicts[..n], legs[n].id);
      if v.Approve? {
        ByIdOfOneMore(Approvals(verdicts[..n]), v.leg);
        OtherLegsUnmoved(legs[..n], ById(Approvals(verdicts[..n])), v.leg.id, v.leg.quantity);
      } else {
        assert Approvals(verdicts) == Approvals(verdicts[..n]);
      }
    }
  }

  lemma {:induction false} LastLegApproved(legs: seq<Leg>, last: Leg, approved: map<LegId, Quantity>)
    ensures ApprovedLegs(legs + [last], approved)
         == ApprovedLegs(legs, approved) + if last.id in approved then [last.(quantity := approved[last.id])] else []
  {
    ApprovedLegsSplit(legs, [last], approved);
    assert [last][1..] == [];
  }

  lemma {:induction false} ApprovedIdsAreLegs(legs: seq<Leg>, verdicts: seq<Verdict>, id: LegId)
    requires SameIds(legs, verdicts) && forall i :: 0 <= i < |legs| ==> legs[i].id != id
    ensures id !in ById(Approvals(verdicts))
  {
    if verdicts != [] {
      var n := |verdicts| - 1;
      ApprovedIdsAreLegs(legs[..n], verdicts[..n], id);
      if verdicts[n].Approve? {
        ByIdOfOneMore(Approvals(verdicts[..n]), verdicts[n].leg);
      } else {
        assert Approvals(verdicts) == Approvals(verdicts[..n]);
      }
    }
  }

  lemma {:induction false} ByIdOfOneMore(approved: seq<ApprovedLeg>, a: ApprovedLeg)
    ensures ById(approved + [a]) == ById(approved)[a.id := a.quantity]
  {
    assert (approved + [a])[..|approved|] == approved;
  }

  /** From signal to reconcile: on an approved decision the OMS reconciles exactly the legs
      that pass, each at the least of its request and the clamps; on another it withdraws. */
  lemma {:induction false} OmsReconcilesWhatPasses<World>(rules: seq<Rule<World>>, world: World, sig: Signal, atomic: bool, minNotional: Option<Price>,
                                       cfg: OmsModel.Config, s: Oms, route: Router, now: int)
    requires DistinctLegs(sig.legs) && sig.id in s.signals && s.signals[sig.id] == sig
    ensures var d := DecisionOn(rules, world, sig, atomic, minNotional);
            var verdict := if d.approved then Some(ById(d.approvedLegs)) else None;
            var verdicts := Verdicts(rules, world, sig, minNotional, |sig.legs|).0;
            var s1 := s.(signals := s.signals - {sig.id});
            && |verdicts| == |sig.legs|
            && DecideSignal(cfg, s, sig.id, verdict, route, now) ==
               (if d.approved then Reconcile(cfg, s1, sig.(legs := Resized(sig.legs, verdicts)), route, now)
                else CancelScope(s1, PlainOrders(sig.strategy, sig.instrument), now))
            && forall i :: 0 <= i < |verdicts| ==> Decided(rules, world, sig, minNotional, i, verdicts[i])
  {
    EveryLegIsDecided(rules, world, sig, minNotional, |sig.legs|);
    var verdicts := Verdicts(rules, world, sig, minNotional, |sig.legs|).0;
    ResizedIsApproved(sig.legs, verdicts);
  }

  // ----- The latch over runs -----

  datatype Event<!World> =
    | SignalArrives(sig: Signal, atomic: bool, minNotional: Option<Price>, world: World, now: int)
    | OperatorEngages(cause: string, now: int)
    | OperatorResets

  function Step<World>(e: Engine, rules: StrategyId -> seq<Rule<World>>, event: Event<World>): Engine {
    match event
    case SignalArrives(sig, atomic, minNotional, world, now) => Evaluated(e, rules(sig.strategy), world, sig, atomic, minNotional, now)
    case OperatorEngages(cause, now) => Engaging(e, cause, now)
    case OperatorResets => e.(latch := Off)
  }

  function Run<World>(e: Engine, rules: StrategyId -> seq<Rule<World>>, events: seq<Event<World>>): Engine {
    if events == [] then e else Step(Run(e, rules, events[..|events| - 1]), rules, events[|events| - 1])
  }

  /** A reset opens the engine again, whatever was latched: the next signal is judged on its
      merits. Nothing is published for the reset. */
  lemma {:induction false} ResetReopens<World>(e: Engine, rules: StrategyId -> seq<Rule<World>>, sig: Signal, atomic: bool,
                                               minNotional: Option<Price>, world: World, now: int)
    ensures var e1 := Step(e, rules, OperatorResets);
            && e1.latch == Off && e1.decisions == e.decisions && e1.kills == e.kills
            && Step(e1, rules, Event.SignalArrives(sig, atomic, minNotional, world, now)).decisions ==
               e.decisions + [DecisionOn(rules(sig.strategy), world, sig, atomic, minNotional)]
  {
  }

  /** An operator's halt latches as a killing leg does: the first cause stays, and goes out
      once. */
  lemma {:induction false} OperatorHaltLatches<World>(e: Engine, rules: StrategyId -> seq<Rule<World>>, cause: string, now: int)
    ensures var e' := Step(e, rules, OperatorEngages(cause, now));
            && e'.latch == (if e.latch.Engaged? then e.latch else Engaged(cause, now))
            && e'.kills == (if e.latch.Engaged? then e.kills else e.kills + [Engaged(cause, now)])
            && e'.decisions == e.decisions
  {
  }

  function SignalsAmong<World>(events: seq<Event<World>>): nat {
    if events == [] then 0
    else SignalsAmong(events[..|events| - 1]) + if events[|events| - 1].SignalArrives? then 1 else 0
  }

  /** Once engaged, and until the operator resets it, the latch keeps its first cause, every
      signal is answered by a rejection that names it, and no second kill event goes out. */
  lemma {:induction false} LatchedUntilReset<World>(e: Engine, rules: StrategyId -> seq<Rule<World>>, events: seq<Event<World>>)
    requires e.latch.Engaged? && OperatorResets !in events
    ensures var e' := Run(e, rules, events);
            && e'.latch == e.latch && e'.kills == e.kills && |e'.decisions| == |e.decisions| + SignalsAmong(events)
            && forall i :: |e.decisions| <= i < |e'.decisions| ==>
                 !e'.decisions[i].approved && e'.decisions[i].approvedLegs == [] && e'.decisions[i].rule == Some(e.latch.cause)
  {
    if events != [] {
      LatchedUntilReset(e, rules, events[..|events| - 1]);
      assert events[|events| - 1] in events;
    }
  }

  /** Handling a signal with the latch off turns it on, with one kill event, exactly when some
      leg kills. */
  lemma {:induction false} KillingLegEngages<World>(e: Engine, rules: seq<Rule<World>>, world: World, sig: Signal, atomic: bool,
                                 minNotional: Option<Price>, now: int)
    requires e.latch.Off?
    ensures var e' := Evaluated(e, rules, world, sig, atomic, minNotional, now);
            && (e'.latch.Engaged? <==> SomeKills(rules, world, sig, |sig.legs|))
            && e'.kills == (if e'.latch.Engaged? then e.kills + [e'.latch] else e.kills)
            && (e'.latch.Engaged? ==> e'.latch.atNs == now)
            && e'.recorded == e.recorded + [(sig.strategy, now)]
            && e'.decisions == e.decisions + [DecisionOn(rules, world, sig, atomic, minNotional)]
  {
    KilledIffSomeLegKills(rules, world, sig, minNotional, |sig.legs|);
  }
}
