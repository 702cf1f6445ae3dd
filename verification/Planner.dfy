/**
 The planner: goal recipes and the plan validator (nexus/orchestration/planner.py).

 A plan is a list of step descriptors. `Validate` walks it once, with a growing set of
 indices already seen, and raises the approval flag of side-effecting steps in place.
 */
module Planner {
  import opened Wrappers

  /** One step descriptor. The `inputs` dictionary is opaque to the engine and is not modelled. */
  datatype PlanStep = PlanStep(idx: int, tool: string, dependsOn: seq<int>, requiresApproval: bool)

  datatype PlanError =
    | UnknownGoal
    | EmptyPlan
    | TooManySteps
    | NotContiguous(at: nat)
    | UnknownTool(at: nat)
    | BadDependency(at: nat, dep: int)

  /** The tool registry: name to the tool's own `requires_approval` flag. */
  type Registry = map<string, bool>

  const SHIPPED_TOOLS: Registry :=
    map["research" := false, "scoring" := false, "compose_message" := false,
        "send_message" := true, "discovery" := false, "setup_cadence" := false]

  /** The edges of the step at position i all point strictly backwards, into the plan. */
  predicate DepsEarlier(deps: seq<int>, i: int) {
    forall k :: 0 <= k < |deps| ==> 0 <= deps[k] < i
  }

  /** A step the validator lets through at position i. */
  predicate StepAccepted(tools: Registry, step: PlanStep, i: int) {
    && step.idx == i
    && step.tool in tools
    && DepsEarlier(step.dependsOn, i)
  }

  function Escalated(tools: Registry, step: PlanStep): PlanStep {
    if step.tool in tools && tools[step.tool] then step.(requiresApproval := true) else step
  }

  /** What the validator promises the engine about a plan it returned. */
  predicate Accepted(tools: Registry, plan: seq<PlanStep>) {
    && 0 < |plan|
    && forall i :: 0 <= i < |plan| ==>
         && StepAccepted(tools, plan[i], i)
         && (tools[plan[i].tool] ==> plan[i].requiresApproval)
  }

  /**
   `_validate`. It succeeds exactly on the plans of the right size whose every step is
   accepted; it then has escalated every step, and changed nothing else. When it raises, the
   error names the first step that is not accepted, and only earlier steps were escalated.
   */
  method Validate(tools: Registry, maxSteps: nat, steps: array<PlanStep>) returns (error: Option<PlanError>)
    modifies steps
    ensures error == None <==>
      && 0 < steps.Length <= maxSteps
      && forall i :: 0 <= i < steps.Length ==> StepAccepted(tools, old(steps[i]), i)
    ensures error == None ==>
      && Accepted(tools, steps[..])
      && forall i :: 0 <= i < steps.Length ==> steps[i] == Escalated(tools, old(steps[i]))
    ensures error == Some(EmptyPlan) <==> steps.Length == 0
    ensures error == Some(TooManySteps) <==> steps.Length > maxSteps && steps.Length > 0
    ensures error != None && 0 < steps.Length <= maxSteps ==>
      exists p: nat :: p < steps.Length
        && !StepAccepted(tools, old(steps[p]), p)
        && (forall i :: 0 <= i < p ==> StepAccepted(tools, old(steps[i]), i))
        && (error == Some(NotContiguous(p)) || error == Some(UnknownTool(p))
            || exists d :: error == Some(BadDependency(p, d)) && d in old(steps[p]).dependsOn && !(0 <= d < p))
        && (forall i :: 0 <= i < steps.Length ==>
              steps[i] == if i < p then Escalated(tools, old(steps[i])) else old(steps[i]))
  {
    if steps.Length == 0 {
      return Some(EmptyPlan);
    }
    if steps.Length > maxSteps {
      return Some(TooManySteps);
    }
    var seen: set<int> := {};
    for expected := 0 to steps.Length
      invariant forall x :: x in seen <==> 0 <= x < expected
      invariant forall i :: 0 <= i < expected ==> StepAccepted(tools, old(steps[i]), i)
      invariant forall i :: 0 <= i < steps.Length ==>
        steps[i] == if i < expected then Escalated(tools, old(steps[i])) else old(steps[i])
    {
      var step := steps[expected];
      if step.idx != expected {
        return Some(NotContiguous(expected));
      }
      seen := seen + {step.idx};
      if step.tool !in tools {
        return Some(UnknownTool(expected));
      }
      for k := 0 to |step.dependsOn|
        invariant forall j :: 0 <= j < k ==> 0 <= step.dependsOn[j] < expected
      {
        var dep := step.dependsOn[k];
        if dep !in seen || dep == step.idx {
          return Some(BadDependency(expected, dep));
        }
      }
      if tools[step.tool] && !step.requiresApproval {
        steps[expected] := step.(requiresApproval := true);
      }
    }
    return None;
  }

  /** The five shipped goals. */
  const RESEARCH: PlanStep := PlanStep(0, "research", [], false)
  const SCORE: PlanStep := PlanStep(1, "scoring", [0], false)
  const COMPOSE: PlanStep := PlanStep(2, "compose_message", [1], false)
  const SEND: PlanStep := PlanStep(3, "send_message", [2], true)

  function Recipe(goal: string): Option<seq<PlanStep>> {
    if goal == "research_account" then Some([RESEARCH, SCORE, COMPOSE, SEND])
    else if goal == "research_only" then Some([RESEARCH, SCORE])
    else if goal == "research_compose" then Some([RESEARCH, SCORE, COMPOSE])
    else if goal == "discover" then Some([PlanStep(0, "discovery", [], false)])
    else if goal == "setup_cadence" then Some([PlanStep(0, "setup_cadence", [], false)])
    else None
  }

  /** Every step depends on its predecessor: a plan without parallel branches. */
  predicate Chain(plan: seq<PlanStep>) {
    forall i :: 0 < i < |plan| ==> i - 1 in plan[i].dependsOn
  }

  lemma ShippedRecipesAreChains(goal: string)
    requires Recipe(goal).Some?
    ensures Chain(Recipe(goal).value) && Accepted(SHIPPED_TOOLS, Recipe(goal).value)
  {
    var plan := Recipe(goal).value;
    if |plan| >= 2 {
      assert 0 in plan[1].dependsOn;
    }
    if |plan| >= 3 {
      assert 1 in plan[2].dependsOn;
    }
    if |plan| >= 4 {
      assert 2 in plan[3].dependsOn;
    }
  }

  /** The goal has a recipe the validator lets through. */
  predicate Plannable(tools: Registry, maxSteps: nat, goal: string) {
    && Recipe(goal).Some? && |Recipe(goal).value| <= maxSteps
    && forall i :: 0 <= i < |Recipe(goal).value| ==> StepAccepted(tools, Recipe(goal).value[i], i)
  }

  /** The recipe with the approval flags of side-effecting tools raised. */
  predicate IsPlanFor(tools: Registry, goal: string, plan: seq<PlanStep>) {
    && Recipe(goal).Some? && |plan| == |Recipe(goal).value|
    && forall i :: 0 <= i < |plan| ==> plan[i] == Escalated(tools, Recipe(goal).value[i])
  }

  /** Some step of the plan runs this tool. */
  predicate Has(plan: seq<PlanStep>, tool: string) {
    exists i :: 0 <= i < |plan| && plan[i].tool == tool
  }

  /** Every step that runs `tool` depends on one that runs `before`. */
  predicate Behind(plan: seq<PlanStep>, tool: string, before: string) {
    forall i :: 0 <= i < |plan| && plan[i].tool == tool ==>
      exists d :: d in plan[i].dependsOn && 0 <= d < |plan| && plan[d].tool == before
  }

  /** The goals that begin with research. */
  predicate Researches(goal: string) {
    goal == "research_account" || goal == "research_compose" || goal == "research_only"
  }

  predicate Shipped(goal: string) {
    Researches(goal) || goal == "discover" || goal == "setup_cadence"
  }

  /** The tools of a plan for the goal: what it runs, and that it runs nothing else and nothing twice. */
  predicate Tooled(goal: string, plan: seq<PlanStep>) {
    && Shipped(goal)
    && (Has(plan, "send_message") <==> goal == "research_account")
    && (Has(plan, "compose_message") <==> goal == "research_account" || goal == "research_compose")
    && (Has(plan, "scoring") <==> Researches(goal))
    && (Has(plan, "research") <==> Researches(goal))
    && (Has(plan, "discovery") <==> goal == "discover")
    && (Has(plan, "setup_cadence") <==> goal == "setup_cadence")
    && (forall i :: 0 <= i < |plan| ==> plan[i].tool in SHIPPED_TOOLS)
    && (forall i, j :: 0 <= i < j < |plan| ==> plan[i].tool != plan[j].tool)
  }

  /** Sending waits for composing, composing for scoring, scoring for research. */
  ghost predicate Staged(plan: seq<PlanStep>) {
    && Behind(plan, "send_message", "compose_message")
    && Behind(plan, "compose_message", "scoring")
    && Behind(plan, "scoring", "research")
  }

  /** A gate at the send, at what the registry holds to be side-effecting, and nowhere else. */
  predicate GatedAtSend(tools: Registry, plan: seq<PlanStep>) {
    forall i :: 0 <= i < |plan| ==>
      (plan[i].requiresApproval <==>
         plan[i].tool == "send_message" || (plan[i].tool in tools && tools[plan[i].tool]))
  }

  /** What a plan handed out for a goal is. */
  ghost predicate Serves(tools: Registry, goal: string, plan: seq<PlanStep>) {
    Tooled(goal, plan) && Staged(plan) && GatedAtSend(tools, plan)
  }

  lemma PlanTools(tools: Registry, goal: string, plan: seq<PlanStep>)
    requires IsPlanFor(tools, goal, plan)
    ensures forall i :: 0 <= i < |plan| ==>
      plan[i].tool == Recipe(goal).value[i].tool && plan[i].dependsOn == Recipe(goal).value[i].dependsOn
  {
  }

  lemma ResearchTooled(goal: string, plan: seq<PlanStep>)
    requires Researches(goal) && |plan| == |Recipe(goal).value|
    requires forall i :: 0 <= i < |plan| ==> plan[i].tool == Recipe(goal).value[i].tool
    ensures Tooled(goal, plan)
  {
    assert plan[0].tool == "research" && plan[1].tool == "scoring";
    if |plan| >= 3 {
      assert plan[2].tool == "compose_message";
    }
    if |plan| >= 4 {
      assert plan[3].tool == "send_message";
    }
  }

  lemma SingleTooled(goal: string, plan: seq<PlanStep>)
    requires Shipped(goal) && !Researches(goal) && |plan| == |Recipe(goal).value|
    requires forall i :: 0 <= i < |plan| ==> plan[i].tool == Recipe(goal).value[i].tool
    ensures Tooled(goal, plan)
  {
    assert plan[0].tool == if goal == "discover" then "discovery" else "setup_cadence";
  }

  lemma PlanStaged(goal: string, plan: seq<PlanStep>)
    requires Shipped(goal) && |plan| == |Recipe(goal).value|
    requires forall i :: 0 <= i < |plan| ==>
      plan[i].tool == Recipe(goal).value[i].tool && plan[i].dependsOn == Recipe(goal).value[i].dependsOn
    ensures Staged(plan)
  {
    if Researches(goal) {
      assert plan[0].tool == "research" && plan[1].tool == "scoring" && 0 in plan[1].dependsOn;
      if |plan| >= 3 {
        assert plan[2].tool == "compose_message" && 1 in plan[2].dependsOn;
      }
      if |plan| >= 4 {
        assert plan[3].tool == "send_message" && 2 in plan[3].dependsOn;
      }
    }
  }

  lemma PlanGated(tools: Registry, goal: string, plan: seq<PlanStep>)
    requires IsPlanFor(tools, goal, plan)
    ensures GatedAtSend(tools, plan)
  {
    forall i | 0 <= i < |plan|
      ensures plan[i].requiresApproval <==>
        plan[i].tool == "send_message" || (plan[i].tool in tools && tools[plan[i].tool])
    {
      assert Recipe(goal).value[i].requiresApproval <==> Recipe(goal).value[i].tool == "send_message";
    }
  }

  lemma PlanServes(tools: Registry, goal: string, plan: seq<PlanStep>)
    requires IsPlanFor(tools, goal, plan)
    ensures Serves(tools, goal, plan)
  {
    PlanTools(tools, goal, plan);
    PlanGated(tools, goal, plan);
    assert Shipped(goal);
    hide Staged, Tooled, GatedAtSend, Recipe;
    PlanStaged(goal, plan);
    if Researches(goal) {
      ResearchTooled(goal, plan);
    } else {
      SingleTooled(goal, plan);
    }
  }

  /** `Planner.plan`: look the recipe up, validate it, hand the validated steps out. */
  method Plan(tools: Registry, maxSteps: nat, goal: string) returns (r: Result<seq<PlanStep>, PlanError>)
    ensures r.Ok? <==> Plannable(tools, maxSteps, goal)
    ensures r.Ok? ==> Accepted(tools, r.value) && |r.value| <= maxSteps && IsPlanFor(tools, goal, r.value)
    ensures r.Ok? ==> Serves(tools, goal, r.value)
    ensures r == Err(UnknownGoal) <==> !Shipped(goal)
    ensures tools == SHIPPED_TOOLS && maxSteps >= 4 && r != Err(UnknownGoal) ==> r.Ok?
  {
    var recipe := Recipe(goal);
    if recipe == None {
      return Err(UnknownGoal);
    }
    var n := |recipe.value|;
    var steps := new PlanStep[n](i requires 0 <= i < n => recipe.value[i]);
    ghost var start := steps[..];
    assert start == recipe.value;
    var error := Validate(tools, maxSteps, steps);
    assert error == None ==> forall i :: 0 <= i < n ==> StepAccepted(tools, start[i], i);
    if tools == SHIPPED_TOOLS {
      ShippedRecipesAreChains(goal);
      assert forall i :: 0 <= i < n ==> StepAccepted(tools, recipe.value[i], i);
    }
    if error.Some? {
      return Err(error.value);
    }
    if tools == SHIPPED_TOOLS {
      ShippedRecipesAreChains(goal);
      assert steps[..] == recipe.value;
    }
    PlanServes(tools, goal, steps[..]);
    return Ok(steps[..]);
  }
}
