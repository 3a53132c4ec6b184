/**
 Running a deployment plan: steps in order, skips, optional failures, cancellation, and a
 rollback in reverse order after a failure that stops the plan.
 */
module Runner {
  import opened Common

  type ComponentId = nat

  datatype StepKind = EnsureInstalled | ForceInstall | Update | Uninstall | Verify | EnsureDependencies

  datatype DeployStep = DeployStep(
    name: string, kind: StepKind, component: ComponentId, failFast: bool, rollbackOnFailure: bool)

  datatype StepStatus = StepOk | StepFailed | StepSkipped | StepCancelled

  datatype StepOutcome = StepOutcome(name: string, kind: StepKind, status: StepStatus)

  datatype DeployOutcome = DeployOutcome(ok: bool, steps: seq<StepOutcome>)

  datatype DeployError = EmptyPlan | DuplicateStepName(name: string) | RollbackFailed(step: string)

  datatype Event = Started(total: nat) | StepBegin(step: nat) | StepEnd(step: nat, ok: bool) | Finished(ok: bool)

  datatype Verb = Detecting | Installing | Updating | Uninstalling | Verifying | Preparing

  /** One call of a component, and whether it succeeded. */
  datatype Action = Action(verb: Verb, component: ComponentId, ok: bool)

  // ---------------------------------------------------------------- the components and their host

  class World {
    var installed: set<ComponentId>
    var clock: nat
    /** Which calls succeed. */
    const succeeds: nat -> bool
    /** Which failing calls have changed what is installed all the same. */
    const side: nat -> bool
    ghost var log: seq<Action>

    constructor (installed: set<ComponentId>, succeeds: nat -> bool, side: nat -> bool)
      ensures this.installed == installed && log == [] && clock == 0 && this.succeeds == succeeds && this.side == side
    {
      this.installed, clock, this.succeeds, this.side, log := installed, 0, succeeds, side, [];
    }

    /** Every call and check between these two moments went well. */
    ghost predicate AllWell(start: nat, end: nat) {
      forall i | start <= i < end :: succeeds(i)
    }

    lemma WellInParts(start: nat, mid: nat, end: nat)
      requires start <= mid <= end
      ensures AllWell(start, end) <==> AllWell(start, mid) && AllWell(mid, end)
    {
    }

    /** A component call: it may fail, and may leave its effect behind when it does. */
    method Act(verb: Verb, c: ComponentId, effect: set<ComponentId>) returns (ok: bool)
      modifies this
      ensures ok == succeeds(old(clock)) && clock == old(clock) + 1
      ensures log == old(log) + [Action(verb, c, ok)]
      ensures ok ==> installed == effect
      ensures installed == effect || installed == old(installed)
    {
      ok := succeeds(clock);
      if ok || side(clock) {
        installed := effect;
      }
      clock := clock + 1;
      log := log + [Action(verb, c, ok)];
    }

    /** A check that passes or not when the call itself succeeds. */
    method Check() returns (passed: bool)
      modifies this`clock
      ensures passed == succeeds(old(clock)) && clock == old(clock) + 1
    {
      passed := succeeds(clock);
      clock := clock + 1;
    }
  }

  /** How one step may change what is installed. */
  ghost predicate StepTrace(step: DeployStep, status: StepStatus, before: set<ComponentId>, after: set<ComponentId>) {
    var c := step.component;
    match status
    case StepCancelled => after == before
    case StepSkipped => step.kind == EnsureInstalled && c in before && after == before
    case StepOk =>
      (match step.kind
       case EnsureInstalled => c !in before && after == before + {c}
       case ForceInstall => after == before + {c}
       case Update => after == before + {c}
       case Uninstall => after == before - {c}
       case _ => after == before)
    case StepFailed =>
      (match step.kind
       case EnsureInstalled => after == before || (c !in before && after == before + {c})
       case ForceInstall => after == before || after == before + {c}
       case Update => after == before || after == before + {c}
       case Uninstall => after == before || after == before - {c}
       case _ => after == before)
  }

  /** The calls a step makes are about its component, and only an uninstall step uninstalls. */
  ghost predicate OfStep(step: DeployStep, a: Action) {
    a.component == step.component && (a.verb == Uninstalling <==> step.kind == Uninstall)
  }

  /** `run_single_step`. */
  method RunSingleStep(step: DeployStep, world: World) returns (status: StepStatus)
    modifies world
    ensures status != StepCancelled && StepTrace(step, status, old(world.installed), world.installed)
    ensures old(world.clock) < world.clock && (Done(status) <==> world.AllWell(old(world.clock), world.clock))
    ensures old(world.log) <= world.log && forall a | a in world.log[|old(world.log)|..] :: OfStep(step, a)
  {
    var c := step.component;
    var ok;
    match step.kind {
      case EnsureInstalled =>
        ok := world.Act(Detecting, c, world.installed);
        if !ok {
          return StepFailed;
        }
        if c in world.installed {
          return StepSkipped;
        }
        ok := world.Act(Installing, c, world.installed + {c});
      case ForceInstall =>
        ok := world.Act(Installing, c, world.installed + {c});
      case Update =>
        ok := world.Act(Updating, c, world.installed + {c});
      case Uninstall =>
        ok := world.Act(Uninstalling, c, world.installed - {c});
      case Verify =>
        ok := world.Act(Verifying, c, world.installed);
        if ok {
          ok := world.Check();
        }
      case EnsureDependencies =>
        ok := world.Act(Preparing, c, world.installed);
    }
    return if ok then StepOk else StepFailed;
  }

  // ---------------------------------------------------------------- rollback

  predicate Done(status: StepStatus) {
    status == StepOk || status == StepSkipped
  }

  /** The finished steps, skipped ones among them, in plan order. */
  function FinishedSteps(plan: seq<DeployStep>, outs: seq<StepOutcome>): seq<DeployStep>
    requires |outs| <= |plan|
  {
    if outs == [] then []
    else
      var n := |outs| - 1;
      FinishedSteps(plan, outs[..n]) + if Done(outs[n].status) then [plan[n]] else []
  }

  /** The components to uninstall: those of the flagged steps, last first. */
  function ToUndo(finished: seq<DeployStep>): seq<ComponentId> {
    if finished == [] then []
    else
      var n := |finished| - 1;
      (if finished[n].rollbackOnFailure then [finished[n].component] else []) + ToUndo(finished[..n])
  }

  /** Uninstalls of these components in this order, all successful except, if `!ok`, the last one. */
  ghost predicate Undoing(undo: seq<Action>, ok: bool, cs: seq<ComponentId>) {
    && |undo| <= |cs| && (ok ==> |undo| == |cs|) && (!ok ==> undo != [])
    && forall i | 0 <= i < |undo| :: undo[i] == Action(Uninstalling, cs[i], ok || i < |undo| - 1)
  }

  lemma ToUndoAppend(early: seq<DeployStep>, late: seq<DeployStep>)
    ensures ToUndo(early + late) == ToUndo(late) + ToUndo(early)
    decreases |late|
  {
    if late == [] {
      assert early + late == early;
    } else {
      var n, whole := |late| - 1, early + late;
      var mine := if late[n].rollbackOnFailure then [late[n].component] else [];
      assert whole[..|whole| - 1] == early + late[..n] && whole[|whole| - 1] == late[n];
      ToUndoAppend(early, late[..n]);
      assert ToUndo(whole) == mine + ToUndo(early + late[..n]) && ToUndo(late) == mine + ToUndo(late[..n]);
      assert mine + (ToUndo(late[..n]) + ToUndo(early)) == (mine + ToUndo(late[..n])) + ToUndo(early);
    }
  }

  lemma OneMoreUndone(completed: seq<DeployStep>, i: nat)
    requires i < |completed|
    ensures var mine := if completed[i].rollbackOnFailure then [completed[i].component] else [];
      ToUndo(completed[i..]) == ToUndo(completed[i + 1..]) + mine
      && Elements(ToUndo(completed[i..])) == Elements(ToUndo(completed[i + 1..])) + Elements(mine)
  {
    var step := completed[i];
    ToUndoAppend([step], completed[i + 1..]);
    assert completed[i..] == [step] + completed[i + 1..];
    assert [step][..0] == [] && ToUndo([step]) == if step.rollbackOnFailure then [step.component] else [];
  }

  lemma EmptyUndo(completed: seq<DeployStep>)
    ensures completed[|completed|..] == [] && ToUndo([]) == []
  {
  }

  lemma UndoingStops(undo: seq<Action>, late: seq<ComponentId>, early: seq<ComponentId>)
    requires Undoing(undo, false, late)
    ensures Undoing(undo, false, late + early)
  {
  }

  /** `rollback`. */
  method Rollback(world: World, completed: seq<DeployStep>) returns (ok: bool, ghost undo: seq<Action>)
    modifies world
    ensures Undoing(undo, ok, ToUndo(completed)) && world.log == old(world.log) + undo
    ensures old(world.clock) <= world.clock && (ok <==> world.AllWell(old(world.clock), world.clock))
    ensures ok ==> world.installed == old(world.installed) - Elements(ToUndo(completed))
  {
    hide ToUndo;
    undo := [];
    EmptyUndo(completed);
    for i := |completed| downto 0
      invariant Undoing(undo, true, ToUndo(completed[i..])) && world.log == old(world.log) + undo
      invariant old(world.clock) <= world.clock && world.AllWell(old(world.clock), world.clock)
      invariant world.installed == old(world.installed) - Elements(ToUndo(completed[i..]))
    {
      var step := completed[i];
      OneMoreUndone(completed, i);
      if step.rollbackOnFailure {
        ok := world.Act(Uninstalling, step.component, world.installed - {step.component});
        undo := undo + [Action(Uninstalling, step.component, ok)];
        if !ok {
          ToUndoAppend(completed[..i], completed[i..]);
          assert completed[..i] + completed[i..] == completed;
          UndoingStops(undo, ToUndo(completed[i..]), ToUndo(completed[..i]));
          return;
        }
      }
    }
    ok := true;
    assert completed[0..] == completed;
  }

  // ---------------------------------------------------------------- the run

  predicate DistinctNames(plan: seq<DeployStep>) {
    forall i, j | 0 <= i < j < |plan| :: plan[i].name != plan[j].name
  }

  /** `validate`. */
  method Validate(plan: seq<DeployStep>) returns (r: Option<DeployError>)
    ensures r.None? <==> plan != [] && DistinctNames(plan)
    ensures r == Some(EmptyPlan) <==> plan == []
    ensures r.Some? && r.value.DuplicateStepName? ==>
      exists i, j | 0 <= i < j < |plan| :: plan[i].name == plan[j].name == r.value.name
    ensures r.Some? ==> !r.value.RollbackFailed?
  {
    if plan == [] {
      return Some(EmptyPlan);
    }
    var seen: set<string> := {};
    for i := 0 to |plan|
      invariant DistinctNames(plan[..i]) && forall name :: name in seen <==> exists j | 0 <= j < i :: plan[j].name == name
    {
      if plan[i].name in seen {
        return Some(DuplicateStepName(plan[i].name));
      }
      seen := seen + {plan[i].name};
    }
    assert plan[..|plan|] == plan;
    return None;
  }

  /** The paired events of the steps that were begun. */
  function StepEvents(outs: seq<StepOutcome>): seq<Event> {
    if outs == [] then []
    else
      var n := |outs| - 1;
      StepEvents(outs[..n])
      + if outs[n].status == StepCancelled then [] else [StepBegin(n + 1), StepEnd(n + 1, Done(outs[n].status))]
  }

  /** A recorded run: outcomes for a prefix of the plan, and what was installed around each step. */
  ghost predicate Recorded(plan: seq<DeployStep>, outs: seq<StepOutcome>, sets: seq<set<ComponentId>>) {
    && |outs| <= |plan| && |sets| == |outs| + 1
    && forall i | 0 <= i < |outs| ::
         outs[i].name == plan[i].name && outs[i].kind == plan[i].kind
         && StepTrace(plan[i], outs[i].status, sets[i], sets[i + 1])
  }

  /** A step the loop goes on after. */
  predicate Passes(step: DeployStep, out: StepOutcome) {
    Done(out.status) || (out.status == StepFailed && !step.failFast)
  }

  ghost predicate AllPass(plan: seq<DeployStep>, outs: seq<StepOutcome>)
    requires |outs| <= |plan|
  {
    forall i | 0 <= i < |outs| :: Passes(plan[i], outs[i])
  }

  /** The last recorded step stopped the plan. */
  predicate Stopped(plan: seq<DeployStep>, outs: seq<StepOutcome>)
    requires |outs| <= |plan|
  {
    outs != [] && outs[|outs| - 1].status == StepFailed && plan[|outs| - 1].failFast
  }

  /** `DeployOutcome::new`. */
  function NewOutcome(outs: seq<StepOutcome>): (r: DeployOutcome)
    ensures r.ok <==> forall i | 0 <= i < |outs| :: Done(outs[i].status)
  {
    DeployOutcome(forall o | o in outs :: Done(o.status), outs)
  }

  /** How a run may end. */
  ghost predicate Ended(plan: seq<DeployStep>, outs: seq<StepOutcome>, undo: seq<Action>, r: Result<DeployOutcome, DeployError>) {
    && 0 < |outs| <= |plan|
    && (forall i | 0 <= i < |outs| - 1 :: Passes(plan[i], outs[i]))
    && (Passes(plan[|outs| - 1], outs[|outs| - 1]) ==> |outs| == |plan|)
    && (if Stopped(plan, outs) then
          Undoing(undo, r.Ok?, ToUndo(FinishedSteps(plan, outs)))
          && (r.Err? ==> r.error == RollbackFailed(plan[|outs| - 1].name))
        else undo == [] && r.Ok?)
    && (r.Ok? ==> r.value == NewOutcome(outs))
  }

  /** The calls of the steps, before any of the rollback. */
  ghost predicate CallsOfSteps(plan: seq<DeployStep>, n: nat, calls: seq<Action>)
    requires n <= |plan|
  {
    forall a | a in calls :: exists i :: 0 <= i < n && OfStep(plan[i], a)
  }

  lemma OneMoreOutcome(plan: seq<DeployStep>, outs: seq<StepOutcome>, out: StepOutcome)
    requires |outs| < |plan|
    ensures FinishedSteps(plan, outs + [out])
      == FinishedSteps(plan, outs) + if Done(out.status) then [plan[|outs|]] else []
    ensures !Done(out.status) ==> FinishedSteps(plan, outs + [out]) == FinishedSteps(plan, outs)
    ensures StepEvents(outs + [out]) == StepEvents(outs)
      + if out.status == StepCancelled then [] else [StepBegin(|outs| + 1), StepEnd(|outs| + 1, Done(out.status))]
    ensures AllPass(plan, outs + [out]) <==> AllPass(plan, outs) && Passes(plan[|outs|], out)
  {
    hide FinishedSteps, StepEvents, AllPass;
    FinishedMore(plan, outs, out);
    StepEventsMore(outs, out);
    AllPassMore(plan, outs, out);
  }

  lemma FinishedMore(plan: seq<DeployStep>, outs: seq<StepOutcome>, out: StepOutcome)
    requires |outs| < |plan|
    ensures FinishedSteps(plan, outs + [out])
      == FinishedSteps(plan, outs) + if Done(out.status) then [plan[|outs|]] else []
    ensures !Done(out.status) ==> FinishedSteps(plan, outs + [out]) == FinishedSteps(plan, outs)
  {
    hide Done;
    var more := outs + [out];
    assert more[..|outs|] == outs && more[|more| - 1] == out;
  }

  lemma StepEventsMore(outs: seq<StepOutcome>, out: StepOutcome)
    ensures StepEvents(outs + [out]) == StepEvents(outs)
      + if out.status == StepCancelled then [] else [StepBegin(|outs| + 1), StepEnd(|outs| + 1, Done(out.status))]
  {
    hide Done;
    var more := outs + [out];
    assert more[..|outs|] == outs && more[|more| - 1] == out;
  }

  lemma AllPassMore(plan: seq<DeployStep>, outs: seq<StepOutcome>, out: StepOutcome)
    requires |outs| < |plan|
    ensures AllPass(plan, outs + [out]) <==> AllPass(plan, outs) && Passes(plan[|outs|], out)
  {
    hide Passes;
    var more := outs + [out];
    assert forall i | 0 <= i < |outs| :: more[i] == outs[i];
    assert more[|outs|] == out;
  }

  lemma OneMoreRecord(plan: seq<DeployStep>, outs: seq<StepOutcome>, sets: seq<set<ComponentId>>, out: StepOutcome,
                      after: set<ComponentId>)
    requires Recorded(plan, outs, sets) && |outs| < |plan|
    requires out.name == plan[|outs|].name && out.kind == plan[|outs|].kind
    requires StepTrace(plan[|outs|], out.status, sets[|outs|], after)
    ensures Recorded(plan, outs + [out], sets + [after])
  {
    hide StepTrace;
  }

  lemma OneMoreStepCalls(plan: seq<DeployStep>, n: nat, early: seq<Action>, late: seq<Action>)
    requires n < |plan| && CallsOfSteps(plan, n, early) && forall a | a in late :: OfStep(plan[n], a)
    ensures CallsOfSteps(plan, n + 1, early + late)
  {
  }

  /** A cancelled or failed last step ends the run as `Ended` says. */
  lemma EndsHere(plan: seq<DeployStep>, outs: seq<StepOutcome>, out: StepOutcome, undo: seq<Action>, ok: bool,
                 r: Result<DeployOutcome, DeployError>)
    requires |outs| < |plan| && AllPass(plan, outs) && !Passes(plan[|outs|], out)
    requires if out.status == StepFailed then Undoing(undo, ok, ToUndo(FinishedSteps(plan, outs + [out]))) else undo == [] && ok
    requires r == if ok then Ok(NewOutcome(outs + [out])) else Err(RollbackFailed(plan[|outs|].name))
    ensures Ended(plan, outs + [out], undo, r)
  {
    hide Undoing, ToUndo, FinishedSteps;
    assert forall i | 0 <= i < |outs| :: (outs + [out])[i] == outs[i];
  }

  /** The steps' calls since `start`, the log read without the rollback at its end. */
  lemma WithoutUndo(log: seq<Action>, start: nat, undo: seq<Action>)
    requires start <= |log|
    ensures (log + undo)[|log|..] == undo && (log + undo)[start..|log|] == log[start..]
  {
  }

  /** No step failed. */
  predicate AllWent(outs: seq<StepOutcome>) {
    forall i | 0 <= i < |outs| :: outs[i].status != StepFailed
  }

  /** The steps not begun are those the caller cancelled. */
  predicate MarksCancelled(outs: seq<StepOutcome>, cancelled: nat -> bool) {
    forall i | 0 <= i < |outs| :: outs[i].status == StepCancelled <==> cancelled(i)
  }

  lemma OneMoreMark(outs: seq<StepOutcome>, out: StepOutcome, cancelled: nat -> bool)
    ensures AllWent(outs + [out]) <==> AllWent(outs) && out.status != StepFailed
    ensures MarksCancelled(outs + [out], cancelled)
      <==> MarksCancelled(outs, cancelled) && (out.status == StepCancelled <==> cancelled(|outs|))
  {
    var more := outs + [out];
    assert more[|outs|] == out && forall i | 0 <= i < |outs| :: more[i] == outs[i];
  }

  lemma NoMarks(cancelled: nat -> bool)
    ensures AllWent([]) && MarksCancelled([], cancelled)
  {
  }

  /** The end of a run at a step that failed fast. */
  method Stop(plan: seq<DeployStep>, world: World, outcomes: seq<StepOutcome>, completed: seq<DeployStep>, out: StepOutcome)
    returns (r: Result<DeployOutcome, DeployError>, ghost undo: seq<Action>)
    requires |outcomes| < |plan| && AllPass(plan, outcomes) && completed == FinishedSteps(plan, outcomes)
    requires out.status == StepFailed && plan[|outcomes|].failFast
    modifies world
    ensures Ended(plan, outcomes + [out], undo, r) && world.log == old(world.log) + undo
    ensures old(world.clock) <= world.clock && (r.Ok? <==> world.AllWell(old(world.clock), world.clock))
    ensures undo == [] ==> world.installed == old(world.installed)
    ensures r.Ok? ==>
      world.installed == old(world.installed) - Elements(ToUndo(FinishedSteps(plan, outcomes + [out])))
  {
    hide FinishedSteps, ToUndo, Elements;
    var ok;
    ok, undo := Rollback(world, completed);
    NothingUndone(undo, ok, ToUndo(completed));
    OneMoreOutcome(plan, outcomes, out);
    r := if ok then Ok(NewOutcome(outcomes + [out])) else Err(RollbackFailed(plan[|outcomes|].name));
    EndsHere(plan, outcomes, out, undo, ok, r);
  }

  /** A run that is cancelled before its next step. */
  lemma CancelsHere(plan: seq<DeployStep>, outs: seq<StepOutcome>)
    requires |outs| < |plan| && AllPass(plan, outs)
    ensures var out := StepOutcome(plan[|outs|].name, plan[|outs|].kind, StepCancelled);
      && !AllPass(plan, outs + [out]) && StepEvents(outs + [out]) == StepEvents(outs)
      && Ended(plan, outs + [out], [], Ok(NewOutcome(outs + [out])))
  {
    hide FinishedSteps, StepEvents, ToUndo, Undoing, Ended, AllPass;
    var out := StepOutcome(plan[|outs|].name, plan[|outs|].kind, StepCancelled);
    OneMoreOutcome(plan, outs, out);
    EndsHere(plan, outs, out, [], true, Ok(NewOutcome(outs + [out])));
    assert StepEvents(outs) + [] == StepEvents(outs);
  }

  lemma CancelledRecord(plan: seq<DeployStep>, outs: seq<StepOutcome>, sets: seq<set<ComponentId>>)
    requires |outs| < |plan| && Recorded(plan, outs, sets)
    ensures var out := StepOutcome(plan[|outs|].name, plan[|outs|].kind, StepCancelled);
      Recorded(plan, outs + [out], sets + [sets[|outs|]])
  {
    hide StepTrace;
    CancelledStays(plan[|outs|], sets[|outs|]);
    OneMoreRecord(plan, outs, sets, StepOutcome(plan[|outs|].name, plan[|outs|].kind, StepCancelled), sets[|outs|]);
  }

  /** `DeployPlan::run`. */
  method Run(plan: seq<DeployStep>, world: World, cancelled: nat -> bool)
    returns (r: Result<DeployOutcome, DeployError>, events: seq<Event>,
             ghost outs: seq<StepOutcome>, ghost sets: seq<set<ComponentId>>, ghost undo: seq<Action>)
    modifies world
    ensures plan == [] || !DistinctNames(plan) ==>
              r.Err? && !r.error.RollbackFailed? && events == [] && world.log == old(world.log)
              && world.installed == old(world.installed)
    ensures plan != [] && DistinctNames(plan) ==>
              && Recorded(plan, outs, sets) && sets[0] == old(world.installed) && Ended(plan, outs, undo, r)
              && events == [Started(|plan|)] + StepEvents(outs) + [Finished(AllPass(plan, outs))]
              && |old(world.log)| + |undo| <= |world.log| && old(world.log) <= world.log
              && world.log[|world.log| - |undo|..] == undo
              && MarksCancelled(outs, cancelled)
              && old(world.clock) <= world.clock
              && (world.AllWell(old(world.clock), world.clock) ==> AllWent(outs))
              && CallsOfSteps(plan, |outs|, world.log[|old(world.log)|..|world.log| - |undo|])
              && (undo == [] ==> world.installed == sets[|outs|])
              && (r.Ok? && Stopped(plan, outs) ==>
                    world.installed == sets[|outs|] - Elements(ToUndo(FinishedSteps(plan, outs))))
  {
    hide FinishedSteps, StepEvents, ToUndo, StepTrace, CallsOfSteps, OfStep, Elements, Undoing, DistinctNames, AllWent, MarksCancelled,
      World.AllWell;
    NoMarks(cancelled);
    outs, sets, undo, events := [], [world.installed], [], [];
    var invalid := Validate(plan);
    if invalid.Some? {
      return Err(invalid.value), [], outs, sets, undo;
    }
    events := [Started(|plan|)];
    var outcomes: seq<StepOutcome> := [];
    var completed: seq<DeployStep> := [];
    ghost var start := world.log;
    NothingYet(plan, start);
    for idx := 0 to |plan|
      invariant Recorded(plan, outcomes, sets) && |outcomes| == idx && sets[0] == old(world.installed)
      invariant AllPass(plan, outcomes) && completed == FinishedSteps(plan, outcomes)
      invariant events == [Started(|plan|)] + StepEvents(outcomes)
      invariant world.installed == sets[idx] && undo == [] && start <= world.log
      invariant old(world.clock) <= world.clock && (world.AllWell(old(world.clock), world.clock) ==> AllWent(outcomes))
      invariant MarksCancelled(outcomes, cancelled)
      invariant CallsOfSteps(plan, idx, world.log[|start|..])
    {
      var step := plan[idx];
      if cancelled(idx) {
        CancelsHere(plan, outcomes);
        OneMoreMark(outcomes, StepOutcome(step.name, step.kind, StepCancelled), cancelled);
        CancelledRecord(plan, outcomes, sets);
        OneMoreStepCalls(plan, idx, world.log[|start|..], []);
        assert world.log + [] == world.log && world.log[|start|..] + [] == world.log[|start|..];
        WithoutUndo(world.log, |start|, []);
        outcomes := outcomes + [StepOutcome(step.name, step.kind, StepCancelled)];
        outs, sets := outcomes, sets + [world.installed];
        return Ok(NewOutcome(outcomes)), events + [Finished(false)], outs, sets, undo;
      }
      ghost var before, now := world.log, world.clock;
      var status := RunSingleStep(step, world);
      var out := StepOutcome(step.name, step.kind, status);
      OneMoreOutcome(plan, outcomes, out);
      OneMoreMark(outcomes, out, cancelled);
      world.WellInParts(old(world.clock), now, world.clock);
      OneMoreRecord(plan, outcomes, sets, out, world.installed);
      OneMoreStepCalls(plan, idx, before[|start|..], world.log[|before|..]);
      assert world.log[|start|..] == before[|start|..] + world.log[|before|..];
      events := events + [StepBegin(idx + 1), StepEnd(idx + 1, Done(status))];
      sets := sets + [world.installed];
      if Done(status) {
        completed := completed + [step];
      } else if step.failFast {
        ghost var stopped, halted := world.log, world.clock;
        r, undo := Stop(plan, world, outcomes, completed, out);
        WithoutUndo(stopped, |start|, undo);
        world.WellInParts(old(world.clock), halted, world.clock);
        outs := outcomes + [out];
        events := events + [Finished(false)];
        return;
      }
      outcomes := outcomes + [out];
    }
    outs := outcomes;
    assert world.log + [] == world.log;
    WithoutUndo(world.log, |start|, []);
    return Ok(NewOutcome(outcomes)), events + [Finished(true)], outs, sets, undo;
  }

  lemma NothingUndone(undo: seq<Action>, ok: bool, cs: seq<ComponentId>)
    requires Undoing(undo, ok, cs)
    ensures undo == [] ==> ok && Elements(cs) == {}
  {
  }

  lemma NothingYet(plan: seq<DeployStep>, log: seq<Action>)
    ensures FinishedSteps(plan, []) == [] && StepEvents([]) == [] && CallsOfSteps(plan, 0, log[|log|..])
  {
  }

  lemma CancelledStays(step: DeployStep, installed: set<ComponentId>)
    ensures StepTrace(step, StepCancelled, installed, installed)
  {
  }

  // ---------------------------------------------------------------- what a run's end means

  /** The outcome is good exactly when every step of the plan was run and none failed. */
  lemma OkIffAllRan(plan: seq<DeployStep>, outs: seq<StepOutcome>, undo: seq<Action>, r: Result<DeployOutcome, DeployError>)
    requires Ended(plan, outs, undo, r) && r.Ok?
    ensures r.value.ok <==> |outs| == |plan| && forall i | 0 <= i < |plan| :: Done(outs[i].status)
  {
    if r.value.ok {
      assert Done(outs[|outs| - 1].status);
    }
  }

  /** `Finished { ok: true }` is sent exactly when the loop reached the end; the outcome then is
      bad all the same exactly when an optional step failed. */
  lemma FinishedTrueMeansTheEnd(plan: seq<DeployStep>, outs: seq<StepOutcome>, undo: seq<Action>,
                                r: Result<DeployOutcome, DeployError>)
    requires Ended(plan, outs, undo, r)
    ensures AllPass(plan, outs) <==> |outs| == |plan| && Passes(plan[|plan| - 1], outs[|plan| - 1])
    ensures AllPass(plan, outs) ==> r.Ok?
    ensures AllPass(plan, outs) ==>
      (!r.value.ok <==> exists i :: 0 <= i < |outs| && outs[i].status == StepFailed && !plan[i].failFast)
  {
    if AllPass(plan, outs) {
      assert Passes(plan[|outs| - 1], outs[|outs| - 1]);
      assert forall i | 0 <= i < |outs| :: Passes(plan[i], outs[i]);
    }
  }

  /** How many flagged finished steps there are from a place on. */
  function FlaggedFrom(plan: seq<DeployStep>, outs: seq<StepOutcome>, i: nat): nat
    requires |outs| <= |plan| && i <= |outs|
    decreases |outs| - i
  {
    if i == |outs| then 0
    else (if Done(outs[i].status) && plan[i].rollbackOnFailure then 1 else 0) + FlaggedFrom(plan, outs, i + 1)
  }

  lemma {:induction false} FlaggedFromPrefix(plan: seq<DeployStep>, outs: seq<StepOutcome>, i: nat)
    requires 0 < |outs| <= |plan| && i < |outs|
    ensures var n := |outs| - 1;
      FlaggedFrom(plan, outs, i)
      == FlaggedFrom(plan, outs[..n], i) + if Done(outs[n].status) && plan[n].rollbackOnFailure then 1 else 0
    decreases |outs| - i
  {
    if i < |outs| - 1 {
      FlaggedFromPrefix(plan, outs, i + 1);
    }
  }

  /** The `k`-th component the rollback uninstalls is that of a finished flagged step, after which
      exactly `k` others come: the order is the reverse of the plan's, and a step that failed is
      never among them. */
  lemma {:induction false} UndoneStep(plan: seq<DeployStep>, outs: seq<StepOutcome>, k: nat) returns (i: nat)
    requires |outs| <= |plan| && k < |ToUndo(FinishedSteps(plan, outs))|
    ensures i < |outs| && Done(outs[i].status) && plan[i].rollbackOnFailure
    ensures plan[i].component == ToUndo(FinishedSteps(plan, outs))[k] && FlaggedFrom(plan, outs, i + 1) == k
    decreases |outs|
  {
    var n := |outs| - 1;
    var early := FinishedSteps(plan, outs[..n]);
    if Done(outs[n].status) {
      assert FinishedSteps(plan, outs)[..|early|] == early;
      if plan[n].rollbackOnFailure && k == 0 {
        return n;
      }
    } else {
      assert FinishedSteps(plan, outs) == early;
    }
    var flagged := Done(outs[n].status) && plan[n].rollbackOnFailure;
    i := UndoneStep(plan, outs[..n], if flagged then k - 1 else k);
    FlaggedFromPrefix(plan, outs, i + 1);
  }

  /** Every finished flagged step is undone. */
  lemma {:induction false} FlaggedUndone(plan: seq<DeployStep>, outs: seq<StepOutcome>, i: nat)
    requires |outs| <= |plan| && i < |outs| && Done(outs[i].status) && plan[i].rollbackOnFailure
    ensures plan[i].component in ToUndo(FinishedSteps(plan, outs))
    decreases |outs|
  {
    var n := |outs| - 1;
    var early := FinishedSteps(plan, outs[..n]);
    if Done(outs[n].status) {
      assert FinishedSteps(plan, outs)[..|early|] == early;
    } else {
      assert FinishedSteps(plan, outs) == early;
    }
    if i < n {
      FlaggedUndone(plan, outs[..n], i);
    }
  }

  // ---------------------------------------------------------------- what a rollback restores

  /** What is installed after a rollback that succeeded. */
  ghost function AfterRollback(plan: seq<DeployStep>, outs: seq<StepOutcome>, sets: seq<set<ComponentId>>): set<ComponentId>
    requires |outs| <= |plan| && |sets| == |outs| + 1
  {
    sets[|outs|] - Elements(ToUndo(FinishedSteps(plan, outs)))
  }

  /** Each finished step really installed an absent component and is flagged; each failed one left
      nothing behind. */
  ghost predicate RealInstalls(plan: seq<DeployStep>, outs: seq<StepOutcome>, sets: seq<set<ComponentId>>)
    requires Recorded(plan, outs, sets)
  {
    forall i | 0 <= i < |outs| :: RealInstall(plan[i], outs[i].status, sets[i], sets[i + 1])
  }

  predicate RealInstall(step: DeployStep, status: StepStatus, before: set<ComponentId>, after: set<ComponentId>) {
    if Done(status) then
      step.rollbackOnFailure && status == StepOk && step.component !in before && after == before + {step.component}
    else after == before
  }

  lemma RealInstallsPrefix(plan: seq<DeployStep>, outs: seq<StepOutcome>, sets: seq<set<ComponentId>>)
    requires Recorded(plan, outs, sets) && RealInstalls(plan, outs, sets) && outs != []
    ensures var n := |outs| - 1;
      && Recorded(plan, outs[..n], sets[..n + 1]) && RealInstalls(plan, outs[..n], sets[..n + 1])
      && RealInstall(plan[n], outs[n].status, sets[n], sets[n + 1])
  {
    hide StepTrace, RealInstall;
    var n := |outs| - 1;
    var outs', sets' := outs[..n], sets[..n + 1];
    assert forall i | 0 <= i < n :: outs'[i] == outs[i];
    assert forall i | 0 <= i <= n :: sets'[i] == sets[i];
  }

  lemma {:induction false} RealInstallsAdd(plan: seq<DeployStep>, outs: seq<StepOutcome>, sets: seq<set<ComponentId>>)
    requires Recorded(plan, outs, sets) && RealInstalls(plan, outs, sets)
    ensures sets[|outs|] == sets[0] + Elements(ToUndo(FinishedSteps(plan, outs)))
    ensures sets[0] !! Elements(ToUndo(FinishedSteps(plan, outs)))
    decreases |outs|
  {
    if outs != [] {
      var n := |outs| - 1;
      var early := FinishedSteps(plan, outs[..n]);
      RealInstallsPrefix(plan, outs, sets);
      RealInstallsAdd(plan, outs[..n], sets[..n + 1]);
      if Done(outs[n].status) {
        assert FinishedSteps(plan, outs)[..|early|] == early;
        assert ToUndo(FinishedSteps(plan, outs)) == [plan[n].component] + ToUndo(early);
        assert Elements([plan[n].component] + ToUndo(early)) == {plan[n].component} + Elements(ToUndo(early));
      } else {
        assert FinishedSteps(plan, outs) == early;
      }
    }
  }

  /** Then the rollback restores exactly what was installed at the start. */
  lemma RealInstallsRestore(plan: seq<DeployStep>, outs: seq<StepOutcome>, sets: seq<set<ComponentId>>)
    requires Recorded(plan, outs, sets) && RealInstalls(plan, outs, sets)
    ensures AfterRollback(plan, outs, sets) == sets[0]
  {
    RealInstallsAdd(plan, outs, sets);
  }

  /** A flagged step that was skipped because its component was there from the start loses it. */
  lemma SkippedFlaggedStepIsLost(plan: seq<DeployStep>, outs: seq<StepOutcome>, sets: seq<set<ComponentId>>, i: nat)
    requires Recorded(plan, outs, sets) && i < |outs| && Done(outs[i].status) && plan[i].rollbackOnFailure
    requires plan[i].component in sets[0]
    ensures AfterRollback(plan, outs, sets) != sets[0]
  {
    FlaggedUndone(plan, outs, i);
  }

  /** In general the start is restored exactly when nothing from before was lost or uninstalled and
      everything new belongs to a flagged finished step. */
  lemma RestoredIff(plan: seq<DeployStep>, outs: seq<StepOutcome>, sets: seq<set<ComponentId>>)
    requires Recorded(plan, outs, sets)
    ensures AfterRollback(plan, outs, sets) == sets[0] <==>
      && sets[0] <= sets[|outs|]
      && (forall i | 0 <= i < |outs| && Done(outs[i].status) && plan[i].rollbackOnFailure :: plan[i].component !in sets[0])
      && (forall c | c in sets[|outs|] && c !in sets[0] ::
            exists i :: 0 <= i < |outs| && Done(outs[i].status) && plan[i].rollbackOnFailure && plan[i].component == c)
  {
    var gone := Elements(ToUndo(FinishedSteps(plan, outs)));
    forall c
      ensures c in gone <==>
        exists i :: 0 <= i < |outs| && Done(outs[i].status) && plan[i].rollbackOnFailure && plan[i].component == c
    {
      if c in gone {
        var k :| 0 <= k < |ToUndo(FinishedSteps(plan, outs))| && ToUndo(FinishedSteps(plan, outs))[k] == c;
        var i := UndoneStep(plan, outs, k);
      }
      if i :| 0 <= i < |outs| && Done(outs[i].status) && plan[i].rollbackOnFailure && plan[i].component == c {
        FlaggedUndone(plan, outs, i);
      }
    }
  }
}
