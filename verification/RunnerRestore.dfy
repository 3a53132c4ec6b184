/**
 For which plans a rollback restores what was installed: a condition on the plan, the step it stops
 at and the components installed before, for stops whose failed calls leave nothing behind.
 */
module RunnerRestore {
  import opened Runner

  type Components = set<ComponentId>

  predicate Installs(kind: StepKind) {
    kind == EnsureInstalled || kind == ForceInstall || kind == Update
  }

  /** A step that is sure to have finished when a later one stops the plan. */
  predicate Surely(step: DeployStep, c: ComponentId) {
    step.failFast && step.component == c
  }

  /** Nothing of the start is put at risk: no step before the stop is flagged for it, and where one
      uninstalls it a later step is sure to bring it back. */
  predicate KeepsOld(plan: seq<DeployStep>, start: Components, n: nat)
    requires n <= |plan|
  {
    forall i | 0 <= i < n && plan[i].component in start ::
      !plan[i].rollbackOnFailure && (plan[i].kind == Uninstall ==> BroughtBack(plan, n, i))
  }

  predicate BroughtBack(plan: seq<DeployStep>, n: nat, i: nat)
    requires i < n <= |plan|
  {
    exists k | i < k < n :: Surely(plan[k], plan[i].component) && Installs(plan[k].kind)
  }

  /** Nothing new can stay: its step is flagged, or another flagged step of the same component is sure
      to finish, or a later step is sure to uninstall it. */
  predicate DropsNew(plan: seq<DeployStep>, start: Components, n: nat)
    requires n <= |plan|
  {
    forall i | 0 <= i < n && plan[i].component !in start && Installs(plan[i].kind) ::
      plan[i].rollbackOnFailure || FlaggedElsewhere(plan, n, i) || TakenOut(plan, n, i)
  }

  predicate FlaggedElsewhere(plan: seq<DeployStep>, n: nat, i: nat)
    requires i < n <= |plan|
  {
    exists j | 0 <= j < n :: Surely(plan[j], plan[i].component) && plan[j].rollbackOnFailure
  }

  predicate TakenOut(plan: seq<DeployStep>, n: nat, i: nat)
    requires i < n <= |plan|
  {
    exists k | i < k < n :: Surely(plan[k], plan[i].component) && plan[k].kind == Uninstall
  }

  /** The run stopped at step `n`, and its failed calls left nothing behind. */
  ghost predicate CleanStop(plan: seq<DeployStep>, start: Components, n: nat, outs: seq<StepOutcome>, sets: seq<Components>)
    requires n < |plan|
  {
    && |outs| == n + 1 && Recorded(plan, outs, sets) && sets[0] == start && Stopped(plan, outs)
    && (forall i | 0 <= i < n :: Passes(plan[i], outs[i]))
    && forall i | 0 <= i <= n && outs[i].status == StepFailed :: sets[i + 1] == sets[i]
  }

  // ---------------------------------------------------------------- what is installed at a moment

  /** Step `i` has finished with an effect of this sort on `c`. */
  predicate Took(plan: seq<DeployStep>, outs: seq<StepOutcome>, i: nat, c: ComponentId) {
    i < |outs| <= |plan| && Done(outs[i].status) && plan[i].component == c && plan[i].kind == Uninstall
  }

  predicate Gave(plan: seq<DeployStep>, outs: seq<StepOutcome>, i: nat, c: ComponentId) {
    i < |outs| <= |plan| && Done(outs[i].status) && plan[i].component == c && Installs(plan[i].kind)
  }

  ghost predicate NotTakenSince(plan: seq<DeployStep>, outs: seq<StepOutcome>, i: nat, m: nat, c: ComponentId) {
    forall u: nat | i <= u < m :: !Took(plan, outs, u, c)
  }

  ghost predicate GivenLast(plan: seq<DeployStep>, outs: seq<StepOutcome>, m: nat, c: ComponentId) {
    exists i: nat | i < m :: Gave(plan, outs, i, c) && NotTakenSince(plan, outs, i, m, c)
  }

  /** A component is there exactly when it was there and nothing took it, or something gave it and
      nothing took it since. */
  lemma {:induction false} Presence(plan: seq<DeployStep>, start: Components, n: nat, outs: seq<StepOutcome>,
                                    sets: seq<Components>, m: nat, c: ComponentId)
    requires n < |plan| && CleanStop(plan, start, n, outs, sets) && m <= n + 1
    ensures c in sets[m] <==> (c in start && NotTakenSince(plan, outs, 0, m, c)) || GivenLast(plan, outs, m, c)
  {
    hide Recorded, Stopped, Passes;
    if m > 0 {
      Presence(plan, start, n, outs, sets, m - 1, c);
      OneStep(plan, start, n, outs, sets, m - 1, c);
      if Took(plan, outs, m - 1, c) {
        assert !Gave(plan, outs, m - 1, c);
      } else if GivenLast(plan, outs, m - 1, c) {
        var i: nat :| i < m - 1 && Gave(plan, outs, i, c) && NotTakenSince(plan, outs, i, m - 1, c);
        assert NotTakenSince(plan, outs, i, m, c);
      } else if Gave(plan, outs, m - 1, c) {
        assert NotTakenSince(plan, outs, m - 1, m, c);
      } else {
        StillNotGiven(plan, outs, m, c);
      }
    }
  }

  lemma StillNotGiven(plan: seq<DeployStep>, outs: seq<StepOutcome>, m: nat, c: ComponentId)
    requires m > 0 && !GivenLast(plan, outs, m - 1, c) && !Gave(plan, outs, m - 1, c)
    ensures !GivenLast(plan, outs, m, c)
  {
    hide Gave, Took;
    forall i: nat | i < m - 1 && Gave(plan, outs, i, c) ensures !NotTakenSince(plan, outs, i, m, c) {
      assert !NotTakenSince(plan, outs, i, m - 1, c);
    }
  }

  lemma OneStep(plan: seq<DeployStep>, start: Components, n: nat, outs: seq<StepOutcome>, sets: seq<Components>, i: nat,
                c: ComponentId)
    requires n < |plan| && CleanStop(plan, start, n, outs, sets) && i <= n
    ensures c in sets[i + 1] <==> Gave(plan, outs, i, c) || (c in sets[i] && !Took(plan, outs, i, c))
  {
    assert StepTrace(plan[i], outs[i].status, sets[i], sets[i + 1]);
    if i < n {
      assert Passes(plan[i], outs[i]);
    }
  }

  // ---------------------------------------------------------------- the condition is enough

  lemma SureStepsFinished(plan: seq<DeployStep>, start: Components, n: nat, outs: seq<StepOutcome>, sets: seq<Components>)
    requires n < |plan| && CleanStop(plan, start, n, outs, sets)
    ensures forall i | 0 <= i < n && plan[i].failFast :: Done(outs[i].status)
    ensures !Done(outs[n].status)
  {
    forall i | 0 <= i < n && plan[i].failFast ensures Done(outs[i].status) {
      assert Passes(plan[i], outs[i]);
    }
  }

  lemma {:induction false} LastTaken(plan: seq<DeployStep>, outs: seq<StepOutcome>, m: nat, c: ComponentId) returns (u: nat)
    requires !NotTakenSince(plan, outs, 0, m, c)
    ensures u < m && Took(plan, outs, u, c) && NotTakenSince(plan, outs, u + 1, m, c)
  {
    hide Took;
    if Took(plan, outs, m - 1, c) {
      u := m - 1;
    } else {
      u := LastTaken(plan, outs, m - 1, c);
    }
  }

  lemma OldStays(plan: seq<DeployStep>, start: Components, n: nat, outs: seq<StepOutcome>, sets: seq<Components>,
                 c: ComponentId)
    requires n < |plan| && CleanStop(plan, start, n, outs, sets) && KeepsOld(plan, start, n) && c in start
    ensures c in sets[n + 1]
  {
    hide Recorded, Stopped;
    Presence(plan, start, n, outs, sets, n + 1, c);
    SureStepsFinished(plan, start, n, outs, sets);
    if !NotTakenSince(plan, outs, 0, n + 1, c) {
      var u := LastTaken(plan, outs, n + 1, c);
      assert u < n && BroughtBack(plan, n, u);
      var k :| u < k < n && Surely(plan[k], c) && Installs(plan[k].kind);
      assert Gave(plan, outs, k, c) && NotTakenSince(plan, outs, k, n + 1, c);
    }
  }

  ghost predicate UndoneFor(plan: seq<DeployStep>, outs: seq<StepOutcome>, c: ComponentId)
    requires |outs| <= |plan|
  {
    exists i :: 0 <= i < |outs| && Done(outs[i].status) && plan[i].rollbackOnFailure && plan[i].component == c
  }

  lemma NewGoes(plan: seq<DeployStep>, start: Components, n: nat, outs: seq<StepOutcome>, sets: seq<Components>,
                c: ComponentId)
    requires n < |plan| && CleanStop(plan, start, n, outs, sets) && DropsNew(plan, start, n)
    requires c in sets[n + 1] && c !in start
    ensures |outs| <= |plan| && UndoneFor(plan, outs, c)
  {
    hide Recorded, Stopped;
    Presence(plan, start, n, outs, sets, n + 1, c);
    SureStepsFinished(plan, start, n, outs, sets);
    var i: nat :| i < n + 1 && Gave(plan, outs, i, c) && NotTakenSince(plan, outs, i, n + 1, c);
    forall k | i < k < n && Surely(plan[k], c) ensures plan[k].kind != Uninstall {
      assert Done(outs[k].status) && !Took(plan, outs, k, c);
    }
    if FlaggedElsewhere(plan, n, i) {
      var j :| 0 <= j < n && Surely(plan[j], c) && plan[j].rollbackOnFailure;
      assert Done(outs[j].status);
    }
  }

  lemma EnoughToRestore(plan: seq<DeployStep>, start: Components, n: nat, outs: seq<StepOutcome>, sets: seq<Components>)
    requires n < |plan| && CleanStop(plan, start, n, outs, sets)
    requires KeepsOld(plan, start, n) && DropsNew(plan, start, n)
    ensures AfterRollback(plan, outs, sets) == start
  {
    hide AfterRollback, StepTrace;
    RestoredIff(plan, outs, sets);
    SureStepsFinished(plan, start, n, outs, sets);
    forall c | c in start ensures c in sets[n + 1] {
      OldStays(plan, start, n, outs, sets, c);
    }
    forall c | c in sets[n + 1] && c !in start ensures UndoneFor(plan, outs, c) {
      NewGoes(plan, start, n, outs, sets, c);
    }
  }

  // ---------------------------------------------------------------- and needed

  /** The run in which the optional steps before the stop fail, except perhaps one. */
  function StatusIn(plan: seq<DeployStep>, n: nat, lucky: nat, i: nat, before: Components): StepStatus
    requires i < |plan|
  {
    if i == n || !(plan[i].failFast || i == lucky) then StepFailed
    else if plan[i].kind == EnsureInstalled && plan[i].component in before then StepSkipped
    else StepOk
  }

  function Effect(step: DeployStep, status: StepStatus, before: Components): Components {
    if status != StepOk then before
    else if Installs(step.kind) then before + {step.component}
    else if step.kind == Uninstall then before - {step.component}
    else before
  }

  function SetIn(plan: seq<DeployStep>, start: Components, n: nat, lucky: nat, m: nat): Components
    requires m <= |plan|
  {
    if m == 0 then start
    else
      var before := SetIn(plan, start, n, lucky, m - 1);
      Effect(plan[m - 1], StatusIn(plan, n, lucky, m - 1, before), before)
  }

  function OutsIn(plan: seq<DeployStep>, start: Components, n: nat, lucky: nat): seq<StepOutcome>
    requires n < |plan|
  {
    seq(n + 1, i requires 0 <= i <= n =>
      StepOutcome(plan[i].name, plan[i].kind, StatusIn(plan, n, lucky, i, SetIn(plan, start, n, lucky, i))))
  }

  function SetsIn(plan: seq<DeployStep>, start: Components, n: nat, lucky: nat): seq<Components>
    requires n < |plan|
  {
    seq(n + 2, m requires 0 <= m <= n + 1 => SetIn(plan, start, n, lucky, m))
  }

  lemma UnluckyStop(plan: seq<DeployStep>, start: Components, n: nat, lucky: nat)
    requires n < |plan| && plan[n].failFast
    ensures CleanStop(plan, start, n, OutsIn(plan, start, n, lucky), SetsIn(plan, start, n, lucky))
    ensures forall i | 0 <= i <= n :: Done(OutsIn(plan, start, n, lucky)[i].status) <==> i < n && (plan[i].failFast || i == lucky)
  {
    hide StatusIn, Effect, StepTrace, SetIn;
    var outs, sets := OutsIn(plan, start, n, lucky), SetsIn(plan, start, n, lucky);
    NextSet(plan, start, n, lucky, 0);
    forall i | 0 <= i <= n
      ensures StepTrace(plan[i], outs[i].status, sets[i], sets[i + 1])
      ensures outs[i].status != StepCancelled && (outs[i].status == StepFailed ==> sets[i + 1] == sets[i])
      ensures Done(outs[i].status) <==> i < n && (plan[i].failFast || i == lucky)
    {
      NextSet(plan, start, n, lucky, i);
      UnluckyStep(plan, n, lucky, i, sets[i]);
    }
  }

  lemma NextSet(plan: seq<DeployStep>, start: Components, n: nat, lucky: nat, i: nat)
    requires i < |plan|
    ensures SetIn(plan, start, n, lucky, 0) == start
    ensures var before := SetIn(plan, start, n, lucky, i);
      SetIn(plan, start, n, lucky, i + 1) == Effect(plan[i], StatusIn(plan, n, lucky, i, before), before)
  {
  }

  lemma UnluckyStep(plan: seq<DeployStep>, n: nat, lucky: nat, i: nat, before: Components)
    requires i < |plan|
    ensures var status := StatusIn(plan, n, lucky, i, before);
      && StepTrace(plan[i], status, before, Effect(plan[i], status, before))
      && (status == StepFailed ==> Effect(plan[i], status, before) == before)
      && (Done(status) <==> i != n && (plan[i].failFast || i == lucky)) && status != StepCancelled
  {
  }

  lemma OldIsLost(plan: seq<DeployStep>, start: Components, n: nat, i: nat)
    requires n < |plan| && plan[n].failFast && i < n && plan[i].component in start
    requires plan[i].rollbackOnFailure || (plan[i].kind == Uninstall && !BroughtBack(plan, n, i))
    ensures var outs, sets := OutsIn(plan, start, n, i), SetsIn(plan, start, n, i);
      CleanStop(plan, start, n, outs, sets) && AfterRollback(plan, outs, sets) != start
  {
    hide OutsIn, SetsIn, AfterRollback, Recorded, Stopped;
    var outs, sets := OutsIn(plan, start, n, i), SetsIn(plan, start, n, i);
    var c := plan[i].component;
    UnluckyStop(plan, start, n, i);
    RestoredIff(plan, outs, sets);
    if !plan[i].rollbackOnFailure {
      Presence(plan, start, n, outs, sets, n + 1, c);
      assert Took(plan, outs, i, c);
      forall k: nat | k < n + 1 && Gave(plan, outs, k, c) ensures !NotTakenSince(plan, outs, k, n + 1, c) {
        assert k < i || Surely(plan[k], c);
      }
    }
  }

  lemma NewStays(plan: seq<DeployStep>, start: Components, n: nat, i: nat)
    requires n < |plan| && plan[n].failFast && i < n && plan[i].component !in start && Installs(plan[i].kind)
    requires !plan[i].rollbackOnFailure && !FlaggedElsewhere(plan, n, i) && !TakenOut(plan, n, i)
    ensures var outs, sets := OutsIn(plan, start, n, i), SetsIn(plan, start, n, i);
      CleanStop(plan, start, n, outs, sets) && AfterRollback(plan, outs, sets) != start
  {
    hide OutsIn, SetsIn, AfterRollback, Recorded, Stopped;
    var outs, sets := OutsIn(plan, start, n, i), SetsIn(plan, start, n, i);
    var c := plan[i].component;
    UnluckyStop(plan, start, n, i);
    RestoredIff(plan, outs, sets);
    Presence(plan, start, n, outs, sets, n + 1, c);
    assert Gave(plan, outs, i, c);
    forall u: nat | i <= u < n + 1 ensures !Took(plan, outs, u, c) {
      assert Surely(plan[u], c) || !Took(plan, outs, u, c);
    }
    assert GivenLast(plan, outs, n + 1, c);
    forall j | 0 <= j < |outs| && Done(outs[j].status) && plan[j].rollbackOnFailure ensures plan[j].component != c {
      assert Surely(plan[j], c) || plan[j].component != c;
    }
  }

  /** Every run that stops at step `n`, with failed calls that leave nothing behind and a rollback that
      succeeds, ends with what was installed before, if and only if the plan keeps the old and drops
      the new. */
  lemma StopRestoresIff(plan: seq<DeployStep>, start: Components, n: nat)
    requires n < |plan| && plan[n].failFast
    ensures KeepsOld(plan, start, n) && DropsNew(plan, start, n)
      <==> forall outs, sets | CleanStop(plan, start, n, outs, sets) :: AfterRollback(plan, outs, sets) == start
  {
    hide AfterRollback, OutsIn, SetsIn, Stopped, Passes, StepTrace;
    if KeepsOld(plan, start, n) && DropsNew(plan, start, n) {
      forall outs, sets | CleanStop(plan, start, n, outs, sets) ensures AfterRollback(plan, outs, sets) == start {
        EnoughToRestore(plan, start, n, outs, sets);
      }
    } else if i :| 0 <= i < n && plan[i].component in start
                   && (plan[i].rollbackOnFailure || (plan[i].kind == Uninstall && !BroughtBack(plan, n, i))) {
      OldIsLost(plan, start, n, i);
    } else {
      var i :| 0 <= i < n && plan[i].component !in start && Installs(plan[i].kind)
               && !plan[i].rollbackOnFailure && !FlaggedElsewhere(plan, n, i) && !TakenOut(plan, n, i);
      NewStays(plan, start, n, i);
    }
  }
}
