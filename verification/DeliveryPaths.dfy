/** Runs of the protocol put together step by step. */
module DeliveryPaths {
  import opened Delivery

  /** The steps lead from one state to the other, each enabled where it is taken. */
  ghost predicate Path(cfg: Config, s: State, steps: seq<Step>, after: State)
    decreases |steps|
  {
    if steps == [] then after == s
    else Enabled(cfg, s, steps[0]) && Path(cfg, Apply(cfg, s, steps[0]), steps[1..], after)
  }

  lemma PathOfOne(cfg: Config, s: State, step: Step)
    requires Enabled(cfg, s, step)
    ensures Path(cfg, s, [step], Apply(cfg, s, step))
  {
    hide Apply, Enabled;
    assert [step][1..] == [];
    assert Path(cfg, Apply(cfg, s, step), [], Apply(cfg, s, step));
  }

  lemma {:induction false} PathJoin(cfg: Config, s: State, first: seq<Step>, middle: State, second: seq<Step>,
      after: State)
    requires Path(cfg, s, first, middle) && Path(cfg, middle, second, after)
    ensures Path(cfg, s, first + second, after)
    decreases |first|
  {
    hide Apply, Enabled;
    if first == [] {
      assert first + second == second;
    } else {
      assert (first + second)[1..] == first[1..] + second;
      PathJoin(cfg, Apply(cfg, s, first[0]), first[1..], middle, second, after);
    }
  }

  /** A path on from the end of a run makes a longer run. */
  lemma {:induction false} PathExtendsRun(cfg: Config, states: seq<State>, taken: seq<Step>, steps: seq<Step>,
      after: State)
      returns (all: seq<State>)
    requires Execution(cfg, states, taken) && Path(cfg, states[|taken|], steps, after)
    ensures Execution(cfg, all, taken + steps) && all[|taken + steps|] == after
    decreases |steps|
  {
    hide Apply, Enabled;
    if steps == [] {
      all := states;
      assert taken + steps == taken;
    } else {
      var next := Apply(cfg, states[|taken|], steps[0]);
      assert Path(cfg, next, steps[1..], after);
      all := PathExtendsRun(cfg, states + [next], taken + [steps[0]], steps[1..], after);
      assert taken + [steps[0]] + steps[1..] == taken + steps;
    }
  }

  /** The step is one of task `t`. */
  predicate ActsFor(step: Step, t: nat) {
    !step.Prune? && !step.SweepQueue? && !step.JobEnds? && !step.Crash? && !step.Restart? && step.t == t
  }

  predicate AllActFor(steps: seq<Step>, t: nat) {
    forall k :: 0 <= k < |steps| ==> ActsFor(steps[k], t)
  }

  /** Steps of task `t` alone lead from one state to the other. */
  ghost predicate Leads(cfg: Config, t: nat, s: State, steps: seq<Step>, after: State) {
    AllActFor(steps, t) && Path(cfg, s, steps, after)
  }

  lemma LeadsOn(cfg: Config, t: nat, s: State, first: seq<Step>, middle: State, second: seq<Step>, after: State)
    requires Leads(cfg, t, s, first, middle) && Leads(cfg, t, middle, second, after)
    ensures Leads(cfg, t, s, first + second, after)
  {
    PathJoin(cfg, s, first, middle, second, after);
  }

  lemma LeadsByOne(cfg: Config, t: nat, s: State, step: Step)
    requires ActsFor(step, t) && Enabled(cfg, s, step)
    ensures Leads(cfg, t, s, [step], Apply(cfg, s, step))
  {
    PathOfOne(cfg, s, step);
  }

  lemma LeadsNowhere(cfg: Config, t: nat, s: State)
    ensures Leads(cfg, t, s, [], s)
  {
  }
}
