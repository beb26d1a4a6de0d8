/**
 * The run loop every Intcode machine uses: apply one instruction after
 * another until a stop condition holds. `execute_instructions` stops on
 * completion or on a pending output, `run_until_num_out` on an output
 * count; both are this loop with a different `stopped`. The source's
 * loops run for as long as it takes, so the model bounds them by `fuel`.
 */
module IntcodeRun {
  import opened IntcodeCommon

  datatype Outcome<S> = Stopped(state: S) | OutOfFuel(state: S) | Crashed(fault: Fault)

  /** How a bounded run loop of one of the machine classes ended. */
  datatype Status = Returned | Unfinished | Panicked(fault: Fault)

  /** Apply `step` until `stopped` holds, at most `fuel` times; a faulting step ends the run. */
  function Run<S>(step: S -> Result<S>, stopped: S -> bool, s: S, fuel: nat): (r: Outcome<S>)
    ensures r.Stopped? ==> stopped(r.state)
    ensures r.OutOfFuel? ==> !stopped(r.state)
    ensures stopped(s) ==> r == Stopped(s)
    decreases fuel
  {
    if stopped(s) then Stopped(s)
    else if fuel == 0 then OutOfFuel(s)
    else
      match step(s)
      case Failure(f) => Crashed(f)
      case Success(next) => Run(step, stopped, next, fuel - 1)
  }

  /** One step of a run that has not stopped. */
  lemma RunStep<S>(step: S -> Result<S>, stopped: S -> bool, s: S, fuel: nat)
    requires !stopped(s) && fuel > 0
    ensures step(s).Success? ==> Run(step, stopped, s, fuel) == Run(step, stopped, step(s).value, fuel - 1)
    ensures step(s).Failure? ==> Run(step, stopped, s, fuel) == Crashed(step(s).fault)
  {
  }

  /**
   * A step taken from a state of a run that has not stopped, yielding
   * `fault` or `now`, either ends that run in a panic or continues it with
   * one unit of fuel less.
   */
  lemma RunContinues<S>(step: S -> Result<S>, stopped: S -> bool, start: S, fuel: nat, s: S, remaining: nat,
                            fault: Option<Fault>, now: S, left: nat)
    requires Run(step, stopped, start, fuel) == Run(step, stopped, s, remaining)
    requires !stopped(s) && left + 1 == remaining && Yields(step(s), fault, now)
    ensures fault.Some? ==> Run(step, stopped, start, fuel) == Crashed(fault.value)
    ensures fault.None? ==> Run(step, stopped, start, fuel) == Run(step, stopped, now, left)
  {
  }

  /** A run that ended before its fuel ran out ends the same way with any larger fuel. */
  lemma {:induction false} MoreFuel<S>(step: S -> Result<S>, stopped: S -> bool, s: S, fuel: nat, more: nat)
    requires fuel <= more && !Run(step, stopped, s, fuel).OutOfFuel?
    ensures Run(step, stopped, s, more) == Run(step, stopped, s, fuel)
    decreases fuel
  {
    if !stopped(s) && fuel > 0 && step(s).Success? {
      MoreFuel(step, stopped, step(s).value, fuel - 1, more - 1);
    }
  }

  /** Running for `fuel + extra` steps is running for `fuel`, then resuming for `extra` if that was not enough. */
  lemma {:induction false} RunResumes<S>(step: S -> Result<S>, stopped: S -> bool, s: S, fuel: nat, extra: nat)
    ensures Run(step, stopped, s, fuel + extra)
         == if Run(step, stopped, s, fuel).OutOfFuel? then Run(step, stopped, Run(step, stopped, s, fuel).state, extra)
            else Run(step, stopped, s, fuel)
    decreases fuel
  {
    if !stopped(s) && fuel > 0 && step(s).Success? {
      RunResumes(step, stopped, step(s).value, fuel - 1, extra);
    }
  }

  /** A property that every successful step from a running state preserves holds of the state a run ends in. */
  lemma {:induction false} RunPreserves<S>(step: S -> Result<S>, stopped: S -> bool, inv: S -> bool, s: S, fuel: nat)
    requires inv(s)
    requires forall x :: inv(x) && !stopped(x) && step(x).Success? ==> inv(step(x).value)
    ensures !Run(step, stopped, s, fuel).Crashed? ==> inv(Run(step, stopped, s, fuel).state)
    decreases fuel
  {
    if !stopped(s) && fuel > 0 && step(s).Success? {
      RunPreserves(step, stopped, inv, step(s).value, fuel - 1);
    }
  }
}
