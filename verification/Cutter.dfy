/** The cut policy of `src/cutter.c` and its selection by a job's finishing attributes. */
module Cutter {

  datatype CutMode = Each | End | NoCut | Chain

  datatype Policy = Policy(cutBetween: bool, cutAtEnd: bool)

  function PolicyFor(mode: CutMode): Policy {
    Policy(mode == Chain || mode == Each, mode == Each || mode == End)
  }

  /** Every batch is precut at its first label; later labels cut the one before only when asked to. */
  predicate AutoCut(policy: Policy, firstLabel: bool) {
    firstLabel || policy.cutBetween
  }
}
