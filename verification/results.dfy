/** Failure-carrying results for the steps of the pipeline that can abort the run. */
module Results {

  /** The ways the modelled bookkeeping can abort. */
  datatype Fault =
    | BadSimArea(count: nat)   // the sim-area bounds are not exactly six scalars
    | ZeroDivision             // the substep timestep is zero
    | EmptyReduction           // max/min of an empty gradient tensor
    | NoLossTerm               // the guidance output has no loss term, so the loss has no backward
    | NoOutputPath             // no output path was given, so the first image write is refused

  datatype Option<+T> = None | Some(value: T)

  datatype Result<+T> = Ok(value: T) | Err(fault: Fault) {
    predicate IsFailure() {
      Err?
    }

    function PropagateFailure<U>(): Result<U>
      requires Err?
    {
      Err(fault)
    }

    function Extract(): T
      requires Ok?
    {
      value
    }
  }
}
