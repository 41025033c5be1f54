/** Error kinds raised by the protocol's transfer engine, and the wrappers that
    carry them. Every error of the protocol is fatal to the run (the source
    raises a Python exception); the model returns it instead. */
module Outcomes {

  datatype Error =
    | InvalidWellName               // ord('') on an empty name, or int() of a non-integer column
    | InvalidRowIndex               // chr() of a code point outside the character range
    | InvalidGeometry               // dispense height at or above the top of the well
    | UnknownTipProfile             // no tip width defined for the pipette's name
    | NotAWell                      // offset dispense into a located point instead of a well
    | InvalidOffsetDirection        // direction other than center/left/right/top/bottom
    | VolumeOutOfRange              // transfer volume outside the pipette's [min, max]
    | UnknownPlate                  // plate label not registered in the volume ledger
    | UnknownWell                   // well name not part of its registered plate
    | InvalidMultichannelAlignment  // 8-channel transfer starting at a disallowed row
    | UnsupportedPlateGeometry      // 8-channel transfer on a plate without 1, 8 or 16 rows
    | WrongChannelCount             // channel count other than 1 or 8
    | EmptyEvenSplit                // even split of an empty destination list divides by zero
    | NoDistributeCapacity          // not even one destination fits in one distribute aspirate
    | TooFewWells                   // serial dilution over fewer than two wells
    | SourcesExhausted              // the reservoir well iterator ran out

  datatype Option<+T> = None | Some(value: T)

  /** A computation that either yields a value or fails with an Error. */
  datatype Result<+T> = Ok(value: T) | Err(error: Error) {
    predicate IsFailure() { Err? }

    function PropagateFailure<U>(): Result<U>
      requires Err?
    {
      Err(error)
    }

    function Extract(): T
      requires Ok?
    {
      value
    }
  }

  /** The result of an operation that only changes state. */
  datatype Outcome = Pass | Fail(error: Error)
}
