/** Small value types shared by the analysis modules. */
module Common {

  /** A value that may be absent: a missing curve, a label not found. */
  datatype Option<+T> = None | Some(value: T)

  /** Why an analysis step stopped once its input data was present. KeyError
      and IndexError are the exceptions pandas and numpy raise for a missing
      row label or an out-of-range position; the others are degenerate
      numeric inputs. */
  datatype Fault =
    | KeyError          // a pandas lookup by row label found no such label
    | IndexError        // a positional index was out of range
    | ZeroHeight        // a peak of height 0, whose relative height is undefined
    | LengthMismatch    // a computed column did not hold one value per row
    | MissingParameter  // the fit result did not hold the requested parameter
    | ZeroCoefficient   // the fitted coefficient the stop time divides by was 0

  /** Either a value or the fault that prevented it. */
  datatype Result<+T> = Ok(value: T) | Err(fault: Fault)
}
