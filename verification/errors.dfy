/** Errors and non-fatal notices raised by the wrapper.  Both layers of the
    original raise a generic runtime error with a message; the message text is
    not modelled, only which check fired and on which argument. */
module Errors {

  /** The argument (or result buffer) a check is about. */
  datatype Param =
    | Eps | BasisVectors | NumG | Thickness | Center | Radius | Halfwidths
    | Vertices | Angle | PolS | PolP | Order | FreqReal | FreqImag
    | Resolution | Use | FieldPoint | Offset | PlaneSize

  datatype Error =
    | NoSimulation               // a command issued before create_new
    | BadShape(param: Param)     // rank or extent of an array argument
    | OutOfRange(param: Param)   // a scalar outside its documented bound
    | EmptyPolygon               // indexing vertex 0 of an empty vertex array
    | NotCounterClockwise        // negative shoelace sum over the vertex loop
    | UnknownMaterial            // no material with the given name
    | UnknownLayer               // no layer with the given name
    | BackendStatus(code: int)   // a backend call returned a non-zero code
    | MalformedResult            // a result buffer does not fit its layout

  /** Non-fatal diagnostics: a NaN replaced by zero, or a scalar cast. */
  datatype Notice =
    | NanZeroed(param: Param)
    | Cast(param: Param)
}
