/** Failure-carrying values and the errors the marker code raises. */
module Errors {

  datatype Option<+T> = None | Some(value: T)

  datatype Result<+T, +E> = Success(value: T) | Failure(error: E)

  /** The four optional arguments of `visualize`, named in shape errors. */
  datatype Argument = Translations | Orientations | Scales | MarkerIndices

  /** One constructor per exception the marker code raises. */
  datatype Error =
    /** `cfg.markers` is empty (ValueError). */
    | EmptyMarkers
    /** A plain marker config asks for the empty `Xform` prim type (ValueError). */
    | XformNeedsFileMarker
    /** The USD file of a file marker does not exist (FileNotFoundError). */
    | UsdFileNotFound(usdPath: string)
    /** A file marker overrides its prim type (ValueError). */
    | FileMarkerNotXform(primType: string)
    /** An argument of `visualize` has the wrong rank or width (ValueError or IndexError). */
    | BadShape(argument: Argument, received: seq<nat>)
    /** `visualize` would leave zero markers without explicit indices (ValueError). */
    | ZeroMarkers
}
