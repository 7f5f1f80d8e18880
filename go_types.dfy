/** Small value types standing for Go's built-in behaviour that the plugin relies on. */
module GoTypes {

  datatype Option<+T> = None | Some(value: T)

  /** The (value, error) pair a Go collaborator returns: either a value or an opaque cause. */
  datatype Attempt<+T> = Ok(value: T) | Fail(cause: string)

  /** A Go slice: `nil`, or a (possibly empty) run of elements. */
  datatype GoSlice<+T> = Nil | Of(elems: seq<T>) {
    /** What `range` iterates over: a nil slice has no elements. */
    function Items(): seq<T> {
      match this
      case Nil => []
      case Of(es) => es
    }
  }

  /** A `time.Time`, kept abstract: a point on the timeline; instant 0 is Go's zero Time. */
  datatype Time = Time(instant: int) {
    predicate IsZero() { instant == 0 }
  }

  const ZeroTime: Time := Time(0)
}
