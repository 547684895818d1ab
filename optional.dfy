/** Optional values: a missing JSON property, a null field of the clock object. */
module Optional {

  datatype Option<T> = None | Some(value: T)

  /** The set of values an optional holds: empty for None. */
  function ToSet<T>(o: Option<T>): set<T>
  {
    match o
    case None => {}
    case Some(v) => {v}
  }
}
