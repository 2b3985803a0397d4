/** The "absent or present" value that the source spells `null` / an object. */
module Optional {

  datatype Option<+T> = None | Some(value: T)

  /** The zero-or-one element list of an optional value. */
  function ToSeq<T>(o: Option<T>): (s: seq<T>)
    ensures o.None? ==> s == []
    ensures o.Some? ==> s == [o.value]
  {
    match o
    case None => []
    case Some(v) => [v]
  }
}
