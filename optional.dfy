/** A field of the request's parameter bag: present with a value, or absent. */
module Optional {

  datatype Option<+T> = None | Some(value: T) {

    /** The value when present, the caller's default when absent (Python's `dict.get(k, default)`). */
    function GetOr(default: T): (r: T)
      ensures Some? ==> r == value
      ensures None? ==> r == default
    {
      match this
      case Some(v) => v
      case None => default
    }
  }
}
