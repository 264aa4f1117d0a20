/** The optional value used for every field a JSON payload may omit or set to null. */
module Options {

  /** None stands for both `undefined` and `null`: the `??` operator treats them alike. */
  datatype Option<+T> = None | Some(value: T) {

    /** The value when present, `default` otherwise (the `x ?? default` of the source). */
    function GetOr(default: T): T
    {
      match this
      case Some(v) => v
      case None => default
    }
  }
}
