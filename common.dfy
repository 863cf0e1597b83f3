/** Values shared by every page: optional values (a JavaScript `undefined` or
    `null`) and row identifiers. */
module Common {

  /** A value that may be missing (`undefined` / `null` in the pages). */
  datatype Option<+T> = None | Some(value: T) {
    function GetOr(default: T): T {
      match this
      case Some(v) => v
      case None => default
    }
  }

  /** Row identifiers (the database's uuids), kept abstract. */
  type Id = nat
}
