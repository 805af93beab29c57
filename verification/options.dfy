/**
 * A value that may be absent in the JSON the listing page receives: `null`,
 * or for a cursor also a missing key (`undefined`), which the page treats
 * the same way.
 */
module Options {
  datatype Option<+T> = None | Some(value: T)
}
