/** The conventional Option datatype, used for lookups that may miss and for
    JavaScript's NaN / undefined results. */
module Wrappers {
  datatype Option<+T> = None | Some(value: T)
}
