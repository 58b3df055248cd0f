/** The cross-cutting session flags of src/js/Tools/Store.js, passed in and
    out explicitly instead of living in a global object. */
module Session {
  import opened Wrappers

  datatype Store = Store(started: bool, hasLost: bool, isFusion: bool, startTime: Option<int>)

  const InitialStore: Store := Store(false, false, false, None)
}
