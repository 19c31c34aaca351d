/**
 * Capability rights carried by a handle. Zircon stores them as a bit set;
 * here a set of flags, so `rights.contains(r)` is `r <= rights` and
 * `rights & mask` is `rights * mask`.
 */
module Rights {

  datatype Right =
    | Duplicate | Transfer | Read | Write | Execute | Map
    | GetProperty | SetProperty | Enumerate | Destroy
    | SetPolicy | GetPolicy | Signal | SignalPeer | Wait | Inspect
    | ManageJob | ManageProcess | ManageThread | ApplyProfile

  type Rights = set<Right>

  const Basic: Rights := {Transfer, Duplicate, Wait, Inspect}
  const Io: Rights := {Read, Write}
  const Property: Rights := {GetProperty, SetProperty}

  /** `Rights::DEFAULT_THREAD`: the ceiling for thread handles delivered on an exception channel. */
  const DefaultThread: Rights := Basic + Io + Property + {ManageThread, Signal}

  /** `Rights::DEFAULT_PROCESS`: the ceiling for process handles delivered on an exception channel. */
  const DefaultProcess: Rights :=
    Basic + Io + Property + {Enumerate, Destroy, Signal, ManageProcess, ManageThread}

  /** `Rights::default()`: the empty set. */
  const DefaultRights: Rights := {}

  /**
   * `rights & ceiling`: the rights a derived handle may carry. The result is
   * the largest set below both arguments, so it never grants a right the
   * source did not hold.
   */
  function Restrict(rights: Rights, ceiling: Rights): (r: Rights)
    ensures r <= rights && r <= ceiling
    ensures forall x :: x in rights && x in ceiling ==> x in r
  {
    rights * ceiling
  }
}
