/** Score-carrying pickups and their kind markers, src/pickup.rs. */
module Pickups {
  /**
   * A pickup and the score it is worth. The source keeps the value
   * private and offers no way to change it after construction; as an
   * immutable value the model has the same guarantee.
   */
  datatype Pickup = Pickup(value: nat)

  /** The score a pickup is worth; it identifies the pickup completely. */
  function GetValue(p: Pickup): (v: nat)
    ensures Pickup(v) == p
  {
    p.value
  }

  /** A pickup built with a value reports that value back. */
  lemma GetValueOfNew(v: nat)
    ensures GetValue(Pickup(v)) == v
  {
  }

  /** The two data-less marker components that tell a dot from a power pill. */
  datatype PickupKind = DotMarker | PowerPillMarker
}
