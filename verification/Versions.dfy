/** Which etcd versions can follow each other without a dump. */
module Versions {
  import opened Options

  /** A parsed version; its numbers are 64-bit unsigned. */
  datatype Semver = Semver(major: nat, minor: nat, patch: nat) {
    predicate Fits() {
      major < TWO64 && minor < TWO64 && patch < TWO64
    }
  }

  const TWO64: nat := 0x1_0000_0000_0000_0000

  /** Unsigned 64-bit subtraction wraps around. */
  function Minus(a: nat, b: nat): nat {
    (a - b) % TWO64
  }

  function UpgradeInPlaceSupported(from: Option<Semver>, to: Option<Semver>): bool {
    if from.None? || to.None? then false
    else if from.value.major == 3 && to.value.major == 3 then
      if Minus(to.value.minor, from.value.minor) <= 1 && to.value.minor >= from.value.minor then true else false
    else false
  }

  /** Supported are exactly the steps to the same or the next minor version of etcd 3; the wrap-around of
      the subtraction never lets a downgrade through. */
  lemma SupportedSteps(from: Option<Semver>, to: Option<Semver>)
    requires (from.Some? ==> from.value.Fits()) && (to.Some? ==> to.value.Fits())
    ensures UpgradeInPlaceSupported(from, to) <==>
            && from.Some? && to.Some? && from.value.major == 3 == to.value.major
            && 0 <= to.value.minor - from.value.minor <= 1
  {
  }
}
