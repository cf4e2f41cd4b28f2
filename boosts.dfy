/**
 * The two boost enumerations of the game API and their wire strings
 * (bot/utils/boosts.py). Both are `str` enums in the source, so a member
 * IS its wire string, and looking a member up by value (`FreeBoosts(s)`)
 * either yields the unique member with that value or raises.
 */
module Boosts {
  import opened Wrappers

  /** Daily boosts that are claimed free of charge (`FreeBoosts`). */
  datatype FreeBoost = Turbo | FullEnergy

  /** Boosts bought with score, one level at a time (`UpgradableBoosts`). */
  datatype UpgradableBoost = Slap | Energy | Charge

  /** All members of `FreeBoosts`, in declaration order. */
  const AllFree: seq<FreeBoost> := [Turbo, FullEnergy]

  /** All members of `UpgradableBoosts`, in declaration order. */
  const AllUpgradable: seq<UpgradableBoost> := [Slap, Energy, Charge]

  function FreeWire(k: FreeBoost): string
  {
    match k
    case Turbo => "turbo"
    case FullEnergy => "full_energy"
  }

  function UpgradableWire(k: UpgradableBoost): string
  {
    match k
    case Slap => "energy_per_tap"
    case Energy => "energy_max"
    case Charge => "energy_per_second"
  }

  /** Value lookup `FreeBoosts(s)`; `None` where Python raises `ValueError`. */
  function ParseFree(s: string): (r: Option<FreeBoost>)
    ensures r.Some? ==> FreeWire(r.value) == s
    ensures r.None? ==> forall k :: FreeWire(k) != s
  {
    if s == FreeWire(Turbo) then Some(Turbo)
    else if s == FreeWire(FullEnergy) then Some(FullEnergy)
    else None
  }

  /** Value lookup `UpgradableBoosts(s)`; `None` where Python raises `ValueError`. */
  function ParseUpgradable(s: string): (r: Option<UpgradableBoost>)
    ensures r.Some? ==> UpgradableWire(r.value) == s
    ensures r.None? ==> forall k :: UpgradableWire(k) != s
  {
    if s == UpgradableWire(Slap) then Some(Slap)
    else if s == UpgradableWire(Energy) then Some(Energy)
    else if s == UpgradableWire(Charge) then Some(Charge)
    else None
  }

  /** The wire strings the game API expects for each member. */
  lemma WireStrings()
    ensures FreeWire(Turbo) == "turbo" && FreeWire(FullEnergy) == "full_energy"
    ensures UpgradableWire(Slap) == "energy_per_tap"
    ensures UpgradableWire(Energy) == "energy_max"
    ensures UpgradableWire(Charge) == "energy_per_second"
  {
  }

  /** Distinct members have distinct wire strings, so decoding undoes encoding. */
  lemma FreeRoundTrip(k: FreeBoost)
    ensures ParseFree(FreeWire(k)) == Some(k)
    ensures forall j :: FreeWire(j) == FreeWire(k) ==> j == k
  {
  }

  lemma UpgradableRoundTrip(k: UpgradableBoost)
    ensures ParseUpgradable(UpgradableWire(k)) == Some(k)
    ensures forall j :: UpgradableWire(j) == UpgradableWire(k) ==> j == k
  {
  }

  /** No string names both a free boost and an upgradable boost. */
  lemma KindsDisjoint(f: FreeBoost, u: UpgradableBoost)
    ensures FreeWire(f) != UpgradableWire(u)
    ensures ParseFree(UpgradableWire(u)).None? && ParseUpgradable(FreeWire(f)).None?
  {
  }

  /** There are exactly two free kinds and three upgradable kinds, with as many wire strings. */
  lemma KindCounts()
    ensures forall k: FreeBoost :: k in AllFree
    ensures forall k: UpgradableBoost :: k in AllUpgradable
    ensures |set k | k in AllFree :: FreeWire(k)| == 2
    ensures |set k | k in AllUpgradable :: UpgradableWire(k)| == 3
  {
    forall k: FreeBoost ensures k in AllFree {
      match k
      case Turbo => assert AllFree[0] == k;
      case FullEnergy => assert AllFree[1] == k;
    }
    forall k: UpgradableBoost ensures k in AllUpgradable {
      match k
      case Slap => assert AllUpgradable[0] == k;
      case Energy => assert AllUpgradable[1] == k;
      case Charge => assert AllUpgradable[2] == k;
    }
    var free := set k | k in AllFree :: FreeWire(k);
    assert FreeWire(AllFree[0]) in free && FreeWire(AllFree[1]) in free;
    assert free == {"turbo", "full_energy"};
    var upgradable := set k | k in AllUpgradable :: UpgradableWire(k);
    assert UpgradableWire(AllUpgradable[0]) in upgradable;
    assert UpgradableWire(AllUpgradable[1]) in upgradable;
    assert UpgradableWire(AllUpgradable[2]) in upgradable;
    assert upgradable == {"energy_per_tap", "energy_max", "energy_per_second"};
  }
}
