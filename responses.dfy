/**
 * The JSON bodies the game API returns, and the positional projections that
 * `Slapper.get_daily_boosts` and `Slapper.run` apply to them
 * (bot/core/slapper.py:131-148 and 249-254).
 *
 * A JSON object is a map from keys to integers; reading a missing key is
 * Python's `KeyError`, reading past the end of a list its `IndexError`.
 */
module Responses {
  import opened Wrappers
  import opened Boosts

  type Json = map<string, int>

  // Keys of the profile, click-submission and boost objects.
  const ScoreKey := "score"
  const EnergyPerTapKey := "energyPerTap"
  const EarnedTodayKey := "earnedScoreToday"
  const EarnedWeekKey := "earnedScoreThisWeek"
  const RankKey := "rank"
  const EnergyLeftKey := "energyLeft"
  const TotalEarnedKey := "totalEarnedScore"
  const AvailableCountKey := "availableCount"
  const LevelKey := "level"
  const PriceKey := "priceInScore"

  /** How many of each daily boost can still be claimed today. */
  datatype DailyBoosts = DailyBoosts(turbo: int, energy: int)

  function DailyCount(d: DailyBoosts, k: FreeBoost): int
  {
    match k
    case Turbo => d.turbo
    case FullEnergy => d.energy
  }

  /** Position of each free boost in the `/game/daily-boosts` list. */
  function DailyIndex(k: FreeBoost): nat
  {
    match k
    case Turbo => 1
    case FullEnergy => 0
  }

  /** The list holds, at the position of `k`, an object with an available count. */
  predicate HasCount(resp: seq<Json>, k: FreeBoost)
  {
    DailyIndex(k) < |resp| && AvailableCountKey in resp[DailyIndex(k)]
  }

  /**
   * `get_daily_boosts`: the turbo count from entry 1 and the energy count
   * from entry 0; a failed request or any malformed body gives `(0, 0)`.
   */
  function ParseDaily(resp: Option<seq<Json>>): (r: DailyBoosts)
    ensures resp.Some? && (forall k :: HasCount(resp.value, k)) ==>
              forall k :: HasCount(resp.value, k) && DailyCount(r, k) == resp.value[DailyIndex(k)][AvailableCountKey]
    ensures !(resp.Some? && (forall k :: HasCount(resp.value, k))) ==> r == DailyBoosts(0, 0)
  {
    if resp.Some? && HasCount(resp.value, Turbo) && HasCount(resp.value, FullEnergy) then
      DailyBoosts(resp.value[1][AvailableCountKey], resp.value[0][AvailableCountKey])
    else
      DailyBoosts(0, 0)
  }

  /** The body the API sends for the given counts: energy first, turbo second. */
  function DailyWire(d: DailyBoosts): seq<Json>
  {
    [map[AvailableCountKey := d.energy], map[AvailableCountKey := d.turbo]]
  }

  lemma DailyRoundTrip(d: DailyBoosts)
    ensures ParseDaily(Some(DailyWire(d))) == d
  {
    assert HasCount(DailyWire(d), Turbo) && HasCount(DailyWire(d), FullEnergy);
  }

  /** Level and price of the next level of one upgradable boost. */
  datatype Offer = Offer(level: int, price: int)

  /** The upgrade catalog with named fields instead of positions. */
  datatype Catalog = Catalog(slap: Offer, energy: Offer, charge: Offer)

  function OfferOf(c: Catalog, k: UpgradableBoost): Offer
  {
    match k
    case Slap => c.slap
    case Energy => c.energy
    case Charge => c.charge
  }

  /** Position of each upgradable boost in the `/game/available-boosts` list. */
  function CatalogIndex(k: UpgradableBoost): nat
  {
    match k
    case Slap => 2
    case Energy => 0
    case Charge => 1
  }

  /** The three boosts occupy the three positions 0, 1 and 2, one each. */
  lemma CatalogIndicesDistinct(k: UpgradableBoost, j: UpgradableBoost)
    ensures CatalogIndex(k) < 3
    ensures CatalogIndex(k) == CatalogIndex(j) ==> k == j
  {
  }

  predicate HasOffer(resp: seq<Json>, k: UpgradableBoost)
  {
    CatalogIndex(k) < |resp| && LevelKey in resp[CatalogIndex(k)] && PriceKey in resp[CatalogIndex(k)]
  }

  function EntryOffer(e: Json): Offer
    requires LevelKey in e && PriceKey in e
  {
    Offer(e[LevelKey], e[PriceKey])
  }

  /**
   * The six reads of `run` (lines 249-254): slap from entry 2, energy from
   * entry 0, charge from entry 1. A failed request (`None`), a short list or a
   * missing key raises inside the loop body, which is `None` here.
   */
  function ParseCatalog(resp: Option<seq<Json>>): (r: Option<Catalog>)
    ensures r.Some? <==> resp.Some? && forall k :: HasOffer(resp.value, k)
    ensures r.Some? ==>
              forall k :: HasOffer(resp.value, k) && OfferOf(r.value, k) == EntryOffer(resp.value[CatalogIndex(k)])
  {
    if resp.Some? && HasOffer(resp.value, Slap) && HasOffer(resp.value, Energy) && HasOffer(resp.value, Charge) then
      var e := resp.value;
      Some(Catalog(EntryOffer(e[2]), EntryOffer(e[0]), EntryOffer(e[1])))
    else
      None
  }

  function EntryWire(o: Offer): Json
  {
    map[LevelKey := o.level, PriceKey := o.price]
  }

  /** The body the API sends for a catalog: energy, charge, slap. */
  function CatalogWire(c: Catalog): seq<Json>
  {
    [EntryWire(c.energy), EntryWire(c.charge), EntryWire(c.slap)]
  }

  lemma CatalogRoundTrip(c: Catalog)
    ensures ParseCatalog(Some(CatalogWire(c))) == Some(c)
  {
    var w := CatalogWire(c);
    assert HasOffer(w, Slap) && HasOffer(w, Energy) && HasOffer(w, Charge);
  }
}
