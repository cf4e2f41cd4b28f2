/**
 * The fixed-priority choice `Slapper.run` makes after every accepted slap
 * batch (bot/core/slapper.py:259-341): claim the daily energy boost, else
 * claim the daily turbo boost, else upgrade slap, energy or charge (in that
 * order), else sleep because energy is low, else fall through to the
 * ordinary pause between batches.
 */
module Decision {
  import opened Wrappers
  import opened Boosts
  import opened Responses

  /** The configuration values the loop reads (`bot.config.settings`). */
  datatype Settings = Settings(
    slapsLo: int, slapsHi: int,              // RANDOM_SLAPS_COUNT
    addSlapsOnTurbo: int,                    // ADD_SLAPS_ON_TURBO
    minAvailableEnergy: int,                 // MIN_AVAILABLE_ENERGY
    applyDailyEnergy: bool,                  // APPLY_DAILY_ENERGY
    applyDailyTurbo: bool,                   // APPLY_DAILY_TURBO
    autoUpgradeSlap: bool, maxSlapLevel: int,
    autoUpgradeEnergy: bool, maxEnergyLevel: int,
    autoUpgradeCharge: bool, maxChargeLevel: int,
    sleepByMinEnergy: int,                   // SLEEP_BY_MIN_ENERGY
    sleepBetweenLo: int, sleepBetweenHi: int // SLEEP_BETWEEN_SLAP
  )

  /** What the loop knows when it decides: the click result, the daily boosts and the catalog. */
  datatype Telemetry = Telemetry(availableEnergy: int, balance: int, daily: DailyBoosts, catalog: Catalog)

  datatype Action =
    | ClaimFree(claim: FreeBoost)
    | Upgrade(upgrade: UpgradableBoost)
    | SleepMinEnergy(seconds: int)
    | FallThrough

  predicate UpgradeEnabled(s: Settings, k: UpgradableBoost)
  {
    match k
    case Slap => s.autoUpgradeSlap
    case Energy => s.autoUpgradeEnergy
    case Charge => s.autoUpgradeCharge
  }

  function MaxLevel(s: Settings, k: UpgradableBoost): int
  {
    match k
    case Slap => s.maxSlapLevel
    case Energy => s.maxEnergyLevel
    case Charge => s.maxChargeLevel
  }

  /** Upgrade priority: slap first, then energy, then charge. */
  function Rank(k: UpgradableBoost): nat
  {
    match k
    case Slap => 0
    case Energy => 1
    case Charge => 2
  }

  predicate LowEnergy(s: Settings, t: Telemetry)
  {
    t.availableEnergy < s.minAvailableEnergy
  }

  predicate EnergyClaimWanted(s: Settings, t: Telemetry)
  {
    t.daily.energy > 0 && LowEnergy(s, t) && s.applyDailyEnergy
  }

  predicate TurboClaimWanted(s: Settings, t: Telemetry)
  {
    t.daily.turbo > 0 && s.applyDailyTurbo
  }

  /** Enabled, strictly affordable, and the next level not beyond the configured maximum. */
  predicate Qualifies(s: Settings, t: Telemetry, k: UpgradableBoost)
  {
    UpgradeEnabled(s, k) && t.balance > OfferOf(t.catalog, k).price && OfferOf(t.catalog, k).level <= MaxLevel(s, k)
  }

  predicate NoClaim(s: Settings, t: Telemetry)
  {
    !EnergyClaimWanted(s, t) && !TurboClaimWanted(s, t)
  }

  function Decide(s: Settings, t: Telemetry, activeTurbo: bool): (r: Action)
    // a batch sent under turbo never triggers a claim, an upgrade or the low-energy sleep
    ensures activeTurbo ==> r == FallThrough
    ensures r == ClaimFree(FullEnergy) <==> !activeTurbo && EnergyClaimWanted(s, t)
    ensures r == ClaimFree(Turbo) <==> !activeTurbo && !EnergyClaimWanted(s, t) && TurboClaimWanted(s, t)
    // the first qualifying upgrade in priority order wins
    ensures r.Upgrade? ==> !activeTurbo && NoClaim(s, t) && Qualifies(s, t, r.upgrade)
    ensures r.Upgrade? ==> forall k :: Rank(k) < Rank(r.upgrade) ==> !Qualifies(s, t, k)
    ensures !activeTurbo && NoClaim(s, t) && (exists k :: Qualifies(s, t, k)) ==> r.Upgrade?
    ensures r.SleepMinEnergy? <==>
              !activeTurbo && NoClaim(s, t) && (forall k :: !Qualifies(s, t, k)) && LowEnergy(s, t)
    ensures r.SleepMinEnergy? ==> r.seconds == s.sleepByMinEnergy
  {
    if activeTurbo then FallThrough
    else if EnergyClaimWanted(s, t) then ClaimFree(FullEnergy)
    else if TurboClaimWanted(s, t) then ClaimFree(Turbo)
    else if Qualifies(s, t, Slap) then Upgrade(Slap)
    else if Qualifies(s, t, Energy) then Upgrade(Energy)
    else if Qualifies(s, t, Charge) then Upgrade(Charge)
    else if LowEnergy(s, t) then SleepMinEnergy(s.sleepByMinEnergy)
    else FallThrough
  }

  /** Both daily boosts available and wanted: the energy claim wins, never turbo. */
  lemma EnergyClaimBeatsTurbo(s: Settings, t: Telemetry)
    requires t.daily.energy > 0 && t.daily.turbo > 0
    requires s.applyDailyEnergy && s.applyDailyTurbo && LowEnergy(s, t)
    ensures Decide(s, t, false) == ClaimFree(FullEnergy)
  {
  }

  /** No daily energy left: the energy claim is skipped whatever the energy level. */
  lemma NoDailyEnergyNoEnergyClaim(s: Settings, t: Telemetry, activeTurbo: bool)
    requires t.daily.energy == 0
    ensures Decide(s, t, activeTurbo) != ClaimFree(FullEnergy)
  {
  }

  /** A failed daily-boost request reads as `(0, 0)`, which rules out both claims. */
  lemma FailedDailyFetchClaimsNothing(s: Settings, e: int, b: int, c: Catalog, activeTurbo: bool)
    ensures !Decide(s, Telemetry(e, b, ParseDaily(None), c), activeTurbo).ClaimFree?
  {
  }

  /** Low energy with every claim and upgrade switched off: the low-energy sleep. */
  lemma AllDisabledLowEnergySleeps(s: Settings, t: Telemetry)
    requires !s.applyDailyEnergy && !s.applyDailyTurbo
    requires !s.autoUpgradeSlap && !s.autoUpgradeEnergy && !s.autoUpgradeCharge
    requires LowEnergy(s, t)
    ensures Decide(s, t, false) == SleepMinEnergy(s.sleepByMinEnergy)
  {
  }

  /** Balance 1000, slap level 3 at price 900 with maximum 10, no claims: the slap upgrade. */
  lemma AffordableSlapIsBought(s: Settings, t: Telemetry)
    requires NoClaim(s, t) && s.autoUpgradeSlap && s.maxSlapLevel == 10
    requires t.balance == 1000 && t.catalog.slap == Offer(3, 900)
    ensures Decide(s, t, false) == Upgrade(Slap)
  {
  }

  /** The price comparison is strict: a balance equal to the price buys nothing. */
  lemma ExactPriceIsNotEnough(s: Settings, t: Telemetry, k: UpgradableBoost)
    requires t.balance == OfferOf(t.catalog, k).price
    ensures Decide(s, t, false) != Upgrade(k)
  {
  }
}
