# WormSlapBot decision loop, in Dafny

This project models the per-account loop of WormSlapBot, a bot that plays a
Telegram clicker game ("slaps") on behalf of an account. Each pass of the loop
in `Slapper.run` does four things. It re-logs in when the access token is an
hour old. It sends one batch of slaps. It reads the daily boosts and the
upgrade catalog. Then it takes exactly one action, chosen by a fixed priority:
claim the daily energy boost, claim the daily turbo boost, upgrade slap, energy
or charge, sleep on low energy, or pause as usual between batches.

Modules, one per part of the source:

- `Wrappers`: the `Option` type, which models failed calls, Python `None` and unbound locals.
- `Boosts` (bot/utils/boosts.py): the `FreeBoosts` and `UpgradableBoosts` string
  enums, their wire strings, and lookup by value.
- `Responses`: JSON bodies as `map<string, int>`. It holds the positional reads
  of the daily-boost list and of the upgrade catalog, each with the inverse
  (the body the API sends) and a round-trip lemma.
- `WebData`: the two `split(..., maxsplit=1)` calls that pull the init data
  out of the web-view URL.
- `Decision`: `Settings`, `Telemetry` and the pure priority function `Decide`.
- `Loop`: the loop locals (`LoopState`), the inputs of one pass (the clock, the
  random draws and every remote result) and the specification function
  `Iterate`. It also holds the class `Slapper`, whose `Step`, `LogIn`,
  `SlapBatch` and `Act` methods update the locals in place, and whose `Run`
  method is the `while True` loop over a finite run of inputs. Each method is
  proved equal to the specification function.
- `LoopProperties`: lemmas about `Iterate` and about runs (`Trace`, `FinalState`).

The model follows Python's control flow exactly:

- A `continue` inside `try` skips the `else:` block. So only a pass that runs
  to the end of the body clears the turbo flag and pauses between batches.
- An exception inside the body keeps every assignment made before it. For
  example, the balance is updated at line 241 and the profile read at line 243
  can still raise. The pass then ends as `Recovered`.
- `InvalidSession` ends the run.
- `randint` raising in the `else:` block is not caught, and ends the run (`Crashed`).

Where the code is easy to misread, the model follows it:

- A falsy send result `continue`s and skips the pause between batches. If the request itself failed, `send_slaps` has already slept 7 s (bot/core/slapper.py:177-179); an empty `{}` body continues with no wait at all.
- A login or profile failure is swallowed, not raised. It then surfaces as an
  exception when the missing profile is read.
- Turbo is cleared in the `else:` block, so one activation lasts one accepted batch.
- Low energy means a sleep of `SLEEP_BY_MIN_ENERGY` seconds; the loop goes on.

## Model

| member | source | states |
|---|---|---|
| `Boosts.ParseFree` | bot/utils/boosts.py:4-6 | Lookup by value yields the member whose wire string is the input, and fails only if no member has that string |
| `Boosts.ParseUpgradable` | bot/utils/boosts.py:9-12 | The same for the three upgradable kinds |
| `Boosts.WireStrings` | bot/utils/boosts.py:4-12 | TURBO is "turbo" and ENERGY is "full_energy"; SLAP is "energy_per_tap", ENERGY is "energy_max" and CHARGE is "energy_per_second" |
| `Boosts.FreeRoundTrip` | bot/utils/boosts.py:4-6 | Free wire strings are pairwise distinct, so decoding an encoded kind gives it back |
| `Boosts.UpgradableRoundTrip` | bot/utils/boosts.py:9-12 | Upgradable wire strings are pairwise distinct, so decoding an encoded kind gives it back |
| `Boosts.KindsDisjoint` | bot/utils/boosts.py:4-12 | No string names both a free and an upgradable kind; each lookup rejects the other enum's strings |
| `Boosts.KindCounts` | bot/utils/boosts.py:4-12 | There are exactly two free kinds and three upgradable kinds, with as many distinct wire strings |
| `Responses.ParseDaily` | bot/core/slapper.py:131-148 | The turbo count comes from entry 1 and the energy count from entry 0; a failed request or malformed body gives (0, 0) |
| `Responses.DailyRoundTrip` | bot/core/slapper.py:140-143 | Reading the body the API sends for counts (t, e) gives back (t, e) |
| `Responses.CatalogIndicesDistinct` | bot/core/slapper.py:249-254 | Slap, energy and charge sit at three distinct positions below 3 |
| `Responses.ParseCatalog` | bot/core/slapper.py:249-254 | The catalog reads iff all three entries have level and price; slap comes from entry 2, energy from entry 0 and charge from entry 1 |
| `Responses.CatalogRoundTrip` | bot/core/slapper.py:249-254 | Reading the body the API sends for a catalog gives the catalog back |
| `WebData.FindFrom` | bot/core/slapper.py:59 | The result is the leftmost occurrence of the separator at or after the start, or none exists |
| `WebData.SplitOnce` | bot/core/slapper.py:59 | `split(sep, maxsplit=1)` gives one part iff sep does not occur; otherwise the two parts joined by sep rebuild the input and the first part holds no occurrence |
| `WebData.RawWebData` | bot/core/slapper.py:57-59 | Extraction fails iff the URL has no `tgWebAppData=`; the extracted text never contains `&tgWebAppVersion` |
| `WebData.DecodesExtractedData` | bot/core/slapper.py:57-59 | For a URL built as prefix, `tgWebAppData=`, data, `&tgWebAppVersion`, suffix, with these markers the first ones, the init data is the data decoded twice |
| `WebData.DecodesExtractedDataToEnd` | bot/core/slapper.py:57-59 | Without a following version marker, the init data is the rest of the URL after `tgWebAppData=`, decoded twice |
| `WebData.ExtractsDataBeforeVersion` | bot/core/slapper.py:57-59 | For a URL built as prefix, `tgWebAppData=`, data, `&tgWebAppVersion`, suffix, with these markers the first ones, extraction returns the data |
| `WebData.ExtractsDataToEnd` | bot/core/slapper.py:57-59 | Without a following version marker, the data runs to the end of the URL |
| `Decision.Decide` | bot/core/slapper.py:259-341 | Under turbo nothing fires. Energy claim iff wanted; turbo claim iff wanted and energy not. An upgrade is chosen iff no claim and some kind qualifies (enabled, balance strictly above price, level at most max), and it is the first such in slap, energy, charge order. Low-energy sleep iff nothing else fires and energy is below the minimum, for SLEEP_BY_MIN_ENERGY seconds |
| `Decision.EnergyClaimBeatsTurbo` | bot/core/slapper.py:260-286 | With both daily boosts available and wanted, and energy low, the energy claim is chosen and never turbo |
| `Decision.NoDailyEnergyNoEnergyClaim` | bot/core/slapper.py:260-262 | With no daily energy left, the energy claim is never chosen, whatever the energy level |
| `Decision.FailedDailyFetchClaimsNothing` | bot/core/slapper.py:144-148 | The soft-fail (0, 0) of the daily-boost request rules out both claims |
| `Decision.AllDisabledLowEnergySleeps` | bot/core/slapper.py:335-341 | With every claim and upgrade switched off and energy low, the low-energy sleep is chosen |
| `Decision.AffordableSlapIsBought` | bot/core/slapper.py:288-301 | Balance 1000, slap price 900, level 3, max 10, and no claim wanted: the slap upgrade is chosen |
| `Decision.ExactPriceIsNotEnough` | bot/core/slapper.py:288-333 | A balance equal to the price does not buy that upgrade (the comparison is strict) |
| `Loop.RefreshKeepsInvariant` | bot/core/slapper.py:201-224 | The token refresh keeps the locals' invariant, wherever it stops |
| `Loop.BatchKeepsInvariant` | bot/core/slapper.py:226-357 | A slap batch and what follows it keep the locals' invariant |
| `Loop.SettleKeepsInvariant` | bot/core/slapper.py:259-357 | Acting on the decision, or running the `else:` block, keeps the locals' invariant |
| `Loop.IterateKeepsInvariant` | bot/core/slapper.py:201-243 | One pass keeps the locals' invariant: a slap level is bound only with a balance, and a full profile is the one the slap level came from |
| `Loop.Slapper.constructor` | bot/core/slapper.py:190-191 | The loop starts with token time 0, turbo off, and balance, slap level and profile unbound |
| `Loop.Slapper.Step` | bot/core/slapper.py:199-357 | One pass of the loop body changes the locals, and returns the batch sent, the delta logged and the ending, exactly as `Iterate` specifies |
| `Loop.Slapper.LogIn` | bot/core/slapper.py:201-224 | Sets the token time and profile, then balance and slap level from the profile, stopping where a missing key raises |
| `Loop.Slapper.SlapBatch` | bot/core/slapper.py:226-254 | Sends the batch, updates the balance and slap level, and reads the boosts as `Batch` specifies, including every raising path |
| `Loop.Slapper.Act` | bot/core/slapper.py:259-357 | Carries out `Decide`'s choice; only a successful turbo claim sets the flag, and only the `else:` block clears it |
| `Loop.Slapper.Run` | bot/core/slapper.py:199-357 | The loop over a run of inputs yields exactly `Trace`'s iterations and `FinalState`'s locals, and stops after a terminal ending |
| `LoopProperties.SubmittedAmount` | bot/core/slapper.py:226-233 | The amount sent is (r + ADD_SLAPS_ON_TURBO if turbo) * slap level, with r in RANDOM_SLAPS_COUNT, and isTurbo is the flag |
| `LoopProperties.LoginSetsSlapLevel` | bot/core/slapper.py:210-214 | After a fresh login the batch uses the `energyPerTap` of the profile just fetched |
| `LoopProperties.RefreshExactlyWhenExpired` | bot/core/slapper.py:201-210 | Token time and profile change iff the token is at least 3600 s old and the session is valid; the new time is the reading after login |
| `LoopProperties.RevokedSessionStops` | bot/core/slapper.py:343-344 | `InvalidSession` ends the pass with nothing sent and the locals unchanged |
| `LoopProperties.SlapLevelFromLatestProfile` | bot/core/slapper.py:243 | Whenever the decision chain is reached, even for a slap upgrade, the slap level is the `energyPerTap` of the latest profile |
| `LoopProperties.FailedSendChangesNothing` | bot/core/slapper.py:233-236 | A pass ends as SendFailed iff a batch was sent and the result was falsy; then no local changes, no delta is logged, and the pause between batches is skipped (a failed request has already slept 7 s inside `send_slaps`) |
| `LoopProperties.AcceptedBatchSetsBalance` | bot/core/slapper.py:238-257 | A logged batch sets the balance to the returned score, and the logged delta is that score minus the old balance |
| `LoopProperties.BoundLevelMeansBoundBalance` | bot/core/slapper.py:212-241 | Under the locals' invariant a batch is sent only with a bound balance, so an accepted batch with both keys always sets the balance to the returned score |
| `LoopProperties.BalanceSources` | bot/core/slapper.py:212-241 | The balance changes only to a fetched profile's score or to the score a batch returned |
| `LoopProperties.TurboFlag` | bot/core/slapper.py:259-354 | Under turbo there is no claim, upgrade or low-energy sleep. The flag turns on iff a turbo claim succeeds, and turns off iff the `else:` block runs |
| `LoopProperties.RefusedTurboClaimKeepsFlag` | bot/core/slapper.py:278-286 | A refused turbo claim still ends the pass, and leaves the flag unchanged |
| `LoopProperties.TurboStep` | bot/core/slapper.py:228-354 | In a pass without an exception, turbo batches plus the new flag equal successful turbo claims plus the old flag |
| `LoopProperties.TurboAccounting` | bot/core/slapper.py:228-354 | Over a run without exceptions, turbo batches plus the final flag equal successful turbo claims plus the initial flag, so each activation covers one accepted batch |
| `LoopProperties.ExceptionExtendsTurbo` | bot/core/slapper.py:346-354 | An exception after a turbo batch leaves the flag set, so the next batch is sent under turbo too |
| `LoopProperties.RunKeepsInvariant` | bot/core/slapper.py:199-243 | The locals' invariant holds after any number of passes |

## Left out

- Telegram client calls (bot/core/slapper.py:28-54, 61-62) are foreign library I/O and are not modelled. This covers the proxy dictionary, `connect`, `resolve_peer`, `RequestWebView` and `disconnect`. Only the URL split is modelled. `InvalidSession` becomes the `sessionRevoked` input.
- URL decoding (`unquote`) is not modelled: it is a function parameter of `TgWebData`.
- HTTP calls (`login`, `get_profile_data`, `apply_boost`, `upgrade_boost`, `get_daily_boosts`, `get_upgradable_boosts`, `send_slaps`, `check_proxy`) are network I/O. Their results are inputs of a pass.
- The access token and the `Authorization` headers (lines 203-206) are not modelled. The token is only written into headers, including a process-wide one.
- Other failures inside `get_tg_web_data` and `login` are not modelled separately. Each only makes later calls fail, and that shows up in the profile input.
- `startTimestamp` (line 167) is not modelled. It is floating-point arithmetic on the wall clock.
- Sleeps and logging are not modelled. Only the low-energy sleep and the pause between batches record their durations. The 5 s and 7 s pauses do not.
- Proxy setup, `check_proxy` and the `run_slapper` wrapper are not modelled: they are plumbing.
- bot/config is not part of this model. Settings are a record given to the class.
- `Loop.Slapper.Run`: the `while True` loop never ends, so it is modelled over a finite sequence of pass inputs.
- JSON is simplified. Values are integers, and a body is an object or a list of objects. A list where an object is expected, or a non-integer value, is not modelled.
- The clock is a `real` reading, not an IEEE double.
- `Recovered` stands for every exception caught at lines 346-348, without telling them apart.
- `LoopProperties.TurboAccounting` assumes a run with no exceptions. An exception after a turbo batch keeps the flag set (`ExceptionExtendsTurbo`), so a second batch can go out under turbo.
