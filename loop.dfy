/**
 * One account's `while True` loop in `Slapper.run` (bot/core/slapper.py:189-357).
 *
 * The loop keeps four locals across iterations: `access_token_created_time`,
 * `active_turbo`, `balance` and `slap_level`, plus the last `profile_data`,
 * which line 243 reads again on every accepted batch. Everything the loop
 * gets from outside (the clock, the random draws, the result of every
 * remote call) is an input of one iteration.
 *
 * Python's `try/except/else` shapes the iteration: a `continue` in the `try`
 * body skips the `else:` block (lines 350-357), so only an iteration that
 * runs to the end of the body clears the turbo flag and pauses between
 * batches; an exception in the body is logged and the loop resumes with
 * whatever assignments already happened; `InvalidSession` ends the run; an
 * exception in the `else:` block is not caught at all and ends it too.
 */
module Loop {
  import opened Wrappers
  import opened Boosts
  import opened Responses
  import opened Decision

  /** A token this old (in seconds) is replaced before the next batch. */
  const TokenLifetime: real := 3600.0

  /**
   * The loop's locals. `None` stands for a local that is not bound yet
   * (reading it raises `NameError`) or, for the profile, a failed fetch.
   */
  datatype LoopState = LoopState(
    tokenCreatedTime: real,
    activeTurbo: bool,
    balance: Option<int>,
    slapLevel: Option<int>,
    profile: Option<Json>)

  /** The locals as `run` initialises them (lines 190-191). */
  const Initial := LoopState(0.0, false, None, None, None)

  /** Everything one iteration receives from the clock, the random source and the network. */
  datatype Inputs = Inputs(
    now: real,                   // time() at line 201
    sessionRevoked: bool,        // get_tg_web_data raised InvalidSession
    loginTime: real,             // time() at line 208
    profile: Option<Json>,       // get_profile_data
    slapDraw: int,               // randint over RANDOM_SLAPS_COUNT
    sendResult: Option<Json>,    // send_slaps
    daily: Option<seq<Json>>,    // body of /game/daily-boosts, or a failed request
    catalog: Option<seq<Json>>,  // get_upgradable_boosts
    boostOk: bool,               // apply_boost / upgrade_boost, whichever is called
    sleepDraw: int)              // randint over SLEEP_BETWEEN_SLAP

  /** The arguments of one `send_slaps` call. */
  datatype Submission = Submission(amount: int, isTurbo: bool)

  /** How an iteration ends. */
  datatype Ending =
    | SessionInvalid                          // InvalidSession propagates out of run
    | Recovered                               // an exception in the body: logged, 7 s pause
    | SendFailed                              // falsy send result: `continue`, skipping the pause between batches
    | Claimed(claim: FreeBoost, ok: bool)     // a daily boost was requested: `continue`
    | Upgraded(upgrade: UpgradableBoost, ok: bool) // an upgrade was requested: `continue`
    | MinEnergySleep(seconds: int)            // low energy: long pause, `continue`
    | ClickSleep(seconds: int)                // the `else:` block ran
    | Crashed                                 // randint raised in the `else:` block

  /** After these the loop does not run again. */
  predicate Terminal(e: Ending)
  {
    e.SessionInvalid? || e.Crashed?
  }

  /** An iteration's new locals, the batch it sent, the score delta it logged, and its end. */
  datatype Iteration = Iteration(next: LoopState, sent: Option<Submission>, delta: Option<int>, ending: Ending)

  /** Python's truth test on the result of `send_slaps`: `None` and `{}` are false. */
  predicate Falsy(r: Option<Json>)
  {
    r.None? || |r.value| == 0
  }

  predicate TokenExpired(st: LoopState, now: real)
  {
    now - st.tokenCreatedTime >= TokenLifetime
  }

  /**
   * Lines 202-224: new token, new profile. Returns the locals afterwards and
   * whether the block ran to its end (a missing profile or key raises).
   */
  function Refresh(st: LoopState, inp: Inputs): (LoopState, bool)
  {
    var st1 := st.(tokenCreatedTime := inp.loginTime, profile := inp.profile);
    if inp.profile.None? || ScoreKey !in inp.profile.value then (st1, false)
    else
      var p := inp.profile.value;
      var st2 := st1.(balance := Some(p[ScoreKey]));
      if EnergyPerTapKey !in p then (st2, false)
      else
        var st3 := st2.(slapLevel := Some(p[EnergyPerTapKey]));
        (st3, EarnedTodayKey in p && EarnedWeekKey in p && RankKey in p)
  }

  /** Lines 226-231: the random draw, plus the turbo bonus, times the slap level. */
  function SlapAmount(s: Settings, draw: int, activeTurbo: bool, level: int): int
  {
    (draw + (if activeTurbo then s.addSlapsOnTurbo else 0)) * level
  }

  /** Lines 259-341 and 350-357: act on the decision, or run the `else:` block. */
  function Settle(s: Settings, st: LoopState, t: Telemetry, inp: Inputs): (LoopState, Ending)
  {
    match Decide(s, t, st.activeTurbo)
    case ClaimFree(k) =>
      (if k == Turbo && inp.boostOk then st.(activeTurbo := true) else st, Claimed(k, inp.boostOk))
    case Upgrade(k) => (st, Upgraded(k, inp.boostOk))
    case SleepMinEnergy(d) => (st, MinEnergySleep(d))
    case FallThrough =>
      if s.sleepBetweenLo > s.sleepBetweenHi then (st, Crashed)
      else (st.(activeTurbo := false), ClickSleep(inp.sleepDraw))
  }

  /** Lines 226-341 and the `else:` block: one slap batch and what follows it. */
  function Batch(s: Settings, st: LoopState, inp: Inputs): Iteration
  {
    if s.slapsLo > s.slapsHi || st.slapLevel.None? then Iteration(st, None, None, Recovered)
    else
      var sub := Submission(SlapAmount(s, inp.slapDraw, st.activeTurbo, st.slapLevel.value), st.activeTurbo);
      if Falsy(inp.sendResult) then Iteration(st, Some(sub), None, SendFailed)
      else
        var pd := inp.sendResult.value;
        if EnergyLeftKey !in pd || ScoreKey !in pd || st.balance.None? then Iteration(st, Some(sub), None, Recovered)
        else
          var st1 := st.(balance := Some(pd[ScoreKey]));
          if TotalEarnedKey !in pd || st1.profile.None? || EnergyPerTapKey !in st1.profile.value then
            Iteration(st1, Some(sub), None, Recovered)
          else
            var st2 := st1.(slapLevel := Some(st1.profile.value[EnergyPerTapKey]));
            var catalog := ParseCatalog(inp.catalog);
            if catalog.None? then Iteration(st2, Some(sub), None, Recovered)
            else
              var t := Telemetry(pd[EnergyLeftKey], pd[ScoreKey], ParseDaily(inp.daily), catalog.value);
              var (st3, ending) := Settle(s, st2, t, inp);
              Iteration(st3, Some(sub), Some(pd[ScoreKey] - st.balance.value), ending)
  }

  /** One pass of the `while True` body, from the token check to the pause. */
  function Iterate(s: Settings, st: LoopState, inp: Inputs): Iteration
  {
    if TokenExpired(st, inp.now) then
      if inp.sessionRevoked then Iteration(st, None, None, SessionInvalid)
      else
        var (st1, complete) := Refresh(st, inp);
        if complete then Batch(s, st1, inp) else Iteration(st1, None, None, Recovered)
    else Batch(s, st, inp)
  }

  /** The iterations the loop performs on a sequence of inputs, up to a terminal one. */
  function Trace(s: Settings, st: LoopState, inps: seq<Inputs>): seq<Iteration>
    decreases |inps|
  {
    if inps == [] then []
    else
      var it := Iterate(s, st, inps[0]);
      if Terminal(it.ending) then [it] else [it] + Trace(s, it.next, inps[1..])
  }

  /** The locals after the loop has consumed `inps` (or stopped). */
  function FinalState(s: Settings, st: LoopState, inps: seq<Inputs>): LoopState
    decreases |inps|
  {
    if inps == [] then st
    else
      var it := Iterate(s, st, inps[0]);
      if Terminal(it.ending) then it.next else FinalState(s, it.next, inps[1..])
  }

  /**
   * What holds of the locals between iterations: the slap level is set no
   * earlier than the balance, and a profile that carried both keys is the
   * one the slap level was read from.
   */
  // Consequence: a batch is only ever sent with a bound balance, so the
  // `NameError` branch for an unbound balance in `Batch` is dead
  // (LoopProperties.BoundLevelMeansBoundBalance).
  ghost predicate Invariant(st: LoopState)
  {
    (st.slapLevel.Some? ==> st.balance.Some?) &&
    (st.profile.Some? && ScoreKey in st.profile.value && EnergyPerTapKey in st.profile.value ==>
       st.slapLevel == Some(st.profile.value[EnergyPerTapKey]))
  }

  lemma RefreshKeepsInvariant(st: LoopState, inp: Inputs)
    requires Invariant(st)
    ensures Invariant(Refresh(st, inp).0)
  {
  }

  lemma BatchKeepsInvariant(s: Settings, st: LoopState, inp: Inputs)
    requires Invariant(st)
    ensures Invariant(Batch(s, st, inp).next)
  {
  }

  lemma SettleKeepsInvariant(s: Settings, st: LoopState, t: Telemetry, inp: Inputs)
    requires Invariant(st)
    ensures Invariant(Settle(s, st, t, inp).0)
  {
  }

  lemma IterateKeepsInvariant(s: Settings, st: LoopState, inp: Inputs)
    requires Invariant(st)
    ensures Invariant(Iterate(s, st, inp).next)
  {
  }

  /** One account's loop. */
  class Slapper {
    const settings: Settings
    var tokenCreatedTime: real
    var activeTurbo: bool
    var balance: Option<int>
    var slapLevel: Option<int>
    var profile: Option<Json>

    function State(): LoopState
      reads this
    {
      LoopState(tokenCreatedTime, activeTurbo, balance, slapLevel, profile)
    }

    ghost predicate Valid()
      reads this
    {
      Invariant(State())
    }

    constructor (settings: Settings)
      ensures Valid()
      ensures this.settings == settings && State() == Initial
    {
      this.settings := settings;
      tokenCreatedTime, activeTurbo := 0.0, false;
      balance, slapLevel, profile := None, None, None;
    }

    /** One pass of the loop body; `sent`, `delta` and `ending` are what it sent, logged and how it ended. */
    method Step(inp: Inputs) returns (sent: Option<Submission>, delta: Option<int>, ending: Ending)
      requires Valid()
      modifies this
      ensures Valid()
      ensures Iteration(State(), sent, delta, ending) == Iterate(settings, old(State()), inp)
    {
      IterateKeepsInvariant(settings, State(), inp);
      if inp.now - tokenCreatedTime >= TokenLifetime {
        if inp.sessionRevoked {
          sent, delta, ending := None, None, SessionInvalid;
          return;
        }
        var complete := LogIn(inp);
        if !complete {
          sent, delta, ending := None, None, Recovered;
          return;
        }
      }
      sent, delta, ending := SlapBatch(inp);
    }

    /** Lines 202-224; `complete` is false where a missing profile or key raised. */
    method LogIn(inp: Inputs) returns (complete: bool)
      requires Valid()
      modifies this
      ensures Valid()
      ensures (State(), complete) == Refresh(old(State()), inp)
    {
      RefreshKeepsInvariant(State(), inp);
      tokenCreatedTime := inp.loginTime;
      profile := inp.profile;
      if profile.None? || ScoreKey !in profile.value {
        return false;
      }
      balance := Some(profile.value[ScoreKey]);
      if EnergyPerTapKey !in profile.value {
        return false;
      }
      slapLevel := Some(profile.value[EnergyPerTapKey]);
      complete := EarnedTodayKey in profile.value && EarnedWeekKey in profile.value && RankKey in profile.value;
    }

    /** Lines 226-357 once the session is fresh: send a batch, read the boosts, act. */
    method SlapBatch(inp: Inputs) returns (sent: Option<Submission>, delta: Option<int>, ending: Ending)
      requires Valid()
      modifies this
      ensures Valid()
      ensures Iteration(State(), sent, delta, ending) == Batch(settings, old(State()), inp)
    {
      BatchKeepsInvariant(settings, State(), inp);
      sent, delta := None, None;
      if settings.slapsLo > settings.slapsHi || slapLevel.None? {
        ending := Recovered;
        return;
      }
      var slaps := inp.slapDraw;
      if activeTurbo {
        slaps := slaps + settings.addSlapsOnTurbo;
      }
      slaps := slaps * slapLevel.value;
      sent := Some(Submission(slaps, activeTurbo));

      if Falsy(inp.sendResult) {
        ending := SendFailed;
        return;
      }
      var playerData := inp.sendResult.value;
      if EnergyLeftKey !in playerData || ScoreKey !in playerData || balance.None? {
        ending := Recovered;
        return;
      }
      var availableEnergy := playerData[EnergyLeftKey];
      var newBalance := playerData[ScoreKey];
      var calcSlaps := newBalance - balance.value;
      balance := Some(newBalance);
      if TotalEarnedKey !in playerData || profile.None? || EnergyPerTapKey !in profile.value {
        ending := Recovered;
        return;
      }
      slapLevel := Some(profile.value[EnergyPerTapKey]);

      var daily := ParseDaily(inp.daily);
      var catalog := ParseCatalog(inp.catalog);
      if catalog.None? {
        ending := Recovered;
        return;
      }
      delta := Some(calcSlaps);
      ending := Act(Telemetry(availableEnergy, newBalance, daily, catalog.value), inp);
    }

    /** The decision chain of lines 259-341, then the `else:` block of lines 350-357. */
    method Act(t: Telemetry, inp: Inputs) returns (ending: Ending)
      requires Valid()
      modifies this
      ensures Valid()
      ensures (State(), ending) == Settle(settings, old(State()), t, inp)
    {
      SettleKeepsInvariant(settings, State(), t, inp);
      match Decide(settings, t, activeTurbo)
      case ClaimFree(k) =>
        if k == Turbo && inp.boostOk {
          activeTurbo := true;
        }
        ending := Claimed(k, inp.boostOk);
      case Upgrade(k) =>
        ending := Upgraded(k, inp.boostOk);
      case SleepMinEnergy(d) =>
        ending := MinEnergySleep(d);
      case FallThrough =>
        if settings.sleepBetweenLo > settings.sleepBetweenHi {
          ending := Crashed;
        } else {
          activeTurbo := false;
          ending := ClickSleep(inp.sleepDraw);
        }
    }

    /** The `while True` loop over a finite run of inputs; it stops early on a terminal ending. */
    method Run(inps: seq<Inputs>) returns (its: seq<Iteration>)
      requires Valid()
      modifies this
      ensures Valid()
      ensures its == Trace(settings, old(State()), inps)
      ensures State() == FinalState(settings, old(State()), inps)
    {
      its := [];
      var i := 0;
      while i < |inps|
        invariant 0 <= i <= |inps| && Valid()
        invariant its + Trace(settings, State(), inps[i..]) == Trace(settings, old(State()), inps)
        invariant FinalState(settings, State(), inps[i..]) == FinalState(settings, old(State()), inps)
      {
        ghost var before := State();
        assert inps[i..][0] == inps[i] && inps[i..][1..] == inps[i + 1..];
        var sent, delta, ending := Step(inps[i]);
        its := its + [Iteration(State(), sent, delta, ending)];
        if Terminal(ending) {
          return;
        }
        i := i + 1;
      }
    }
  }
}
