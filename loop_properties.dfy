/**
 * What one iteration of the loop, and a run of iterations, guarantee:
 * the size of each batch, the turbo window, the token refresh, where the
 * slap level and the balance come from.
 */
module LoopProperties {
  import opened Wrappers
  import opened Boosts
  import opened Responses
  import opened Decision
  import opened Loop

  /** The locals at line 226: after the token refresh if one happened and ran to its end. */
  function BatchStart(st: LoopState, inp: Inputs): LoopState
  {
    if TokenExpired(st, inp.now) && !inp.sessionRevoked then Refresh(st, inp).0 else st
  }

  /** `randint(a, b)` returns a value in `[a, b]` whenever it does not raise. */
  predicate DrawsInRange(s: Settings, inp: Inputs)
  {
    (s.slapsLo <= s.slapsHi ==> s.slapsLo <= inp.slapDraw <= s.slapsHi) &&
    (s.sleepBetweenLo <= s.sleepBetweenHi ==> s.sleepBetweenLo <= inp.sleepDraw <= s.sleepBetweenHi)
  }

  /** The batch sent is (draw + turbo bonus) * slap level, with the draw in the configured range. */
  lemma SubmittedAmount(s: Settings, st: LoopState, inp: Inputs)
    requires DrawsInRange(s, inp)
    ensures var it := Iterate(s, st, inp);
      it.sent.Some? ==>
        s.slapsLo <= inp.slapDraw <= s.slapsHi &&
        it.sent.value.isTurbo == st.activeTurbo &&
        BatchStart(st, inp).slapLevel.Some? &&
        it.sent.value.amount ==
          (inp.slapDraw + (if st.activeTurbo then s.addSlapsOnTurbo else 0)) * BatchStart(st, inp).slapLevel.value
  {
  }

  /** A fresh login sends its batch with the `energyPerTap` of the profile just fetched. */
  lemma LoginSetsSlapLevel(s: Settings, st: LoopState, inp: Inputs)
    requires TokenExpired(st, inp.now) && !inp.sessionRevoked
    ensures var it := Iterate(s, st, inp);
      it.sent.Some? ==>
        inp.profile.Some? && EnergyPerTapKey in inp.profile.value &&
        BatchStart(st, inp).slapLevel == Some(inp.profile.value[EnergyPerTapKey])
  {
  }

  /**
   * The token is replaced, and the profile fetched again, exactly when it is
   * at least `TokenLifetime` old (and the session is still valid); the new
   * creation time is the clock reading taken after login.
   */
  lemma RefreshExactlyWhenExpired(s: Settings, st: LoopState, inp: Inputs)
    ensures var it := Iterate(s, st, inp);
      var refreshed := inp.now - st.tokenCreatedTime >= 3600.0 && !inp.sessionRevoked;
      it.next.tokenCreatedTime == (if refreshed then inp.loginTime else st.tokenCreatedTime) &&
      it.next.profile == (if refreshed then inp.profile else st.profile)
  {
  }

  /** An `InvalidSession` from the web-view request ends the run with the locals untouched. */
  lemma RevokedSessionStops(s: Settings, st: LoopState, inp: Inputs)
    requires TokenExpired(st, inp.now) && inp.sessionRevoked
    ensures Iterate(s, st, inp) == Iteration(st, None, None, SessionInvalid)
  {
  }

  /** The endings reached only after line 243 ran. */
  predicate Decided(e: Ending)
  {
    e.Claimed? || e.Upgraded? || e.MinEnergySleep? || e.ClickSleep? || e.Crashed?
  }

  /**
   * Whenever the decision chain is reached, the slap level is the
   * `energyPerTap` of the most recent profile fetch, whatever the decision
   * (an upgrade of slap included).
   */
  lemma SlapLevelFromLatestProfile(s: Settings, st: LoopState, inp: Inputs)
    ensures var it := Iterate(s, st, inp);
      Decided(it.ending) ==>
        it.delta.Some? &&
        it.next.profile.Some? && EnergyPerTapKey in it.next.profile.value &&
        it.next.slapLevel == Some(it.next.profile.value[EnergyPerTapKey])
  {
  }

  /**
   * A falsy send result changes none of the locals the batch started with,
   * and the pass ends without the pause between batches (`send_slaps` has
   * already slept 7 s itself if its request failed).
   */
  lemma FailedSendChangesNothing(s: Settings, st: LoopState, inp: Inputs)
    ensures var it := Iterate(s, st, inp);
      it.ending == SendFailed <==> it.sent.Some? && Falsy(inp.sendResult)
    ensures var it := Iterate(s, st, inp);
      it.ending == SendFailed ==> it.next == BatchStart(st, inp) && it.delta.None?
  {
  }

  /**
   * An accepted batch that reaches the log line sets the balance to the
   * returned score, and the logged delta is that score minus the balance before.
   */
  lemma AcceptedBatchSetsBalance(s: Settings, st: LoopState, inp: Inputs)
    ensures var it := Iterate(s, st, inp);
      it.delta.Some? ==>
        inp.sendResult.Some? && ScoreKey in inp.sendResult.value &&
        it.next.balance == Some(inp.sendResult.value[ScoreKey]) &&
        BatchStart(st, inp).balance.Some? &&
        it.delta.value == inp.sendResult.value[ScoreKey] - BatchStart(st, inp).balance.value
  {
  }

  /**
   * Under the locals' invariant a batch is sent only with a bound balance,
   * so an accepted batch never raises `NameError` at line 240.
   */
  lemma BoundLevelMeansBoundBalance(s: Settings, st: LoopState, inp: Inputs)
    requires Invariant(st)
    ensures var it := Iterate(s, st, inp);
      it.sent.Some? ==> BatchStart(st, inp).balance.Some?
    ensures var it := Iterate(s, st, inp);
      (it.sent.Some? && !Falsy(inp.sendResult) && EnergyLeftKey in inp.sendResult.value &&
       ScoreKey in inp.sendResult.value) ==>
        it.next.balance == Some(inp.sendResult.value[ScoreKey])
  {
  }

  /** The balance changes only to a profile score or to the score a batch returned. */
  lemma BalanceSources(s: Settings, st: LoopState, inp: Inputs)
    ensures var it := Iterate(s, st, inp);
      it.next.balance == st.balance ||
      (inp.profile.Some? && ScoreKey in inp.profile.value && it.next.balance == Some(inp.profile.value[ScoreKey])) ||
      (inp.sendResult.Some? && ScoreKey in inp.sendResult.value && it.next.balance == Some(inp.sendResult.value[ScoreKey]))
  {
  }

  /**
   * The turbo flag: a batch sent under turbo never leads to a claim, an
   * upgrade or the low-energy sleep; only a successful turbo claim sets the
   * flag and only the `else:` block clears it.
   */
  lemma TurboFlag(s: Settings, st: LoopState, inp: Inputs)
    ensures var it := Iterate(s, st, inp);
      st.activeTurbo ==> !it.ending.Claimed? && !it.ending.Upgraded? && !it.ending.MinEnergySleep?
    ensures var it := Iterate(s, st, inp);
      !st.activeTurbo && it.next.activeTurbo <==> it.ending == Claimed(Turbo, true)
    ensures var it := Iterate(s, st, inp);
      st.activeTurbo && !it.next.activeTurbo <==> st.activeTurbo && it.ending.ClickSleep?
    ensures var it := Iterate(s, st, inp);
      it.ending.ClickSleep? ==> !it.next.activeTurbo
  {
  }

  /** A claim of turbo that the server refuses still ends the iteration with the flag as it was. */
  lemma RefusedTurboClaimKeepsFlag(s: Settings, st: LoopState, inp: Inputs)
    ensures var it := Iterate(s, st, inp);
      it.ending == Claimed(Turbo, false) ==> it.next.activeTurbo == st.activeTurbo
  {
  }

  predicate Exceptional(e: Ending)
  {
    e.Recovered? || e.Crashed?
  }

  function Bit(b: bool): nat
  {
    if b then 1 else 0
  }

  /** A batch the server answered with data, sent with `isTurbo` set. */
  predicate TurboBatch(it: Iteration)
  {
    it.sent.Some? && it.sent.value.isTurbo && !it.ending.SendFailed?
  }

  function TurboBatches(its: seq<Iteration>): nat
  {
    if its == [] then 0 else Bit(TurboBatch(its[0])) + TurboBatches(its[1..])
  }

  function TurboClaims(its: seq<Iteration>): nat
  {
    if its == [] then 0 else Bit(its[0].ending == Claimed(Turbo, true)) + TurboClaims(its[1..])
  }

  /** One iteration without an exception moves one unit between the flag and the counters. */
  lemma TurboStep(s: Settings, st: LoopState, inp: Inputs)
    requires !Exceptional(Iterate(s, st, inp).ending)
    ensures var it := Iterate(s, st, inp);
      Bit(TurboBatch(it)) + Bit(it.next.activeTurbo) == Bit(it.ending == Claimed(Turbo, true)) + Bit(st.activeTurbo)
  {
  }

  /**
   * Over a run in which no iteration raises, every batch sent under turbo is
   * paid for by a successful turbo claim (or by a flag already set at the
   * start): turbo covers one accepted batch per activation.
   */
  lemma {:induction false} TurboAccounting(s: Settings, st: LoopState, inps: seq<Inputs>)
    requires forall it :: it in Trace(s, st, inps) ==> !Exceptional(it.ending)
    ensures TurboBatches(Trace(s, st, inps)) + Bit(FinalState(s, st, inps).activeTurbo)
            == TurboClaims(Trace(s, st, inps)) + Bit(st.activeTurbo)
    ensures TurboBatches(Trace(s, st, inps)) <= TurboClaims(Trace(s, st, inps)) + Bit(st.activeTurbo)
    decreases |inps|
  {
    if inps != [] {
      var it := Iterate(s, st, inps[0]);
      var its := Trace(s, st, inps);
      assert its[0] == it;
      TurboStep(s, st, inps[0]);
      if Terminal(it.ending) {
        assert its == [it];
        assert its[1..] == [];
      } else {
        var rest := Trace(s, it.next, inps[1..]);
        assert its == [it] + rest;
        assert its[1..] == rest;
        forall r | r in rest ensures !Exceptional(r.ending) {
          assert r in its;
        }
        TurboAccounting(s, it.next, inps[1..]);
      }
    }
  }

  /** An exception after a batch sent under turbo leaves the flag set, so the next batch is turbo as well. */
  lemma ExceptionExtendsTurbo(s: Settings, st: LoopState, inp: Inputs)
    requires st.activeTurbo
    ensures var it := Iterate(s, st, inp);
      Exceptional(it.ending) ==> it.next.activeTurbo
  {
  }

  /** The locals' invariant holds after any number of iterations from the initial state. */
  lemma {:induction false} RunKeepsInvariant(s: Settings, st: LoopState, inps: seq<Inputs>)
    requires Invariant(st)
    ensures Invariant(FinalState(s, st, inps))
    decreases |inps|
  {
    if inps != [] {
      IterateKeepsInvariant(s, st, inps[0]);
      var it := Iterate(s, st, inps[0]);
      if !Terminal(it.ending) {
        RunKeepsInvariant(s, it.next, inps[1..]);
      }
    }
  }
}
