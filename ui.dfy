/** The session state machine of the main window: starting and resuming a
    session, drawing a round, the countdown, and the hint, skip and submit
    handlers down to the end-of-session bookkeeping.  Widgets, dialogs and
    sounds are not modelled; the countdown's scheduled callbacks are counted. */
module Ui {
  import opened Models
  import opened Game
  import opened Storage
  import Scenarios

  /** Whether drawing a round schedules a countdown callback: the timer is on
      and there is time to count down. */
  predicate TimerRuns(settings: GameSettings, roundSeconds: int)
  {
    settings.timerEnabled && roundSeconds > 0
  }

  /** Scenarios drawn from well-formed ones are well formed. */
  lemma DrawnWellFormed(drawn: seq<Scenario>, all: seq<Scenario>)
    requires multiset(drawn) <= multiset(all)
    requires forall s :: s in all ==> WellFormed(s)
    ensures forall s :: s in drawn ==> WellFormed(s)
  {
    forall s | s in drawn ensures WellFormed(s) {
      assert s in multiset(drawn);
    }
  }

  /** The deck of a new session: `count` scenarios drawn with nothing seen,
      so every scenario is a candidate. */
  method DrawDeck(all: seq<Scenario>, count: int) returns (drawn: seq<Scenario>)
    requires count >= 0
    requires forall s :: s in all ==> WellFormed(s)
    ensures multiset(drawn) <= multiset(all)
    ensures |drawn| == Min(count, |all|)
    ensures forall s :: s in drawn ==> WellFormed(s)
  {
    UnseenNothingSeen(all);
    drawn := SelectScenarios(all, count, {});
    DrawnWellFormed(drawn, all);
  }

  class App {
    const settings: GameSettings
    const profile: Profile
    const store: DataStore
    /** The playable scenarios loaded at start-up. */
    const allScenarios: seq<Scenario>

    /** The session, absent until the first game starts. */
    var state: GameState?
    var deck: seq<Scenario>
    var roundSeconds: int
    /** The scenario on screen, absent until the first round is drawn. */
    var scenario: Option<Scenario>
    var remaining: int
    /** The selected option, -1 for none. */
    var choice: int
    /** Countdown callbacks scheduled and not yet run. */
    var pendingTicks: nat
    /** Whether the remembered callback handle names one that is still pending. */
    var tracked: bool

    /** Everything on screen comes from well-formed scenarios, and a remembered
        pending callback is among the pending ones. */
    ghost predicate ValidView()
      reads this
    {
      && (forall s :: s in allScenarios ==> WellFormed(s))
      && (forall s :: s in deck ==> WellFormed(s))
      && (scenario.Some? ==> WellFormed(scenario.value))
      && (tracked ==> pendingTicks > 0)
    }

    ghost predicate Valid()
      reads this, state
    {
      ValidView() && (state != null ==> state.Valid())
    }

    /** Round `state.currentIndex` of the deck is on screen with nothing
        selected and the countdown started; `ticksBefore` callbacks were
        pending before it was drawn. */
    ghost predicate Started(ticksBefore: nat)
      reads this, state
    {
      && state != null
      && 0 <= state.currentIndex < |deck|
      && scenario == Some(deck[state.currentIndex])
      && choice == -1
      && remaining == (if !settings.timerEnabled then 0 else if roundSeconds > 0 then roundSeconds - 1 else roundSeconds)
      && tracked == TimerRuns(settings, roundSeconds)
      && pendingTicks == ticksBefore + (if TimerRuns(settings, roundSeconds) then 1 else 0)
    }

    /** A fresh session with a deck of up to ten scenarios drawn from the catalogue. */
    ghost predicate FreshSession()
      reads this, state
    {
      && state != null
      && state.roundsTotal == 10 && state.currentIndex == 0 && state.score == 0
      && state.streak == 0 && state.results == [] && state.seenIds == {}
      && roundSeconds == PickRoundSeconds(settings)
      && multiset(deck) <= multiset(allScenarios)
      && |deck| == Min(10, |allScenarios|)
    }

    /** The end-of-session bookkeeping: badges merged in, best score raised to
        the session score if higher, and one leaderboard row appended. */
    twostate predicate SummarySaved(ts: string)
      reads this, state, profile, store
    {
      && state != null
      && BadgesAfter(profile.unlockedBadges, old(profile.unlockedBadges), state.results)
      && profile.bestScore == Max(old(profile.bestScore), state.score)
      && store.leaderboard == Appended(old(store.leaderboard), Row(profile.name, state.score, ts))
    }

    twostate predicate ProfileAndStoreKept()
      reads profile, store
    {
      && profile.unlockedBadges == old(profile.unlockedBadges)
      && profile.bestScore == old(profile.bestScore)
      && store.leaderboard == old(store.leaderboard)
    }

    /** A round was finalised: exactly one result recorded, the score moved by
        exactly `gained`, the streak extended or reset, the index advanced; then
        either the summary was saved or the next round drawn.  `ticksBefore` and
        `trackedBefore` describe the countdown after the handler's own
        cancellation, if any. */
    twostate predicate Finished(id: string, selected: Option<int>, timeTaken: int, gained: int,
                                outcome: Outcome, ts: string, ticksBefore: nat, trackedBefore: bool)
      reads this, state, profile, store
    {
      && state != null && state == old(state)
      && state.results == old(state.results) + [RoundResult(id, selected, timeTaken, gained, outcome)]
      && state.score == old(state.score) + gained
      && state.streak == (if outcome == Correct then old(state.streak) + 1 else 0)
      && state.currentIndex == old(state.currentIndex) + 1
      && state.roundsTotal == old(state.roundsTotal) && state.seenIds == old(state.seenIds)
      && deck == old(deck) && roundSeconds == old(roundSeconds)
      && (if state.currentIndex >= state.roundsTotal then SummarySaved(ts) else ProfileAndStoreKept())
      && (if state.currentIndex < state.roundsTotal && state.currentIndex < |deck| then Started(ticksBefore)
          else
            && scenario == old(scenario) && choice == old(choice) && remaining == old(remaining)
            && pendingTicks == ticksBefore && tracked == trackedBefore)
    }

    /** Builds the window's state: the settings and profile as loaded, and the
        playable scenarios of the catalogue; no session yet. */
    constructor (store: DataStore, profile: Profile, settings: GameSettings,
                 catalogue: Option<seq<Scenarios.RawScenario>>)
      ensures Valid()
      ensures this.store == store && this.profile == profile && this.settings == settings
      ensures multiset(allScenarios) == multiset(Scenarios.Playable(Scenarios.Parsed(catalogue)))
      ensures state == null && scenario.None? && pendingTicks == 0 && !tracked
    {
      var loaded := Scenarios.LoadScenarios(catalogue);
      this.store := store;
      this.profile := profile;
      this.settings := settings;
      allScenarios := loaded;
      state := null;
      deck := [];
      roundSeconds := 0;
      scenario := None;
      remaining := 0;
      choice := -1;
      pendingTicks := 0;
      tracked := false;
    }

    /** The countdown step: shows the time left and, while some remains,
        takes off one second and schedules the next step. */
    method Tick()
      requires Valid()
      modifies this`remaining, this`pendingTicks, this`tracked
      ensures Valid()
      ensures old(remaining) <= 0 ==> remaining == old(remaining) && pendingTicks == old(pendingTicks) && tracked == old(tracked)
      ensures old(remaining) > 0 ==> remaining == old(remaining) - 1 && pendingTicks == old(pendingTicks) + 1 && tracked
    {
      if remaining <= 0 {
        return;
      }
      remaining := remaining - 1;
      pendingTicks := pendingTicks + 1;
      tracked := true;
    }

    /** One scheduled countdown callback runs; `firedTracked` says whether it
        is the one whose handle is remembered.  The time left goes down by one
        and never drops below zero from a non-negative value. */
    method FireTick(firedTracked: bool)
      requires Valid()
      requires pendingTicks > 0
      requires firedTracked ==> tracked
      requires !firedTracked ==> pendingTicks > (if tracked then 1 else 0)
      modifies this`remaining, this`pendingTicks, this`tracked
      ensures Valid()
      ensures remaining == (if old(remaining) > 0 then old(remaining) - 1 else old(remaining))
      ensures old(remaining) >= 0 ==> remaining >= 0
      ensures pendingTicks == old(pendingTicks) - (if old(remaining) > 0 then 0 else 1)
      ensures tracked == (old(remaining) > 0 || (old(tracked) && !firedTracked))
    {
      pendingTicks := pendingTicks - 1;
      if firedTracked {
        tracked := false;
      }
      Tick();
    }

    /** Draws the current round: its scenario, no selection, the full round
        time, and the first countdown step.  Past the end of the deck the
        lookup fails and nothing changes. */
    method RenderRound()
      requires Valid() && state != null
      modifies this`scenario, this`choice, this`remaining, this`pendingTicks, this`tracked
      ensures Valid()
      ensures state.currentIndex < |deck| ==> Started(old(pendingTicks))
      ensures state.currentIndex >= |deck| ==>
        && scenario == old(scenario) && choice == old(choice) && remaining == old(remaining)
        && pendingTicks == old(pendingTicks) && tracked == old(tracked)
    {
      if state.currentIndex >= |deck| {
        return;
      }
      scenario := Some(deck[state.currentIndex]);
      choice := -1;
      remaining := if settings.timerEnabled then roundSeconds else 0;
      tracked := false;
      if settings.timerEnabled {
        Tick();
      }
    }

    /** The session part of starting a game: a fresh state, the round time
        for the difficulty, and a deck of up to ten scenarios with none excluded. */
    method StartSession()
      requires Valid()
      modifies this`state, this`roundSeconds, this`deck
      ensures Valid()
      ensures fresh(state)
      ensures FreshSession()
    {
      var session := new GameState();
      roundSeconds := PickRoundSeconds(settings);
      var drawn := DrawDeck(allScenarios, session.roundsTotal);
      session.currentIndex := 0;
      assert session.Valid();
      deck := drawn;
      state := session;
      assert ValidView();
    }

    /** Starts a session and draws its first round. */
    method NewGame()
      requires Valid()
      modifies this
      ensures Valid()
      ensures fresh(state)
      ensures FreshSession()
      ensures |deck| > 0 ==> Started(old(pendingTicks))
      ensures |deck| == 0 ==>
        && scenario == old(scenario) && choice == old(choice) && remaining == old(remaining)
        && pendingTicks == old(pendingTicks) && tracked == old(tracked)
    {
      StartSession();
      RenderRound();
    }

    /** Resumes the session in progress when there is one with at least one
        round played and rounds left; otherwise starts a new one and draws its
        first round as NewGame does. */
    method ContinueGame()
      requires Valid()
      modifies this
      ensures Valid()
      ensures var resume := old(state) != null && |old(state.results)| > 0 && old(state.currentIndex) < old(state.roundsTotal);
        && (resume ==> state == old(state) && deck == old(deck) && roundSeconds == old(roundSeconds)
                       && (state.currentIndex < |deck| ==> Started(old(pendingTicks)))
                       && (state.currentIndex >= |deck| ==>
                             && scenario == old(scenario) && choice == old(choice) && remaining == old(remaining)
                             && pendingTicks == old(pendingTicks) && tracked == old(tracked)))
        && (!resume ==> fresh(state) && FreshSession()
                        && (|deck| > 0 ==> Started(old(pendingTicks)))
                        && (|deck| == 0 ==>
                              && scenario == old(scenario) && choice == old(choice) && remaining == old(remaining)
                              && pendingTicks == old(pendingTicks) && tracked == old(tracked)))
    {
      if state != null && |state.results| > 0 && state.currentIndex < state.roundsTotal {
        RenderRound();
      } else {
        NewGame();
      }
    }

    /** Selects option `k` (counted from one, as on the keyboard). */
    method SelectChoice(k: int)
      modifies this`choice
      ensures choice == k - 1
    {
      choice := k - 1;
    }

    /** With hints enabled, charges the hint cost to the score and nothing
        else; with hints disabled, changes nothing. */
    method OnHint()
      requires Valid() && state != null
      modifies state`score, state`hintDeductions
      ensures Valid()
      ensures state.score == old(state.score) + (if settings.hintsEnabled then settings.hintCost else 0)
      ensures state.streak == old(state.streak) && state.results == old(state.results)
      ensures state.currentIndex == old(state.currentIndex)
    {
      if !settings.hintsEnabled {
        return;
      }
      state.score := state.score + settings.hintCost;
      state.hintDeductions := state.hintDeductions + settings.hintCost;
    }

    /** Skips the round at the skip penalty (0 with penalties off).  The countdown is not cancelled. */
    method OnSkip(ts: string)
      requires Valid() && state != null && scenario.Some?
      modifies this`scenario, this`choice, this`remaining, this`pendingTicks, this`tracked
      modifies state`score, state`streak, state`results, state`currentIndex
      modifies profile`unlockedBadges, profile`bestScore, store`leaderboard
      ensures Valid()
      ensures var r := ComputeScore(settings, old(scenario).value, None, 0, old(state.streak));
        && r.outcome == Skipped
        && Finished(old(scenario).value.id, None, old(roundSeconds) - Max(0, old(remaining)),
                    r.points, r.outcome, ts, old(pendingTicks), old(tracked))
    {
      WellFormedScorable(scenario.value, None);
      var r := ComputeScore(settings, scenario.value, None, 0, state.streak);
      FinaliseChoice(-1, r.points, r.outcome, roundSeconds - Max(0, remaining), ts);
    }

    /** Submits the selected option: with none selected nothing happens;
        otherwise the countdown is cancelled and the option is scored with the
        time left and the streak as it stood before this round. */
    method OnSubmit(ts: string)
      requires Valid() && state != null && scenario.Some?
      modifies this`scenario, this`choice, this`remaining, this`pendingTicks, this`tracked
      modifies state`score, state`streak, state`results, state`currentIndex
      modifies profile`unlockedBadges, profile`bestScore, store`leaderboard
      ensures Valid()
      ensures old(choice) < 0 ==>
        && unchanged(this) && unchanged(state)
        && profile.unlockedBadges == old(profile.unlockedBadges) && profile.bestScore == old(profile.bestScore)
        && store.leaderboard == old(store.leaderboard)
      ensures old(choice) >= 0 ==>
        var r := ComputeScore(settings, old(scenario).value, Some(old(choice)), Max(0, old(remaining)), old(state.streak));
        Finished(old(scenario).value.id, Some(old(choice)), old(roundSeconds) - Max(0, old(remaining)),
                 r.points, r.outcome, ts,
                 old(pendingTicks) - (if old(tracked) then 1 else 0), false)
    {
      var sel := choice;
      if sel < 0 {
        return;
      }
      if tracked {
        pendingTicks := pendingTicks - 1;
        tracked := false;
      }
      WellFormedScorable(scenario.value, Some(sel));
      var r := ComputeScore(settings, scenario.value, Some(sel), Max(0, remaining), state.streak);
      FinaliseChoice(sel, r.points, r.outcome, roundSeconds - Max(0, remaining), ts);
    }

    /** Records the round: the score moves by `gained`, the streak grows on a
        Correct answer and resets otherwise, one result is appended (no
        selection when `sel` is negative); then the feedback step. */
    method FinaliseChoice(sel: int, gained: int, outcome: Outcome, timeTaken: int, ts: string)
      requires Valid() && state != null && scenario.Some?
      modifies this`scenario, this`choice, this`remaining, this`pendingTicks, this`tracked
      modifies state`score, state`streak, state`results, state`currentIndex
      modifies profile`unlockedBadges, profile`bestScore, store`leaderboard
      ensures Valid()
      ensures Finished(old(scenario).value.id, if sel < 0 then None else Some(sel), timeTaken, gained,
                       outcome, ts, old(pendingTicks), old(tracked))
    {
      state.Record(RoundResult(scenario.value.id, if sel < 0 then None else Some(sel), timeTaken, gained, outcome));
      ShowFeedback(ts);
    }

    /** Advances to the next round, or to the summary once every round of the
        session has been played. */
    method ShowFeedback(ts: string)
      requires ValidView() && state != null && state.Recorded()
      requires 0 <= state.currentIndex && state.currentIndex + 1 == |state.results|
      modifies this`scenario, this`choice, this`remaining, this`pendingTicks, this`tracked
      modifies state`currentIndex, profile`unlockedBadges, profile`bestScore, store`leaderboard
      ensures Valid()
      ensures state.currentIndex == old(state.currentIndex) + 1
      ensures state.currentIndex >= state.roundsTotal ==> SummarySaved(ts)
      ensures state.currentIndex < state.roundsTotal ==> ProfileAndStoreKept()
      ensures state.currentIndex < state.roundsTotal && state.currentIndex < |deck| ==> Started(old(pendingTicks))
      ensures !(state.currentIndex < state.roundsTotal && state.currentIndex < |deck|) ==>
        && scenario == old(scenario) && choice == old(choice) && remaining == old(remaining)
        && pendingTicks == old(pendingTicks) && tracked == old(tracked)
    {
      state.currentIndex := state.currentIndex + 1;
      if state.currentIndex >= state.roundsTotal {
        ShowSummary(ts);
      } else {
        RenderRound();
      }
    }

    /** The end of the session: badges, best score and the leaderboard row. */
    method ShowSummary(ts: string)
      requires state != null
      modifies profile`unlockedBadges, profile`bestScore, store`leaderboard
      ensures SummarySaved(ts)
    {
      UpdateBadges(profile, state.results, settings);
      if state.score > profile.bestScore {
        profile.bestScore := state.score;
      }
      store.AppendLeaderboard(profile.name, state.score, ts);
    }
  }
}
