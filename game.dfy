/** The rules engine: round length, scoring of one answer, deck selection and
    the end-of-session badge pass. */
module Game {
  import opened Models
  import Random

  // ---------------------------------------------------------------- round length

  /** Base round time adjusted by difficulty: easy adds ten seconds, hard takes
      ten away but never goes below twenty, anything else keeps the base. */
  function PickRoundSeconds(settings: GameSettings): (r: int)
    ensures settings.difficulty == "easy" ==> r == settings.roundSeconds + 10
    ensures settings.difficulty == "hard" ==>
      r >= 20 && r >= settings.roundSeconds - 10 && (r == 20 || r == settings.roundSeconds - 10)
    ensures settings.difficulty != "easy" && settings.difficulty != "hard" ==> r == settings.roundSeconds
  {
    var base := settings.roundSeconds;
    if settings.difficulty == "easy" then base + 10
    else if settings.difficulty == "hard" then Max(20, base - 10)
    else base
  }

  /** The values pinned by the unit test and the documentation: 45 seconds
      becomes 35 on hard, 55 on easy and stays 45 on medium. */
  lemma RoundSecondsExamples()
    ensures PickRoundSeconds(DefaultSettings().(difficulty := "hard")) == 35
    ensures PickRoundSeconds(DefaultSettings().(difficulty := "easy")) == 55
    ensures PickRoundSeconds(DefaultSettings()) == 45
  {
  }

  // ---------------------------------------------------------------- scoring

  datatype Score = Score(points: int, outcome: Outcome)

  /** Python list indexing: a negative index counts from the end. */
  function PyIndex(n: int, i: int): int { if i < 0 then n + i else i }

  /** What scoring needs from its caller: a selected index that is looked up
      among the choices (because it is a correct or partial index) must be a
      usable list index. */
  predicate Scorable(sc: Scenario, selected: Option<int>)
  {
    selected.Some? && (selected.value in sc.correctIndexes || selected.value in sc.partialIndexes)
    ==> -|sc.choices| <= selected.value < |sc.choices|
  }

  /** The choice's own weight, or `default` when that weight is 0. */
  function WeightOr(sc: Scenario, i: int, default: int): (w: int)
    requires -|sc.choices| <= i < |sc.choices|
    ensures w == default || w == sc.choices[PyIndex(|sc.choices|, i)].weight
    ensures sc.choices[PyIndex(|sc.choices|, i)].weight == 0 ==> w == default
    ensures sc.choices[PyIndex(|sc.choices|, i)].weight != 0 ==> w == sc.choices[PyIndex(|sc.choices|, i)].weight
  {
    var weight := sc.choices[PyIndex(|sc.choices|, i)].weight;
    if weight != 0 then weight else default
  }

  /** One point per three seconds left (floor division), between 0 and 20, and
      nothing when the timer is off. */
  function TimeBonus(settings: GameSettings, remaining: int): (b: int)
    ensures 0 <= b <= 20
    ensures !settings.timerEnabled ==> b == 0
    ensures settings.timerEnabled && 0 <= remaining < 60 ==> 3 * b <= remaining < 3 * b + 3
    ensures settings.timerEnabled && remaining >= 60 ==> b == 20
    ensures settings.timerEnabled && remaining < 0 ==> b == 0
  {
    if settings.timerEnabled then Max(0, Min(20, remaining / 3)) else 0
  }

  /** Ten points exactly when the streak coming into the round is positive and even. */
  function StreakBonus(streak: int): (b: int)
    ensures b == 0 || b == 10
    ensures b == 10 <==> streak > 0 && streak % 2 == 0
  {
    if streak > 0 && streak % 2 == 0 then 10 else 0
  }

  /** Penalty for a wrong answer: the scenario's own unless it is 0, and nothing
      when penalties are off. */
  function UnsafePoints(settings: GameSettings, sc: Scenario): (p: int)
    ensures !settings.penaltiesEnabled ==> p == 0
    ensures settings.penaltiesEnabled && sc.unsafePenalty != 0 ==> p == sc.unsafePenalty
    ensures settings.penaltiesEnabled && sc.unsafePenalty == 0 ==> p == settings.unsafePenalty
  {
    if settings.penaltiesEnabled then (if sc.unsafePenalty != 0 then sc.unsafePenalty else settings.unsafePenalty)
    else 0
  }

  /** Classifies one answer and prices it.  The checks run in order: skipped,
      correct, partial, and everything else is unsafe. */
  function ComputeScore(settings: GameSettings, sc: Scenario, selected: Option<int>, remaining: int, streak: int): (r: Score)
    requires Scorable(sc, selected)
    ensures r.outcome == Skipped <==> selected.None?
    ensures r.outcome == Correct <==> selected.Some? && selected.value in sc.correctIndexes
    ensures r.outcome == Partial <==>
      selected.Some? && selected.value !in sc.correctIndexes && selected.value in sc.partialIndexes
    ensures r.outcome == Unsafe <==>
      selected.Some? && selected.value !in sc.correctIndexes && selected.value !in sc.partialIndexes
  {
    if selected.None? then
      Score(if settings.penaltiesEnabled then settings.skipPenalty else 0, Skipped)
    else if selected.value in sc.correctIndexes then
      var base := WeightOr(sc, selected.value, settings.baseCorrect);
      var bonus := TimeBonus(settings, remaining);
      var streakBonus := StreakBonus(streak);
      Score(base + bonus + streakBonus, Correct)
    else if selected.value in sc.partialIndexes then
      Score(WeightOr(sc, selected.value, settings.basePartial), Partial)
    else
      Score(UnsafePoints(settings, sc), Unsafe)
  }

  /** The points for each outcome.  A correct answer earns its weight (or the
      base) plus at most 30 bonus points; a partial answer earns exactly its
      weight (or the partial base) with no bonus; a skip or an unsafe answer
      costs the matching penalty only when penalties are on. */
  lemma ScorePoints(settings: GameSettings, sc: Scenario, selected: Option<int>, remaining: int, streak: int)
    requires Scorable(sc, selected)
    ensures var r := ComputeScore(settings, sc, selected, remaining, streak);
      && (r.outcome == Skipped ==> r.points == (if settings.penaltiesEnabled then settings.skipPenalty else 0))
      && (r.outcome == Correct ==>
            var base := WeightOr(sc, selected.value, settings.baseCorrect);
            && r.points == base + TimeBonus(settings, remaining) + StreakBonus(streak)
            && base <= r.points <= base + 30
            && (!settings.timerEnabled && StreakBonus(streak) == 0 ==> r.points == base))
      && (r.outcome == Partial ==> r.points == WeightOr(sc, selected.value, settings.basePartial))
      && (r.outcome == Unsafe ==> r.points == UnsafePoints(settings, sc))
  {
  }

  /** The scenario used by the unit tests: three unweighted choices, choice 1
      correct, choice 2 partial, its own unsafe penalty of -25. */
  function TestScenario(): Scenario
  {
    Scenario("t", "t", "Phishing", "easy", "n",
             [Choice("a", 0), Choice("b", 0), Choice("c", 0)], [1], [2], -25, "", "", "", [])
  }

  /** With the default settings: a correct answer with 30 seconds left on an
      incoming streak of 2 scores 100 + 10 + 10 = 120, the partial answer 50,
      the unsafe answer -25, and a skip -10. */
  lemma ScoringExamples()
    ensures ComputeScore(DefaultSettings(), TestScenario(), Some(1), 30, 2) == Score(120, Correct)
    ensures ComputeScore(DefaultSettings(), TestScenario(), Some(2), 10, 0) == Score(50, Partial)
    ensures ComputeScore(DefaultSettings(), TestScenario(), Some(0), 0, 0) == Score(-25, Unsafe)
    ensures ComputeScore(DefaultSettings(), TestScenario(), None, 0, 0) == Score(-10, Skipped)
  {
    var sc := TestScenario();
    assert sc.correctIndexes == [1] && sc.partialIndexes == [2];
    assert 1 in sc.correctIndexes;
    assert 2 !in sc.correctIndexes && 2 in sc.partialIndexes;
    assert 0 !in sc.correctIndexes && 0 !in sc.partialIndexes;
    assert sc.choices[1].weight == 0 && sc.choices[2].weight == 0;
  }

  /** Any selection is scorable on a well-formed scenario with a non-negative index. */
  lemma WellFormedScorable(sc: Scenario, selected: Option<int>)
    requires WellFormed(sc)
    requires selected.Some? ==> selected.value >= 0
    ensures Scorable(sc, selected)
  {
    if selected.Some? && (selected.value in sc.correctIndexes || selected.value in sc.partialIndexes) {
      assert selected.value in AllIndexes(sc);
    }
  }

  // ---------------------------------------------------------------- deck selection

  /** The scenarios whose id has not been seen, in catalog order. */
  function Unseen(all: seq<Scenario>, seen: set<string>): (r: seq<Scenario>)
    ensures multiset(r) <= multiset(all)
    ensures forall s :: s in r <==> s in all && s.id !in seen
  {
    if all == [] then []
    else
      var init := Unseen(all[..|all| - 1], seen);
      var last := all[|all| - 1];
      assert all == all[..|all| - 1] + [last];
      if last.id in seen then init else init + [last]
  }

  /** Every unseen scenario is kept as often as it occurs in the catalogue,
      and no seen one is kept. */
  lemma {:induction false} UnseenCounts(all: seq<Scenario>, seen: set<string>)
    ensures forall s :: multiset(Unseen(all, seen))[s] == if s.id in seen then 0 else multiset(all)[s]
  {
    if all != [] {
      var init, last := all[..|all| - 1], all[|all| - 1];
      UnseenCounts(init, seen);
      assert all == init + [last];
      assert multiset(all) == multiset(init) + multiset{last};
      if last.id !in seen {
        assert multiset(Unseen(all, seen)) == multiset(Unseen(init, seen)) + multiset{last};
      }
    }
  }

  /** With nothing seen, every scenario is unseen. */
  lemma {:induction false} UnseenNothingSeen(all: seq<Scenario>)
    ensures Unseen(all, {}) == all
  {
    if all != [] {
      var init, last := all[..|all| - 1], all[|all| - 1];
      UnseenNothingSeen(init);
      assert all == init + [last];
    }
  }

  /** Length of `xs[:k]` for a Python list of length n (a negative k counts from the end). */
  function SliceLen(n: nat, k: int): (m: nat)
    ensures m <= n
    ensures k >= 0 ==> m == Min(k, n)
  {
    if k >= 0 then Min(k, n) else Max(0, n + k)
  }

  lemma PrefixMultiset<T>(s: seq<T>, k: nat)
    requires k <= |s|
    ensures multiset(s[..k]) <= multiset(s)
  {
    assert s == s[..k] + s[k..];
  }

  /** Up to `count` scenarios for a new deck.  Unseen scenarios are used when
      there are at least `count` of them; otherwise the whole catalog is
      shuffled instead.  Each shuffle is an arbitrary permutation. */
  method SelectScenarios(all: seq<Scenario>, count: int, seen: set<string>) returns (deck: seq<Scenario>)
    ensures multiset(deck) <= multiset(all)
    ensures count >= 0 ==> |deck| <= count
    ensures count >= 0 && |Unseen(all, seen)| >= count ==> |deck| == count
    ensures |Unseen(all, seen)| >= count ==>
      |deck| == SliceLen(|Unseen(all, seen)|, count) &&
      multiset(deck) <= multiset(Unseen(all, seen)) &&
      forall s :: s in deck ==> s.id !in seen
    ensures |Unseen(all, seen)| < count ==> |deck| == Min(count, |all|)
  {
    var unseen := Unseen(all, seen);
    var pool := new Scenario[|unseen|](i requires 0 <= i < |unseen| => unseen[i]);
    assert pool[..] == unseen;
    Random.Shuffle(pool);
    if pool.Length < count {
      pool := new Scenario[|all|](i requires 0 <= i < |all| => all[i]);
      assert pool[..] == all;
      Random.Shuffle(pool);
    }
    var k := SliceLen(pool.Length, count);
    deck := pool[..k];
    PrefixMultiset(pool[..], k);
    assert pool[..][..k] == deck;
    if |unseen| >= count {
      forall s | s in deck ensures s.id !in seen {
        assert s in multiset(deck);
        assert s in multiset(unseen);
      }
    }
  }

  // ---------------------------------------------------------------- badges

  function PhishCorrectCount(results: seq<RoundResult>): nat
  {
    if results == [] then 0
    else
      var r := results[|results| - 1];
      PhishCorrectCount(results[..|results| - 1]) + (if r.outcome == Correct && "phish" <= r.scenarioId then 1 else 0)
  }

  predicate NoSkips(results: seq<RoundResult>)
  {
    forall i :: 0 <= i < |results| ==> results[i].outcome != Skipped
  }

  function TotalTime(results: seq<RoundResult>): int
  {
    if results == [] then 0 else TotalTime(results[..|results| - 1]) + results[|results| - 1].timeTaken
  }

  /** Mean answer time below ten seconds, as the source computes it. */
  predicate FastSession(results: seq<RoundResult>)
  {
    |results| > 0 && (TotalTime(results) as real) / (|results| as real) < 10.0
  }

  /** The real-valued mean test is the integer test "total < 10 per round". */
  lemma FastSessionIntegral(results: seq<RoundResult>)
    ensures FastSession(results) <==> |results| > 0 && TotalTime(results) < 10 * |results|
  {
    if |results| > 0 {
      var t, n := TotalTime(results) as real, |results| as real;
      var q := t / n;
      assert q * n == t;
      if q < 10.0 {
        ProductPositive(10.0 - q, n);
      } else {
        ProductNonNegative(q - 10.0, n);
      }
    }
  }

  lemma ProductPositive(a: real, b: real)
    requires a > 0.0 && b > 0.0
    ensures a * b > 0.0
  {
  }

  lemma ProductNonNegative(a: real, b: real)
    requires a >= 0.0 && b > 0.0
    ensures a * b >= 0.0
  {
  }

  /** The badges a session earns, each rule on its own. */
  function Earned(results: seq<RoundResult>): (b: set<string>)
    ensures b <= {"Phish Fryer", "Zero Trust", "Fast Thinker"}
    ensures "Phish Fryer" in b <==> PhishCorrectCount(results) >= 5
    ensures "Zero Trust" in b <==> NoSkips(results)
    ensures "Fast Thinker" in b <==> |results| > 0 && TotalTime(results) < 10 * |results|
  {
    FastSessionIntegral(results);
    (if PhishCorrectCount(results) >= 5 then {"Phish Fryer"} else {})
    + (if NoSkips(results) then {"Zero Trust"} else {})
    + (if FastSession(results) then {"Fast Thinker"} else {})
  }

  /** An empty session earns "Zero Trust" (no result is a skip) and nothing else. */
  lemma EarnedEmpty()
    ensures Earned([]) == {"Zero Trust"}
  {
  }

  /** Python's `<` on strings: code point by code point, a proper prefix first. */
  predicate Below(a: string, b: string)
  {
    if a == [] then b != []
    else if b == [] then false
    else a[0] < b[0] || (a[0] == b[0] && Below(a[1..], b[1..]))
  }

  lemma {:induction false} BelowIrreflexive(a: string)
    ensures !Below(a, a)
  {
    if a != [] { BelowIrreflexive(a[1..]); }
  }

  lemma {:induction false} BelowTransitive(a: string, b: string, c: string)
    requires Below(a, b) && Below(b, c)
    ensures Below(a, c)
  {
    if a != [] && b != [] && c != [] && a[0] == b[0] && b[0] == c[0] {
      BelowTransitive(a[1..], b[1..], c[1..]);
    }
  }

  lemma {:induction false} BelowTotal(a: string, b: string)
    ensures a == b || Below(a, b) || Below(b, a)
  {
    if a != [] && b != [] && a[0] == b[0] {
      BelowTotal(a[1..], b[1..]);
      assert a == [a[0]] + a[1..] && b == [b[0]] + b[1..];
    }
  }

  predicate StrictlySorted(s: seq<string>)
  {
    forall i, j :: 0 <= i < j < |s| ==> Below(s[i], s[j])
  }

  function Elems(s: seq<string>): set<string>
  {
    set x | x in s
  }

  /** Putting x at position j keeps a list strictly sorted when everything
      before j is below x and x is below what was at j. */
  lemma InsertKeepsSorted(r: seq<string>, j: nat, x: string)
    requires StrictlySorted(r) && j <= |r|
    requires forall k :: 0 <= k < j ==> Below(r[k], x)
    requires j < |r| ==> Below(x, r[j])
    ensures StrictlySorted(r[..j] + [x] + r[j..])
  {
    var r' := r[..j] + [x] + r[j..];
    forall k | j < k < |r| ensures Below(x, r[k]) {
      BelowTransitive(x, r[j], r[k]);
    }
    forall a, b | 0 <= a < b < |r'| ensures Below(r'[a], r'[b]) {
      if b < j {
        assert r'[a] == r[a] && r'[b] == r[b];
      } else if b == j {
        assert r'[a] == r[a] && r'[b] == x;
      } else if a < j {
        assert r'[a] == r[a] && r'[b] == r[b - 1];
      } else if a == j {
        assert r'[a] == x && r'[b] == r[b - 1];
      } else {
        assert r'[a] == r[a - 1] && r'[b] == r[b - 1];
      }
    }
  }

  lemma ElemsEmpty(s: seq<string>)
    ensures Elems(s) == {} <==> s == []
  {
    if s != [] { assert s[0] in Elems(s); }
  }

  /** `sorted()` of a set of strings: the elements in increasing order, each once. */
  method SortedList(items: set<string>) returns (r: seq<string>)
    ensures StrictlySorted(r)
    ensures Elems(r) == items
  {
    r := [];
    var rest := items;
    while rest != {}
      invariant rest <= items
      invariant StrictlySorted(r)
      invariant Elems(r) == items - rest
      decreases |rest|
    {
      var x :| x in rest;
      var j := 0;
      while j < |r| && Below(r[j], x)
        invariant 0 <= j <= |r|
        invariant forall k :: 0 <= k < j ==> Below(r[k], x)
      {
        j := j + 1;
      }
      assert x !in r;
      if j < |r| {
        BelowTotal(x, r[j]);
      }
      InsertKeepsSorted(r, j, x);
      assert r == r[..j] + r[j..];
      assert Elems(r[..j] + [x] + r[j..]) == Elems(r) + {x};
      r := r[..j] + [x] + r[j..];
      rest := rest - {x};
    }
  }

  /** Two strictly increasing lists with the same elements are the same list. */
  lemma {:induction false} SortedUnique(a: seq<string>, b: seq<string>)
    requires StrictlySorted(a) && StrictlySorted(b) && Elems(a) == Elems(b)
    ensures a == b
    decreases |a|
  {
    if a == [] {
      ElemsEmpty(b);
    } else {
      assert a[0] in Elems(a);
      assert b != [];
      if a[0] != b[0] {
        assert b[0] in Elems(b);
        var k :| 0 <= k < |b| && b[k] == a[0];
        var m :| 0 <= m < |a| && a[m] == b[0];
        assert Below(b[0], a[0]) && Below(a[0], b[0]);
        BelowTransitive(a[0], b[0], a[0]);
        BelowIrreflexive(a[0]);
      }
      forall i | 0 < i < |a| ensures a[i] != a[0] { BelowIrreflexive(a[0]); }
      forall i | 0 < i < |b| ensures b[i] != b[0] { BelowIrreflexive(b[0]); }
      assert Elems(a[1..]) == Elems(a) - {a[0]};
      assert Elems(b[1..]) == Elems(b) - {b[0]};
      SortedUnique(a[1..], b[1..]);
      assert a == [a[0]] + a[1..] && b == [b[0]] + b[1..];
    }
  }

  /** The stored badge list after a session: the old badges together with the
      newly earned ones, in increasing order and without repeats. */
  ghost predicate BadgesAfter(list: seq<string>, before: seq<string>, results: seq<RoundResult>)
  {
    StrictlySorted(list) && Elems(list) == Elems(before) + Earned(results)
  }

  /** Adds the badges the session earned to the profile and stores the set as a sorted list. */
  method UpdateBadges(profile: Profile, results: seq<RoundResult>, settings: GameSettings)
    modifies profile`unlockedBadges
    ensures BadgesAfter(profile.unlockedBadges, old(profile.unlockedBadges), results)
  {
    var badges := Elems(profile.unlockedBadges);
    var phishCorrect := PhishCorrectCount(results);
    if phishCorrect >= 5 { badges := badges + {"Phish Fryer"}; }
    if NoSkips(results) { badges := badges + {"Zero Trust"}; }
    if FastSession(results) { badges := badges + {"Fast Thinker"}; }
    profile.unlockedBadges := SortedList(badges);
  }

  /** Badges are never revoked, and a second pass over the same results leaves
      the stored list exactly as the first pass left it. */
  lemma {:induction false} UpdateBadgesIdempotent(before: seq<string>, once: seq<string>, twice: seq<string>, results: seq<RoundResult>)
    requires BadgesAfter(once, before, results)
    requires BadgesAfter(twice, once, results)
    ensures Elems(before) <= Elems(once)
    ensures twice == once
  {
    SortedUnique(once, twice);
  }

  /** The stored list is determined by the badge set alone: whichever way a
      list was produced, if it is strictly sorted with these elements it is the one. */
  lemma BadgesAfterUnique(a: seq<string>, b: seq<string>, before: seq<string>, results: seq<RoundResult>)
    requires BadgesAfter(a, before, results) && BadgesAfter(b, before, results)
    ensures a == b
  {
    SortedUnique(a, b);
  }
}
