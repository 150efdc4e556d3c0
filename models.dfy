/** Records of the quiz: scenarios and their choices, settings, the player
    profile, the per-round result and the session state, together with the
    structural check a scenario must pass to be playable. */
module Models {

  datatype Option<T> = None | Some(value: T)

  function Max(a: int, b: int): int { if a >= b then a else b }
  function Min(a: int, b: int): int { if a <= b then a else b }

  /** One answer of a scenario (its label is `text`, since `label` is a Dafny keyword); a weight of 0 means "use the default points". */
  datatype Choice = Choice(text: string, weight: int)

  /** A training question.  Index lists are kept as lists, exactly as loaded. */
  datatype Scenario = Scenario(
    id: string,
    title: string,
    category: string,
    difficulty: string,
    narrative: string,
    choices: seq<Choice>,
    correctIndexes: seq<int>,
    partialIndexes: seq<int>,
    unsafePenalty: int,
    hint: string,
    feedbackWhy: string,
    proTip: string,
    references: seq<string>)

  /** The three kinds of message `validate` produces, each tagged with the scenario id. */
  datatype ValidationError =
    | MissingTitleOrChoices(id: string)
    | MissingCorrectIndexes(id: string)
    | BadIndex(id: string, index: int)

  predicate InRange(ix: int, n: int) { 0 <= ix < n }

  /** Every index of the scenario, correct ones first, in list order. */
  function AllIndexes(sc: Scenario): seq<int> { sc.correctIndexes + sc.partialIndexes }

  /** The structural invariant of a playable scenario. */
  predicate WellFormed(sc: Scenario)
  {
    && sc.title != []
    && sc.choices != []
    && sc.correctIndexes != []
    && (forall ix :: ix in sc.correctIndexes ==> InRange(ix, |sc.choices|))
    && (forall ix :: ix in sc.partialIndexes ==> InRange(ix, |sc.choices|))
  }

  /** One error per out-of-range occurrence in `ixs`, in list order. */
  function BadIndexErrors(id: string, ixs: seq<int>, n: int): seq<ValidationError>
  {
    if ixs == [] then []
    else
      var last := ixs[|ixs| - 1];
      BadIndexErrors(id, ixs[..|ixs| - 1], n) + (if InRange(last, n) then [] else [BadIndex(id, last)])
  }

  function HeaderErrors(sc: Scenario): seq<ValidationError>
  {
    (if sc.title == [] || sc.choices == [] then [MissingTitleOrChoices(sc.id)] else [])
    + (if sc.correctIndexes == [] then [MissingCorrectIndexes(sc.id)] else [])
  }

  /** The list of errors `validate` returns. */
  function ValidationErrors(sc: Scenario): seq<ValidationError>
  {
    HeaderErrors(sc) + BadIndexErrors(sc.id, AllIndexes(sc), |sc.choices|)
  }

  /** Builds the error list step by step: the two header checks, then one
      pass over the correct indexes followed by the partial indexes. */
  method Validate(sc: Scenario) returns (errs: seq<ValidationError>)
    ensures errs == ValidationErrors(sc)
    ensures errs == [] <==> WellFormed(sc)
  {
    errs := [];
    if sc.title == [] || sc.choices == [] {
      errs := errs + [MissingTitleOrChoices(sc.id)];
    }
    if sc.correctIndexes == [] {
      errs := errs + [MissingCorrectIndexes(sc.id)];
    }
    var n := |sc.choices|;
    var ixs := sc.correctIndexes + sc.partialIndexes;
    ghost var header := errs;
    ghost var bad: seq<ValidationError> := [];
    assert header == HeaderErrors(sc);
    var i := 0;
    while i < |ixs|
      invariant 0 <= i <= |ixs|
      invariant bad == BadIndexErrors(sc.id, ixs[..i], n)
      invariant errs == header + bad
    {
      var ix := ixs[i];
      BadIndexErrorsSnoc(sc.id, ixs, i, n);
      if ix < 0 || ix >= n {
        AppendAssoc(header, bad, [BadIndex(sc.id, ix)]);
        errs := errs + [BadIndex(sc.id, ix)];
        bad := bad + [BadIndex(sc.id, ix)];
      }
      i := i + 1;
    }
    assert ixs[..i] == ixs;
    ValidIff(sc);
  }

  lemma AppendAssoc<T>(a: seq<T>, b: seq<T>, c: seq<T>)
    ensures (a + b) + c == a + (b + c)
  {
  }

  lemma BadIndexErrorsSnoc(id: string, ixs: seq<int>, i: nat, n: int)
    requires i < |ixs|
    ensures InRange(ixs[i], n) ==> BadIndexErrors(id, ixs[..i + 1], n) == BadIndexErrors(id, ixs[..i], n)
    ensures !InRange(ixs[i], n) ==>
      BadIndexErrors(id, ixs[..i + 1], n) == BadIndexErrors(id, ixs[..i], n) + [BadIndex(id, ixs[i])]
  {
    assert ixs[..i + 1][..i] == ixs[..i];
    var b := BadIndexErrors(id, ixs[..i], n);
    assert b + [] == b;
  }

  lemma {:induction false} BadIndexErrorsEmpty(id: string, ixs: seq<int>, n: int)
    ensures BadIndexErrors(id, ixs, n) == [] <==> forall ix :: ix in ixs ==> InRange(ix, n)
  {
    if ixs != [] {
      var init := ixs[..|ixs| - 1];
      BadIndexErrorsEmpty(id, init, n);
      assert ixs == init + [ixs[|ixs| - 1]];
    }
  }

  /** `validate()` returns no error exactly when the scenario is well formed. */
  lemma ValidIff(sc: Scenario)
    ensures ValidationErrors(sc) == [] <==> WellFormed(sc)
  {
    BadIndexErrorsEmpty(sc.id, AllIndexes(sc), |sc.choices|);
    assert (forall ix :: ix in AllIndexes(sc) ==> InRange(ix, |sc.choices|))
      <==> ((forall ix :: ix in sc.correctIndexes ==> InRange(ix, |sc.choices|))
            && (forall ix :: ix in sc.partialIndexes ==> InRange(ix, |sc.choices|)));
  }

  /** The bad-index part names exactly the out-of-range indexes, and no other kind of error. */
  lemma {:induction false} BadIndexErrorsExact(id: string, ixs: seq<int>, n: int, e: ValidationError)
    ensures e in BadIndexErrors(id, ixs, n) <==> e.BadIndex? && e.id == id && e.index in ixs && !InRange(e.index, n)
  {
    if ixs != [] {
      var init := ixs[..|ixs| - 1];
      BadIndexErrorsExact(id, init, n, e);
      assert ixs == init + [ixs[|ixs| - 1]];
    }
  }

  /** Number of out-of-range occurrences in `ixs` (repeats counted). */
  function OutOfRangeCount(ixs: seq<int>, n: int): nat
  {
    if ixs == [] then 0
    else OutOfRangeCount(ixs[..|ixs| - 1], n) + (if InRange(ixs[|ixs| - 1], n) then 0 else 1)
  }

  lemma {:induction false} BadIndexErrorsCount(id: string, ixs: seq<int>, n: int)
    ensures |BadIndexErrors(id, ixs, n)| == OutOfRangeCount(ixs, n)
  {
    if ixs != [] {
      BadIndexErrorsCount(id, ixs[..|ixs| - 1], n);
    }
  }

  /** The error list, kind by kind: exactly one "missing title/choices" when the
      title or the choice list is empty, one "missing correct indexes" when that
      list is empty (after it), and one "bad index" per out-of-range occurrence. */
  lemma ValidationErrorsShape(sc: Scenario)
    ensures var errs := ValidationErrors(sc);
      && (|errs| > 0 && errs[0] == MissingTitleOrChoices(sc.id) <==> sc.title == [] || sc.choices == [])
      && (MissingCorrectIndexes(sc.id) in errs <==> sc.correctIndexes == [])
      && |errs| == (if sc.title == [] || sc.choices == [] then 1 else 0)
                   + (if sc.correctIndexes == [] then 1 else 0)
                   + OutOfRangeCount(AllIndexes(sc), |sc.choices|)
      && forall ix :: BadIndex(sc.id, ix) in errs <==> ix in AllIndexes(sc) && !InRange(ix, |sc.choices|)
  {
    var bad := BadIndexErrors(sc.id, AllIndexes(sc), |sc.choices|);
    BadIndexErrorsCount(sc.id, AllIndexes(sc), |sc.choices|);
    BadIndexErrorsExact(sc.id, AllIndexes(sc), |sc.choices|, MissingTitleOrChoices(sc.id));
    BadIndexErrorsExact(sc.id, AllIndexes(sc), |sc.choices|, MissingCorrectIndexes(sc.id));
    forall ix ensures BadIndex(sc.id, ix) in ValidationErrors(sc) <==> ix in AllIndexes(sc) && !InRange(ix, |sc.choices|) {
      BadIndexErrorsExact(sc.id, AllIndexes(sc), |sc.choices|, BadIndex(sc.id, ix));
    }
    if sc.title != [] && sc.choices != [] && |ValidationErrors(sc)| > 0 {
      assert ValidationErrors(sc)[0] in HeaderErrors(sc) + bad;
    }
  }

  /** User-tunable configuration, including the presentation preferences. */
  datatype GameSettings = GameSettings(
    difficulty: string,
    timerEnabled: bool,
    roundSeconds: int,
    penaltiesEnabled: bool,
    hintsEnabled: bool,
    soundEnabled: bool,
    highContrast: bool,
    fontScale: int,
    unsafePenalty: int,
    baseCorrect: int,
    basePartial: int,
    skipPenalty: int,
    hintCost: int,
    appearance: string,
    accent: string)

  /** The dataclass defaults of the settings record. */
  function DefaultSettings(): (s: GameSettings)
    ensures s.difficulty == "medium" && s.timerEnabled && s.penaltiesEnabled && s.hintsEnabled
    ensures s.roundSeconds == 45 && s.baseCorrect == 100 && s.basePartial == 50
    ensures s.unsafePenalty == -25 && s.skipPenalty == -10 && s.hintCost == -5
  {
    GameSettings("medium", true, 45, true, true, false, false, 100, -25, 100, 50, -10, -5, "Dark", "blue")
  }

  /** The player's profile; its fields are updated in place at the end of a session. */
  class Profile {
    var name: string
    var bestScore: int
    var unlockedBadges: seq<string>

    constructor ()
      ensures name == "Player" && bestScore == 0 && unlockedBadges == []
    {
      name := "Player";
      bestScore := 0;
      unlockedBadges := [];
    }
  }

  datatype Outcome = Correct | Partial | Unsafe | Skipped

  /** What one round left behind; `selectedIndex` is None for a skipped round. */
  datatype RoundResult = RoundResult(
    scenarioId: string,
    selectedIndex: Option<int>,
    timeTaken: int,
    gained: int,
    outcome: Outcome)

  /** Length of the trailing run of Correct outcomes. */
  function CorrectRun(results: seq<RoundResult>): nat
  {
    if results == [] || results[|results| - 1].outcome != Correct then 0
    else CorrectRun(results[..|results| - 1]) + 1
  }

  /** Sum of the points recorded in the results. */
  function GainedTotal(results: seq<RoundResult>): int
  {
    if results == [] then 0 else GainedTotal(results[..|results| - 1]) + results[|results| - 1].gained
  }

  /** The running session: round pointer, score, streak and the result history. */
  class GameState {
    var roundsTotal: int
    var currentIndex: int
    var score: int
    var streak: int
    var results: seq<RoundResult>
    var seenIds: set<string>
    /** Points taken off by hints; they change the score but leave no result behind. */
    ghost var hintDeductions: int

    /** The streak is the trailing run of Correct outcomes, and the score is
        the recorded points plus the hint deductions. */
    ghost predicate Recorded()
      reads this
    {
      && streak == CorrectRun(results)
      && score == GainedTotal(results) + hintDeductions
    }

    /** Besides, the index has advanced past every recorded result. */
    ghost predicate Valid()
      reads this
    {
      0 <= currentIndex == |results| && Recorded()
    }

    constructor ()
      ensures Valid()
      ensures roundsTotal == 10 && currentIndex == 0 && score == 0 && streak == 0
      ensures results == [] && seenIds == {} && hintDeductions == 0
    {
      roundsTotal := 10;
      currentIndex := 0;
      score := 0;
      streak := 0;
      results := [];
      seenIds := {};
      hintDeductions := 0;
    }

    /** Records one finished round: the result is appended, its points are
        added to the score, and the streak grows on a Correct outcome and
        resets on any other. */
    method Record(rr: RoundResult)
      requires Recorded()
      modifies this`score, this`streak, this`results
      ensures results == old(results) + [rr]
      ensures score == old(score) + rr.gained
      ensures streak == (if rr.outcome == Correct then old(streak) + 1 else 0)
      ensures Recorded()
    {
      ghost var before := results;
      score := score + rr.gained;
      if rr.outcome == Correct {
        streak := streak + 1;
      } else {
        streak := 0;
      }
      results := results + [rr];
      assert results[..|results| - 1] == before;
    }

    /** Share of the session already played, for the progress bar. */
    function ProgressFraction(): (r: real)
      reads this
      ensures r <= 1.0
      ensures currentIndex >= 0 ==> r >= 0.0
      ensures 0 <= currentIndex <= Max(1, roundsTotal) ==> r * (Max(1, roundsTotal) as real) == currentIndex as real
      ensures currentIndex >= Max(1, roundsTotal) ==> r == 1.0
    {
      var d := Max(1, roundsTotal) as real;
      var q := (currentIndex as real) / d;
      assert q * d == currentIndex as real;
      assert currentIndex as real <= d ==> q <= 1.0 by {
        if q > 1.0 {
          assert q * d > 1.0 * d;
        }
      }
      if q <= 1.0 then q else 1.0
    }
  }
}
