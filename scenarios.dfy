/** Loading the scenario catalogue: each JSON object is cast to a scenario,
    the malformed ones are dropped, and the survivors are shuffled. */
module Scenarios {
  import opened Models
  import Random

  /** A choice object as parsed; an absent key is None. */
  datatype RawChoice = RawChoice(text: Option<string>, weight: Option<int>)

  /** A scenario object as parsed; an absent key is None. */
  datatype RawScenario = RawScenario(
    id: Option<string>,
    title: Option<string>,
    category: Option<string>,
    difficulty: Option<string>,
    narrative: Option<string>,
    choices: Option<seq<RawChoice>>,
    correctIndexes: Option<seq<int>>,
    partialIndexes: Option<seq<int>>,
    unsafePenalty: Option<int>,
    hint: Option<string>,
    feedbackWhy: Option<string>,
    proTip: Option<string>,
    references: Option<seq<string>>)

  /** `dict.get(key, default)`. */
  function GetOr<T>(o: Option<T>, default: T): T
  {
    if o.Some? then o.value else default
  }

  /** Every choice carries its label. */
  predicate Labelled(cs: seq<RawChoice>)
  {
    forall i :: 0 <= i < |cs| ==> cs[i].text.Some?
  }

  /** The keys `cast` reads with `o[...]`, whose absence raises. */
  predicate HasRequiredKeys(o: RawScenario)
  {
    && o.id.Some? && o.title.Some? && o.category.Some? && o.difficulty.Some?
    && o.narrative.Some? && o.choices.Some? && Labelled(o.choices.value)
    && o.correctIndexes.Some?
  }

  function CastChoices(cs: seq<RawChoice>): (r: Option<seq<Choice>>)
    ensures r.Some? <==> Labelled(cs)
    ensures r.Some? ==> (
      && |r.value| == |cs|
      && forall i :: 0 <= i < |cs| ==> r.value[i] == Choice(cs[i].text.value, GetOr(cs[i].weight, 0)))
  {
    if cs == [] then Some([])
    else
      var init := CastChoices(cs[..|cs| - 1]);
      var last := cs[|cs| - 1];
      if init.None? || last.text.None? then None
      else Some(init.value + [Choice(last.text.value, GetOr(last.weight, 0))])
  }

  /** `cast(o)`: None where the original raises on a missing key; optional keys
      take their defaults. */
  function Cast(o: RawScenario): (r: Option<Scenario>)
    ensures r.Some? <==> HasRequiredKeys(o)
  {
    if !(o.id.Some? && o.title.Some? && o.category.Some? && o.difficulty.Some? && o.narrative.Some?) then None
    else if o.choices.None? then None
    else
      var choices := CastChoices(o.choices.value);
      if choices.None? || o.correctIndexes.None? then None
      else Some(Scenario(
        o.id.value, o.title.value, o.category.value, o.difficulty.value, o.narrative.value,
        choices.value, o.correctIndexes.value, GetOr(o.partialIndexes, []),
        GetOr(o.unsafePenalty, 0), GetOr(o.hint, ""), GetOr(o.feedbackWhy, ""),
        GetOr(o.proTip, ""), GetOr(o.references, [])))
  }

  /** The object that serialises a scenario with every key present. */
  function ToRaw(sc: Scenario): RawScenario
  {
    RawScenario(
      Some(sc.id), Some(sc.title), Some(sc.category), Some(sc.difficulty), Some(sc.narrative),
      Some(RawChoicesOf(sc.choices)), Some(sc.correctIndexes), Some(sc.partialIndexes),
      Some(sc.unsafePenalty), Some(sc.hint), Some(sc.feedbackWhy), Some(sc.proTip),
      Some(sc.references))
  }

  function RawChoicesOf(cs: seq<Choice>): (r: seq<RawChoice>)
    ensures |r| == |cs|
    ensures forall i :: 0 <= i < |cs| ==> r[i] == RawChoice(Some(cs[i].text), Some(cs[i].weight))
  {
    if cs == [] then [] else [RawChoice(Some(cs[0].text), Some(cs[0].weight))] + RawChoicesOf(cs[1..])
  }

  /** Casting a fully written-out scenario gives it back unchanged. */
  lemma CastRoundTrip(sc: Scenario)
    ensures Cast(ToRaw(sc)) == Some(sc)
  {
    var cs := CastChoices(RawChoicesOf(sc.choices));
    assert cs.Some?;
    assert cs.value == sc.choices;
  }

  /** The object with only the required keys, and choices without weights. */
  function Minimal(id: string, title: string, category: string, difficulty: string,
                   narrative: string, labels: seq<string>, correct: seq<int>): RawScenario
  {
    RawScenario(Some(id), Some(title), Some(category), Some(difficulty), Some(narrative),
      Some(seq(|labels|, i requires 0 <= i < |labels| => RawChoice(Some(labels[i]), None))),
      Some(correct), None, None, None, None, None, None)
  }

  /** Absent optional keys take their documented defaults: weight 0, no partial
      indexes, no penalty, empty texts and no references. */
  lemma CastDefaults(id: string, title: string, category: string, difficulty: string,
                     narrative: string, labels: seq<string>, correct: seq<int>)
    ensures var r := Cast(Minimal(id, title, category, difficulty, narrative, labels, correct));
      && r.Some?
      && r.value.id == id && r.value.correctIndexes == correct
      && |r.value.choices| == |labels|
      && (forall i :: 0 <= i < |labels| ==> r.value.choices[i] == Choice(labels[i], 0))
      && r.value.partialIndexes == [] && r.value.unsafePenalty == 0
      && r.value.hint == "" && r.value.feedbackWhy == "" && r.value.proTip == ""
      && r.value.references == []
  {
  }

  /** `[cast(o) for o in data]`, None when reading, parsing or any cast fails
      (the original then falls back to the empty list). */
  function CastAll(data: seq<RawScenario>): (r: Option<seq<Scenario>>)
    ensures r.Some? <==> forall i :: 0 <= i < |data| ==> Cast(data[i]).Some?
    ensures r.Some? ==> |r.value| == |data| && forall i :: 0 <= i < |data| ==> Some(r.value[i]) == Cast(data[i])
  {
    if data == [] then Some([])
    else
      var init := CastAll(data[..|data| - 1]);
      var last := Cast(data[|data| - 1]);
      if init.None? || last.None? then None else Some(init.value + [last.value])
  }

  /** The scenarios `load_scenarios` starts from. */
  function Parsed(data: Option<seq<RawScenario>>): seq<Scenario>
  {
    if data.None? then []
    else
      var cast := CastAll(data.value);
      if cast.None? then [] else cast.value
  }

  /** The well-formed scenarios of `sc`, in order. */
  function Playable(sc: seq<Scenario>): seq<Scenario>
  {
    if sc == [] then []
    else Playable(sc[..|sc| - 1]) + (if WellFormed(sc[|sc| - 1]) then [sc[|sc| - 1]] else [])
  }

  /** A well-formed scenario is kept as many times as it occurs, and no other
      scenario is kept. */
  lemma {:induction false} PlayableCounts(sc: seq<Scenario>)
    ensures forall s :: WellFormed(s) ==> multiset(Playable(sc))[s] == multiset(sc)[s]
    ensures forall s :: !WellFormed(s) ==> multiset(Playable(sc))[s] == 0
  {
    if sc != [] {
      var init, last := sc[..|sc| - 1], sc[|sc| - 1];
      PlayableCounts(init);
      assert sc == init + [last];
      var extra := if WellFormed(last) then [last] else [];
      assert multiset(Playable(sc)) == multiset(Playable(init)) + multiset(extra);
      assert multiset(sc) == multiset(init) + multiset{last};
    }
  }

  /** A scenario is kept exactly when it is one of the input's and is well
      formed; and it is kept as many times as it occurs. */
  lemma PlayableExact(sc: seq<Scenario>)
    ensures forall s :: s in Playable(sc) <==> s in sc && WellFormed(s)
    ensures forall s :: WellFormed(s) ==> multiset(Playable(sc))[s] == multiset(sc)[s]
    ensures forall s :: !WellFormed(s) ==> multiset(Playable(sc))[s] == 0
  {
    PlayableCounts(sc);
    forall s ensures s in Playable(sc) <==> s in sc && WellFormed(s) {
      assert s in Playable(sc) <==> s in multiset(Playable(sc));
      assert s in sc <==> s in multiset(sc);
    }
  }

  /** The validation pass: keeps, in order, the scenarios whose validation
      reports nothing. */
  method KeepPlayable(sc: seq<Scenario>) returns (kept: seq<Scenario>)
    ensures kept == Playable(sc)
  {
    kept := [];
    var i := 0;
    while i < |sc|
      invariant 0 <= i <= |sc|
      invariant kept == Playable(sc[..i])
    {
      var errs := Validate(sc[i]);
      assert sc[..i + 1][..i] == sc[..i];
      if errs == [] {
        kept := kept + [sc[i]];
      }
      i := i + 1;
    }
    assert sc[..i] == sc;
  }

  /** Reads the catalogue: casts every object, keeps those whose validation
      reports nothing, and shuffles them. */
  method LoadScenarios(data: Option<seq<RawScenario>>) returns (good: seq<Scenario>)
    ensures multiset(good) == multiset(Playable(Parsed(data)))
    ensures forall s :: s in good ==> WellFormed(s)
    ensures data.None? || CastAll(data.value).None? ==> good == []
  {
    var sc := Parsed(data);
    var kept := KeepPlayable(sc);
    var a := new Scenario[|kept|](k requires 0 <= k < |kept| => kept[k]);
    assert a[..] == kept;
    Random.Shuffle(a);
    good := a[..];
    PlayableExact(sc);
    forall s | s in good ensures WellFormed(s) {
      assert s in multiset(good);
    }
  }

  /** Nothing else survives loading: every scenario returned is one of the
      catalogue's, and a well-formed one is returned as often as it occurs. */
  lemma LoadedExact(data: Option<seq<RawScenario>>, good: seq<Scenario>)
    requires multiset(good) == multiset(Playable(Parsed(data)))
    ensures forall s :: s in good <==> s in Parsed(data) && WellFormed(s)
    ensures forall s :: WellFormed(s) ==> multiset(good)[s] == multiset(Parsed(data))[s]
  {
    PlayableExact(Parsed(data));
    forall s ensures s in good <==> s in Parsed(data) && WellFormed(s) {
      assert s in good <==> s in multiset(good);
      assert s in Playable(Parsed(data)) <==> s in multiset(Playable(Parsed(data)));
    }
  }
}
