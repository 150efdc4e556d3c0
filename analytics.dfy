/** End-of-session statistics over the result list: correct/total counts per
    category and the scenario answered unsafely most often. */
module Analytics {
  import opened Models

  datatype Tally = Tally(correct: nat, total: nat)

  /** The category a result is filed under; ids the map does not know go to "Other". */
  function CategoryOf(r: RoundResult, idToCat: map<string, string>): string
  {
    if r.scenarioId in idToCat then idToCat[r.scenarioId] else "Other"
  }

  /** Number of results filed under `cat`. */
  function CountIn(results: seq<RoundResult>, idToCat: map<string, string>, cat: string): nat
  {
    if results == [] then 0
    else
      CountIn(results[..|results| - 1], idToCat, cat)
      + (if CategoryOf(results[|results| - 1], idToCat) == cat then 1 else 0)
  }

  /** Number of Correct results filed under `cat`. */
  function CorrectIn(results: seq<RoundResult>, idToCat: map<string, string>, cat: string): nat
  {
    if results == [] then 0
    else
      var r := results[|results| - 1];
      CorrectIn(results[..|results| - 1], idToCat, cat)
      + (if CategoryOf(r, idToCat) == cat && r.outcome == Correct then 1 else 0)
  }

  /** The categories the results are filed under. */
  function Categories(results: seq<RoundResult>, idToCat: map<string, string>): set<string>
  {
    if results == [] then {}
    else Categories(results[..|results| - 1], idToCat) + {CategoryOf(results[|results| - 1], idToCat)}
  }

  /** The categories are exactly those of the results given. */
  lemma {:induction false} CategoriesExact(results: seq<RoundResult>, idToCat: map<string, string>, c: string)
    ensures c in Categories(results, idToCat) <==> exists j :: 0 <= j < |results| && CategoryOf(results[j], idToCat) == c
  {
    if results != [] {
      var init := results[..|results| - 1];
      CategoriesExact(init, idToCat, c);
      assert forall j :: 0 <= j < |init| ==> init[j] == results[j];
    }
  }

  /** A category with no result has count 0; one with results has a positive
      count, of which the Correct ones are a part. */
  lemma {:induction false} CountBounds(results: seq<RoundResult>, idToCat: map<string, string>, cat: string)
    ensures CorrectIn(results, idToCat, cat) <= CountIn(results, idToCat, cat)
    ensures CountIn(results, idToCat, cat) > 0 <==> cat in Categories(results, idToCat)
  {
    if results != [] {
      CountBounds(results[..|results| - 1], idToCat, cat);
    }
  }

  /** Sum of the `total` field over the given keys of the map. */
  ghost function SumOver(m: map<string, Tally>, keys: set<string>): int
    requires keys <= m.Keys
    decreases keys
  {
    if keys == {} then 0
    else
      var k :| k in keys;
      m[k].total + SumOver(m, keys - {k})
  }

  /** Sum of the `total` field over every category of the map. */
  ghost function SumTotals(m: map<string, Tally>): int
  {
    SumOver(m, m.Keys)
  }

  lemma {:induction false} SumOverPick(m: map<string, Tally>, keys: set<string>, k: string)
    requires keys <= m.Keys && k in keys
    ensures SumOver(m, keys) == m[k].total + SumOver(m, keys - {k})
    decreases keys
  {
    var j :| j in keys && SumOver(m, keys) == m[j].total + SumOver(m, keys - {j});
    if j != k {
      SumOverPick(m, keys - {j}, k);
      SumOverPick(m, keys - {k}, j);
      assert keys - {j} - {k} == keys - {k} - {j};
    }
  }

  lemma {:induction false} SumOverFrame(m: map<string, Tally>, m': map<string, Tally>, keys: set<string>)
    requires keys <= m.Keys && keys <= m'.Keys
    requires forall c :: c in keys ==> m[c].total == m'[c].total
    ensures SumOver(m, keys) == SumOver(m', keys)
    decreases keys
  {
    if keys != {} {
      var k :| k in keys;
      SumOverPick(m, keys, k);
      SumOverPick(m', keys, k);
      SumOverFrame(m, m', keys - {k});
    }
  }

  /** Replacing one category's tally changes the sum by the change of its total. */
  lemma SumTotalsUpdate(m: map<string, Tally>, k: string, t: Tally)
    ensures SumTotals(m[k := t]) == SumTotals(m) - (if k in m then m[k].total else 0) + t.total
  {
    var m' := m[k := t];
    SumOverPick(m', m'.Keys, k);
    SumOverFrame(m, m', m.Keys - {k});
    assert m'.Keys - {k} == m.Keys - {k};
    if k in m {
      SumOverPick(m, m.Keys, k);
    } else {
      assert m.Keys - {k} == m.Keys;
    }
  }

  /** `acc` holds, for every category of `rs` and no other, the Correct count
      and the total. */
  ghost predicate Tallied(acc: map<string, Tally>, rs: seq<RoundResult>, idToCat: map<string, string>)
  {
    && acc.Keys == Categories(rs, idToCat)
    && (forall c :: c in acc ==> acc[c] == Tally(CorrectIn(rs, idToCat, c), CountIn(rs, idToCat, c)))
  }

  /** One accumulator step: the result's category gets one more total, and one
      more correct when the result is Correct; a new category starts at (0, 0). */
  function Bump(acc: map<string, Tally>, r: RoundResult, idToCat: map<string, string>): map<string, Tally>
  {
    var cat := CategoryOf(r, idToCat);
    var current := if cat in acc then acc[cat] else Tally(0, 0);
    acc[cat := Tally(current.correct + (if r.outcome == Correct then 1 else 0), current.total + 1)]
  }

  lemma BumpTallies(acc: map<string, Tally>, rs: seq<RoundResult>, r: RoundResult, idToCat: map<string, string>)
    requires Tallied(acc, rs, idToCat)
    ensures Tallied(Bump(acc, r, idToCat), rs + [r], idToCat)
  {
    var cat := CategoryOf(r, idToCat);
    var rs' := rs + [r];
    assert rs'[..|rs|] == rs;
    var acc' := Bump(acc, r, idToCat);
    forall c | c in acc' ensures acc'[c] == Tally(CorrectIn(rs', idToCat, c), CountIn(rs', idToCat, c)) {
      if c != cat {
        assert c in acc;
      } else if cat !in acc {
        CountBounds(rs, idToCat, cat);
      }
    }
  }

  /** Each step adds exactly one to the sum of the totals. */
  lemma BumpSum(acc: map<string, Tally>, r: RoundResult, idToCat: map<string, string>)
    ensures SumTotals(Bump(acc, r, idToCat)) == SumTotals(acc) + 1
  {
    var cat := CategoryOf(r, idToCat);
    var current := if cat in acc then acc[cat] else Tally(0, 0);
    SumTotalsUpdate(acc, cat, Tally(current.correct + (if r.outcome == Correct then 1 else 0), current.total + 1));
  }

  /** The accumulator after reading `rs`, one Bump per result. */
  function TallyOf(rs: seq<RoundResult>, idToCat: map<string, string>): map<string, Tally>
  {
    if rs == [] then map[] else Bump(TallyOf(rs[..|rs| - 1], idToCat), rs[|rs| - 1], idToCat)
  }

  /** The accumulator is exact: one key per category met, each with its
      Correct count and its total, and the totals add up to the number of results. */
  lemma {:induction false} TallyOfExact(rs: seq<RoundResult>, idToCat: map<string, string>)
    ensures Tallied(TallyOf(rs, idToCat), rs, idToCat)
    ensures SumTotals(TallyOf(rs, idToCat)) == |rs|
  {
    if rs != [] {
      var init := rs[..|rs| - 1];
      TallyOfExact(init, idToCat);
      BumpTallies(TallyOf(init, idToCat), init, rs[|rs| - 1], idToCat);
      BumpSum(TallyOf(init, idToCat), rs[|rs| - 1], idToCat);
      assert init + [rs[|rs| - 1]] == rs;
    }
  }

  /** Tallies the results per category, one result at a time. */
  method PerCategory(results: seq<RoundResult>, idToCat: map<string, string>) returns (acc: map<string, Tally>)
    ensures acc == TallyOf(results, idToCat)
    ensures acc.Keys == Categories(results, idToCat)
    ensures forall c :: c in acc ==>
      acc[c] == Tally(CorrectIn(results, idToCat, c), CountIn(results, idToCat, c))
    ensures forall c :: c in acc ==> 0 < acc[c].total && acc[c].correct <= acc[c].total
    ensures SumTotals(acc) == |results|
  {
    acc := map[];
    var i := 0;
    while i < |results|
      invariant 0 <= i <= |results|
      invariant acc == TallyOf(results[..i], idToCat)
    {
      var r := results[i];
      var cat := CategoryOf(r, idToCat);
      var correct := if r.outcome == Correct then 1 else 0;
      var current := if cat in acc then acc[cat] else Tally(0, 0);
      ghost var before := acc;
      acc := acc[cat := Tally(current.correct + correct, current.total + 1)];
      assert acc == Bump(before, r, idToCat);
      assert results[..i + 1][..i] == results[..i];
      assert TallyOf(results[..i + 1], idToCat) == Bump(TallyOf(results[..i], idToCat), r, idToCat);
      i := i + 1;
    }
    assert results[..i] == results;
    TallyOfExact(results, idToCat);
    TalliedBounds(acc, results, idToCat);
  }

  lemma TalliedBounds(acc: map<string, Tally>, rs: seq<RoundResult>, idToCat: map<string, string>)
    requires Tallied(acc, rs, idToCat)
    ensures forall c :: c in acc ==> 0 < acc[c].total && acc[c].correct <= acc[c].total
  {
    forall c | c in acc ensures 0 < acc[c].total && acc[c].correct <= acc[c].total {
      CountBounds(rs, idToCat, c);
    }
  }

  // ---------------------------------------------------------------- most missed

  /** Ids of the Unsafe results, in result order (what the counter is fed). */
  function UnsafeIds(results: seq<RoundResult>): seq<string>
  {
    if results == [] then []
    else
      var last := results[|results| - 1];
      UnsafeIds(results[..|results| - 1]) + (if last.outcome == Unsafe then [last.scenarioId] else [])
  }

  /** An id is counted exactly when some result with that id is Unsafe. */
  lemma {:induction false} UnsafeIdsExact(results: seq<RoundResult>, x: string)
    ensures x in UnsafeIds(results) <==>
      exists i :: 0 <= i < |results| && results[i].outcome == Unsafe && results[i].scenarioId == x
  {
    if results != [] {
      var init := results[..|results| - 1];
      UnsafeIdsExact(init, x);
      assert forall j :: 0 <= j < |init| ==> init[j] == results[j];
    }
  }

  lemma {:induction false} UnsafeIdsAppend(a: seq<RoundResult>, b: seq<RoundResult>)
    ensures UnsafeIds(a + b) == UnsafeIds(a) + UnsafeIds(b)
    decreases |b|
  {
    if b == [] {
      assert a + b == a;
    } else {
      var init := b[..|b| - 1];
      UnsafeIdsAppend(a, init);
      assert (a + b)[..|a + b| - 1] == a + init;
    }
  }

  /** How often `x` was counted. */
  function Count(ids: seq<string>, x: string): nat { multiset(ids)[x] }

  /** The running maximum over the counted ids in order: a later id replaces
      the current best only when its count is strictly larger, so among ids of
      equal count the one met first wins.  Returns the best position. */
  function ArgMaxFirst(ids: seq<string>, i: nat, best: nat): (k: nat)
    requires best < i <= |ids|
    requires forall j :: 0 <= j < best ==> Count(ids, ids[j]) < Count(ids, ids[best])
    requires forall j :: 0 <= j < i ==> Count(ids, ids[j]) <= Count(ids, ids[best])
    ensures k < |ids|
    ensures forall j :: 0 <= j < k ==> Count(ids, ids[j]) < Count(ids, ids[k])
    ensures forall j :: 0 <= j < |ids| ==> Count(ids, ids[j]) <= Count(ids, ids[k])
    decreases |ids| - i
  {
    if i == |ids| then best
    else if Count(ids, ids[i]) > Count(ids, ids[best]) then ArgMaxFirst(ids, i + 1, i)
    else ArgMaxFirst(ids, i + 1, best)
  }

  /** The id with the most Unsafe answers (the first one met on a tie), or
      "None" when no answer was Unsafe.  The id's first Unsafe answer comes
      before that of every other id with as many. */
  function MostMissed(results: seq<RoundResult>): (r: string)
    ensures UnsafeIds(results) == [] ==> r == "None"
    ensures UnsafeIds(results) != [] ==>
      var ids := UnsafeIds(results);
      && (forall x :: Count(ids, x) <= Count(ids, r))
      && exists k :: 0 <= k < |ids| && ids[k] == r && forall j :: 0 <= j < k ==> Count(ids, ids[j]) < Count(ids, r)
  {
    var ids := UnsafeIds(results);
    if ids == [] then "None"
    else
      var k := ArgMaxFirst(ids, 1, 0);
      assert forall x :: x in multiset(ids) ==> exists j :: 0 <= j < |ids| && ids[j] == x;
      ids[k]
  }

  /** Results that are not Unsafe never change the answer. */
  lemma MostMissedIgnoresOthers(a: seq<RoundResult>, r: RoundResult, b: seq<RoundResult>)
    requires r.outcome != Unsafe
    ensures MostMissed(a + [r] + b) == MostMissed(a + b)
  {
    assert UnsafeIds([r]) == [] by { assert [r][..0] == []; }
    UnsafeIdsAppend(a, [r]);
    UnsafeIdsAppend(a + [r], b);
    UnsafeIdsAppend(a, b);
    assert UnsafeIds(a + [r] + b) == UnsafeIds(a + b);
  }

  /** The example session: three Unsafe answers on "phish-1", one on "phish-2". */
  function ExampleSession(): seq<RoundResult>
  {
    [RoundResult("phish-1", Some(0), 5, -25, Unsafe),
     RoundResult("phish-2", Some(0), 5, -25, Unsafe),
     RoundResult("phish-1", Some(0), 5, -25, Unsafe),
     RoundResult("phish-1", Some(2), 5, -25, Unsafe)]
  }

  lemma ExampleSessionIds()
    ensures UnsafeIds(ExampleSession()) == ["phish-1", "phish-2", "phish-1", "phish-1"]
  {
    var rs := ExampleSession();
    assert rs[..1] == [rs[0]] && rs[..2] == rs[..1] + [rs[1]];
    assert rs[..3] == rs[..2] + [rs[2]] && rs == rs[..3] + [rs[3]];
    assert UnsafeIds(rs[..1]) == ["phish-1"];
    assert UnsafeIds(rs[..2]) == ["phish-1", "phish-2"];
    assert UnsafeIds(rs[..3]) == ["phish-1", "phish-2", "phish-1"];
  }

  /** Three Unsafe answers on "phish-1" against one on "phish-2" name "phish-1";
      an empty list names "None". */
  lemma MostMissedExamples()
    ensures MostMissed([]) == "None"
    ensures MostMissed(ExampleSession()) == "phish-1"
  {
    ExampleSessionIds();
    var ids := UnsafeIds(ExampleSession());
    assert Count(ids, "phish-1") == 3;
    assert Count(ids, "phish-2") == 1;
    var r := MostMissed(ExampleSession());
    assert Count(ids, "phish-1") <= Count(ids, r);
    var k :| 0 <= k < |ids| && ids[k] == r;
    assert r == "phish-1" || r == "phish-2";
  }
}
