/** The persistence layer's rules: the top-10 leaderboard, the feedback log
    line, and the default settings record written on first start. */
module Storage {
  import opened Models

  // ---------------------------------------------------------------- leaderboard

  datatype Row = Row(name: string, score: int, ts: string)

  /** Rows kept after every append. */
  const Capacity: nat := 10

  predicate Descending(rows: seq<Row>)
  {
    forall i, j :: 0 <= i < j < |rows| ==> rows[i].score >= rows[j].score
  }

  /** Stable insertion of `x`: it goes after every leading row whose score is
      at least its own. */
  function InsertAfterTies(sorted: seq<Row>, x: Row): seq<Row>
  {
    if sorted == [] then [x]
    else if sorted[0].score >= x.score then [sorted[0]] + InsertAfterTies(sorted[1..], x)
    else [x] + sorted
  }

  /** The rows ordered by score, highest first, rows of equal score keeping
      their relative order (a stable sort in reverse order of the key). */
  function Ranked(rows: seq<Row>): seq<Row>
  {
    if rows == [] then [] else InsertAfterTies(Ranked(rows[..|rows| - 1]), rows[|rows| - 1])
  }

  /** The first `Capacity` rows. */
  function Top(rows: seq<Row>): seq<Row>
  {
    rows[..Min(Capacity, |rows|)]
  }

  /** The list stored after appending `x` to `rows`. */
  function Appended(rows: seq<Row>, x: Row): seq<Row>
  {
    Top(Ranked(rows + [x]))
  }

  lemma {:induction false} InsertAfterTiesMultiset(sorted: seq<Row>, x: Row)
    ensures multiset(InsertAfterTies(sorted, x)) == multiset(sorted) + multiset{x}
    ensures |InsertAfterTies(sorted, x)| == |sorted| + 1
  {
    if sorted != [] && sorted[0].score >= x.score {
      InsertAfterTiesMultiset(sorted[1..], x);
      assert sorted == [sorted[0]] + sorted[1..];
    }
  }

  lemma InsertAfterTiesFacts(sorted: seq<Row>, x: Row)
    requires Descending(sorted)
    ensures Descending(InsertAfterTies(sorted, x))
    ensures multiset(InsertAfterTies(sorted, x)) == multiset(sorted) + multiset{x}
    ensures |InsertAfterTies(sorted, x)| == |sorted| + 1
  {
    InsertAfterTiesMultiset(sorted, x);
    var j := SplitPoint(sorted, x.score);
    InsertAfterTiesAt(sorted, x, j);
    var r := sorted[..j] + [x] + sorted[j..];
    InsertedAt(sorted, x, j);
    forall p, q | 0 <= p < q < |r| ensures r[p].score >= r[q].score {
      if q < j || p > j {
      } else if q == j {
      } else if p < j {
        assert sorted[p].score >= x.score;
      }
    }
  }

  /** Where each element of `s` lands once `x` is put at position `j`. */
  lemma InsertedAt<T>(s: seq<T>, x: T, j: nat)
    requires j <= |s|
    ensures var r := s[..j] + [x] + s[j..];
      && |r| == |s| + 1 && r[j] == x
      && (forall k :: 0 <= k < j ==> r[k] == s[k])
      && (forall k :: j < k < |r| ==> r[k] == s[k - 1])
  {
  }

  /** Ranking orders the rows by score and neither loses, adds nor alters a row. */
  lemma {:induction false} RankedFacts(rows: seq<Row>)
    ensures Descending(Ranked(rows))
    ensures multiset(Ranked(rows)) == multiset(rows)
    ensures |Ranked(rows)| == |rows|
  {
    if rows != [] {
      var init := rows[..|rows| - 1];
      RankedFacts(init);
      InsertAfterTiesFacts(Ranked(init), rows[|rows| - 1]);
      assert rows == init + [rows[|rows| - 1]];
    }
  }

  /** In a list sorted by score, the rows scoring at least `x` form a prefix of
      length j, and `x` is inserted right after it. */
  lemma {:induction false} InsertAfterTiesAt(sorted: seq<Row>, x: Row, j: nat)
    requires j <= |sorted|
    requires forall k :: 0 <= k < j ==> sorted[k].score >= x.score
    requires forall k :: j <= k < |sorted| ==> sorted[k].score < x.score
    ensures InsertAfterTies(sorted, x) == sorted[..j] + [x] + sorted[j..]
  {
    if j > 0 {
      InsertAfterTiesAt(sorted[1..], x, j - 1);
      assert sorted[..j] == [sorted[0]] + sorted[1..][..j - 1];
      assert sorted[j..] == sorted[1..][j - 1..];
    }
  }

  /** Moves the row at position i left past every row of a lower score, the
      rows before it being already sorted. */
  method InsertRow(a: array<Row>, i: nat)
    requires i < a.Length
    requires Descending(a[..i])
    modifies a
    ensures a[..i + 1] == InsertAfterTies(old(a[..i]), old(a[i]))
    ensures a[i + 1..] == old(a[i + 1..])
  {
    var x := a[i];
    ghost var R := a[..i];
    var j := i;
    while j > 0 && a[j - 1].score < x.score
      invariant 0 <= j <= i
      invariant forall k :: 0 <= k < j ==> a[k] == R[k]
      invariant forall k :: j < k <= i ==> a[k] == R[k - 1]
      invariant forall k :: j <= k < i ==> R[k].score < x.score
      invariant forall k :: i < k < a.Length ==> a[k] == old(a[k])
    {
      a[j] := a[j - 1];
      j := j - 1;
    }
    a[j] := x;
    assert forall k :: i < k < a.Length ==> a[k] == old(a[k]);
    assert a[i + 1..] == old(a[i + 1..]);
    PlacedAt(R, x, j, a[..i + 1]);
  }

  /** The list produced by the shifting loop: R with x placed at j, after every
      row scoring at least as much and before every row scoring less. */
  lemma PlacedAt(R: seq<Row>, x: Row, j: nat, placed: seq<Row>)
    requires Descending(R)
    requires j <= |R| && |placed| == |R| + 1
    requires forall k :: 0 <= k < j ==> placed[k] == R[k]
    requires placed[j] == x
    requires forall k :: j < k <= |R| ==> placed[k] == R[k - 1]
    requires forall k :: j <= k < |R| ==> R[k].score < x.score
    requires j == 0 || R[j - 1].score >= x.score
    ensures placed == InsertAfterTies(R, x)
  {
    assert forall k :: 0 <= k < j ==> R[k].score >= x.score by {
      if j > 0 {
        assert R[j - 1].score >= x.score;
      }
    }
    InsertAfterTiesAt(R, x, j);
    InsertedAt(R, x, j);
    assert placed == R[..j] + [x] + R[j..];
  }

  /** Sorts the list in place, as `list.sort(key=score, reverse=True)` does:
      insertion sort, moving a row left only past rows with a lower score. */
  method SortByScore(a: array<Row>)
    modifies a
    ensures a[..] == Ranked(old(a[..]))
  {
    ghost var input := a[..];
    var i := 0;
    while i < a.Length
      invariant 0 <= i <= a.Length
      invariant a[..i] == Ranked(input[..i])
      invariant a[i..] == input[i..]
    {
      RankedFacts(input[..i]);
      assert a[i] == input[i];
      InsertRow(a, i);
      assert input[..i + 1][..i] == input[..i];
      i := i + 1;
    }
    assert a[..] == a[..i];
    assert input[..i] == input;
  }

  /** Number of rows scoring at least `s`. */
  function CountAtLeast(rows: seq<Row>, s: int): nat
  {
    if rows == [] then 0
    else CountAtLeast(rows[..|rows| - 1], s) + (if rows[|rows| - 1].score >= s then 1 else 0)
  }

  lemma {:induction false} CountAtLeastAppend(a: seq<Row>, b: seq<Row>, s: int)
    ensures CountAtLeast(a + b, s) == CountAtLeast(a, s) + CountAtLeast(b, s)
    decreases |b|
  {
    if b == [] {
      assert a + b == a;
    } else {
      CountAtLeastAppend(a, b[..|b| - 1], s);
      assert (a + b)[..|a + b| - 1] == a + b[..|b| - 1];
    }
  }

  /** Inserting a row adds one to the count exactly when the row scores at least `s`. */
  lemma {:induction false} CountAtLeastInsert(sorted: seq<Row>, x: Row, s: int)
    ensures CountAtLeast(InsertAfterTies(sorted, x), s) == CountAtLeast(sorted, s) + (if x.score >= s then 1 else 0)
  {
    if sorted == [] {
      assert [x][..0] == [];
    } else if sorted[0].score >= x.score {
      CountAtLeastInsert(sorted[1..], x, s);
      CountAtLeastAppend([sorted[0]], InsertAfterTies(sorted[1..], x), s);
      CountAtLeastAppend([sorted[0]], sorted[1..], s);
      assert sorted == [sorted[0]] + sorted[1..];
      assert [sorted[0]][..0] == [];
    } else {
      CountAtLeastAppend([x], sorted, s);
      assert [x][..0] == [];
    }
  }

  /** Ranking does not change how many rows score at least `s`. */
  lemma {:induction false} CountAtLeastRanked(rows: seq<Row>, s: int)
    ensures CountAtLeast(Ranked(rows), s) == CountAtLeast(rows, s)
  {
    if rows != [] {
      CountAtLeastRanked(rows[..|rows| - 1], s);
      CountAtLeastInsert(Ranked(rows[..|rows| - 1]), rows[|rows| - 1], s);
    }
  }

  /** In a list sorted by score, the rows scoring at least `s` are its first
      CountAtLeast rows. */
  lemma {:induction false} CountAtLeastSorted(rows: seq<Row>, s: int, k: nat)
    requires Descending(rows)
    requires k <= |rows|
    requires forall i :: 0 <= i < k ==> rows[i].score >= s
    requires forall i :: k <= i < |rows| ==> rows[i].score < s
    ensures CountAtLeast(rows, s) == k
    decreases |rows|
  {
    if rows != [] {
      var init := rows[..|rows| - 1];
      if k == |rows| {
        CountAtLeastSorted(init, s, k - 1);
      } else {
        CountAtLeastSorted(init, s, k);
      }
    }
  }

  /** After an append the stored list is sorted by score, holds min(10, n + 1)
      rows, each one an unaltered old row or the new row, and no dropped row
      scores higher than a kept one. */
  lemma AppendedFacts(rows: seq<Row>, x: Row)
    ensures Descending(Appended(rows, x))
    ensures |Appended(rows, x)| == Min(Capacity, |rows| + 1)
    ensures multiset(Appended(rows, x)) <= multiset(rows) + multiset{x}
    ensures var full := Ranked(rows + [x]);
      && multiset(full) == multiset(rows) + multiset{x}
      && Appended(rows, x) == full[..|Appended(rows, x)|]
      && forall i, j :: 0 <= i < |Appended(rows, x)| <= j < |full| ==> Appended(rows, x)[i].score >= full[j].score
  {
    var full := Ranked(rows + [x]);
    RankedFacts(rows + [x]);
    assert full == full[..Min(Capacity, |full|)] + full[Min(Capacity, |full|)..];
  }

  /** A list sorted by score splits into the rows scoring at least `s`,
      followed by the rows scoring less. */
  lemma {:induction false} SplitPoint(rows: seq<Row>, s: int) returns (j: nat)
    requires Descending(rows)
    ensures j <= |rows|
    ensures forall i :: 0 <= i < j ==> rows[i].score >= s
    ensures forall i :: j <= i < |rows| ==> rows[i].score < s
  {
    if rows == [] || rows[0].score < s {
      j := 0;
    } else {
      var j' := SplitPoint(rows[1..], s);
      j := j' + 1;
      forall i | 0 < i < j ensures rows[i].score >= s {
        assert rows[i] == rows[1..][i - 1];
      }
      forall i | j <= i < |rows| ensures rows[i].score < s {
        assert rows[i] == rows[1..][i - 1];
      }
    }
  }

  /** Where the new row lands: right after the k old rows scoring at least as
      much (ties stay ahead of it).  It is kept exactly when k < 10; otherwise
      the stored list is what it would have been without it. */
  lemma {:induction false} AppendedNewRow(rows: seq<Row>, x: Row)
    ensures var k := CountAtLeast(rows, x.score);
      && (k < Capacity ==> k < |Appended(rows, x)| && Appended(rows, x)[k] == x)
      && (k >= Capacity ==> Appended(rows, x) == Top(Ranked(rows)))
  {
    var R := Ranked(rows);
    RankedFacts(rows);
    var j := SplitPoint(R, x.score);
    CountAtLeastSorted(R, x.score, j);
    CountAtLeastRanked(rows, x.score);
    InsertAfterTiesAt(R, x, j);
    assert (rows + [x])[..|rows|] == rows;
    var full := R[..j] + [x] + R[j..];
    assert Ranked(rows + [x]) == full;
    if j >= Capacity {
      assert full[..Capacity] == R[..Capacity];
    } else {
      assert full[j] == x;
    }
  }

  // ---------------------------------------------------------------- feedback log

  /** `message.replace(',', ';')`. */
  function Sanitise(message: string): (r: string)
    ensures |r| == |message|
    ensures forall i :: 0 <= i < |message| ==> r[i] == (if message[i] == ',' then ';' else message[i])
    ensures ',' !in r
  {
    if message == [] then []
    else [if message[0] == ',' then ';' else message[0]] + Sanitise(message[1..])
  }

  /** Decimal digits of a non-negative integer, as `str(int(...))` prints it. */
  function DecimalString(n: nat): (s: string)
    ensures |s| >= 1
    ensures forall c :: c in s ==> '0' <= c <= '9'
  {
    var digit := ['0' + (n % 10) as char];
    if n < 10 then digit else DecimalString(n / 10) + digit
  }

  /** One line of the feedback log: timestamp, player, scenario id and the
      message with its commas turned into semicolons. */
  function FeedbackLine(now: nat, player: string, scenarioId: string, message: string): string
  {
    DecimalString(now) + "," + player + "," + scenarioId + "," + Sanitise(message) + "\n"
  }

  /** `s.split(",")`: the pieces between commas, at least one. */
  function Fields(s: string): (f: seq<string>)
    ensures |f| >= 1
  {
    if s == [] then [""]
    else if s[0] == ',' then [""] + Fields(s[1..])
    else
      var rest := Fields(s[1..]);
      [[s[0]] + rest[0]] + rest[1..]
  }

  lemma {:induction false} FieldsNoComma(s: string)
    requires ',' !in s
    ensures Fields(s) == [s]
  {
    if s != [] {
      FieldsNoComma(s[1..]);
      assert s == [s[0]] + s[1..];
    }
  }

  lemma {:induction false} FieldsSplit(a: string, b: string)
    requires ',' !in a
    ensures Fields(a + "," + b) == [a] + Fields(b)
  {
    if a == [] {
      assert a + "," + b == [','] + b;
      assert (a + "," + b)[1..] == b;
    } else {
      FieldsSplit(a[1..], b);
      assert (a + "," + b)[1..] == a[1..] + "," + b;
      assert a == [a[0]] + a[1..];
    }
  }

  /** The last of the fields. */
  function LastField(s: string): string
  {
    var f := Fields(s);
    f[|f| - 1]
  }

  /** Whatever comes before a comma, the last field is the last field of what
      follows it. */
  lemma {:induction false} FieldsLast(a: string, b: string)
    ensures |Fields(a + "," + b)| >= 2
    ensures LastField(a + "," + b) == LastField(b)
  {
    var s := a + "," + b;
    if a == [] {
      assert s[0] == ',' && s[1..] == b;
      assert Fields(s) == [""] + Fields(b);
    } else {
      assert s[0] == a[0] && s[1..] == a[1..] + "," + b;
      FieldsLast(a[1..], b);
      var rest := Fields(s[1..]);
      if a[0] == ',' {
        assert Fields(s) == [""] + rest;
      } else {
        assert Fields(s) == [[s[0]] + rest[0]] + rest[1..];
      }
    }
  }

  /** The line always ends with the whole sanitised message as its last
      field, whatever the player name and scenario id hold. */
  lemma FeedbackLineLast(now: nat, player: string, scenarioId: string, message: string)
    ensures LastField(FeedbackLine(now, player, scenarioId, message)) == Sanitise(message) + "\n"
  {
    var ts, m := DecimalString(now), Sanitise(message) + "\n";
    assert ',' !in m;
    var inner := scenarioId + "," + m;
    var tail := player + "," + inner;
    var line := ts + "," + tail;
    assert FeedbackLine(now, player, scenarioId, message) == line;
    FieldsNoComma(m);
    assert LastField(m) == m;
    FieldsLast(scenarioId, m);
    FieldsLast(player, inner);
    FieldsLast(ts, tail);
  }

  /** When the player name and scenario id hold no comma the line splits into
      exactly the four columns of the header. */
  lemma FeedbackLineColumns(now: nat, player: string, scenarioId: string, message: string)
    requires ',' !in player && ',' !in scenarioId
    ensures Fields(FeedbackLine(now, player, scenarioId, message))
      == [DecimalString(now), player, scenarioId, Sanitise(message) + "\n"]
  {
    var ts, m := DecimalString(now), Sanitise(message) + "\n";
    assert ',' !in m;
    assert ',' !in ts;
    var tail := player + "," + (scenarioId + "," + m);
    assert FeedbackLine(now, player, scenarioId, message) == ts + "," + tail;
    FieldsNoComma(m);
    FieldsSplit(scenarioId, m);
    FieldsSplit(player, scenarioId + "," + m);
    FieldsSplit(ts, tail);
  }

  // ---------------------------------------------------------------- default settings

  /** A value of the persisted settings record. */
  datatype SettingValue = Text(text: string) | Flag(flag: bool) | Number(number: int)

  /** The record written when no settings file exists. */
  function DefaultSettingsRecord(): map<string, SettingValue>
  {
    map["difficulty" := Text("medium"), "timer_enabled" := Flag(true), "round_seconds" := Number(45),
        "penalties_enabled" := Flag(true), "hints_enabled" := Flag(true), "sound_enabled" := Flag(false),
        "high_contrast" := Flag(false), "font_scale" := Number(100), "unsafe_penalty" := Number(-25),
        "base_correct" := Number(100), "base_partial" := Number(50), "skip_penalty" := Number(-10),
        "hint_cost" := Number(-5), "appearance" := Text("Dark"), "accent" := Text("blue")]
  }

  /** The keyword arguments the settings record accepts. */
  function SettingKeys(): set<string>
  {
    {"difficulty", "timer_enabled", "round_seconds", "penalties_enabled", "hints_enabled",
     "sound_enabled", "high_contrast", "font_scale", "unsafe_penalty", "base_correct",
     "base_partial", "skip_penalty", "hint_cost", "appearance", "accent"}
  }

  predicate IsText(m: map<string, SettingValue>, k: string) { k in m ==> m[k].Text? }
  predicate IsFlag(m: map<string, SettingValue>, k: string) { k in m ==> m[k].Flag? }
  predicate IsNumber(m: map<string, SettingValue>, k: string) { k in m ==> m[k].Number? }

  function TextOr(m: map<string, SettingValue>, k: string, d: string): string
    requires IsText(m, k)
  {
    if k in m then m[k].text else d
  }

  function FlagOr(m: map<string, SettingValue>, k: string, d: bool): bool
    requires IsFlag(m, k)
  {
    if k in m then m[k].flag else d
  }

  function NumberOr(m: map<string, SettingValue>, k: string, d: int): int
    requires IsNumber(m, k)
  {
    if k in m then m[k].number else d
  }

  /** Only known keys, each holding a value of its field's kind. */
  predicate WellTypedRecord(m: map<string, SettingValue>)
  {
    && m.Keys <= SettingKeys()
    && IsText(m, "difficulty") && IsFlag(m, "timer_enabled") && IsNumber(m, "round_seconds")
    && IsFlag(m, "penalties_enabled") && IsFlag(m, "hints_enabled") && IsFlag(m, "sound_enabled")
    && IsFlag(m, "high_contrast") && IsNumber(m, "font_scale") && IsNumber(m, "unsafe_penalty")
    && IsNumber(m, "base_correct") && IsNumber(m, "base_partial") && IsNumber(m, "skip_penalty")
    && IsNumber(m, "hint_cost") && IsText(m, "appearance") && IsText(m, "accent")
  }

  /** `GameSettings(**record)`: present keys override the dataclass defaults;
      an unknown key is refused. */
  function SettingsFromRecord(m: map<string, SettingValue>): Option<GameSettings>
  {
    if !WellTypedRecord(m) then None
    else
      var d := DefaultSettings();
      Some(GameSettings(
        TextOr(m, "difficulty", d.difficulty), FlagOr(m, "timer_enabled", d.timerEnabled),
        NumberOr(m, "round_seconds", d.roundSeconds), FlagOr(m, "penalties_enabled", d.penaltiesEnabled),
        FlagOr(m, "hints_enabled", d.hintsEnabled), FlagOr(m, "sound_enabled", d.soundEnabled),
        FlagOr(m, "high_contrast", d.highContrast), NumberOr(m, "font_scale", d.fontScale),
        NumberOr(m, "unsafe_penalty", d.unsafePenalty), NumberOr(m, "base_correct", d.baseCorrect),
        NumberOr(m, "base_partial", d.basePartial), NumberOr(m, "skip_penalty", d.skipPenalty),
        NumberOr(m, "hint_cost", d.hintCost), TextOr(m, "appearance", d.appearance),
        TextOr(m, "accent", d.accent)))
  }

  /** The default record names every setting and, read back as settings, gives
      exactly the dataclass defaults: the two tables of constants agree. */
  lemma DefaultsAgree()
    ensures DefaultSettingsRecord().Keys == SettingKeys()
    ensures SettingsFromRecord(DefaultSettingsRecord()) == Some(DefaultSettings())
  {
  }

  // ---------------------------------------------------------------- the store

  /** The persisted files, as values: the leaderboard as read back, and the
      feedback log's text. */
  class DataStore {
    var leaderboard: seq<Row>
    var feedbackCsv: string

    constructor ()
      ensures leaderboard == [] && feedbackCsv == "timestamp,player,scenario_id,message\n"
    {
      leaderboard := [];
      feedbackCsv := "timestamp,player,scenario_id,message\n";
    }

    /** Adds a row, re-sorts by score and keeps the best ten. */
    method AppendLeaderboard(name: string, score: int, ts: string)
      modifies this`leaderboard
      ensures leaderboard == Appended(old(leaderboard), Row(name, score, ts))
    {
      var lb := leaderboard + [Row(name, score, ts)];
      var a := new Row[|lb|](i requires 0 <= i < |lb| => lb[i]);
      assert a[..] == lb;
      SortByScore(a);
      lb := a[..];
      if |lb| > Capacity {
        lb := lb[..Capacity];
      }
      leaderboard := lb;
    }

    /** Appends one line to the feedback log. */
    method LogFeedback(player: string, scenarioId: string, message: string, now: nat)
      modifies this`feedbackCsv
      ensures feedbackCsv == old(feedbackCsv) + FeedbackLine(now, player, scenarioId, message)
    {
      var line := DecimalString(now) + "," + player + "," + scenarioId + "," + Sanitise(message) + "\n";
      feedbackCsv := feedbackCsv + line;
    }
  }
}
