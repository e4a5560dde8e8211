/**
 * The remote week store adapter: one table `food_tracker` whose rows are identified by the pair
 * (week_start, day_name), and the four operations over it. The table is a map from that pair to
 * the row; a missing client (connection settings absent) and a store error returned by a call are
 * inputs of the model, and in both cases the table is left as it was.
 */
module WeekStore {
  import opened Week
  import opened Schedules

  datatype Option<T> = None | Some(value: T)

  /** The unique key of a row. */
  datatype Key = Key(weekStart: Day, dayName: string)

  /** A row of `food_tracker` (its `updated_at` column is not modelled). */
  datatype Row = Row(
    weekStart: Day, dayName: string, dayOrder: int,
    morning: string, vegetable: string, protein: string, fruitLunch: string,
    snack: string, evening: string, remarks: string)

  type Table = map<Key, Row>

  /** The uniqueness constraint: each row is stored under its own (week_start, day_name). */
  predicate TableValid(table: Table) {
    forall k :: k in table ==> table[k].weekStart == k.weekStart && table[k].dayName == k.dayName
  }

  // ---------------------------------------------------------------- getDayOrder

  /** The sort position of a day name: Lundi to Dimanche are 1 to 7, any other name 0. */
  function DayOrder(dayName: string): int {
    var days := map["Lundi" := 1, "Mardi" := 2, "Mercredi" := 3, "Jeudi" := 4,
                    "Vendredi" := 5, "Samedi" := 6, "Dimanche" := 7];
    if dayName in days then days[dayName] else 0
  }

  /** DayOrder agrees with the form's list of days, and gives 0 to every other name. */
  lemma DayOrderSpec(dayName: string)
    ensures forall i :: 0 <= i < |DaysOfWeek| ==> DayOrder(DaysOfWeek[i].name) == DaysOfWeek[i].order == i + 1
    ensures dayName in DayNameSet() ==> 1 <= DayOrder(dayName) <= 7
    ensures dayName !in DayNameSet() ==> DayOrder(dayName) == 0
  {
  }

  /** Two day names with the same non-zero order are the same name. */
  lemma DayOrderInjective(a: string, b: string)
    requires DayOrder(a) == DayOrder(b) != 0
    ensures a == b
  {
  }

  // ---------------------------------------------------------------- saveWeek

  /** The row written for one day entry of the schedule: unset fields become the empty string. */
  function ToRecord(weekStart: Day, dayName: string, dayData: DayData): Row {
    Row(weekStart, dayName, DayOrder(dayName),
        FieldOrEmpty(dayData, "morning"), FieldOrEmpty(dayData, "vegetable"),
        FieldOrEmpty(dayData, "protein"), FieldOrEmpty(dayData, "fruit_lunch"),
        FieldOrEmpty(dayData, "snack"), FieldOrEmpty(dayData, "evening"),
        FieldOrEmpty(dayData, "remarks"))
  }

  /** The records that saveWeek sends: one per day entry of the schedule, under its key. */
  function Records(weekData: Schedule, weekStart: Day): map<Key, Row> {
    map d | d in weekData.Keys :: Key(weekStart, d) := ToRecord(weekStart, d, weekData[d])
  }

  /** The upsert with conflict target (week_start, day_name): a record replaces the row with its key, or adds one. */
  function Upsert(table: Table, records: map<Key, Row>): Table {
    table + records
  }

  /** The seven fields of a day object, unset ones as the empty string: what a row keeps of it. */
  function Normalize(dayData: DayData): DayData {
    map f | f in FieldNameSet() :: FieldOrEmpty(dayData, f)
  }

  function NormalizeWeek(weekData: Schedule): Schedule {
    map d | d in weekData :: Normalize(weekData[d])
  }

  /** The day object loadWeek builds from one row. */
  function RowData(r: Row): DayData {
    map["morning" := r.morning, "vegetable" := r.vegetable, "protein" := r.protein,
        "fruit_lunch" := r.fruitLunch, "snack" := r.snack, "evening" := r.evening,
        "remarks" := r.remarks]
  }

  /** A record holds its day's seven fields, each the value given or the empty string. */
  lemma RowDataOfRecord(weekStart: Day, dayName: string, dayData: DayData)
    ensures RowData(ToRecord(weekStart, dayName, dayData)) == Normalize(dayData)
  {
    var a, b := RowData(ToRecord(weekStart, dayName, dayData)), Normalize(dayData);
    assert a.Keys == b.Keys;
  }

  /**
   * saveWeek produces exactly one record per day entry, keyed (weekStart, day name), with
   * week_start = weekStart, day_order = DayOrder(day name), and each field the value given or ''.
   */
  lemma RecordsSpec(weekData: Schedule, weekStart: Day)
    ensures var rs := Records(weekData, weekStart);
      && (forall k :: k in rs <==> k.weekStart == weekStart && k.dayName in weekData)
      && |rs| == |weekData|
      && TableValid(rs)
      && (forall d :: d in weekData ==>
            && rs[Key(weekStart, d)].dayOrder == DayOrder(d)
            && RowData(rs[Key(weekStart, d)]) == Normalize(weekData[d]))
  {
    RecordsKeys(weekData, weekStart);
    var rs := Records(weekData, weekStart);
    forall d | d in weekData
      ensures RowData(rs[Key(weekStart, d)]) == Normalize(weekData[d])
    {
      RowDataOfRecord(weekStart, d, weekData[d]);
    }
  }

  lemma RecordsKeys(weekData: Schedule, weekStart: Day)
    ensures var rs := Records(weekData, weekStart);
      && rs.Keys == (set d | d in weekData.Keys :: Key(weekStart, d))
      && |rs| == |weekData|
  {
    KeysOfInjection(weekData.Keys, weekStart);
  }

  /** Keying day names by one week start loses no name. */
  lemma {:induction false} KeysOfInjection(names: set<string>, weekStart: Day)
    ensures |set d | d in names :: Key(weekStart, d)| == |names|
    decreases |names|
  {
    if names != {} {
      var n :| n in names;
      var rest := names - {n};
      KeysOfInjection(rest, weekStart);
      assert (set d | d in names :: Key(weekStart, d)) == (set d | d in rest :: Key(weekStart, d)) + {Key(weekStart, n)};
    }
  }

  /**
   * The upsert overwrites rather than duplicates: a key it writes holds exactly its record, every
   * other row is unchanged, and the table grows only by the keys that were new.
   */
  lemma UpsertSpec(table: Table, records: map<Key, Row>)
    ensures var t := Upsert(table, records);
      && t.Keys == table.Keys + records.Keys
      && (forall k :: k in records ==> t[k] == records[k])
      && (forall k :: k in table && k !in records ==> t[k] == table[k])
      && |t| == |table| + |records.Keys - table.Keys|
  {
    var t := Upsert(table, records);
    assert t.Keys == table.Keys + (records.Keys - table.Keys);
  }

  /** Saving keeps the uniqueness constraint, and writes day_order consistently with the day name. */
  lemma UpsertRecordsValid(table: Table, weekData: Schedule, weekStart: Day)
    requires TableValid(table)
    ensures TableValid(Upsert(table, Records(weekData, weekStart)))
    ensures forall k :: k in Records(weekData, weekStart) ==>
      Upsert(table, Records(weekData, weekStart))[k].dayOrder == DayOrder(k.dayName)
  {
  }

  // ---------------------------------------------------------------- loadWeek

  /** The keys of a set whose week_start is `w`. */
  function KeysWithWeekStart(keys: set<Key>, w: Day): set<Key> {
    set k | k in keys && k.weekStart == w
  }

  /** The rows the query `eq('week_start', weekStart)` selects. */
  function RowsOf(table: Table, weekStart: Day): set<Key> {
    KeysWithWeekStart(table.Keys, weekStart)
  }

  /** The schedule loadWeek folds from the rows of one week: each row's day name to its seven fields. */
  function LoadedWeek(table: Table, weekStart: Day): Schedule {
    map k | k in RowsOf(table, weekStart) :: k.dayName := RowData(table[k])
  }

  /** The loaded schedule has one entry per row of the week, and each is that row's seven fields. */
  lemma LoadedWeekSpec(table: Table, weekStart: Day)
    ensures var w := LoadedWeek(table, weekStart);
      && (forall d :: d in w <==> Key(weekStart, d) in table)
      && (forall d :: d in w ==> w[d] == RowData(table[Key(weekStart, d)]))
      && (w == map[] <==> forall k :: k in table ==> k.weekStart != weekStart)
      && (w == map[] <==> RowsOf(table, weekStart) == {})
  {
    var w := LoadedWeek(table, weekStart);
    forall d ensures d in w <==> Key(weekStart, d) in table {
      LoadedWeekAt(table, weekStart, d);
    }
    if RowsOf(table, weekStart) != {} {
      var k :| k in RowsOf(table, weekStart);
      assert k == Key(weekStart, k.dayName);
      assert k.dayName in w;
    }
  }

  /** The entry of one day name in a loaded week. */
  lemma LoadedWeekAt(table: Table, weekStart: Day, d: string)
    ensures d in LoadedWeek(table, weekStart) <==> Key(weekStart, d) in table
    ensures Key(weekStart, d) in table ==> LoadedWeek(table, weekStart)[d] == RowData(table[Key(weekStart, d)])
  {
    if Key(weekStart, d) in table {
      assert Key(weekStart, d) in RowsOf(table, weekStart);
    }
  }

  /** The record of one day name among those saveWeek sends. */
  lemma RecordAt(weekData: Schedule, weekStart: Day, d: string)
    ensures Key(weekStart, d) in Records(weekData, weekStart) <==> d in weekData
    ensures d in weekData ==> Records(weekData, weekStart)[Key(weekStart, d)] == ToRecord(weekStart, d, weekData[d])
  {
  }

  /**
   * Saving a schedule for a week and loading that week gives the rows the week had before,
   * overridden by the saved schedule with its unset fields read back as ''.
   */
  lemma SaveLoad(table: Table, weekData: Schedule, weekStart: Day)
    ensures LoadedWeek(Upsert(table, Records(weekData, weekStart)), weekStart)
         == LoadedWeek(table, weekStart) + NormalizeWeek(weekData)
  {
    var lhs := LoadedWeek(Upsert(table, Records(weekData, weekStart)), weekStart);
    var rhs := LoadedWeek(table, weekStart) + NormalizeWeek(weekData);
    forall d ensures d in lhs <==> d in rhs {
      SaveLoadAt(table, weekData, weekStart, d);
    }
    forall d | d in lhs ensures lhs[d] == rhs[d] {
      SaveLoadAt(table, weekData, weekStart, d);
    }
    assert lhs.Keys == rhs.Keys;
    SameEntries(lhs, rhs);
  }

  lemma SaveLoadAt(table: Table, weekData: Schedule, weekStart: Day, d: string)
    ensures var lhs := LoadedWeek(Upsert(table, Records(weekData, weekStart)), weekStart);
      var rhs := LoadedWeek(table, weekStart) + NormalizeWeek(weekData);
      (d in lhs <==> d in rhs) && (d in lhs ==> lhs[d] == rhs[d])
  {
    var t := Upsert(table, Records(weekData, weekStart));
    LoadedWeekAt(t, weekStart, d);
    LoadedWeekAt(table, weekStart, d);
    RecordAt(weekData, weekStart, d);
    if d in weekData {
      RowDataOfRecord(weekStart, d, weekData[d]);
    }
  }

  /** Saving one week does not change what any other week loads. */
  lemma SaveLeavesOtherWeeks(table: Table, weekData: Schedule, weekStart: Day, other: Day)
    requires other != weekStart
    ensures LoadedWeek(Upsert(table, Records(weekData, weekStart)), other) == LoadedWeek(table, other)
  {
    var t := Upsert(table, Records(weekData, weekStart));
    var lhs, rhs := LoadedWeek(t, other), LoadedWeek(table, other);
    forall d ensures d in lhs <==> d in rhs
    {
      LoadedWeekAt(t, other, d);
      LoadedWeekAt(table, other, d);
    }
    forall d | d in lhs ensures lhs[d] == rhs[d]
    {
      LoadedWeekAt(t, other, d);
      LoadedWeekAt(table, other, d);
    }
    assert lhs.Keys == rhs.Keys;
  }

  /** Every day of a normalised schedule holds exactly the seven fields. */
  lemma NormalizeShape(dayData: DayData)
    ensures Normalize(dayData).Keys == FieldNameSet()
    ensures dayData.Keys == FieldNameSet() ==> Normalize(dayData) == dayData
    ensures forall f :: f in FieldNameSet() ==> FieldOrEmpty(Normalize(dayData), f) == FieldOrEmpty(dayData, f)
  {
  }

  /** Normalising a schedule of the seven days gives a well-formed one with the same cells. */
  lemma NormalizeWeekShape(weekData: Schedule)
    requires weekData.Keys == DayNameSet()
    ensures WellFormed(NormalizeWeek(weekData))
    ensures forall d, f :: f in FieldNameSet() ==> GetDayData(NormalizeWeek(weekData), d, f) == GetDayData(weekData, d, f)
  {
    var norm := NormalizeWeek(weekData);
    assert norm.Keys == DayNameSet();
    forall d | d in norm ensures norm[d].Keys == FieldNameSet() {
      NormalizeShape(weekData[d]);
    }
    forall d, f | f in FieldNameSet() ensures GetDayData(norm, d, f) == GetDayData(weekData, d, f) {
      if d in weekData {
        NormalizeShape(weekData[d]);
      }
    }
  }

  /** Normalising changes nothing in a well-formed schedule. */
  lemma NormalizeWellFormed(weekData: Schedule)
    requires WellFormed(weekData)
    ensures NormalizeWeek(weekData) == weekData
  {
    var norm := NormalizeWeek(weekData);
    forall d | d in weekData ensures norm[d] == weekData[d] {
      NormalizeShape(weekData[d]);
    }
    SameEntries(norm, weekData);
  }

  /** Two schedules with the same day names and the same record under each are equal. */
  lemma SameEntries(a: Schedule, b: Schedule)
    requires a.Keys == b.Keys
    requires forall d :: d in a ==> a[d] == b[d]
    ensures a == b
  {
  }

  /** When the week's earlier rows are all among the seven day names, the saved schedule replaces them all. */
  lemma SaveReplacesWeek(table: Table, weekData: Schedule, weekStart: Day)
    requires weekData.Keys == DayNameSet()
    requires forall k :: k in table && k.weekStart == weekStart ==> k.dayName in DayNameSet()
    ensures LoadedWeek(Upsert(table, Records(weekData, weekStart)), weekStart) == NormalizeWeek(weekData)
  {
    SaveLoad(table, weekData, weekStart);
    var before := LoadedWeek(table, weekStart);
    var norm := NormalizeWeek(weekData);
    BeforeWithinSevenDays(table, weekStart);
    assert norm.Keys == DayNameSet();
    OverrideCovering(before, norm);
  }

  /** Overriding by a map that covers every key of the first gives that map. */
  lemma OverrideCovering(a: Schedule, b: Schedule)
    requires a.Keys <= b.Keys
    ensures a + b == b
  {
  }

  /** Under the same condition, every day name the week loaded before is one of the seven. */
  lemma BeforeWithinSevenDays(table: Table, weekStart: Day)
    requires forall k :: k in table && k.weekStart == weekStart ==> k.dayName in DayNameSet()
    ensures LoadedWeek(table, weekStart).Keys <= DayNameSet()
  {
    forall d | d in LoadedWeek(table, weekStart) ensures d in DayNameSet() {
      LoadedWeekAt(table, weekStart, d);
    }
  }

  /**
   * The round trip: when the week's stored rows are all among the seven day names, saving a
   * schedule of all seven days and loading it back returns that schedule with unset fields as '';
   * a well-formed schedule comes back exactly.
   */
  lemma SaveLoadRoundTrip(table: Table, weekData: Schedule, weekStart: Day)
    requires weekData.Keys == DayNameSet()
    requires forall k :: k in table && k.weekStart == weekStart ==> k.dayName in DayNameSet()
    ensures var loaded := LoadedWeek(Upsert(table, Records(weekData, weekStart)), weekStart);
      && loaded == NormalizeWeek(weekData)
      && WellFormed(loaded)
      && (forall d, f :: f in FieldNameSet() ==> GetDayData(loaded, d, f) == GetDayData(weekData, d, f))
      && (WellFormed(weekData) ==> loaded == weekData)
  {
    SaveReplacesWeek(table, weekData, weekStart);
    NormalizeWeekShape(weekData);
    if WellFormed(weekData) {
      NormalizeWellFormed(weekData);
    }
  }

  /** The example of the form: Tuesday's morning set in an otherwise empty week comes back exactly. */
  lemma SaveLoadExample(table: Table)
    requires forall k :: k in table ==> k.weekStart != June3rd2024
    ensures var w := SetCell(EmptyWeek(), "Mardi", "morning", "210ml eau + 7 mesures lait 2ème âge");
      LoadedWeek(Upsert(table, Records(w, June3rd2024)), June3rd2024) == w
  {
    var w := SetCell(EmptyWeek(), "Mardi", "morning", "210ml eau + 7 mesures lait 2ème âge");
    EmptyWeekShape();
    SetCellWellFormed(EmptyWeek(), "Mardi", "morning", "210ml eau + 7 mesures lait 2ème âge");
    SaveLoadRoundTrip(table, w, June3rd2024);
  }

  // ---------------------------------------------------------------- resetWeek

  /** The delete filtered on week_start: every row of the week goes, and only those. */
  function DeleteWeek(table: Table, weekStart: Day): Table {
    map k | k in table && k.weekStart != weekStart :: table[k]
  }

  /** After the delete, the week has no row left, so loading it gives nothing; every other row is kept as it was. */
  lemma DeleteWeekSpec(table: Table, weekStart: Day)
    ensures var t := DeleteWeek(table, weekStart);
      && (forall k :: k in t <==> k in table && k.weekStart != weekStart)
      && (forall k :: k in t ==> t[k] == table[k])
      && RowsOf(t, weekStart) == {}
      && LoadedWeek(t, weekStart) == map[]
      && (TableValid(table) ==> TableValid(t))
  {
    LoadedWeekSpec(DeleteWeek(table, weekStart), weekStart);
  }

  /** Resetting one week does not change what any other week loads. */
  lemma ResetLeavesOtherWeeks(table: Table, weekStart: Day, other: Day)
    requires other != weekStart
    ensures LoadedWeek(DeleteWeek(table, weekStart), other) == LoadedWeek(table, other)
  {
    var t := DeleteWeek(table, weekStart);
    LoadedWeekSpec(t, other);
    LoadedWeekSpec(table, other);
    assert LoadedWeek(t, other).Keys == LoadedWeek(table, other).Keys;
  }

  // ---------------------------------------------------------------- getWeeksHistory

  /** The week_start values present in a set of rows. */
  function WeekStartsOf(keys: set<Key>): set<Day> {
    set k | k in keys :: k.weekStart
  }

  predicate NonIncreasing(s: seq<Day>) {
    forall i, j :: 0 <= i < j < |s| ==> s[i] >= s[j]
  }

  predicate StrictlyDecreasing(s: seq<Day>) {
    forall i, j :: 0 <= i < j < |s| ==> s[i] > s[j]
  }

  predicate NoDuplicates(s: seq<Day>) {
    forall i, j :: 0 <= i < j < |s| ==> s[i] != s[j]
  }

  /** Inserts `x` into a non-increasing sequence at its place. */
  function InsertDescending(s: seq<Day>, x: Day): (r: seq<Day>)
    requires NonIncreasing(s)
    ensures NonIncreasing(r)
    ensures |r| == |s| + 1
    ensures forall y :: y in r <==> y in s || y == x
  {
    if s == [] || x >= s[0] then [x] + s
    else
      var rest := InsertDescending(s[1..], x);
      assert forall y :: y in s <==> y == s[0] || y in s[1..];
      assert forall j :: 0 <= j < |rest| ==> rest[j] in rest;
      assert forall j :: 1 <= j < |s| ==> s[0] >= s[j];
      assert forall y :: y in s[1..] ==> y <= s[0];
      assert forall j :: 0 <= j < |rest| ==> rest[j] <= s[0];
      [s[0]] + rest
  }

  /** The insertion adds exactly one occurrence of `x` and keeps every other occurrence. */
  lemma {:induction false} InsertDescendingPermutes(s: seq<Day>, x: Day)
    requires NonIncreasing(s)
    ensures multiset(InsertDescending(s, x)) == multiset(s) + multiset{x}
  {
    if s != [] && x < s[0] {
      InsertDescendingPermutes(s[1..], x);
      assert s == [s[0]] + s[1..];
    }
  }

  /** `[...new Set(xs)]`: each value once, in the order of its first occurrence. */
  function Dedupe(s: seq<Day>): (r: seq<Day>)
    ensures forall x :: x in r <==> x in s
    ensures NoDuplicates(r)
    ensures |r| <= |s|
  {
    if s == [] then []
    else
      var r := Dedupe(s[..|s| - 1]);
      assert forall x :: x in s <==> x in s[..|s| - 1] || x == s[|s| - 1];
      if s[|s| - 1] in r then r else r + [s[|s| - 1]]
  }

  /** The position of the first occurrence of `x` in `s`. */
  function FirstIndex(s: seq<Day>, x: Day): (i: nat)
    requires x in s
    ensures i < |s| && s[i] == x
    ensures forall k :: 0 <= k < i ==> s[k] != x
  {
    if s[0] == x then 0 else 1 + FirstIndex(s[1..], x)
  }

  /** The values of `r` occur in `s`, and their first occurrences there come in the order of `r`. */
  predicate InFirstOccurrenceOrder(s: seq<Day>, r: seq<Day>) {
    && (forall x :: x in r ==> x in s)
    && (forall i, j :: 0 <= i < j < |r| ==> FirstIndex(s, r[i]) < FirstIndex(s, r[j]))
  }

  /** Dedupe keeps values in the order in which they first occur in the input. */
  lemma {:induction false} DedupeFirstOccurrenceOrder(s: seq<Day>)
    ensures InFirstOccurrenceOrder(s, Dedupe(s))
  {
    if s != [] {
      var p := s[..|s| - 1];
      var last := s[|s| - 1];
      DedupeFirstOccurrenceOrder(p);
      var r0 := Dedupe(p);
      OrderExtendsToLongerInput(s, r0);
      if last !in r0 {
        OrderAppendNew(s, r0);
      }
    }
  }

  /** First-occurrence order with respect to a sequence carries over when one value is added at its end. */
  lemma OrderExtendsToLongerInput(s: seq<Day>, r: seq<Day>)
    requires |s| > 0 && InFirstOccurrenceOrder(s[..|s| - 1], r)
    ensures InFirstOccurrenceOrder(s, r)
  {
    var p := s[..|s| - 1];
    assert forall x :: x in p ==> x in s;
    forall i, j | 0 <= i < j < |r| ensures FirstIndex(s, r[i]) < FirstIndex(s, r[j]) {
      assert r[i] in r && r[j] in r;
      FirstIndexOfPrefix(s, r[i]);
      FirstIndexOfPrefix(s, r[j]);
    }
  }

  /** A value seen for the first time at the end of the input comes after all values met before it. */
  lemma OrderAppendNew(s: seq<Day>, r: seq<Day>)
    requires |s| > 0 && InFirstOccurrenceOrder(s, r)
    requires forall x :: x in r <==> x in s[..|s| - 1]
    requires s[|s| - 1] !in r
    ensures InFirstOccurrenceOrder(s, r + [s[|s| - 1]])
  {
    var p, last := s[..|s| - 1], s[|s| - 1];
    var r' := r + [last];
    assert FirstIndex(s, last) == |s| - 1;
    forall i, j | 0 <= i < j < |r'| ensures FirstIndex(s, r'[i]) < FirstIndex(s, r'[j]) {
      assert r'[i] == r[i] && r[i] in r;
      FirstIndexOfPrefix(s, r[i]);
      if j < |r| {
        assert r'[j] == r[j];
      }
    }
  }

  lemma FirstIndexOfPrefix(s: seq<Day>, x: Day)
    requires |s| > 0 && x in s[..|s| - 1]
    ensures FirstIndex(s, x) == FirstIndex(s[..|s| - 1], x)
  {
    var p := s[..|s| - 1];
    assert p[FirstIndex(p, x)] == s[FirstIndex(p, x)];
  }

  /** On a non-increasing input, Dedupe gives a strictly decreasing sequence. */
  lemma {:induction false} DedupeNonIncreasing(s: seq<Day>)
    requires NonIncreasing(s)
    ensures StrictlyDecreasing(Dedupe(s))
  {
    if s != [] {
      var p := s[..|s| - 1];
      var last := s[|s| - 1];
      assert NonIncreasing(p);
      DedupeNonIncreasing(p);
      var r := Dedupe(p);
      if last !in r {
        forall i | 0 <= i < |r| ensures r[i] > last {
          assert r[i] in p;
          var k :| 0 <= k < |p| && p[k] == r[i];
          assert s[k] == r[i];
        }
      }
    }
  }

  /** Adding one new row adds one to the count of its week start and changes no other count. */
  lemma KeysWithWeekStartAdd(keys: set<Key>, k: Key)
    requires k !in keys
    ensures forall w :: |KeysWithWeekStart(keys + {k}, w)| == |KeysWithWeekStart(keys, w)| + (if w == k.weekStart then 1 else 0)
  {
    forall w ensures |KeysWithWeekStart(keys + {k}, w)| == |KeysWithWeekStart(keys, w)| + (if w == k.weekStart then 1 else 0) {
      if w == k.weekStart {
        assert KeysWithWeekStart(keys + {k}, w) == KeysWithWeekStart(keys, w) + {k};
      } else {
        assert KeysWithWeekStart(keys + {k}, w) == KeysWithWeekStart(keys, w);
      }
    }
  }

  // ---------------------------------------------------------------- the adapter

  /** The adapter: whether a client exists, and the remote table it reaches. */
  class FoodTrackerApi {
    const configured: bool
    var table: Table

    predicate Valid()
      reads this
    {
      TableValid(table)
    }

    /** The module's set-up: a client exists only when both connection settings are present. */
    constructor (configured: bool, table: Table)
      requires TableValid(table)
      ensures Valid() && this.configured == configured && this.table == table
    {
      this.configured := configured;
      this.table := table;
    }

    /** saveWeek: the upsert of one record per day entry; false, with the table unchanged, without a client or on a store error. */
    method SaveWeek(weekData: Schedule, weekStart: Day, storeError: bool) returns (ok: bool)
      requires Valid()
      modifies this
      ensures Valid()
      ensures ok == (configured && !storeError)
      ensures table == if ok then Upsert(old(table), Records(weekData, weekStart)) else old(table)
    {
      if !configured {
        return false;
      }
      var records := Records(weekData, weekStart);
      if storeError {
        return false;
      }
      table := Upsert(table, records);
      ok := true;
    }

    /**
     * loadWeek: the rows of one week folded into a schedule keyed by day name; null when the week
     * has no rows, without a client, or on a store error. The rows are visited in any order: their
     * day names are distinct, so the order (by day_order in the query) does not change the result.
     */
    method LoadWeek(weekStart: Day, storeError: bool) returns (r: Option<Schedule>)
      requires Valid()
      ensures !configured || storeError ==> r == None
      ensures configured && !storeError ==>
        r == if LoadedWeek(table, weekStart) == map[] then None else Some(LoadedWeek(table, weekStart))
    {
      if !configured || storeError {
        return None;
      }
      var data := RowsOf(table, weekStart);
      if data == {} {
        LoadedWeekSpec(table, weekStart);
        return None;
      }
      var weekData: Schedule := map[];
      var remaining := data;
      while remaining != {}
        invariant remaining <= data
        invariant forall d :: d in weekData <==> Key(weekStart, d) in data - remaining
        invariant forall d :: d in weekData ==> weekData[d] == RowData(table[Key(weekStart, d)])
        decreases remaining
      {
        var k :| k in remaining;
        var day := table[k];
        assert k == Key(weekStart, day.dayName);
        weekData := weekData[day.dayName := RowData(day)];
        remaining := remaining - {k};
      }
      LoadedWeekSpec(table, weekStart);
      assert weekData == LoadedWeek(table, weekStart);
      r := Some(weekData);
    }

    /** resetWeek: deletes every row of the week; false, with the table unchanged, without a client or on a store error. */
    method ResetWeek(weekStart: Day, storeError: bool) returns (ok: bool)
      requires Valid()
      modifies this
      ensures Valid()
      ensures ok == (configured && !storeError)
      ensures table == if ok then DeleteWeek(old(table), weekStart) else old(table)
    {
      if !configured || storeError {
        return false;
      }
      table := DeleteWeek(table, weekStart);
      ok := true;
    }

    /** The query: the week_start of every row, most recent first. */
    method SelectWeekStartsDescending() returns (column: seq<Day>)
      ensures NonIncreasing(column)
      ensures |column| == |table|
      ensures forall w :: w in column <==> w in WeekStartsOf(table.Keys)
      ensures forall w :: multiset(column)[w] == |KeysWithWeekStart(table.Keys, w)|
    {
      column := [];
      var remaining := table.Keys;
      while remaining != {}
        invariant remaining <= table.Keys
        invariant NonIncreasing(column)
        invariant |column| + |remaining| == |table|
        invariant forall w :: w in column <==> w in WeekStartsOf(table.Keys - remaining)
        invariant forall w :: multiset(column)[w] == |KeysWithWeekStart(table.Keys - remaining, w)|
        decreases remaining
      {
        var k :| k in remaining;
        assert WeekStartsOf(table.Keys - (remaining - {k})) == WeekStartsOf(table.Keys - remaining) + {k.weekStart};
        KeysWithWeekStartAdd(table.Keys - remaining, k);
        assert table.Keys - (remaining - {k}) == (table.Keys - remaining) + {k};
        InsertDescendingPermutes(column, k.weekStart);
        column := InsertDescending(column, k.weekStart);
        remaining := remaining - {k};
      }
      assert table.Keys - remaining == table.Keys;
    }

    /** getWeeksHistory: every stored week start exactly once, most recent first; [] without a client or on a store error. */
    method GetWeeksHistory(storeError: bool) returns (weeks: seq<Day>)
      ensures !configured || storeError ==> weeks == []
      ensures configured && !storeError ==>
        && StrictlyDecreasing(weeks)
        && NoDuplicates(weeks)
        && (forall w :: w in weeks <==> w in WeekStartsOf(table.Keys))
    {
      if !configured || storeError {
        return [];
      }
      var column := SelectWeekStartsDescending();
      weeks := Dedupe(column);
      DedupeNonIncreasing(column);
    }
  }
}
