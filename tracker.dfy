/**
 * The form controller: which week is shown, the schedule being edited, and the device-local cache
 * that holds one schedule per week under the key "foodTracker-" followed by the week start.
 * The transitions are first stated as functions on a State value; the class FoodTracker then
 * performs them step by step on its fields, as the component's setters and localStorage do.
 */
module Tracker {
  import opened Week
  import opened Schedules

  /**
   * What localStorage holds for one week: a schedule that parses, an empty string (which the
   * component treats as no entry), or text that does not parse.
   */
  datatype Entry = Saved(data: Schedule) | Blank | Unparsable

  /** The cache: the entry stored for each week start; a week absent from the map has no entry. */
  type Cache = map<Day, Entry>

  datatype State = State(currentWeek: Day, weekData: Schedule, cache: Cache)

  /**
   * The schedule shown after loading `week` from the cache while `previous` was shown: the
   * cached schedule on a hit, the empty week on a miss, and `previous` when parsing throws
   * (the exception is caught and the state is not set).
   */
  function LoadedFromCache(cache: Cache, week: Day, previous: Schedule): Schedule {
    if week in cache && cache[week].Saved? then cache[week].data
    else if week in cache && cache[week].Unparsable? then previous
    else EmptyWeek()
  }

  /** Every schedule the cache holds has the form's shape. */
  predicate CacheWellFormed(cache: Cache) {
    forall w :: w in cache && cache[w].Saved? ==> WellFormed(cache[w].data)
  }

  /** The invariant the controller keeps: a Monday is shown, with a well-formed schedule, over a well-formed cache. */
  predicate Good(s: State) {
    IsMonday(s.currentWeek) && WellFormed(s.weekData) && CacheWellFormed(s.cache)
  }

  /** First render: the Monday of today's week, loaded from the cache over the initial empty object. */
  function Initial(today: Day, cache: Cache): State {
    var monday := GetMonday(today);
    State(monday, LoadedFromCache(cache, monday, map[]), cache)
  }

  /** Shows `week`, loaded from the cache; the cache itself is not written. */
  function SwitchTo(s: State, week: Day): State {
    s.(currentWeek := week, weekData := LoadedFromCache(s.cache, week, s.weekData))
  }

  /** navigateWeek(direction): step by whole weeks and normalise to the Monday. */
  function Navigated(s: State, direction: int): State {
    SwitchTo(s, NextWeek(s.currentWeek, direction))
  }

  /** goToCurrentWeek: the Monday of today's week. */
  function AtCurrentWeek(s: State, today: Day): State {
    SwitchTo(s, GetMonday(today))
  }

  /** handleInputChange: one cell set, and the whole new schedule written under the current week. */
  function Edited(s: State, day: string, field: string, value: string): State {
    var data := SetCell(s.weekData, day, field, value);
    s.(weekData := data, cache := s.cache[s.currentWeek := Saved(data)])
  }

  /**
   * createNewWeek as the code is written: the empty week is written through saveToLocalStorage,
   * which reads the current week from the render in progress, where it is still the OLD week.
   */
  function WithNewWeekAsWritten(s: State): State {
    State(NextWeek(s.currentWeek, 1), EmptyWeek(), s.cache[s.currentWeek := Saved(EmptyWeek())])
  }

  /** createNewWeek as intended: the empty week is shown and cached under the NEW week. */
  function WithNewWeek(s: State): State {
    var next := NextWeek(s.currentWeek, 1);
    State(next, EmptyWeek(), s.cache[next := Saved(EmptyWeek())])
  }

  // ---------------------------------------------------------------- the cache

  /** A miss (no entry, or an empty string) yields the empty week: seven day names, every field empty. */
  lemma LoadMiss(cache: Cache, week: Day, previous: Schedule)
    requires week !in cache || cache[week].Blank?
    ensures var w := LoadedFromCache(cache, week, previous);
      WellFormed(w) && w.Keys == DayNameSet() && forall d, f :: GetDayData(w, d, f) == ""
  {
    EmptyWeekShape();
  }

  /** Entries are per week: the schedule written for `week` is what a load of `week` returns, and every other week loads as before. */
  lemma LoadAfterSave(cache: Cache, week: Day, data: Schedule, other: Day, previous: Schedule)
    ensures LoadedFromCache(cache[week := Saved(data)], week, previous) == data
    ensures other != week ==>
      LoadedFromCache(cache[week := Saved(data)], other, previous) == LoadedFromCache(cache, other, previous)
  {
  }

  /** A load over a well-formed cache gives a well-formed schedule, whenever the previous one was. */
  lemma LoadWellFormed(cache: Cache, week: Day, previous: Schedule)
    requires CacheWellFormed(cache) && WellFormed(previous)
    ensures WellFormed(LoadedFromCache(cache, week, previous))
  {
    EmptyWeekShape();
  }

  // ---------------------------------------------------------------- the invariant

  /** Writing a well-formed schedule under any week keeps the cache well formed. */
  lemma SaveKeepsCacheWellFormed(cache: Cache, week: Day, data: Schedule)
    requires CacheWellFormed(cache) && WellFormed(data)
    ensures CacheWellFormed(cache[week := Saved(data)])
  {
  }

  /** The first render shows the Monday at most six days before today; it is well formed unless today's entry does not parse. */
  lemma InitialGood(today: Day, cache: Cache)
    requires CacheWellFormed(cache)
    requires GetMonday(today) in cache ==> !cache[GetMonday(today)].Unparsable?
    ensures var s := Initial(today, cache);
      Good(s) && 0 <= today - s.currentWeek <= 6
  {
    EmptyWeekShape();
  }

  /** Navigation keeps the invariant and never writes the cache. */
  lemma SwitchToGood(s: State, week: Day)
    requires Good(s) && IsMonday(week)
    ensures Good(SwitchTo(s, week)) && SwitchTo(s, week).cache == s.cache
  {
    LoadWellFormed(s.cache, week, s.weekData);
  }

  /** navigateWeek moves exactly 7 * direction days, keeps the invariant and never writes the cache. */
  lemma NavigatedGood(s: State, direction: int)
    requires Good(s)
    ensures Good(Navigated(s, direction)) && Navigated(s, direction).cache == s.cache
    ensures Navigated(s, direction).currentWeek == s.currentWeek + 7 * direction
  {
    NextWeekFromMonday(s.currentWeek, direction);
    SwitchToGood(s, NextWeek(s.currentWeek, direction));
  }

  /** goToCurrentWeek shows a Monday at most six days before today, keeps the invariant and never writes the cache. */
  lemma AtCurrentWeekGood(s: State, today: Day)
    requires Good(s)
    ensures Good(AtCurrentWeek(s, today)) && AtCurrentWeek(s, today).cache == s.cache
    ensures 0 <= today - AtCurrentWeek(s, today).currentWeek <= 6
  {
    SwitchToGood(s, GetMonday(today));
  }

  /** An edit of one of the seven fields of one of the seven days keeps the invariant. */
  lemma EditedGood(s: State, day: string, field: string, value: string)
    requires Good(s) && day in DayNameSet() && field in FieldNameSet()
    ensures Good(Edited(s, day, field, value))
  {
    SetCellWellFormed(s.weekData, day, field, value);
    SaveKeepsCacheWellFormed(s.cache, s.currentWeek, SetCell(s.weekData, day, field, value));
  }

  /** Creating a new week keeps the invariant, in both versions. */
  lemma WithNewWeekGood(s: State)
    requires Good(s)
    ensures Good(WithNewWeek(s)) && Good(WithNewWeekAsWritten(s))
  {
    EmptyWeekShape();
    SaveKeepsCacheWellFormed(s.cache, NextWeek(s.currentWeek, 1), EmptyWeek());
    SaveKeepsCacheWellFormed(s.cache, s.currentWeek, EmptyWeek());
  }

  // ---------------------------------------------------------------- editing

  /**
   * An edit changes one cell of the shown schedule, writes the new schedule under the current
   * week, and leaves the week and every other week's cache entry as they were.
   */
  lemma EditedFrame(s: State, day: string, field: string, value: string)
    ensures var t := Edited(s, day, field, value);
      && t.currentWeek == s.currentWeek
      && (forall d, f :: GetDayData(t.weekData, d, f) == if d == day && f == field then value else GetDayData(s.weekData, d, f))
      && t.cache.Keys == s.cache.Keys + {s.currentWeek}
      && t.cache[s.currentWeek] == Saved(t.weekData)
      && (forall w :: w in s.cache && w != s.currentWeek ==> t.cache[w] == s.cache[w])
  {
    var t := Edited(s, day, field, value);
    forall d, f ensures GetDayData(t.weekData, d, f) == if d == day && f == field then value else GetDayData(s.weekData, d, f) {
      GetDayDataAfterSetCell(s.weekData, day, field, value, d, f);
    }
  }

  /** After an edit, going `n` weeks away and back shows the edited schedule again: a load returns what was last saved for that week. */
  lemma EditSurvivesNavigation(s: State, day: string, field: string, value: string, n: int)
    requires IsMonday(s.currentWeek)
    ensures var e := Edited(s, day, field, value);
      var back := Navigated(Navigated(e, n), -n);
      back.currentWeek == s.currentWeek && back.weekData == e.weekData && GetDayData(back.weekData, day, field) == value
  {
    NextWeekInverse(s.currentWeek, n);
    GetDayDataAfterSetCell(s.weekData, day, field, value, day, field);
  }

  // ---------------------------------------------------------------- creating a new week

  /**
   * As written, createNewWeek overwrites the cache entry of the week it leaves with the empty
   * week, so going back one week shows nothing of what had been saved there.
   */
  lemma WithNewWeekAsWrittenErasesPrevious(s: State)
    requires IsMonday(s.currentWeek)
    ensures var t := WithNewWeekAsWritten(s);
      && t.currentWeek == s.currentWeek + 7
      && t.cache[s.currentWeek] == Saved(EmptyWeek())
      && Navigated(t, -1).weekData == EmptyWeek()
  {
    NextWeekInverse(s.currentWeek, 1);
  }

  /** The data loss it causes: a non-empty value entered this week reads back as empty after "new week" and "previous week". */
  lemma WithNewWeekAsWrittenLosesEdit(s: State, day: string, field: string, value: string)
    requires IsMonday(s.currentWeek) && value != ""
    ensures var e := Edited(s, day, field, value);
      && GetDayData(e.weekData, day, field) == value
      && GetDayData(Navigated(WithNewWeekAsWritten(e), -1).weekData, day, field) == ""
  {
    GetDayDataAfterSetCell(s.weekData, day, field, value, day, field);
    WithNewWeekAsWrittenErasesPrevious(Edited(s, day, field, value));
    EmptyWeekShape();
  }

  /**
   * The intended createNewWeek: it moves exactly seven days on, shows the empty week, caches it
   * under the new week only, and going back one week shows what had been saved there.
   */
  lemma WithNewWeekKeepsPrevious(s: State)
    requires IsMonday(s.currentWeek)
    ensures var t := WithNewWeek(s);
      && t.currentWeek == s.currentWeek + 7
      && (forall d, f :: GetDayData(t.weekData, d, f) == "")
      && t.cache[t.currentWeek] == Saved(EmptyWeek())
      && (forall w :: w in s.cache && w != t.currentWeek ==> w in t.cache && t.cache[w] == s.cache[w])
      && Navigated(t, -1).weekData == LoadedFromCache(s.cache, s.currentWeek, EmptyWeek())
  {
    NextWeekInverse(s.currentWeek, 1);
    EmptyWeekShape();
  }

  /** With the intended createNewWeek, a value entered this week is still there after "new week" and "previous week". */
  lemma WithNewWeekKeepsEdit(s: State, day: string, field: string, value: string)
    requires IsMonday(s.currentWeek)
    ensures var e := Edited(s, day, field, value);
      GetDayData(Navigated(WithNewWeek(e), -1).weekData, day, field) == value
  {
    GetDayDataAfterSetCell(s.weekData, day, field, value, day, field);
    WithNewWeekKeepsPrevious(Edited(s, day, field, value));
  }

  // ---------------------------------------------------------------- the component

  /** The component: React state for the week and its schedule, and the browser's localStorage. */
  class FoodTracker {
    var currentWeek: Day
    var weekData: Schedule
    var cache: Cache

    function Snapshot(): State
      reads this
    {
      State(currentWeek, weekData, cache)
    }

    /** Mounting: the Monday of today's week, loaded from the cache that the browser already holds. */
    constructor (today: Day, storage: Cache)
      ensures Snapshot() == Initial(today, storage)
    {
      currentWeek, weekData, cache := 0, map[], storage;
      new;
      var monday := GetMonday(today);
      currentWeek := monday;
      LoadFromLocalStorage(monday);
    }

    /** Loads `week` from the cache into the shown schedule; on a miss builds the empty week day by day. */
    method LoadFromLocalStorage(week: Day)
      modifies this`weekData
      ensures weekData == LoadedFromCache(cache, week, old(weekData))
    {
      var saved := if week in cache then cache[week] else Blank;
      match saved {
        case Saved(data) =>
          weekData := data;
        case Unparsable =>
          // JSON.parse throws; the catch only logs, and the schedule is not replaced
        case Blank =>
          var emptyData := NewEmptyWeek();
          weekData := emptyData;
      }
    }

    /** Writes `data` under the week the component currently shows. */
    method SaveToLocalStorage(data: Schedule)
      modifies this`cache
      ensures cache == old(cache)[currentWeek := Saved(data)]
    {
      cache := cache[currentWeek := Saved(data)];
    }

    method HandleInputChange(dayName: string, field: string, value: string)
      modifies this
      ensures Snapshot() == Edited(old(Snapshot()), dayName, field, value)
    {
      var dayData := if dayName in weekData then weekData[dayName] else map[];
      var newData := weekData[dayName := dayData[field := value]];
      weekData := newData;
      SaveToLocalStorage(newData);
    }

    method NavigateWeek(direction: int)
      modifies this
      ensures Snapshot() == Navigated(old(Snapshot()), direction)
    {
      var newWeek := GetMonday(currentWeek + direction * 7);
      currentWeek := newWeek;
      LoadFromLocalStorage(newWeek);
    }

    method GoToCurrentWeek(today: Day)
      modifies this
      ensures Snapshot() == AtCurrentWeek(old(Snapshot()), today)
    {
      var week := GetMonday(today);
      currentWeek := week;
      LoadFromLocalStorage(week);
    }

    /** createNewWeek as written: the save still sees the week being left. */
    method CreateNewWeekAsWritten()
      modifies this
      ensures Snapshot() == WithNewWeekAsWritten(old(Snapshot()))
    {
      var renderedWeek := currentWeek;
      var newWeek := GetMonday(currentWeek + 7);
      currentWeek := newWeek;
      var emptyData := NewEmptyWeek();
      weekData := emptyData;
      cache := cache[renderedWeek := Saved(emptyData)];
    }

    /** createNewWeek as intended: the save uses the week just set. */
    method CreateNewWeek()
      modifies this
      ensures Snapshot() == WithNewWeek(old(Snapshot()))
    {
      var newWeek := GetMonday(currentWeek + 7);
      currentWeek := newWeek;
      var emptyData := NewEmptyWeek();
      weekData := emptyData;
      SaveToLocalStorage(emptyData);
    }
  }
}
