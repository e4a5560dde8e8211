/**
 * The in-memory weekly schedule: for each day name, an object from field name to the chosen value.
 * Both levels are open maps, as the JavaScript objects are: a cached or edited schedule may hold
 * other keys than the seven day names and the seven field names.
 */
module Schedules {

  type DayData = map<string, string>
  type Schedule = map<string, DayData>

  datatype DayInfo = DayInfo(name: string, order: int)

  /** The seven days, Monday to Sunday, with their display order. */
  const DaysOfWeek: seq<DayInfo> := [
    DayInfo("Lundi", 1), DayInfo("Mardi", 2), DayInfo("Mercredi", 3), DayInfo("Jeudi", 4),
    DayInfo("Vendredi", 5), DayInfo("Samedi", 6), DayInfo("Dimanche", 7)
  ]

  /** The seven day names. */
  function DayNameSet(): set<string> {
    {"Lundi", "Mardi", "Mercredi", "Jeudi", "Vendredi", "Samedi", "Dimanche"}
  }

  /** The seven fields of a day. */
  function FieldNameSet(): set<string> {
    {"morning", "vegetable", "protein", "fruit_lunch", "snack", "evening", "remarks"}
  }

  /** The day record the empty week holds for every day. */
  function EmptyDay(): (d: DayData)
    ensures d.Keys == FieldNameSet()
    ensures forall f :: f in d ==> d[f] == ""
  {
    map["morning" := "", "vegetable" := "", "protein" := "", "fruit_lunch" := "",
        "snack" := "", "evening" := "", "remarks" := ""]
  }

  /** The schedule of a week with nothing entered: every day name, each with every field empty. */
  function EmptyWeek(): Schedule {
    map d | d in DayNameSet() :: EmptyDay()
  }

  /** A schedule of the shape the form builds: exactly the seven day names, each with exactly the seven fields. */
  predicate WellFormed(w: Schedule) {
    && w.Keys == DayNameSet()
    && forall d :: d in w ==> w[d].Keys == FieldNameSet()
  }

  /** The names of a list of days. */
  function NamesOf(days: seq<DayInfo>): set<string> {
    if days == [] then {} else NamesOf(days[..|days| - 1]) + {days[|days| - 1].name}
  }

  /** The day list names exactly the seven day names, each once, so a well-formed schedule has seven entries. */
  lemma DayNamesDistinct()
    ensures NamesOf(DaysOfWeek) == DayNameSet()
    ensures forall i, j :: 0 <= i < j < |DaysOfWeek| ==> DaysOfWeek[i].name != DaysOfWeek[j].name
    ensures |DayNameSet()| == 7
  {
    var ds := DaysOfWeek;
    assert ds[..1][..0] == [];
    assert NamesOf(ds[..1]) == {"Lundi"};
    assert ds[..2][..1] == ds[..1];
    assert NamesOf(ds[..2]) == {"Lundi", "Mardi"};
    assert ds[..3][..2] == ds[..2];
    assert NamesOf(ds[..3]) == {"Lundi", "Mardi", "Mercredi"};
    assert ds[..4][..3] == ds[..3];
    assert NamesOf(ds[..4]) == {"Lundi", "Mardi", "Mercredi", "Jeudi"};
    assert ds[..5][..4] == ds[..4];
    assert NamesOf(ds[..5]) == {"Lundi", "Mardi", "Mercredi", "Jeudi", "Vendredi"};
    assert ds[..6][..5] == ds[..5];
    assert NamesOf(ds[..6]) == {"Lundi", "Mardi", "Mercredi", "Jeudi", "Vendredi", "Samedi"};
    assert ds[..6] == ds[..|ds| - 1];
  }

  /** Builds the empty week the way the component does: one day name at a time, in week order. */
  method NewEmptyWeek() returns (w: Schedule)
    ensures w == EmptyWeek()
    ensures WellFormed(w)
    ensures forall d, f :: GetDayData(w, d, f) == ""
  {
    w := map[];
    var i := 0;
    while i < |DaysOfWeek|
      invariant 0 <= i <= |DaysOfWeek|
      invariant w.Keys == NamesOf(DaysOfWeek[..i])
      invariant forall d :: d in w ==> w[d] == EmptyDay()
    {
      assert DaysOfWeek[..i + 1][..i] == DaysOfWeek[..i];
      w := w[DaysOfWeek[i].name := EmptyDay()];
      i := i + 1;
    }
    DayNamesDistinct();
    assert DaysOfWeek[..i] == DaysOfWeek;
  }

  /** A field of one day object, or the empty string when it is unset (the `|| ''` of the code). */
  function FieldOrEmpty(d: DayData, field: string): string {
    if field in d then d[field] else ""
  }

  /** The value the form shows for one cell: the stored value, or the empty string when the day or the field is absent. */
  function GetDayData(w: Schedule, day: string, field: string): string {
    if day in w then FieldOrEmpty(w[day], field) else ""
  }

  /** Absent days and absent fields read as the empty string. */
  lemma GetDayDataDefault(w: Schedule, day: string, field: string)
    requires day !in w || field !in w[day]
    ensures GetDayData(w, day, field) == ""
  {
  }

  /** The empty week is well formed and every cell of it reads as the empty string. */
  lemma EmptyWeekShape()
    ensures WellFormed(EmptyWeek())
    ensures |EmptyWeek()| == 7
    ensures forall d, f :: GetDayData(EmptyWeek(), d, f) == ""
  {
    DayNamesDistinct();
    assert EmptyWeek().Keys == DayNameSet();
  }

  /**
   * The point update of one cell: the day's record (an empty one when the day is absent) with
   * `field` set to `value`, every other day kept as it is.
   */
  function SetCell(w: Schedule, day: string, field: string, value: string): Schedule {
    w[day := (if day in w then w[day] else map[])[field := value]]
  }

  /** Only the edited cell changes: each other day is the same record, and each other field of that day the same value. */
  lemma SetCellFrame(w: Schedule, day: string, field: string, value: string)
    ensures var w' := SetCell(w, day, field, value);
      && w'.Keys == w.Keys + {day}
      && (forall d :: d in w && d != day ==> w'[d] == w[d])
      && w'[day].Keys == (if day in w then w[day].Keys else {}) + {field}
      && w'[day][field] == value
      && (forall f :: day in w && f in w[day] && f != field ==> w'[day][f] == w[day][f])
  {
  }

  /** Read back through GetDayData, the edit shows `value` in its cell and nothing changes elsewhere. */
  lemma GetDayDataAfterSetCell(w: Schedule, day: string, field: string, value: string, d: string, f: string)
    ensures GetDayData(SetCell(w, day, field, value), d, f)
         == if d == day && f == field then value else GetDayData(w, d, f)
  {
  }

  /** Editing one of the seven fields of one of the seven days keeps a schedule well formed. */
  lemma SetCellWellFormed(w: Schedule, day: string, field: string, value: string)
    requires WellFormed(w) && day in DayNameSet() && field in FieldNameSet()
    ensures WellFormed(SetCell(w, day, field, value))
  {
    var w' := SetCell(w, day, field, value);
    assert w'.Keys == w.Keys;
    assert w'[day].Keys == w[day].Keys;
  }
}
