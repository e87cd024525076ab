/**
 * The client-side state store of the calorie tracker (src/store/useAppStore.ts).
 *
 * The store holds the onboarding flag, the user profile, today's log, the
 * history, the theme, the unit system and the selected date, and mirrors
 * some of them into the browser's key/value storage. Here that storage is the
 * field `storage`, the wall clock is the parameter `today`, and JSON
 * documents are kept in the storage map in parsed form (`Stored`).
 *
 * JavaScript's falsy values are modelled explicitly: a missing or falsy
 * `calories` or `waterIntake` is `None` and counts as 0, and a `date` that is
 * missing or the empty string counts as absent (`HasDate`).
 */
module Store {
  import opened Wrappers

  // ---------------------------------------------------------------------
  // Entities
  // ---------------------------------------------------------------------

  datatype UserProfile = UserProfile(
    fullName: string,
    age: int,
    gender: string,
    goal: string,
    workoutFrequency: string,
    birthDate: string,
    height: real,
    weight: real,
    dailyCaloriesTarget: int,
    protein: int,
    carbs: int,
    fat: int,
    preferredCuisine: string,
    waterLiters: real,
    dietStrategy: Option<string>,
    workoutPlan: Option<string>)

  /** One logged food item. `calories` is None when the value is missing or falsy. */
  datatype FoodEntry = FoodEntry(
    id: string,
    name: string,
    calories: Option<int>,
    protein: int,
    carbs: int,
    fat: int,
    servingSize: string,
    time: string)

  /** A day's log. `waterIntake` is None when missing; `date` is None when never stamped. */
  datatype DailyLog = DailyLog(
    caloriesConsumed: int,
    waterIntake: Option<int>,
    foodLogs: seq<FoodEntry>,
    date: Option<string>)

  /** A past day's log: the same record with its date always present. */
  type HistoryEntry = log: DailyLog | log.date.Some? witness DailyLog(0, Some(0), [], Some(""))

  /**
   * A value in the browser's key/value storage. Flags and preferences are
   * plain text; a profile or a log is the JSON text of that record, kept here
   * in parsed form. Text stored under a JSON key stands for text that is not
   * the JSON of a profile or a log.
   */
  datatype Stored = Text(text: string) | ProfileJson(profile: UserProfile) | LogJson(log: DailyLog)

  const ProfileKey := "calorieApp_profile"
  const LogKey := "calorieApp_todayLog"
  const OnboardedKey := "calorieApp_onboarded"
  const ThemeKey := "calorieApp_theme"
  const UnitsKey := "calorieApp_units"

  const DefaultTheme := "dark"
  const DefaultUnits := "metric"

  /** `DEFAULT_LOG`: no calories, no water, no entries, no date. */
  const DefaultLog := DailyLog(0, Some(0), [], None)

  /** `{ ...DEFAULT_LOG, date: today }` */
  function EmptyLog(today: string): (r: DailyLog)
    ensures r.foodLogs == [] && r.caloriesConsumed == 0 && r.waterIntake == Some(0)
    ensures r.date == Some(today)
  {
    DefaultLog.(date := Some(today))
  }

  // ---------------------------------------------------------------------
  // The derived calorie total
  // ---------------------------------------------------------------------

  /** `f.calories || 0` */
  function CaloriesOf(e: FoodEntry): int {
    match e.calories
    case None => 0
    case Some(c) => c
  }

  /** `foodLogs.reduce((sum, f) => sum + (f.calories || 0), 0)`, folded from the left. */
  function Total(logs: seq<FoodEntry>): (r: int)
    ensures (forall i :: 0 <= i < |logs| ==> CaloriesOf(logs[i]) >= 0) ==> r >= 0
  {
    if logs == [] then 0 else Total(logs[..|logs| - 1]) + CaloriesOf(logs[|logs| - 1])
  }

  /** The total of a concatenation is the sum of the totals. */
  lemma {:induction false} TotalAppend(a: seq<FoodEntry>, b: seq<FoodEntry>)
    ensures Total(a + b) == Total(a) + Total(b)
  {
    if b == [] {
      assert a + b == a;
    } else {
      var front := b[..|b| - 1];
      assert (a + b)[..|a + b| - 1] == a + front;
      TotalAppend(a, front);
    }
  }

  /** Entries whose calories are missing contribute nothing to the total. */
  lemma {:induction false} TotalSkipsMissing(logs: seq<FoodEntry>)
    requires forall i :: 0 <= i < |logs| ==> logs[i].calories.None?
    ensures Total(logs) == 0
  {
    if logs != [] {
      TotalSkipsMissing(logs[..|logs| - 1]);
    }
  }

  // ---------------------------------------------------------------------
  // Dates and the log invariant
  // ---------------------------------------------------------------------

  /** A date is present when it is neither missing nor the empty string. */
  predicate HasDate(date: Option<string>) {
    date.Some? && date.value != ""
  }

  /** `date || today` */
  function Stamped(date: Option<string>, today: string): string {
    if HasDate(date) then date.value else today
  }

  /** The standing invariant of today's log: its total is derived and it carries a date. */
  predicate Consistent(log: DailyLog) {
    log.caloriesConsumed == Total(log.foodLogs) && log.date.Some?
  }

  /** `waterIntake || 0` */
  function WaterOf(log: DailyLog): int {
    match log.waterIntake
    case None => 0
    case Some(w) => w
  }

  // ---------------------------------------------------------------------
  // The new value of today's log after each action
  // ---------------------------------------------------------------------

  /** The log `addFoodEntry(entry)` builds. */
  function AppendFood(log: DailyLog, entry: FoodEntry, today: string): (r: DailyLog)
    ensures |r.foodLogs| == |log.foodLogs| + 1
    ensures r.foodLogs[..|log.foodLogs|] == log.foodLogs && r.foodLogs[|log.foodLogs|] == entry
    ensures Consistent(r)
    ensures r.waterIntake == log.waterIntake
    ensures HasDate(log.date) ==> r.date == log.date
    ensures !HasDate(log.date) ==> r.date == Some(today)
    ensures Consistent(log) ==> r.caloriesConsumed == log.caloriesConsumed + CaloriesOf(entry)
  {
    var foodLogs := log.foodLogs + [entry];
    assert foodLogs[..|foodLogs| - 1] == log.foodLogs;
    log.(caloriesConsumed := Total(foodLogs), foodLogs := foodLogs, date := Some(Stamped(log.date, today)))
  }

  /** The log `addWater(ml)` builds. */
  function AddedWater(log: DailyLog, ml: int, today: string): (r: DailyLog)
    ensures WaterOf(r) == WaterOf(log) + ml && r.waterIntake.Some?
    ensures r.foodLogs == log.foodLogs && r.caloriesConsumed == log.caloriesConsumed
    ensures HasDate(log.date) ==> r.date == log.date
    ensures !HasDate(log.date) ==> r.date == Some(today)
    ensures Consistent(log) ==> Consistent(r)
  {
    log.(waterIntake := Some(WaterOf(log) + ml), date := Some(Stamped(log.date, today)))
  }

  /** The log `setTodayLog(log)` stores: the incoming total is discarded and re-derived. */
  function Normalized(log: DailyLog, today: string): (r: DailyLog)
    ensures Consistent(r)
    ensures r.foodLogs == log.foodLogs && r.waterIntake == log.waterIntake
    ensures HasDate(log.date) ==> r.date == log.date
    ensures !HasDate(log.date) ==> r.date == Some(today)
  {
    log.(date := Some(Stamped(log.date, today)), caloriesConsumed := Total(log.foodLogs))
  }

  /** A run of `addFoodEntry` calls, one per element of `entries`, in order. */
  function AppendAll(log: DailyLog, entries: seq<FoodEntry>, today: string): DailyLog
    decreases |entries|
  {
    if entries == [] then log else AppendAll(AppendFood(log, entries[0], today), entries[1..], today)
  }

  /**
   * However many entries are added, the total stays the sum over the log,
   * every earlier entry keeps its place, and the water intake is untouched.
   */
  lemma {:induction false} AppendAllKeepsTotal(log: DailyLog, entries: seq<FoodEntry>, today: string)
    requires Consistent(log)
    decreases |entries|
    ensures var r := AppendAll(log, entries, today);
      && Consistent(r)
      && r.foodLogs == log.foodLogs + entries
      && r.caloriesConsumed == log.caloriesConsumed + Total(entries)
      && r.waterIntake == log.waterIntake
      && (HasDate(log.date) ==> r.date == log.date)
  {
    if entries == [] {
      assert log.foodLogs + entries == log.foodLogs;
    } else {
      var next := AppendFood(log, entries[0], today);
      AppendAllKeepsTotal(next, entries[1..], today);
      assert [entries[0]] + entries[1..] == entries;
      TotalAppend([entries[0]], entries[1..]);
      assert Total([entries[0]]) == CaloriesOf(entries[0]) by {
        assert [entries[0]][..0] == [];
      }
      assert next.foodLogs + entries[1..] == log.foodLogs + entries;
    }
  }

  /** `setTodayLog` never trusts the total it is given. */
  lemma NormalizedIgnoresIncomingTotal(log: DailyLog, claimed: int, today: string)
    ensures Normalized(log.(caloriesConsumed := claimed), today) == Normalized(log, today)
  {
  }

  /** Two `setTodayLog` calls with the same entries store the same total, and normalizing twice changes nothing. */
  lemma NormalizedStable(a: DailyLog, b: DailyLog, today: string)
    requires a.foodLogs == b.foodLogs
    ensures Normalized(a, today).caloriesConsumed == Normalized(b, today).caloriesConsumed
    ensures Normalized(Normalized(a, today), today) == Normalized(a, today)
  {
  }

  /** Two `addWater` calls add up exactly; a negative amount lowers the intake, nothing clamps it. */
  lemma AddedWaterTwice(log: DailyLog, first: int, second: int, today: string)
    ensures WaterOf(AddedWater(AddedWater(log, first, today), second, today)) == WaterOf(log) + first + second
    ensures first < 0 ==> WaterOf(AddedWater(log, first, today)) < WaterOf(log)
  {
  }

  // ---------------------------------------------------------------------
  // Reading the key/value storage at start-up
  // ---------------------------------------------------------------------

  /** The outcome of parsing a stored value: a value, or an exception. */
  datatype Parsed<T> = Parsed(value: T) | Throws

  /** `localStorage.getItem(key)`: None when the key is absent. */
  function Item(storage: map<string, Stored>, key: string): Option<Stored> {
    if key in storage then Some(storage[key]) else None
  }

  /** A stored item is truthy unless it is absent or the empty string. */
  predicate Truthy(item: Option<Stored>) {
    item.Some? && item.value != Text("")
  }

  /** `profileStr ? JSON.parse(profileStr) : null` */
  function ProfileFrom(item: Option<Stored>): (r: Parsed<Option<UserProfile>>)
    ensures r.Parsed? && r.value.Some? <==> item.Some? && item.value.ProfileJson?
    ensures r.Parsed? && r.value.Some? ==> r.value.value == item.value.profile
    ensures r == Parsed(None) <==> !Truthy(item) || item == Some(Text("null"))
  {
    if !Truthy(item) then Parsed(None)
    else match item.value
      case ProfileJson(p) => Parsed(Some(p))
      case Text(s) => if s == "null" then Parsed(None) else Throws
      case LogJson(_) => Throws
  }

  /**
   * `logStr ? JSON.parse(logStr) : DEFAULT_LOG`, together with the later
   * `todayLog.foodLogs.reduce(...)`, which throws when the parsed value is
   * not a log (a profile has no `foodLogs`).
   */
  function LogFrom(item: Option<Stored>): (r: Parsed<DailyLog>)
    ensures r.Parsed? <==> !Truthy(item) || item.value.LogJson?
    ensures !Truthy(item) ==> r == Parsed(DefaultLog)
    ensures Truthy(item) && r.Parsed? ==> r.value == item.value.log
  {
    if !Truthy(item) then Parsed(DefaultLog)
    else match item.value
      case LogJson(log) => Parsed(log)
      case _ => Throws
  }

  /** The text a JSON document stands for when read as a plain string (it begins with `{`). */
  const DocumentText := "{...}"

  /** `localStorage.getItem(key) || fallback` */
  function Preference(item: Option<Stored>, fallback: string): (r: string)
    ensures !Truthy(item) ==> r == fallback
    ensures forall s :: s != "" && item == Some(Text(s)) ==> r == s
    ensures fallback != "" ==> r != ""
  {
    if !Truthy(item) then fallback
    else match item.value
      case Text(s) => s
      case _ => DocumentText
  }

  /** A stored log from another day: it has a date and the date is not today's. */
  predicate Stale(log: DailyLog, today: string) {
    HasDate(log.date) && log.date.value != today
  }

  /** What `loadState` returns. */
  datatype Saved = Saved(
    profile: Option<UserProfile>,
    todayLog: DailyLog,
    isOnboarded: bool,
    theme: string,
    units: string)

  /** The state `loadState` falls back to when reading storage throws. */
  function Fallback(today: string): Saved {
    Saved(None, EmptyLog(today), false, DefaultTheme, DefaultUnits)
  }

  /**
   * What `loadState` promises of the state `saved` it loads from `storage`
   * and of the storage `written` it leaves behind.
   */
  ghost predicate Loaded(storage: map<string, Stored>, today: string, saved: Saved, written: map<string, Stored>) {
    && (var p, l := ProfileFrom(Item(storage, ProfileKey)), LogFrom(Item(storage, LogKey));
      (p.Throws? || l.Throws?) ==> saved == Fallback(today) && written == storage)
    && (var p, l := ProfileFrom(Item(storage, ProfileKey)), LogFrom(Item(storage, LogKey));
      p.Parsed? && l.Parsed? ==>
        && saved.profile == p.value
        && saved.isOnboarded == (Item(storage, OnboardedKey) == Some(Text("true")))
        && saved.theme == Preference(Item(storage, ThemeKey), DefaultTheme)
        && saved.units == Preference(Item(storage, UnitsKey), DefaultUnits)
        && (Stale(l.value, today) ==>
              saved.todayLog == EmptyLog(today) && written == storage[LogKey := LogJson(EmptyLog(today))])
        && (!Stale(l.value, today) ==>
              && saved.todayLog.foodLogs == l.value.foodLogs
              && saved.todayLog.waterIntake == l.value.waterIntake
              && written == storage))
    && Consistent(saved.todayLog) && saved.todayLog.date == Some(today)
  }

  /**
   * `loadState`: reads the stored profile, log, flag and preferences, rolls a
   * log from another day over to an empty log stamped `today` (and writes it
   * back), stamps `today` on a log without a date, re-derives the total, and
   * falls back to defaults if any read throws. Returns the loaded state and
   * the storage after the call.
   */
  method LoadState(storage: map<string, Stored>, today: string) returns (saved: Saved, written: map<string, Stored>)
    ensures Loaded(storage, today, saved, written)
  {
    written := storage;
    var profile := ProfileFrom(Item(storage, ProfileKey));
    var stored := LogFrom(Item(storage, LogKey));
    if profile.Throws? || stored.Throws? {
      saved := Fallback(today);
      return;
    }
    var todayLog := stored.value;
    if HasDate(todayLog.date) && todayLog.date.value != today {
      todayLog := EmptyLog(today);
      written := written[LogKey := LogJson(todayLog)];
    } else if !HasDate(todayLog.date) {
      todayLog := todayLog.(date := Some(today));
    }
    todayLog := todayLog.(caloriesConsumed := Total(todayLog.foodLogs));
    var onboarded := Item(storage, OnboardedKey);
    saved := Saved(
      profile.value,
      todayLog,
      onboarded == Some(Text("true")),
      Preference(Item(storage, ThemeKey), DefaultTheme),
      Preference(Item(storage, UnitsKey), DefaultUnits));
  }

  // ---------------------------------------------------------------------
  // The store
  // ---------------------------------------------------------------------

  /** A snapshot of every field of the store, to say in one clause what an action changes. */
  datatype StoreState = StoreState(
    isOnboarded: bool,
    profile: Option<UserProfile>,
    todayLog: DailyLog,
    history: seq<HistoryEntry>,
    theme: string,
    units: string,
    selectedDate: string,
    storage: map<string, Stored>)

  /** The application store: its state and its actions. */
  class AppStore {
    var isOnboarded: bool
    var profile: Option<UserProfile>
    var todayLog: DailyLog
    var history: seq<HistoryEntry>
    var theme: string
    var units: string
    var selectedDate: string
    var storage: map<string, Stored>

    ghost function State(): StoreState
      reads this
    {
      StoreState(isOnboarded, profile, todayLog, history, theme, units, selectedDate, storage)
    }

    ghost predicate Valid()
      reads this
    {
      Consistent(todayLog)
    }

    /** `create(...)` over the state `loadState` returned; the selected date starts at today. */
    constructor (saved: Saved, storage: map<string, Stored>, today: string)
      requires Consistent(saved.todayLog)
      ensures Valid()
      ensures State() == StoreState(saved.isOnboarded, saved.profile, saved.todayLog, [],
                                    saved.theme, saved.units, today, storage)
    {
      isOnboarded := saved.isOnboarded;
      profile := saved.profile;
      todayLog := saved.todayLog;
      history := [];
      theme := saved.theme;
      units := saved.units;
      selectedDate := today;
      this.storage := storage;
    }

    method SetOnboarded(val: bool)
      modifies this
      ensures State() == old(State()).(
        isOnboarded := val,
        storage := old(storage)[OnboardedKey := Text(if val then "true" else "false")])
    {
      storage := storage[OnboardedKey := Text(if val then "true" else "false")];
      isOnboarded := val;
    }

    method SetProfile(p: UserProfile)
      modifies this
      ensures State() == old(State()).(profile := Some(p), storage := old(storage)[ProfileKey := ProfileJson(p)])
    {
      storage := storage[ProfileKey := ProfileJson(p)];
      profile := Some(p);
    }

    method AddFoodEntry(entry: FoodEntry, today: string)
      modifies this
      ensures Valid()
      ensures todayLog == AppendFood(old(todayLog), entry, today)
      ensures State() == old(State()).(todayLog := todayLog, storage := old(storage)[LogKey := LogJson(todayLog)])
      ensures old(Valid()) ==> todayLog.caloriesConsumed == old(todayLog.caloriesConsumed) + CaloriesOf(entry)
    {
      var updated := AppendFood(todayLog, entry, today);
      storage := storage[LogKey := LogJson(updated)];
      todayLog := updated;
    }

    method AddWater(ml: int, today: string)
      modifies this
      ensures todayLog == AddedWater(old(todayLog), ml, today)
      ensures State() == old(State()).(todayLog := todayLog, storage := old(storage)[LogKey := LogJson(todayLog)])
      ensures old(Valid()) ==> Valid()
    {
      var updated := AddedWater(todayLog, ml, today);
      storage := storage[LogKey := LogJson(updated)];
      todayLog := updated;
    }

    method SetTodayLog(log: DailyLog, today: string)
      modifies this
      ensures Valid()
      ensures todayLog == Normalized(log, today)
      ensures State() == old(State()).(todayLog := todayLog, storage := old(storage)[LogKey := LogJson(todayLog)])
    {
      var logWithDate := Normalized(log, today);
      storage := storage[LogKey := LogJson(logWithDate)];
      todayLog := logWithDate;
    }

    /** History is rebuilt from the remote store each session: no storage write. */
    method SetHistory(entries: seq<HistoryEntry>)
      modifies this
      ensures State() == old(State()).(history := entries)
    {
      history := entries;
    }

    method SetTheme(t: string)
      modifies this
      ensures State() == old(State()).(theme := t, storage := old(storage)[ThemeKey := Text(t)])
    {
      storage := storage[ThemeKey := Text(t)];
      theme := t;
    }

    method SetUnits(u: string)
      modifies this
      ensures State() == old(State()).(units := u, storage := old(storage)[UnitsKey := Text(u)])
    {
      storage := storage[UnitsKey := Text(u)];
      units := u;
    }

    /** Navigation state only: no storage write. */
    method SetSelectedDate(date: string)
      modifies this
      ensures State() == old(State()).(selectedDate := date)
    {
      selectedDate := date;
    }
  }

  /** Module start-up: `const saved = loadState()` followed by `create(...)`. */
  method Boot(storage: map<string, Stored>, today: string)
    returns (store: AppStore, saved: Saved, written: map<string, Stored>)
    ensures Loaded(storage, today, saved, written)
    ensures fresh(store) && store.Valid()
    ensures store.State() == StoreState(saved.isOnboarded, saved.profile, saved.todayLog, [],
                                        saved.theme, saved.units, today, written)
  {
    saved, written := LoadState(storage, today);
    store := new AppStore(saved, written, today);
  }

  /** Start-up from a stored profile and a `"true"` flag loads both. */
  method BootWithSavedProfile(p: UserProfile) {
    var storage := map[ProfileKey := ProfileJson(p), OnboardedKey := Text("true")];
    assert Item(storage, LogKey) == None;
    var store, saved, written := Boot(storage, "2024-06-01");
    assert store.profile == Some(p) && store.isOnboarded;
    assert store.todayLog.foodLogs == [] && store.theme == DefaultTheme && store.units == DefaultUnits;
  }

  /**
   * A profile written by `setProfile` comes back on the next start-up, unless
   * the stored log cannot be read, in which case every key falls back to its
   * default and the profile is lost with it.
   */
  method ReloadAfterSetProfile(store: AppStore, p: UserProfile, today: string) returns (saved: Saved)
    modifies store
    ensures LogFrom(Item(old(store.storage), LogKey)).Parsed? ==> saved.profile == Some(p)
    ensures LogFrom(Item(old(store.storage), LogKey)).Throws? ==> saved == Fallback(today)
  {
    store.SetProfile(p);
    assert Item(store.storage, LogKey) == Item(old(store.storage), LogKey);
    var written;
    saved, written := LoadState(store.storage, today);
  }

  /** Two breakfast items on a fresh day: the total is 198 and the entries keep their order. */
  method BreakfastScenario() {
    var store := new AppStore(Saved(None, EmptyLog("2024-06-01"), false, DefaultTheme, DefaultUnits), map[], "2024-06-01");
    var egg := FoodEntry("1", "Egg", Some(78), 6, 1, 5, "1 egg", "08:00");
    var toast := FoodEntry("2", "Toast", Some(120), 3, 22, 2, "1 slice", "08:05");
    store.AddFoodEntry(egg, "2024-06-01");
    store.AddFoodEntry(toast, "2024-06-01");
    assert store.todayLog.caloriesConsumed == 198;
    assert store.todayLog.foodLogs == [egg, toast];
    assert store.todayLog.date == Some("2024-06-01");
  }
}
