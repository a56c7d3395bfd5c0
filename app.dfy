/**
 * The application object `CFPApp`: the food catalogue, the pending list of
 * the day's entries and the history of daily records, with the operations
 * that change them.
 */
module App {
  import opened Wrappers
  import opened Geo
  import opened Footprint
  import opened Records
  import opened Storage
  import opened Users

  const RecordsKey: string := "AllRecords"

  /** What `AddFood` does with the form it is given. */
  datatype AddOutcome = Added | MissingOrigin | BadQuantity

  class CFPApp {
    const user: User
    const storage: LocalStorage
    var foodDatabase: map<string, FoodInfo>
    var dailyInput: seq<DailyEntry>
    var allRecords: seq<DailyRecord>

    /** A fresh application over the given storage, with the catalogue already fetched. */
    constructor (storage: LocalStorage, catalog: map<string, FoodInfo>)
      ensures fresh(user) && user.storage == storage && user.name == "" && user.residence == ""
      ensures this.storage == storage && foodDatabase == catalog
      ensures dailyInput == [] && allRecords == []
    {
      user := new User(storage);
      this.storage := storage;
      foodDatabase := catalog;
      dailyInput := [];
      allRecords := [];
    }

    /** What a calculation reads besides the pending list. */
    function RunContext(lookup: Lookup, dist: Metric): Context
      reads this, user
    {
      Context(foodDatabase, user.residence, lookup, dist)
    }

    /** The stored history is the one in memory (none stored: the history is empty). */
    ghost predicate Persisted()
      reads this, storage
    {
      if RecordsKey in storage.items then storage.items[RecordsKey] == History(allRecords)
      else allRecords == []
    }

    /** Saves the profile when both fields are filled in; otherwise rejects it. */
    method SaveUserData(name: string, residence: string) returns (ok: bool)
      requires user.storage == storage
      modifies user, storage
      ensures ok <==> name != "" && residence != ""
      ensures ok ==> user.name == name && user.residence == residence && user.IsRegistered()
      ensures ok ==> storage.items == old(storage.items)[ProfileKey := Profile(name, residence)]
      ensures !ok ==> user.name == old(user.name) && user.residence == old(user.residence)
      ensures !ok ==> storage.items == old(storage.items)
      ensures old(Persisted()) ==> Persisted()
    {
      ok := name != "" && residence != "";
      if ok {
        user.Save(name, residence);
      }
    }

    /** Appends an entry to the pending list, unless the origin is empty or the quantity does not parse. */
    method AddFood(foodId: string, quantity: Option<real>, unit: string, origin: string) returns (outcome: AddOutcome)
      modifies this`dailyInput
      ensures outcome == Added <==> origin != "" && quantity.Some?
      ensures origin == "" ==> outcome == MissingOrigin
      ensures origin != "" && quantity.None? ==> outcome == BadQuantity
      ensures outcome == Added ==> dailyInput == old(dailyInput) + [DailyEntry(foodId, quantity.value, unit, origin)]
      ensures outcome != Added ==> dailyInput == old(dailyInput)
    {
      if origin == "" {
        return MissingOrigin;
      }
      if quantity.None? {
        return BadQuantity;
      }
      dailyInput := dailyInput + [DailyEntry(foodId, quantity.value, unit, origin)];
      outcome := Added;
    }

    /**
     * The daily calculation: walks the pending list in order; on the first
     * entry without figures it stops and changes nothing; otherwise it appends
     * one record with the day's total CFP, writes the whole history back to
     * storage and empties the pending list.
     */
    method CalculateDaily(date: string, lookup: Lookup, dist: Metric) returns (outcome: RunOutcome)
      modifies this`dailyInput, this`allRecords, storage
      ensures foodDatabase == old(foodDatabase)
      ensures outcome == DailyOutcome(old(dailyInput), old(RunContext(lookup, dist)))
      ensures old(dailyInput) == [] ==> outcome == EmptyInput
      ensures outcome.Saved? ==>
        && allRecords == old(allRecords) + [DailyRecord(date, outcome.totals.cfp)]
        && CumulativeCfp(allRecords) == old(CumulativeCfp(allRecords)) + outcome.totals.cfp
        && dailyInput == []
        && storage.items == old(storage.items)[RecordsKey := History(allRecords)]
      ensures !outcome.Saved? ==>
        && allRecords == old(allRecords)
        && dailyInput == old(dailyInput)
        && storage.items == old(storage.items)
      ensures old(Persisted()) ==> Persisted()
    {
      var ctx := RunContext(lookup, dist);
      if dailyInput == [] {
        return EmptyInput;
      }
      var summary: seq<Row> := [];
      var totals := Totals(0.0, 0.0, 0.0);
      var i := 0;
      while i < |dailyInput|
        invariant 0 <= i <= |dailyInput|
        invariant Evaluate(dailyInput[..i], ctx) == Computed(summary)
        invariant totals == Total(summary)
      {
        assert dailyInput[..i + 1][..i] == dailyInput[..i];
        var figures := EvaluateEntry(dailyInput[i], ctx);
        if figures.EntryFailed? {
          FailureExtends(dailyInput, i + 1, ctx);
          return Aborted(figures.failure);
        }
        var row := figures.row;
        assert (summary + [row])[..|summary|] == summary;
        summary := summary + [row];
        totals := Plus(totals, Figures(row));
        i := i + 1;
      }
      assert dailyInput[..i] == dailyInput;
      allRecords := allRecords + [DailyRecord(date, totals.cfp)];
      storage.items := storage.items[RecordsKey := History(allRecords)];
      dailyInput := [];
      outcome := Saved(summary, totals);
    }

    /** Takes over the history kept in storage, if there is one. */
    method LoadRecords()
      modifies this`allRecords
      ensures RecordsKey in storage.items && storage.items[RecordsKey].History? ==>
        allRecords == storage.items[RecordsKey].records
      ensures !(RecordsKey in storage.items && storage.items[RecordsKey].History?) ==>
        allRecords == old(allRecords)
    {
      if RecordsKey in storage.items && storage.items[RecordsKey].History? {
        allRecords := storage.items[RecordsKey].records;
      }
    }

    /** The figures the dashboard shows for the current history. */
    method UpdateDashboard() returns (stats: DashboardStats)
      ensures stats.totalCfp == CumulativeCfp(allRecords)
      ensures stats.trees == stats.totalCfp / TreePerYear
    {
      stats := Dashboard(allRecords);
    }
  }

  /** A fresh application over the same storage loads the history an earlier one persisted. */
  method Reload(app: CFPApp) returns (reloaded: CFPApp)
    requires app.Persisted()
    ensures fresh(reloaded) && reloaded.storage == app.storage
    ensures reloaded.allRecords == app.allRecords
  {
    reloaded := new CFPApp(app.storage, app.foodDatabase);
    reloaded.LoadRecords();
  }
}
