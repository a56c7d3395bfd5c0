/**
 * The per-day footprint calculation of `CFPApp.CalculateDaily`, as functions
 * of the pending entries: per-entry figures, the all-or-nothing verdict over
 * the whole list, and the running totals.
 */
module Footprint {
  import opened Wrappers
  import opened Geo

  /** kg CO2 per kg of food per km of transport. */
  const EmissionPerKm: real := 0.0002

  /**
   * A food catalogue entry. `avgWeightKg` is None when the catalogue holds
   * null for it.
   */
  datatype FoodInfo = FoodInfo(nameEn: string, avgWeightKg: Option<real>, domesticOrigin: string)

  /** One item of the pending list, as `AddFood` appends it. */
  datatype DailyEntry = DailyEntry(foodId: string, quantity: real, unit: string, origin: string)

  /** One row of the summary table. */
  datatype Row = Row(name: string, weight: real, cfp: real, domesticCfp: real)

  /** The `totals` record of one calculation. */
  datatype Totals = Totals(weight: real, cfp: real, domesticCfp: real)

  /** Everything a calculation reads besides the entries themselves. */
  datatype Context = Context(db: map<string, FoodInfo>, residence: string, lookup: Lookup, dist: Metric)

  /** Why a calculation stopped without a result. */
  datatype Failure =
    | UnknownFood(foodId: string)        // the catalogue lookup raises
    | LocationNotFound(entry: DailyEntry) // one of the two distances is None

  datatype EntryResult = EntryOk(row: Row) | EntryFailed(failure: Failure)

  datatype Evaluation = Computed(rows: seq<Row>) | Failed(failure: Failure)

  /** What one call of the daily calculation reports. */
  datatype RunOutcome =
    | EmptyInput
    | Aborted(failure: Failure)
    | Saved(summary: seq<Row>, totals: Totals)

  /** Weight of an entry: quantity times the average unit weight, or times 1 when that is null or 0. */
  function Weight(quantity: real, avgWeightKg: Option<real>): (w: real)
    ensures avgWeightKg.None? || avgWeightKg.value == 0.0 ==> w == quantity
    ensures avgWeightKg.Some? && avgWeightKg.value != 0.0 ==> w == quantity * avgWeightKg.value
  {
    quantity * (if avgWeightKg.Some? && avgWeightKg.value != 0.0 then avgWeightKg.value else 1.0)
  }

  /** The figures of one entry, or why it cannot have any. */
  function EvaluateEntry(e: DailyEntry, ctx: Context): (r: EntryResult)
    ensures e.foodId !in ctx.db ==> r == EntryFailed(UnknownFood(e.foodId))
    ensures e.foodId in ctx.db ==>
      var info := ctx.db[e.foodId];
      var d := GetDistance(e.origin, ctx.residence, ctx.lookup, ctx.dist);
      var dd := GetDistance(info.domesticOrigin, ctx.residence, ctx.lookup, ctx.dist);
      && (r.EntryFailed? <==> d.None? || dd.None?)
      && (r.EntryFailed? ==> r.failure == LocationNotFound(e))
      && (r.EntryOk? ==>
            && r.row.name == info.nameEn
            && r.row.weight == Weight(e.quantity, info.avgWeightKg)
            && r.row.cfp == r.row.weight * d.value * EmissionPerKm
            && r.row.domesticCfp == r.row.weight * dd.value * EmissionPerKm)
  {
    if e.foodId !in ctx.db then EntryFailed(UnknownFood(e.foodId))
    else
      var info := ctx.db[e.foodId];
      var weight := Weight(e.quantity, info.avgWeightKg);
      var distance := GetDistance(e.origin, ctx.residence, ctx.lookup, ctx.dist);
      var domesticDistance := GetDistance(info.domesticOrigin, ctx.residence, ctx.lookup, ctx.dist);
      if distance.None? || domesticDistance.None? then EntryFailed(LocationNotFound(e))
      else EntryOk(Row(info.nameEn, weight, weight * distance.value * EmissionPerKm,
                       weight * domesticDistance.value * EmissionPerKm))
  }

  /**
   * The entries taken in order: the rows of all of them, or the failure of
   * the first entry that has none. Defined on prefixes, as the loop runs.
   */
  function Evaluate(es: seq<DailyEntry>, ctx: Context): (r: Evaluation)
    ensures es == [] ==> r == Computed([])
    ensures r.Computed? ==> |r.rows| == |es|
    decreases |es|
  {
    if es == [] then Computed([])
    else
      match Evaluate(es[..|es| - 1], ctx)
      case Failed(f) => Failed(f)
      case Computed(rows) =>
        match EvaluateEntry(es[|es| - 1], ctx)
        case EntryFailed(f) => Failed(f)
        case EntryOk(row) => Computed(rows + [row])
  }

  /** Componentwise sum of two totals: the one place figures are added. */
  function Plus(a: Totals, b: Totals): Totals
  {
    Totals(a.weight + b.weight, a.cfp + b.cfp, a.domesticCfp + b.domesticCfp)
  }

  /** The figures of one row, as totals to be added. */
  function Figures(r: Row): Totals
  {
    Totals(r.weight, r.cfp, r.domesticCfp)
  }

  ghost predicate NonNegativeTotals(t: Totals)
  {
    t.weight >= 0.0 && t.cfp >= 0.0 && t.domesticCfp >= 0.0
  }

  /**
   * The running totals after adding the rows in order, starting from 0;
   * never negative when no row has a negative figure.
   */
  function Total(rows: seq<Row>): (t: Totals)
    ensures rows == [] ==> t == Totals(0.0, 0.0, 0.0)
    ensures (forall i :: 0 <= i < |rows| ==> NonNegativeTotals(Figures(rows[i]))) ==> NonNegativeTotals(t)
    decreases |rows|
  {
    if rows == [] then Totals(0.0, 0.0, 0.0)
    else Plus(Total(rows[..|rows| - 1]), Figures(rows[|rows| - 1]))
  }

  /** A list has rows exactly when every entry has one; then row i belongs to entry i. */
  lemma {:induction false} EvaluateComputed(es: seq<DailyEntry>, ctx: Context)
    ensures Evaluate(es, ctx).Computed? <==> forall i :: 0 <= i < |es| ==> EvaluateEntry(es[i], ctx).EntryOk?
    ensures Evaluate(es, ctx).Computed? ==>
      && |Evaluate(es, ctx).rows| == |es|
      && forall i :: 0 <= i < |es| ==> Evaluate(es, ctx).rows[i] == EvaluateEntry(es[i], ctx).row
    decreases |es|
  {
    if es != [] {
      var p := es[..|es| - 1];
      EvaluateComputed(p, ctx);
      assert forall i :: 0 <= i < |p| ==> p[i] == es[i];
    }
  }

  /** Once some prefix has failed, further entries do not change the verdict. */
  lemma {:induction false} FailureExtends(es: seq<DailyEntry>, k: nat, ctx: Context)
    requires k <= |es|
    requires Evaluate(es[..k], ctx).Failed?
    ensures Evaluate(es, ctx) == Evaluate(es[..k], ctx)
    decreases |es| - k
  {
    if k == |es| {
      assert es[..k] == es;
    } else {
      var p := es[..|es| - 1];
      assert p[..k] == es[..k];
      FailureExtends(p, k, ctx);
    }
  }

  /** Entry k is the first entry without figures, and f is why. */
  predicate FailsFirstAt(es: seq<DailyEntry>, k: int, f: Failure, ctx: Context)
  {
    && 0 <= k < |es|
    && EvaluateEntry(es[k], ctx) == EntryFailed(f)
    && forall j :: 0 <= j < k ==> EvaluateEntry(es[j], ctx).EntryOk?
  }

  /** A failure reported is that of the first entry that fails. */
  lemma {:induction false} EvaluateFailed(es: seq<DailyEntry>, ctx: Context)
    requires Evaluate(es, ctx).Failed?
    ensures exists k :: FailsFirstAt(es, k, Evaluate(es, ctx).failure, ctx)
    decreases |es|
  {
    var p := es[..|es| - 1];
    assert forall i :: 0 <= i < |p| ==> p[i] == es[i];
    if Evaluate(p, ctx).Failed? {
      EvaluateFailed(p, ctx);
      var k :| FailsFirstAt(p, k, Evaluate(p, ctx).failure, ctx);
      assert FailsFirstAt(es, k, Evaluate(es, ctx).failure, ctx);
    } else {
      EvaluateComputed(p, ctx);
      assert FailsFirstAt(es, |es| - 1, Evaluate(es, ctx).failure, ctx);
    }
  }

  /** Conversely, the first failing entry decides the verdict. */
  lemma {:induction false} FirstFailureDecides(es: seq<DailyEntry>, k: nat, f: Failure, ctx: Context)
    requires FailsFirstAt(es, k, f, ctx)
    ensures Evaluate(es, ctx) == Failed(f)
    decreases |es|
  {
    var p := es[..|es| - 1];
    assert forall i :: 0 <= i < |p| ==> p[i] == es[i];
    if k < |es| - 1 {
      FirstFailureDecides(p, k, f, ctx);
    } else {
      EvaluateComputed(p, ctx);
    }
  }

  /** Totals of a concatenation are the sums of the parts' totals. */
  lemma {:induction false} TotalConcat(a: seq<Row>, b: seq<Row>)
    ensures Total(a + b) == Plus(Total(a), Total(b))
    decreases |b|
  {
    if b == [] {
      assert a + b == a;
    } else {
      var b' := b[..|b| - 1];
      assert (a + b)[..|a + b| - 1] == a + b';
      assert (a + b)[|a + b| - 1] == b[|b| - 1];
      TotalConcat(a, b');
    }
  }

  /** The order in which two groups of rows are added does not change the totals. */
  lemma TotalOrderIndependent(a: seq<Row>, b: seq<Row>)
    ensures Total(a + b) == Total(b + a)
  {
    TotalConcat(a, b);
    TotalConcat(b, a);
  }

  /**
   * What one daily calculation reports: nothing to do on an empty list, the
   * first failure, or the rows of all entries with their totals.
   */
  function DailyOutcome(es: seq<DailyEntry>, ctx: Context): (r: RunOutcome)
    ensures es == [] <==> r == EmptyInput
    ensures r.Saved? ==> r.totals == Total(r.summary) && |r.summary| == |es|
  {
    if es == [] then EmptyInput
    else
      match Evaluate(es, ctx)
      case Failed(f) => Aborted(f)
      case Computed(rows) => Saved(rows, Total(rows))
  }

  /**
   * The daily outcome is all-or-nothing: a summary exactly when every entry
   * has figures, one row per entry in input order, with the totals of those
   * rows; otherwise the failure of the first entry without figures.
   */
  lemma DailyOutcomeMeaning(es: seq<DailyEntry>, ctx: Context)
    ensures es == [] <==> DailyOutcome(es, ctx) == EmptyInput
    ensures DailyOutcome(es, ctx).Saved? <==>
      es != [] && forall i :: 0 <= i < |es| ==> EvaluateEntry(es[i], ctx).EntryOk?
    ensures DailyOutcome(es, ctx).Aborted? ==>
      exists k :: FailsFirstAt(es, k, DailyOutcome(es, ctx).failure, ctx)
    ensures DailyOutcome(es, ctx).Saved? ==>
      && |DailyOutcome(es, ctx).summary| == |es|
      && (forall i :: 0 <= i < |es| ==> DailyOutcome(es, ctx).summary[i] == EvaluateEntry(es[i], ctx).row)
      && DailyOutcome(es, ctx).totals == Total(DailyOutcome(es, ctx).summary)
  {
    EvaluateComputed(es, ctx);
    if es != [] && Evaluate(es, ctx).Failed? {
      EvaluateFailed(es, ctx);
    }
  }
}
