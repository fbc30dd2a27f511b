/**
 * The meal report of `src/cli/cli.rs`: for each canteen in turn, fetch its
 * meals for one date, print the canteen's name and a table of the meals, and
 * stop at the first fetch that fails.
 *
 * Standard output and standard error are a `Console` whose logs only grow.
 * A printed line with a canteen name is a `Header` event; a printed table is a
 * `Table` event carrying its rows and the layout it was configured with.
 * `M` stands for the crate's meal record and `R` for the display row; the
 * projection from one to the other (`TabledMeal::from`) is the oracle `toRow`.
 */
module Cli {
  import opened Wrappers
  import opened OpenMensa
  import opened Calendar

  datatype TableStyle = Modern

  /** The table settings `print_table` applies: modern borders, first and last
      column wrapped at 10 characters keeping words whole. */
  datatype TableLayout = TableLayout(style: TableStyle, firstColumnWrap: nat, lastColumnWrap: nat, keepWords: bool)

  const MealTableLayout: TableLayout := TableLayout(Modern, 10, 10, true)

  datatype Event<R> = Header(name: string) | Table(rows: seq<R>, layout: TableLayout)

  class Console<R> {
    var stdout: seq<Event<R>>
    var stderr: seq<string>

    constructor ()
      ensures stdout == [] && stderr == []
    {
      stdout, stderr := [], [];
    }

    /** `println!("{}", name)` */
    method PrintLine(name: string)
      modifies this
      ensures stdout == old(stdout) + [Header(name)] && stderr == old(stderr)
    {
      stdout := stdout + [Header(name)];
    }

    /** `eprintln!` of one message. */
    method EPrintLine(message: string)
      modifies this
      ensures stderr == old(stderr) + [message] && stdout == old(stdout)
    {
      stderr := stderr + [message];
    }
  }

  /** `print_table`: renders the rows with the meal table layout. */
  method PrintTable<R>(rows: seq<R>, out: Console<R>)
    modifies out
    ensures out.stdout == old(out.stdout) + [Table(rows, MealTableLayout)]
    ensures out.stderr == old(out.stderr)
  {
    out.stdout := out.stdout + [Table(rows, MealTableLayout)];
  }

  /** `meals.into_iter().map(TabledMeal::from).collect()` */
  function Rows<M, R>(meals: seq<M>, toRow: M -> R): (rows: seq<R>)
    ensures |rows| == |meals|
    ensures forall i :: 0 <= i < |meals| ==> rows[i] == toRow(meals[i])
  {
    if meals == [] then [] else [toRow(meals[0])] + Rows(meals[1..], toRow)
  }

  /** `get_meals_for_canteen`: one fetch with the date's text, each meal made one row. */
  function GetMealsForCanteen<M, R>(
    canteen: Canteen, date: Date,
    getMeals: (Canteen, string) -> Result<seq<M>, string>, toRow: M -> R): (r: Result<seq<R>, string>)
    ensures r.Err? <==> getMeals(canteen, DateString(date)).Err?
    ensures r.Err? ==> r.error == getMeals(canteen, DateString(date)).error
    ensures r.Ok? ==> |r.value| == |getMeals(canteen, DateString(date)).value|
    ensures r.Ok? ==> forall i :: 0 <= i < |r.value| ==>
      r.value[i] == toRow(getMeals(canteen, DateString(date)).value[i])
  {
    match getMeals(canteen, DateString(date))
    case Err(e) => Err(e)
    case Ok(meals) => Ok(Rows(meals, toRow))
  }

  function FetchError(name: string, err: string): string
  {
    "Error fetching meals for " + name + ": " + err
  }

  /** The outcome of a report: what `print_meals` returns, which meal requests it
      sent (in order) and what it printed (in order). */
  datatype Transcript<R> = Transcript(result: Result<(), string>, requests: seq<MealRequest>, stdout: seq<Event<R>>)

  /** What `print_meals` does for `canteens`, as a value. */
  function MealsReport<M, R>(
    canteens: seq<Canteen>, date: Date,
    getMeals: (Canteen, string) -> Result<seq<M>, string>, toRow: M -> R): (t: Transcript<R>)
    ensures |t.requests| <= |canteens|
    ensures t.result.Ok? ==> |t.requests| == |canteens| && |t.stdout| == 2 * |t.requests|
    ensures t.result.Err? ==> 1 <= |t.requests| && |t.stdout| == 2 * (|t.requests| - 1)
  {
    if canteens == [] then Transcript(Ok(()), [], [])
    else
      var canteen := canteens[0];
      var request := MealRequest(canteen, DateString(date));
      match GetMealsForCanteen(canteen, date, getMeals, toRow)
      case Err(e) => Transcript(Err(FetchError(canteen.name, e)), [request], [])
      case Ok(rows) =>
        var rest := MealsReport(canteens[1..], date, getMeals, toRow);
        Transcript(rest.result, [request] + rest.requests, [Header(canteen.name), Table(rows, MealTableLayout)] + rest.stdout)
  }

  /** Running one report after another: the second runs only if the first succeeded. */
  function Then<R>(first: Transcript<R>, second: Transcript<R>): Transcript<R>
  {
    if first.result.Ok? then
      Transcript(second.result, first.requests + second.requests, first.stdout + second.stdout)
    else first
  }

  /** The report over `xs + ys` is the report over `xs` followed, if it succeeded, by the one over `ys`. */
  lemma {:induction false} MealsReportAppend<M, R>(
    xs: seq<Canteen>, ys: seq<Canteen>, date: Date,
    getMeals: (Canteen, string) -> Result<seq<M>, string>, toRow: M -> R)
    ensures MealsReport(xs + ys, date, getMeals, toRow)
         == Then(MealsReport(xs, date, getMeals, toRow), MealsReport(ys, date, getMeals, toRow))
    decreases |xs|
  {
    var whole := MealsReport(xs + ys, date, getMeals, toRow);
    var first := MealsReport(xs, date, getMeals, toRow);
    var second := MealsReport(ys, date, getMeals, toRow);
    if xs == [] {
      assert xs + ys == ys;
      assert first.requests + second.requests == second.requests;
      assert first.stdout + second.stdout == second.stdout;
    } else {
      var zs := xs + ys;
      assert zs[0] == xs[0];
      assert zs[1..] == xs[1..] + ys;
      var request := MealRequest(xs[0], DateString(date));
      match GetMealsForCanteen(xs[0], date, getMeals, toRow)
      case Err(e) =>
        assert whole == first;
      case Ok(rows) =>
        MealsReportAppend(xs[1..], ys, date, getMeals, toRow);
        var tail := MealsReport(xs[1..], date, getMeals, toRow);
        var section := [Header(xs[0].name), Table(rows, MealTableLayout)];
        assert first == Transcript(tail.result, [request] + tail.requests, section + tail.stdout);
        if tail.result.Ok? {
          assert [request] + (tail.requests + second.requests) == ([request] + tail.requests) + second.requests;
          assert section + (tail.stdout + second.stdout) == (section + tail.stdout) + second.stdout;
        }
    }
  }

  /** Canteens are fetched strictly in input order, each with the date's text,
      and never more of them than were given. */
  lemma {:induction false} MealsReportVisitsInOrder<M, R>(
    canteens: seq<Canteen>, date: Date,
    getMeals: (Canteen, string) -> Result<seq<M>, string>, toRow: M -> R)
    ensures var t := MealsReport(canteens, date, getMeals, toRow);
      forall i :: 0 <= i < |t.requests| ==> t.requests[i] == MealRequest(canteens[i], DateString(date))
    decreases |canteens|
  {
    if canteens != [] {
      MealsReportVisitsInOrder(canteens[1..], date, getMeals, toRow);
    }
  }

  /** The report succeeds exactly when every canteen's fetch succeeds. */
  lemma {:induction false} MealsReportOkIff<M, R>(
    canteens: seq<Canteen>, date: Date,
    getMeals: (Canteen, string) -> Result<seq<M>, string>, toRow: M -> R)
    ensures MealsReport(canteens, date, getMeals, toRow).result.Ok?
        <==> forall i :: 0 <= i < |canteens| ==> getMeals(canteens[i], DateString(date)).Ok?
    decreases |canteens|
  {
    if canteens != [] {
      MealsReportOkIff(canteens[1..], date, getMeals, toRow);
      assert forall i :: 1 <= i < |canteens| ==> canteens[i] == canteens[1..][i - 1];
    }
  }

  /** When every fetch succeeds: `Ok(())`, one request per canteen in order, and
      the output is each canteen's name followed by its table, in order, with no
      canteen left out even when its menu is empty. */
  lemma {:induction false} MealsReportSucceeds<M, R>(
    canteens: seq<Canteen>, date: Date,
    getMeals: (Canteen, string) -> Result<seq<M>, string>, toRow: M -> R)
    requires forall i :: 0 <= i < |canteens| ==> getMeals(canteens[i], DateString(date)).Ok?
    ensures var t := MealsReport(canteens, date, getMeals, toRow);
      && t.result == Ok(())
      && |t.requests| == |canteens| && |t.stdout| == 2 * |canteens|
      && (forall i :: 0 <= i < |canteens| ==> t.requests[i] == MealRequest(canteens[i], DateString(date)))
      && (forall i :: 0 <= i < |canteens| ==>
            t.stdout[2 * i] == Header(canteens[i].name)
            && t.stdout[2 * i + 1] == Table(Rows(getMeals(canteens[i], DateString(date)).value, toRow), MealTableLayout))
    decreases |canteens|
  {
    MealsReportVisitsInOrder(canteens, date, getMeals, toRow);
    if canteens != [] {
      var rest := canteens[1..];
      assert forall i :: 0 <= i < |rest| ==> rest[i] == canteens[i + 1];
      MealsReportSucceeds(rest, date, getMeals, toRow);
      var t := MealsReport(canteens, date, getMeals, toRow);
      var tail := MealsReport(rest, date, getMeals, toRow);
      forall i | 1 <= i < |canteens|
        ensures t.stdout[2 * i] == Header(canteens[i].name)
        ensures t.stdout[2 * i + 1] == Table(Rows(getMeals(canteens[i], DateString(date)).value, toRow), MealTableLayout)
      {
        assert t.stdout[2 * i] == tail.stdout[2 * (i - 1)];
        assert t.stdout[2 * i + 1] == tail.stdout[2 * (i - 1) + 1];
      }
    }
  }

  /** When canteen `k` is the first whose fetch fails: the error names canteen
      `k`, canteens after `k` are never fetched, and the output holds exactly the
      name and table of each of canteens `0..k-1`, in order, and nothing else. */
  lemma MealsReportStopsAtFirstFailure<M, R>(
    canteens: seq<Canteen>, k: nat, date: Date,
    getMeals: (Canteen, string) -> Result<seq<M>, string>, toRow: M -> R)
    requires k < |canteens|
    requires forall i :: 0 <= i < k ==> getMeals(canteens[i], DateString(date)).Ok?
    requires getMeals(canteens[k], DateString(date)).Err?
    ensures var t := MealsReport(canteens, date, getMeals, toRow);
      && t.result == Err(FetchError(canteens[k].name, getMeals(canteens[k], DateString(date)).error))
      && |t.requests| == k + 1 && |t.stdout| == 2 * k
      && (forall i :: 0 <= i <= k ==> t.requests[i] == MealRequest(canteens[i], DateString(date)))
      && (forall i :: 0 <= i < k ==>
            t.stdout[2 * i] == Header(canteens[i].name)
            && t.stdout[2 * i + 1] == Table(Rows(getMeals(canteens[i], DateString(date)).value, toRow), MealTableLayout))
  {
    var before, at := canteens[..k], canteens[k..];
    assert canteens == before + at;
    assert forall i :: 0 <= i < k ==> before[i] == canteens[i];
    MealsReportSucceeds(before, date, getMeals, toRow);
    MealsReportAppend(before, at, date, getMeals, toRow);
    MealsReportVisitsInOrder(canteens, date, getMeals, toRow);
    assert at[0] == canteens[k];
  }

  /** One turn of the loop in `print_meals`, after canteens `0..i-1` succeeded. */
  lemma MealsReportStep<M, R>(
    canteens: seq<Canteen>, i: nat, date: Date,
    getMeals: (Canteen, string) -> Result<seq<M>, string>, toRow: M -> R)
    requires i < |canteens|
    requires MealsReport(canteens[..i], date, getMeals, toRow).result == Ok(())
    ensures var done := MealsReport(canteens[..i], date, getMeals, toRow);
      var request := MealRequest(canteens[i], DateString(date));
      match GetMealsForCanteen(canteens[i], date, getMeals, toRow)
      case Ok(rows) =>
        MealsReport(canteens[..i + 1], date, getMeals, toRow)
          == Transcript(Ok(()), done.requests + [request],
                        done.stdout + [Header(canteens[i].name), Table(rows, MealTableLayout)])
      case Err(e) =>
        MealsReport(canteens, date, getMeals, toRow)
          == Transcript(Err(FetchError(canteens[i].name, e)), done.requests + [request], done.stdout)
  {
    var canteen := canteens[i];
    assert canteens[..i + 1] == canteens[..i] + [canteen];
    MealsReportAppend(canteens[..i], [canteen], date, getMeals, toRow);
    assert [canteen][1..] == [];
    if GetMealsForCanteen(canteen, date, getMeals, toRow).Err? {
      assert canteens == canteens[..i + 1] + canteens[i + 1..];
      MealsReportAppend(canteens[..i + 1], canteens[i + 1..], date, getMeals, toRow);
    }
  }

  /** `print_meals`: the loop over the canteens with its early return. */
  method PrintMeals<M, R>(
    canteens: seq<Canteen>, date: Date,
    getMeals: (Canteen, string) -> Result<seq<M>, string>, toRow: M -> R, out: Console<R>)
    returns (r: Result<(), string>, ghost requests: seq<MealRequest>)
    modifies out
    ensures var t := MealsReport(canteens, date, getMeals, toRow);
      r == t.result && requests == t.requests && out.stdout == old(out.stdout) + t.stdout
    ensures out.stderr == old(out.stderr)
  {
    requests := [];
    for i := 0 to |canteens|
      invariant MealsReport(canteens[..i], date, getMeals, toRow).result == Ok(())
      invariant requests == MealsReport(canteens[..i], date, getMeals, toRow).requests
      invariant out.stdout == old(out.stdout) + MealsReport(canteens[..i], date, getMeals, toRow).stdout
      invariant out.stderr == old(out.stderr)
    {
      var canteen := canteens[i];
      requests := requests + [MealRequest(canteen, DateString(date))];
      MealsReportStep(canteens, i, date, getMeals, toRow);
      match GetMealsForCanteen(canteen, date, getMeals, toRow)
      case Ok(tabledMeals) =>
        out.PrintLine(canteen.name);
        PrintTable(tabledMeals, out);
      case Err(err) =>
          return Err(FetchError(canteen.name, err)), requests;
    }
    assert canteens[..|canteens|] == canteens;
    r := Ok(());
  }
}
