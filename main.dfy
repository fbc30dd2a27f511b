/**
 * The decision logic of `src/main.rs`: reading the date token, choosing and
 * running the one canteen lookup, choosing where the bot token comes from, and
 * the part of `main` that guards the selectors and orders resolution, date
 * parsing and the meal report.
 */
module Main {
  import opened Wrappers
  import opened OpenMensa
  import opened Calendar
  import opened Cli

  /** The command-line arguments the core reads. */
  datatype Args = Args(
    id: Option<nat>,
    location: Option<string>,
    date: string,
    token: Option<string>,
    envFile: Option<string>)

  datatype Locations = Locations(canteens: seq<nat>)

  datatype Configs = Configs(locations: Locations)

  const Today: string := "today"
  const InvalidDatePrefix: string := "Invalid date format: "

  /** `parse_date`. `now` is the UTC date at the call (`Utc::now().date_naive()`);
      `parser` is chrono's `parse_from_str(_, "%Y-%m-%d")`, its error as text. */
  function ParseDate(dateStr: string, now: Date, parser: string -> Result<Date, string>): (r: Result<Date, string>)
    ensures dateStr == Today ==> r == Ok(now)
    ensures dateStr != Today ==> (r.Ok? <==> parser(dateStr).Ok?)
    ensures dateStr != Today && r.Ok? ==> r.value == parser(dateStr).value
    ensures r.Err? ==> dateStr != Today && r.error == InvalidDatePrefix + parser(dateStr).error
  {
    if dateStr == Today then Ok(now)
    else match parser(dateStr)
      case Ok(d) => Ok(d)
      case Err(e) => Err(InvalidDatePrefix + e)
  }

  /** The outcome of `fetch_canteens`: which lookup it made, what it returns and
      what it wrote to standard error. */
  datatype Resolution = Resolution(lookup: Lookup, canteens: Option<seq<Canteen>>, diagnostic: Option<string>)

  const NotFoundById: string := "Canteen not found by ID"

  /** `fetch_canteens`: an id wins over a location, which wins over the configured ids. */
  function FetchCanteens(args: Args, configs: Configs, directory: Directory): (r: Resolution)
    ensures r.canteens.None? <==> r.diagnostic.Some?
    ensures args.id.Some? ==> r.lookup == ById(args.id.value)
    ensures args.id.Some? ==> match directory.canteenById(args.id.value)
      case Ok(Some(c)) => r.canteens == Some([c])
      case Ok(None) => r.diagnostic == Some(NotFoundById)
      case Err(e) => r.diagnostic == Some("Error fetching canteens by ID: " + e)
    ensures args.id.None? && args.location.Some? ==> r.lookup == ByLocation(args.location.value)
    ensures args.id.None? && args.location.Some? ==> match directory.canteensByLocation(args.location.value)
      case Ok(cs) => r.canteens == Some(cs)
      case Err(e) => r.diagnostic == Some("Error fetching canteens by location: " + e)
    ensures args.id.None? && args.location.None? ==> r.lookup == ByIds(configs.locations.canteens)
    ensures args.id.None? && args.location.None? ==> match directory.canteensByIds(configs.locations.canteens)
      case Ok(cs) => r.canteens == Some(cs)
      case Err(e) => r.diagnostic == Some("Error fetching canteens by IDs: " + e)
  {
    if args.id.Some? then
      var id := args.id.value;
      match directory.canteenById(id)
      case Ok(Some(canteen)) => Resolution(ById(id), Some([canteen]), None)
      case Ok(None) => Resolution(ById(id), None, Some(NotFoundById))
      case Err(err) => Resolution(ById(id), None, Some("Error fetching canteens by ID: " + err))
    else if args.location.Some? then
      var location := args.location.value;
      match directory.canteensByLocation(location)
      case Ok(canteens) => Resolution(ByLocation(location), Some(canteens), None)
      case Err(err) => Resolution(ByLocation(location), None, Some("Error fetching canteens by location: " + err))
    else
      var ids := configs.locations.canteens;
      match directory.canteensByIds(ids)
      case Ok(canteens) => Resolution(ByIds(ids), Some(canteens), None)
      case Err(err) => Resolution(ByIds(ids), None, Some("Error fetching canteens by IDs: " + err))
  }

  /** Exactly one lookup is consulted: two directories that agree on it give the same resolution. */
  lemma FetchCanteensConsultsOnlyItsLookup(args: Args, configs: Configs, d1: Directory, d2: Directory)
    requires AgreeOn(d1, d2, FetchCanteens(args, configs, d1).lookup)
    ensures FetchCanteens(args, configs, d1) == FetchCanteens(args, configs, d2)
  {
  }

  /** A canteen found by id comes back as a one-element list; the location lookup's
      list, even an empty one, is returned as it is. A corollary of `FetchCanteens`'s
      contract, written out for readers. */
  lemma FetchCanteensShapes(args: Args, configs: Configs, directory: Directory)
    ensures var r := FetchCanteens(args, configs, directory);
      && (args.id.Some? && r.canteens.Some? ==> |r.canteens.value| == 1)
      && ((args.id.None? && args.location.Some? && directory.canteensByLocation(args.location.value) == Ok([]))
          ==> r.canteens == Some([]))
  {
  }

  /** What the token lookup can see. `dotenvToken` is `DISCORD_TOKEN` after
      `dotenv()` loads the default `.env`; `fileToken(p)` is `DISCORD_TOKEN` after
      loading the file at `p` instead. */
  datatype Environment = Environment(
    pathExists: string -> bool,
    dotenvToken: Option<string>,
    fileToken: string -> Option<string>)

  const DefaultEnvFile: string := ".env"
  const ProvideTokenError: string := "Please provide a Discord Token either as a parameter or in a .env file"
  const WrongPathError: string := "Wrong path passed to arg"
  const MissingTokenError: string := "Could not find \"DISCORD_TOKEN\" in .env file"
  const NoTokenSourceError: string := "No valid token source provided"

  /** `std::env::var("DISCORD_TOKEN")` after some env file was loaded. */
  function ReadDiscordToken(token: Option<string>): (r: Result<string, string>)
    ensures r.Ok? <==> token.Some?
    ensures r.Ok? ==> r.value == token.value
    ensures r.Err? ==> r.error == MissingTokenError
  {
    match token
    case Some(t) => Ok(t)
    case None => Err(MissingTokenError)
  }

  /** `get_bot_token`, as written. An env-file path beats a token given on the
      command line, and the path is only checked for existence: the token is
      read after loading the default `.env` either way. */
  function GetBotToken(args: Args, env: Environment): (r: Result<string, string>)
    ensures args.envFile.Some? ==>
      r == if env.pathExists(args.envFile.value) then ReadDiscordToken(env.dotenvToken) else Err(WrongPathError)
    ensures args.envFile.None? && args.token.Some? ==> r == Ok(args.token.value)
    ensures args.envFile.None? && args.token.None? ==>
      r == if env.pathExists(DefaultEnvFile) then ReadDiscordToken(env.dotenvToken) else Err(ProvideTokenError)
    ensures r != Err(NoTokenSourceError)
  {
    if args.token.None? && args.envFile.None? then
      if !env.pathExists(DefaultEnvFile) then Err(ProvideTokenError)
      else ReadDiscordToken(env.dotenvToken)
    else if args.envFile.Some? then
      if !env.pathExists(args.envFile.value) then Err(WrongPathError)
      else ReadDiscordToken(env.dotenvToken)
    else if args.token.Some? then
      Ok(args.token.value)
    else
      Err(NoTokenSourceError)
  }

  /** With an env-file path given, the command-line token is ignored, and so are
      which existing file the path names and what any file other than the default
      `.env` holds. */
  lemma EnvFileOverridesToken(
    args: Args, env: Environment, token: Option<string>, path: string, files: string -> Option<string>)
    requires args.envFile.Some? && env.pathExists(path) == env.pathExists(args.envFile.value)
    ensures GetBotToken(args.(token := token, envFile := Some(path)), env.(fileToken := files)) == GetBotToken(args, env)
  {
  }

  /** An existing env file that defines the token, with no token in the default
      `.env`: `get_bot_token` as written still fails, the corrected one returns it. */
  lemma EnvFileContentsIgnored()
    ensures var env := Environment(_ => true, None, _ => Some("secret"));
      var args := Args(None, None, Today, None, Some("bot.env"));
      GetBotToken(args, env) == Err(MissingTokenError) && GetBotTokenFromEnvFile(args, env) == Ok("secret")
  {
  }

  /** `get_bot_token` with the env-file branch loading the file it was given. */
  function GetBotTokenFromEnvFile(args: Args, env: Environment): (r: Result<string, string>)
    ensures args.envFile.Some? && env.pathExists(args.envFile.value) ==>
      (r.Ok? <==> env.fileToken(args.envFile.value).Some?)
      && (r.Ok? ==> r.value == env.fileToken(args.envFile.value).value)
    ensures args.envFile.Some? && !env.pathExists(args.envFile.value) ==> r == Err(WrongPathError)
    ensures args.envFile.None? ==> r == GetBotToken(args, env)
  {
    match args.envFile
    case Some(path) =>
      if !env.pathExists(path) then Err(WrongPathError)
      else ReadDiscordToken(env.fileToken(path))
    case None => GetBotToken(args, env)
  }

  /** What lines 188-206 of `main` do, as a value. */
  datatype CommandRun<R> = CommandRun(
    lookups: seq<Lookup>,
    dateParsed: bool,
    requests: seq<MealRequest>,
    stdout: seq<Event<R>>,
    stderr: seq<string>)

  const ConflictError: string := "Use either location or id"

  function MealsCommand<M, R>(
    args: Args, configs: Configs, directory: Directory,
    now: Date, parser: string -> Result<Date, string>,
    getMeals: (Canteen, string) -> Result<seq<M>, string>, toRow: M -> R): CommandRun<R>
  {
    if args.id.Some? && args.location.Some? then CommandRun([], false, [], [], [ConflictError])
    else
      var resolution := FetchCanteens(args, configs, directory);
      match resolution.canteens
      case None => CommandRun([resolution.lookup], false, [], [], [resolution.diagnostic.value])
      case Some(canteens) =>
        match ParseDate(args.date, now, parser)
        case Err(err) => CommandRun([resolution.lookup], true, [], [], ["Error parsing date: " + err])
        case Ok(date) =>
          var t := MealsReport(canteens, date, getMeals, toRow);
          var errors := if t.result.Err? then ["Error printing meals: " + t.result.error] else [];
          CommandRun([resolution.lookup], true, t.requests, t.stdout, errors)
  }

  /** Both selectors given: the run stops before any lookup, date parsing or output. */
  lemma ConflictingSelectorsStopEarly<M, R>(
    args: Args, configs: Configs, directory: Directory,
    now: Date, parser: string -> Result<Date, string>,
    getMeals: (Canteen, string) -> Result<seq<M>, string>, toRow: M -> R)
    requires args.id.Some? && args.location.Some?
    ensures var run := MealsCommand(args, configs, directory, now, parser, getMeals, toRow);
      run.lookups == [] && !run.dateParsed && run.requests == [] && run.stdout == [] && run.stderr == [ConflictError]
  {
  }

  /** Otherwise exactly one lookup runs; the date is parsed only when resolution
      produced a list, and meals are fetched only for that list and the parsed date. */
  lemma ResolveThenParseThenReport<M, R>(
    args: Args, configs: Configs, directory: Directory,
    now: Date, parser: string -> Result<Date, string>,
    getMeals: (Canteen, string) -> Result<seq<M>, string>, toRow: M -> R)
    requires !(args.id.Some? && args.location.Some?)
    ensures var run := MealsCommand(args, configs, directory, now, parser, getMeals, toRow);
      var resolution := FetchCanteens(args, configs, directory);
      && run.lookups == [resolution.lookup]
      && (run.dateParsed <==> resolution.canteens.Some?)
      && (run.requests != [] ==> run.dateParsed && ParseDate(args.date, now, parser).Ok?)
      && (run.stdout != [] ==> run.requests != [])
      && (forall i :: 0 <= i < |run.requests| ==>
            run.requests[i] == MealRequest(resolution.canteens.value[i], DateString(ParseDate(args.date, now, parser).value)))
  {
    var resolution := FetchCanteens(args, configs, directory);
    if resolution.canteens.Some? && ParseDate(args.date, now, parser).Ok? {
      MealsReportVisitsInOrder(resolution.canteens.value, ParseDate(args.date, now, parser).value, getMeals, toRow);
    }
  }

  /** Lines 188-206 of `main`: the conflict guard, then `fetch_canteens`, then
      `parse_date`, then `print_meals`, each only if the previous one succeeded. */
  method RunMealsCommand<M, R>(
    args: Args, configs: Configs, directory: Directory,
    now: Date, parser: string -> Result<Date, string>,
    getMeals: (Canteen, string) -> Result<seq<M>, string>, toRow: M -> R, out: Console<R>)
    returns (ghost lookups: seq<Lookup>, ghost dateParsed: bool, ghost requests: seq<MealRequest>)
    modifies out
    ensures var run := MealsCommand(args, configs, directory, now, parser, getMeals, toRow);
      && lookups == run.lookups && dateParsed == run.dateParsed && requests == run.requests
      && out.stdout == old(out.stdout) + run.stdout
      && out.stderr == old(out.stderr) + run.stderr
  {
    lookups, dateParsed, requests := [], false, [];
    if args.id.Some? && args.location.Some? {
      out.EPrintLine(ConflictError);
      return;
    }

    var resolution := FetchCanteens(args, configs, directory);
    lookups := [resolution.lookup];
    match resolution.canteens
    case None =>
      out.EPrintLine(resolution.diagnostic.value);
    case Some(canteens) =>
      dateParsed := true;
      match ParseDate(args.date, now, parser)
      case Err(err) =>
        out.EPrintLine("Error parsing date: " + err);
      case Ok(date) =>
        var result;
        result, requests := PrintMeals(canteens, date, getMeals, toRow, out);
        if result.Err? {
          out.EPrintLine("Error printing meals: " + result.error);
        }
  }
}
