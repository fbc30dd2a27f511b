# mensa-cli core, modelled in Dafny

`mensa-cli` prints the meals a university canteen (German: Mensa) serves on a
given day, using the OpenMensa service. This project models the decision and
control-flow logic between the program's libraries, and proves properties of it:

- **Date token** (`parse_date`): the token `"today"` gives the current UTC date.
  Any other token goes to chrono's `%Y-%m-%d` parser. A parse error comes back
  prefixed with `"Invalid date format: "`.
- **Canteen resolution** (`fetch_canteens`): an explicit id wins over a
  location text, which wins over the configured default id list. Exactly one
  lookup is made. "Not found", "lookup error" and "empty list" are told apart.
- **Bot token source** (`get_bot_token`): a decision over "token given",
  "env-file path given", "path exists" and "DISCORD_TOKEN present".
- **Main's ordering** (`main`, lines 188-206): giving both id and location stops
  the run before any lookup. The date is parsed only after resolution produced
  a list, and meals are reported only after the date parsed.
- **Fail-fast meal report** (`print_meals`, `get_meals_for_canteen`): canteens
  are fetched one by one, in order. Each success prints the canteen's name and a
  table of its meals. The first failed fetch ends the report with an error that
  names that canteen; what was printed before it stays printed.

Modules: `Wrappers` (Option, Result), `OpenMensa` (the canteen record and the
service's lookups as oracles), `Calendar` (the date type and its `YYYY-MM-DD`
text), `Cli` (`src/cli/cli.rs`) and `Main` (`src/main.rs`).

External calls are parameters:
- the three canteen lookups are a `Directory` of functions;
- the meal lookup is `getMeals`, and `TabledMeal::from` is `toRow`;
- chrono's parser is `parser`, and the clock is `now`;
- the filesystem and environment are an `Environment`.

Standard output and standard error are the two logs of a `Console`, and they
only grow. A printed canteen name is a `Header` event. A printed table is a
`Table` event that carries its rows and the layout `print_table` configures.

## Behaviour worth noting

- `"today"` is the UTC date (`Utc::now()`), not the local date. The comment
  beside that line mentions `naive_local()`, but the code does not call it.
- Resolution failures are not typed errors. `fetch_canteens` returns `None`
  and writes a different message to standard error for "not found" and for
  each kind of lookup error.
- The date is parsed only after the canteen lookup. An invalid date is
  reported only once resolution has succeeded, and after the lookup has
  already reached the network.

## Model

| member | source | states |
|---|---|---|
| `Main.ParseDate` | src/main.rs:31-37 | `"today"` always gives `Ok(now)`. Every other token is `Ok` exactly when the parser accepts it, with the parser's date. Every error carries the parser's message after `"Invalid date format: "`, and never comes from `"today"`. |
| `Main.FetchCanteens` | src/main.rs:49-81 | An id selects the by-id lookup. Otherwise a location selects the location lookup. Otherwise the configured ids are looked up, in configured order. By id, `Ok(Some(c))` gives `Some([c])`; not-found and errors give `None` with different diagnostics. The location and default lookups return their list unchanged, or `None` on error. A diagnostic is written exactly when `None` is returned. |
| `Main.FetchCanteensConsultsOnlyItsLookup` | src/main.rs:50-80 | Only the chosen lookup matters: two directories that agree on it give the same resolution, whatever the other two lookups would answer. |
| `Main.FetchCanteensShapes` | src/main.rs:50-71 | A canteen found by id is returned as a one-element list. An empty location result is `Some([])`, not a failure. |
| `Main.ReadDiscordToken` | src/main.rs:101-103 | Reading `DISCORD_TOKEN` succeeds exactly when it is set, with its value. Otherwise it fails with the missing-token message. |
| `Main.GetBotToken` | src/main.rs:92-122 | An env-file path wins over a token. A missing path gives `"Wrong path passed to arg"`; an existing one reads `DISCORD_TOKEN` after loading the default `.env`. A token alone gives `Ok(token)`. With neither, a missing `.env` gives the "Please provide a Discord Token…" error. The final error at line 121 is never returned. |
| `Main.EnvFileOverridesToken` | src/main.rs:106-115 | With an env-file path given, the result depends neither on the command-line token nor on the contents of the named file. Only whether the path exists matters. |
| `Main.EnvFileContentsIgnored` | src/main.rs:112-114 | Counterexample: the env file exists and defines the token, but the default `.env` does not. As written this is an error; the corrected version returns the token. |
| `Main.GetBotTokenFromEnvFile` | src/main.rs:106-115 | The corrected env-file branch: for an existing path, the result is `Ok` exactly when that file defines the token, with its value. A missing path is still `"Wrong path passed to arg"`. Without an env file it behaves like `get_bot_token`. |
| `Main.ConflictingSelectorsStopEarly` | src/main.rs:188-191 | Given both id and location, the run makes no lookup, parses no date, fetches no meals and prints nothing. It writes only `"Use either location or id"` to standard error. |
| `Main.ResolveThenParseThenReport` | src/main.rs:193-206 | Otherwise exactly one lookup runs. The date is parsed exactly when resolution returned a list. Meals are fetched only when the date parsed. Each request is for the resolved canteens in order, with the parsed date's text. Nothing is printed to standard output unless a fetch happened. |
| `Main.RunMealsCommand` | src/main.rs:188-206 | The imperative run of those lines. Its lookups, date parsing, meal requests, standard output and standard error are exactly what `MealsCommand` describes. |
| `Cli.Rows` | src/cli/cli.rs:56 | Each meal becomes exactly one row: same count, same order, row `i` is the projection of meal `i`. |
| `Cli.GetMealsForCanteen` | src/cli/cli.rs:49-58 | The fetch uses the date's text. The result is an error exactly when the fetch fails, carrying the fetch's message. Otherwise there is one row per fetched meal, in order. |
| `Cli.Console.PrintLine` | src/cli/cli.rs:24 | Printing a canteen's name appends exactly one `Header` event to standard output and changes nothing else. |
| `Cli.Console.EPrintLine` | src/main.rs:189 | Writing a diagnostic appends exactly that message to standard error and changes nothing else. |
| `Cli.PrintTable` | src/cli/cli.rs:65-73 | Printing a table appends exactly one `Table` event, with the rows and the configured layout (modern style, first and last columns wrapped at 10, words kept whole). |
| `Cli.MealsReport` | src/cli/cli.rs:20-36 | The report never makes more requests than there are canteens. On success every canteen was requested, with two output events each. On failure at least one request was made, and only the successful ones produced output. |
| `Cli.MealsReportAppend` | src/cli/cli.rs:21-34 | The report over `xs + ys` is the report over `xs`, followed by the report over `ys` only if the first succeeded. |
| `Cli.MealsReportStep` | src/cli/cli.rs:21-33 | One loop turn: after earlier canteens succeeded, a successful fetch appends one request, the name and the table. A failed fetch makes the whole report's result the error naming this canteen, with no further requests and no further output. |
| `Cli.MealsReportVisitsInOrder` | src/cli/cli.rs:21-22 | Request `i` is for canteen `i`, always with the date's text. Canteens are fetched strictly in input order. |
| `Cli.MealsReportOkIff` | src/cli/cli.rs:20-36 | The report returns `Ok` exactly when every canteen's fetch succeeds. |
| `Cli.MealsReportSucceeds` | src/cli/cli.rs:21-35 | If every fetch succeeds: `Ok(())` and one request per canteen, in order. The output is exactly `Header(name_i), Table(rows_i)` for each canteen, in order. This holds for an empty meal list too, and an empty canteen list gives an empty log. |
| `Cli.MealsReportStopsAtFirstFailure` | src/cli/cli.rs:21-31 | If canteen `k` is the first whose fetch fails: the error is `"Error fetching meals for " + name_k + ": " + err`. Exactly canteens `0..k` were requested, so later canteens are never fetched. The output is exactly the headers and tables of canteens `0..k-1`, in order. |
| `Cli.PrintMeals` | src/cli/cli.rs:20-36 | The loop with its early return. Its result and requests are those of `MealsReport`. Standard output grows by exactly the report's events, after whatever was printed before. Standard error is unchanged. |
| `Calendar.DateStringRoundTrip` | src/cli/cli.rs:53 | A date's text (`date.to_string()`) reads back as the same year, month and day. It always ends in `-MM-DD`, with dashes and two-digit fields. For years 0..=9999 it is exactly `YYYY-MM-DD`: ten characters, dashes at positions 4 and 7, digits everywhere else. |
| `Calendar.DateStringInjective` | src/cli/cli.rs:53 | Different dates are requested under different texts. |

## Left out

- The OpenMensa lookups (`get_canteen_by_id`, `get_canteens_by_location`, `get_canteens_by_ids`, `get_meals`): network calls in an external crate, modelled as oracle parameters only. A canteen keeps only its id and name.
- chrono's `parse_from_str` and `Utc::now()`: a foreign parser and the wall clock, taken as the inputs `parser` and `now`. The parser's leniency is not specified. `NaiveDate`'s text form is modelled, because it is what the meal lookup receives.
- `TabledMeal::from`: it lives in `models`, which is not part of this model. It is the opaque projection `toRow`.
- The rendering inside `tabled` (box drawing, word wrapping at 10 columns): an external library. Only the configuration is recorded, in each `Table` event.
- `Path::exists`, `dotenv` and `std::env::var` in `get_bot_token`: filesystem and environment access, modelled as the inputs of an `Environment`. `dotenv()` searching parent directories is folded into `dotenvToken`.
- Configuration file reading, TOML parsing and `clap` argument parsing (src/main.rs:141-170): plumbing, replaced by the `Args` and `Configs` values. `args.rs` and `config.rs` are not part of this model. Only the argument fields the core reads are kept.
- Discord bot start-up (`handle_discord_bot`, src/main.rs:133-153): a separate long-running process.
- The meme and fact commands (src/cli/cli.rs:76-109, src/main.rs:173-186): single network calls forwarded to standard output.
- The async runtime: the flow is sequential, so `await` is not modelled.
- Integer widths: canteen ids are `nat`. They are passed through unchanged and never computed with.

## Findings

| source | as written | input that shows it | evidently intended | confidence | as-written member | corrected member |
|---|---|---|---|---|---|---|
| src/main.rs:106-114 | With `--env-file PATH`, the code only checks that PATH exists. `dotenv()` then loads the default `.env`, so PATH's contents are never read. | PATH exists and defines `DISCORD_TOKEN=secret`; no default `.env` defines it. The result is `Err("Could not find \"DISCORD_TOKEN\" in .env file")`. | Load the given file (`dotenv::from_path(PATH)`), so the result is `Ok("secret")`. | medium, not executed | `Main.GetBotToken`, `Main.EnvFileContentsIgnored` | `Main.GetBotTokenFromEnvFile` |
