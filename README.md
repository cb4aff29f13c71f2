# pokedexcli in Dafny

A model of the core of pokedexcli, a Go command-line Pokédex that browses the
PokéAPI. It covers four things:

- the expiring response cache, with its time-to-live and its reaper;
- the read-through request helper that fills that cache;
- the start-up prompts that choose the cache lifetime;
- the two REPL shells, with their input cleaning, command registry, dispatch
  and the commands' state changes.

The program's files map to modules as follows, with helper modules for the
parts of Go's library the code relies on:

| module | file | models |
|---|---|---|
| `Wrappers` | wrappers.dfy | `Option` and `Result` |
| `TextInput` | text_input.dfy | `cleanInput` (strings.ToLower, TrimSpace, Fields) and strings.EqualFold |
| `Strconv` | strconv.dfy | strconv.Atoi over 64-bit `int`, and its inverse FormatInt |
| `PokeCache` | pokecache.dfy | `NewCache`, the `Cache` class (`Add`, `Get`, one reap tick) |
| `PokeAPI` | pokeapi.dfy | `GenericURLCaller`: cache first, else fetch and store |
| `Commands` | commands.dfy | the `config` and `User` objects and the commands of internal/repl |
| `Repl` | repl.dfy | `GetCacheSettings`, `initMap`, `getUserInput`, `executeCommand` |
| `LegacyRepl` | legacy_repl.dfy | the older four-command shell of package `repl` |

Objects that Go updates in place are Dafny classes:

- the cache (`PokeCache.Cache`);
- the REPL config (`Commands.Config`);
- the user and their caught Pokémon (`Commands.User`);
- the command dictionaries (`Repl.Registry`, `LegacyRepl.Registry`);
- the legacy shell's `locationResponse` (`LegacyRepl.LocationResponse`).

Loops stay loops. These are proved against a function that specifies them:

- the reaper's collect and delete passes;
- the linear encounter search;
- both prompt loops of `GetCacheSettings`.

The command loop is specified on values. A `Repl.Session` holds what the
commands read and write: the cursor links, the current location and its URL,
the caught Pokémon and the cache entries. `Repl.Execute` is the effect of one
command on a session, `Repl.Step` the effect of one typed line, and
`Repl.Replay` the session after the first k lines. Each line gets its own
`Repl.World`, so a request that fails on one line can succeed when typed
again (`Repl.ReplayMapRetry`). The loop is proved to read
up to the first line that selects exit, and to leave the session that
`Repl.Replay` gives for the lines it read. Across any number of lines, no
cache entry is evicted or rewritten, no caught Pokémon is forgotten, and the
current location stays consistent with its URL.

Everything outside the program's own logic is an input:

- Time is an integer `now`, in seconds.
- Standard input is a sequence of lines.
- The random catch roll is a parameter.
- Each PokéAPI endpoint is an `Endpoint`: three given functions for the HTTP
  GET with its JSON decode, json.Marshal and json.Unmarshal. The command loop
  takes one set of endpoints (a `Repl.World`) per line, so the network may
  answer differently from one line to the next.

Two behaviours of the code are worth noting:

- The duration-unit prompt says that the first character is accepted
  (internal/repl/repl.go:94), but the switch at lines 98-111 matches the
  whole first word against `seconds`, `second`, `s`, `minutes`, `minute`,
  `m`, `hours`, `hour` and `h`, after lower-casing. So `sec` is rejected
  and asked again (`Repl.DurationTypeOfWord`).
- A reap tick does not re-check an entry's age before deleting it. In the
  model the tick is atomic, so an `Add` cannot fall between the two phases.

## Model

| member | source | states |
|---|---|---|
| TextInput.Fields | internal/repl/repl.go:168 | every word of the split is non-empty and free of white space, and a lower-case string splits into lower-case words |
| TextInput.CleanInput | internal/repl/repl.go:165-171 | computes cleanInput: lower-case, trim, split into fields; what it promises is stated by the CleanInput lemmas below |
| TextInput.CleanInputWords | internal/repl/repl.go:165-171 | every word cleanInput returns is non-empty, free of white space and in lower case |
| TextInput.CleanInputConcat | internal/repl/repl.go:165-171 | the words, concatenated, are exactly the non-white-space characters of the lowered input, in their original order |
| TextInput.CleanInputIsFields | internal/repl/repl.go:166-168 | trimming before the split changes nothing: cleanInput is Fields of the lowered input |
| TextInput.CleanInputBlank | internal/repl/repl.go:165-171 | the result is empty exactly when the input is all white space |
| TextInput.CleanInputSplit | repl/repl.go:84-90 | cutting the input at a white-space character cuts the word list at the same place |
| TextInput.CleanInputOfWord | repl/repl.go:84-90 | a single word gives a list of one word, its lower-case form |
| TextInput.CleanInputWordThen | repl/repl.go:84-90 | a leading word followed by white space (or nothing) is the first element of the result, and the rest of the line gives the rest |
| TextInput.CleanInputLayout | repl/repl.go:84-90 | for any line made of words separated by non-empty runs of white space, with any white space at either end, the result is the words, lowered and in order |
| TextInput.CleanInputJoin | repl/repl.go:84-90 | lower-case words joined by single spaces clean back to the same list |
| TextInput.CleanInputTestHelloWorld | repl/repl_test.go:12-15 | `" hello world "` gives `["hello", "world"]` |
| TextInput.CleanInputTestGoLang | repl/repl_test.go:16-19 | `"  GoLang  is  Awesome "` gives `["golang", "is", "awesome"]` |
| TextInput.CleanInputTestBlank | repl/repl_test.go:20-27 | `""` and `"   "` both give the empty list |
| Strconv.Atoi | internal/repl/repl.go:124 | an accepted number lies in the int64 range, the text starts with a digit or a sign, and the sign decides the sign of the value |
| Strconv.AtoiFormatInt | internal/repl/repl.go:124 | parsing the decimal text of any int64 gives that number back |
| Strconv.AtoiPlusSign | internal/repl/repl.go:124 | a leading `+` is accepted and ignored |
| PokeCache.WrapInt64 | internal/pokecache/pokecache.go:41 | the wrapped value is in the int64 range, congruent to the input modulo 2^64, and equal to it when it already fits |
| PokeCache.IntervalAsWritten | internal/pokecache/pokecache.go:41 | the interval the source computes exists exactly when the unit is `second`, `minute` or `hour` and the life is positive, and it is always an int64 value, wrapped where the product overflows |
| PokeCache.TimeToLive | internal/pokecache/pokecache.go:20-43 | the nil error exactly when the unit is empty or the life is not positive; the invalid-type error exactly when the unit is not `second`, `minute` or `hour` otherwise; the out-of-range error exactly when the unit is known, the life positive and the TTL in nanoseconds above the int64 maximum; on success the TTL is the life times 1, 60 or 3600 and fits a time.Duration |
| PokeCache.TimeToLiveAgreesWithSource | internal/pokecache/pokecache.go:39-43 | wherever the model accepts a configuration, the nanosecond interval the source computes is the model's TTL in nanoseconds |
| PokeCache.GuardsPass | internal/pokecache/pokecache.go:24-37 | a known unit with a positive life passes both guards; only the overflow check can still reject it |
| PokeCache.IntervalOverflowExamples | internal/pokecache/pokecache.go:41 | 2562048 hours wraps to a negative interval and 18446744074 seconds to about 0.29 s; the model rejects both |
| PokeCache.TimeToLiveExamples | internal/pokecache/pokecache.go:24-43 | sample good and bad configurations, including a wrongly capitalised unit, give the expected TTL or error |
| PokeCache.Cache.constructor | internal/pokecache/pokecache.go:39-43 | a new cache is empty and holds the given TTL |
| PokeCache.Cache.Add | internal/pokecache/pokecache.go:51-59 | the entry for the key is replaced wholesale by the value stamped `now`; every other entry is untouched |
| PokeCache.Cache.Get | internal/pokecache/pokecache.go:61-70 | found exactly when the key is present, with its value; otherwise nil (empty) and false; the age is not looked at and nothing changes |
| PokeCache.Cache.ExpiredKeys | internal/pokecache/pokecache.go:82-87 | the collected keys are exactly the expired keys, each once |
| PokeCache.Cache.ReapTick | internal/pokecache/pokecache.go:76-96 | after a tick the entries are exactly the unexpired entries of before, unchanged |
| PokeCache.NewCache | internal/pokecache/pokecache.go:20-49 | every rejected configuration gives its error and no cache; an accepted one gives a fresh, empty cache with that TTL |
| PokeCache.ReapRemovesExactlyExpired | internal/pokecache/pokecache.go:82-95 | a key survives a tick exactly when its age is at most the TTL, and a survivor keeps its value and timestamp |
| PokeCache.ReapWithoutExpiredIsNoop | internal/pokecache/pokecache.go:77-96 | a tick with nothing expired, for example on an empty cache, changes nothing |
| PokeCache.ReapIdempotent | internal/pokecache/pokecache.go:82-95 | a second tick at the same time removes nothing more |
| PokeCache.ReapLaterSubsumesEarlier | internal/pokecache/pokecache.go:82-95 | a tick at t1 followed by one at t2 >= t1 equals the tick at t2 alone, and later ticks keep fewer keys |
| PokeCache.ReapAfterAdd | internal/pokecache/pokecache.go:51-98 | an entry added at t survives a tick at `now` exactly when `now - t <= ttl`, and re-adding restarts its age |
| PokeCache.AddGetRoundTrip | internal/pokecache/pokecache.go:51-70 | Add then Get returns the value added |
| PokeCache.LastWriteWins | internal/pokecache/pokecache.go:55-58 | of two Adds to one key the second wins, value and time; no other key appears or disappears |
| PokeCache.ExpiredStillReadableUntilReaped | internal/pokecache/pokecache.go:61-96 | an expired entry is still returned by Get until a reap tick removes it |
| PokeAPI.GenericURLCaller | internal/pokeapi/pokeapi.go:9-37 | a cached URL is served by decoding its bytes and the cache is not touched; otherwise the fetch result is returned, and only a successful fetch is stored, marshalled and stamped `now` |
| PokeAPI.StoredExtends | internal/pokeapi/pokeapi.go:11-35 | a request never evicts or rewrites an entry and adds no key but the requested URL |
| PokeAPI.FailureStoresNothing | internal/pokeapi/pokeapi.go:13-28 | a failed request leaves the cache as it was |
| PokeAPI.StoredHasURL | internal/pokeapi/pokeapi.go:11-35 | after a request the URL is cached exactly when it was already cached or the fetch succeeded |
| PokeAPI.RepeatServedFromCache | internal/pokeapi/pokeapi.go:11-16 | when unmarshalling the marshalled value gives it back, a repeated request is served from the cache with the same value and stores nothing more |
| Commands.User.constructor | internal/actors/types.go:3-5 | a user holds the given caught-Pokémon dictionary |
| Commands.Config.constructor | internal/repl/repl.go:71-81 | all four location strings are empty and the given cache and user are stored |
| Commands.CommandMap | internal/repl/commands.go:28-51 | the base location-area URL is requested when there is no next link, else the next link; on failure the error is returned and the config is unchanged; on success both cursor links come from the page and the location is unchanged; the cache changes as the request stores |
| Commands.CommandMapb | internal/repl/commands.go:53-77 | without a previous link nothing is requested or changed; otherwise the previous link is requested, with the failure and success effects of commandMap |
| Commands.CommandExplore | internal/repl/commands.go:79-109 | without an argument nothing happens; otherwise the location-area URL plus `/` and the name is requested, and only a successful answer moves the current location and its URL; the cursor is untouched and the location stays consistent with its URL |
| Commands.PokemonStreamingCheck | internal/repl/commands.go:148-179 | the search reports what EncounterCheck defines: an error without a name, false when the current location is not cached, the parse error for undecodable bytes, otherwise whether some encounter equals the name ignoring case |
| Commands.EncounterFoundHasNoError | internal/repl/commands.go:119-126 | a positive check never carries an error, so catch's error branch after the not-in-area test is never taken |
| Commands.EncounterCheckIgnoresCase | internal/repl/commands.go:172-175 | names that differ only in letter case get the same answer |
| Commands.CommandCatch | internal/repl/commands.go:111-146 | without a name nothing happens; when the check says false the answer is not-in-area and nothing changes; otherwise the Pokémon is requested, and on success it is caught exactly when the roll is at most its base experience, and then stored under its name, the dictionary otherwise unchanged |
| Commands.CommandInspect | internal/repl/commands.go:181-198 | no error exactly when the name was caught; otherwise the not-caught error for that name |
| Commands.CommandFullInspect | internal/repl/commands.go:200-216 | the same guard as inspect |
| Commands.CommandPokedex | internal/repl/commands.go:218-227 | an error exactly when no Pokémon was caught |
| Commands.ExploreThenCatch | internal/repl/commands.go:79-179 | after exploring an uncached area successfully, catching a Pokémon its response lists, in any letter case, is never refused as not in the area, and a successful fetch with a low enough roll catches it |
| Repl.FirstIndex | internal/repl/repl.go:91-113 | the index of the first accepted line, or the number of lines: every line before it is rejected, and the line at it is accepted |
| Repl.DurationTypeOfWord | internal/repl/repl.go:98-111 | every accepted word maps to a unit NewCache knows |
| Repl.DurationTypeOfLine | internal/repl/repl.go:92-111 | a unit read from a line is one NewCache knows; a blank line gives none; a line gives a unit exactly when its first word is accepted |
| Repl.LifeOfWord | internal/repl/repl.go:123-128 | an accepted life is a positive int64 |
| Repl.LifeOfLine | internal/repl/repl.go:118-128 | a life read from a line is a positive int64; a blank line gives none; a line gives a life exactly when its first word is accepted |
| Repl.CacheSettings | internal/repl/repl.go:83-137 | without a unit there is no life; a unit given is one NewCache knows; the life is between 0 and the int64 maximum |
| Repl.PromptDurationType | internal/repl/repl.go:91-113 | the unit of the first accepted line, and the number of lines read up to and including it; "" when input runs out |
| Repl.PromptDurationLife | internal/repl/repl.go:117-135 | the life of the first accepted line, 0 when input runs out, and the plural suffix "" exactly for a life of 1 |
| Repl.GetCacheSettings | internal/repl/repl.go:83-137 | the two prompts return CacheSettings of the input lines, the second reading on after the first's answer, with the plural suffix "" exactly for a life of 1 |
| Repl.CacheSettingsReachNewCache | internal/repl/repl.go:98-129 | settings without a life make NewCache report the nil error; settings with one pass all of NewCache's guards in internal/pokecache/pokecache.go:24-37 |
| Repl.AnswerLine | internal/repl/repl.go:92-128 | only the first word of an answer counts, in any letter case |
| Repl.CacheSettingsOfTwoAnswers | internal/repl/repl.go:83-137 | a unit word in any case, then a positive number in decimal, give that unit and that number |
| Repl.CacheSettingsSkipsRejected | internal/repl/repl.go:91-113 | blank and rejected answers before the first accepted one do not change the result |
| Repl.RegisteredHasEveryCommand | internal/repl/repl.go:23-69 | each of the nine callbacks is registered under its own name |
| Repl.RegisteredHasNothingElse | internal/repl/repl.go:23-69 | every registered entry is the command of its callback, stored under that command's name |
| Repl.RegisteredNamesAreWords | internal/repl/repl.go:23-69 | every registered name is a lower-case word, so a typed line can reach it |
| Repl.Registry.constructor | internal/repl/repl.go:13 | the dictionary starts empty |
| Repl.Registry.InitMap | internal/repl/repl.go:23-69 | the nine entries are written over whatever the dictionary held |
| Repl.Dispatch | internal/repl/repl.go:143-159 | a selected command is one of the dictionary's entries |
| Repl.DispatchBlank | internal/repl/repl.go:143-148 | a blank line selects no command |
| Repl.DispatchCommandWord | internal/repl/repl.go:150-159 | a line selects the entry of its lowered first word, if there is one, with the words of the rest as arguments; an unknown name selects nothing |
| Repl.DispatchRegistered | internal/repl/repl.go:143-160 | after initMap every command is reached by typing its name |
| Repl.ExecutePreserves | internal/repl/repl.go:173-183 | running any command keeps every cache entry unchanged, keeps every caught name caught, keeps the location consistent with its URL, and ends the loop exactly when the command is exit |
| Repl.ExecuteCommand | internal/repl/repl.go:173-183 | the callback gets the first argument or "", and the new session and the outcome are what `Repl.Execute` gives for the old session: outcome and error, the cursor moves of map and mapb, explore's move of the location, catch's not-in-area test, roll rule and stored Pokémon, the cache fill of each request, and the inspect and pokedex answers |
| Repl.StepHelp | internal/repl/repl.go:142-161 | typing `help` after initMap continues the loop with no error and changes nothing |
| Repl.StepMap | internal/repl/repl.go:142-161 | typing `map` after initMap requests the page the next link names, or the first page, with commandMap's effect |
| Repl.StepExits | internal/repl/repl.go:142-161 | a line ends the loop exactly when it selects the exit command |
| Repl.StepPreserves | internal/repl/repl.go:142-161 | any typed line keeps the cache entries, the caught names and the location's consistency |
| Repl.ReplayPreserves | internal/repl/repl.go:139-163 | after any number of lines, every cache entry from before is still there unchanged, every caught name is still caught, and the location is still consistent with its URL |
| Repl.ReplayMapRetry | internal/pokeapi/pokeapi.go:18-28 | a `map` whose request fails changes nothing, and typed again it requests the same page; when the network answers then, that page's links become the cursor and the page is cached |
| Repl.RunLine | internal/repl/repl.go:142-161 | a blank or unknown line gives no outcome and changes nothing; any other line leaves the session and outcome `Repl.Step` gives |
| Repl.RunNext | internal/repl/repl.go:141-161 | running line k against that line's network extends the replay of the first k lines to k + 1, and reports the end of the loop exactly when that line selects exit |
| Repl.LinesReadAtExit | internal/repl/repl.go:139-163 | when line k is the first to select exit, the loop reads k + 1 lines |
| Repl.LinesReadWithoutExit | internal/repl/repl.go:139-163 | when no line selects exit, the loop reads every line |
| Repl.GetUserInput | internal/repl/repl.go:139-163 | the loop reads up to and including the first line that selects exit, or all lines; the session it leaves is `Repl.Replay` of exactly those lines, each run against the network as it answers on that line; every cache entry from before is still there unchanged, every caught name is still caught, and the location is still consistent with its URL |
| LegacyRepl.LocationResponse.constructor | repl/repl.go:29 | the shared response starts at its zero value |
| LegacyRepl.Registry.constructor | repl/repl.go:28 | the dictionary starts empty |
| LegacyRepl.Registry.InitMap | repl/repl.go:38-59 | the four entries are written over whatever the dictionary held |
| LegacyRepl.RegisteredNames | repl/repl.go:38-59 | each callback is registered under its own name, and every entry is the command registered under its name |
| LegacyRepl.Dispatch | repl/repl.go:65-77 | a selected command is one of the dictionary's entries |
| LegacyRepl.DispatchBlank | repl/repl.go:65-70 | a blank line selects no command |
| LegacyRepl.DispatchCommandWord | repl/repl.go:71-77 | the lowered first word alone selects the command, if it is registered |
| LegacyRepl.Merged | repl/repl.go:155-157 | computes what decoding a body into the existing response leaves, field by field; what it promises is stated by the Merged lemmas below |
| LegacyRepl.MergedIdempotent | repl/repl.go:155-157 | decoding the same body twice into the response has the effect of decoding it once |
| LegacyRepl.MergedComplete | repl/repl.go:155-157 | a body that gives every field determines the response, whatever it held before |
| LegacyRepl.MergedKeepsMissingLinks | repl/repl.go:155-157 | a next or previous link the body leaves out or gives as null keeps its old value |
| LegacyRepl.CommandMap | repl/repl.go:106-124 | the base location-area URL is requested when there is no next link, else the next link; on success the body is decoded over the shared response, on failure nothing changes |
| LegacyRepl.CommandMapb | repl/repl.go:126-145 | without a previous link nothing is requested or changed; otherwise the previous link is requested, with the effects of commandMap |
| LegacyRepl.GenericURLCaller | repl/repl.go:147-160 | on success the decoded body is merged into the shared response, field by field; on failure the error is returned and nothing changes |
| LegacyRepl.Invoke | repl/repl.go:78-145 | exit and only exit ends the loop; help changes nothing; map requests its URL and on failure reports the error with nothing changed, on success merges the body; mapb does nothing without a previous link, and otherwise the same for the previous link |
| LegacyRepl.MapThenMapb | repl/repl.go:106-145 | after map loads a page, mapb requests exactly the previous link it left behind, or nothing when that is empty |
| LegacyRepl.MapPastLastPage | repl/repl.go:106-124 | when the loaded body gives no next link, the next map requests the same page again |
| LegacyRepl.MapbPastFirstPage | repl/repl.go:126-145 | when the body mapb loads from link p gives no previous link, the next mapb requests p again rather than reporting that there is none |

## Left out

- Concurrency: the reaper goroutine, the ticker and the read/write mutex are
  not modelled. Every method runs atomically, and one tick of the reap loop is
  `PokeCache.Cache.ReapTick`. So the window between the reaper's read lock and
  its write lock, in which an `Add` can refresh a key that is then deleted
  anyway, is not represented.
- Time: `time.Now` and `time.Since` are an explicit integer `now`, one value
  per tick, in whole seconds rather than nanoseconds. The cache timestamps and
  the TTL are in seconds; the wrap-around of the source's nanosecond product
  is modelled separately (see Findings).
- HTTP and JSON are given functions: the GET with its decode, json.Marshal
  and json.Unmarshal. Their failures are a `Failure` with a message. The
  error json.Marshal can report in GenericURLCaller is not modelled: the
  marshalled form is always given.
- LegacyRepl.GenericURLCaller: a decode that fails is modelled as changing
  nothing. On a type mismatch encoding/json skips the bad field, still
  writes the others, and then reports the error, so those fields stay
  overwritten. Successful decodes are modelled field by field
  (`LegacyRepl.Merged`).
- Printing, the help texts (cliCommand.description, only printed) and the
  location or Pokémon lists the commands print are left out. `commandExit`'s
  os.Exit is the `Exited` outcome.
- Randomness: the seeding and `rand.Intn(300)` of commandCatch are the
  parameter `catchChance`, required to lie in [0, 300).
- Go's map iteration order only affects printing and the order of the
  reaper's key slice; the model iterates in an arbitrary order too.
- `strings.ToLower`, `strings.Fields`, `strings.TrimSpace` and
  `strings.EqualFold` are modelled on ASCII: `A`-`Z` lower to `a`-`z`, and
  the white space is space, tab, line feed, vertical tab, form feed and
  carriage return. Unicode case mapping and white space are not modelled.
- main.go only wires things together; actors.NewUser is not part of this
  model, so `Commands.User` is built from a given dictionary.
- The Pokémon record keeps only the name and base experience; the abilities,
  moves, types and stats only appear in printing.
- Commands.CommandInspect: requires an argument, because the source indexes
  `args[0]` without a check and would panic on none. Through executeCommand
  there is always exactly one argument.
- Commands.CommandFullInspect: requires an argument, for the same reason.
- The missing-argument guards of commandExplore and commandCatch are modelled,
  but executeCommand always passes one argument. So `explore` typed alone
  requests the location-area URL followed by `/`.
- Standard input is a finite sequence of lines. The prompts and the command
  loop stop when it runs out, as `bufio.Scanner` does at end of input.
- A reap tick that runs between commands is not part of the command loop;
  it interleaves concurrently in the source.

## Findings

| source | as written | input that shows it | evidently intended | confidence | as-written member | corrected member |
|---|---|---|---|---|---|---|
| internal/pokecache/pokecache.go:41 | `time.Duration(durationLife) * timeVersion` multiplies two int64 nanosecond counts, and the product wraps around | `NewCache("hour", 2562048)`: 2562048 hours do not fit an int64 count of nanoseconds, the interval wraps to -9223371273709551616 ns, and time.NewTicker in reapLoop panics on a non-positive interval. `NewCache("second", 18446744074)` wraps to a TTL of about 0.29 s. GetCacheSettings accepts both lives. | a life whose TTL does not fit a time.Duration is rejected with a configuration error | not executed | PokeCache.IntervalOverflowExamples | PokeCache.TimeToLive |
