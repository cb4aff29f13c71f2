/**
 * The interactive shell of internal/repl: the start-up prompts that choose
 * the cache lifetime (GetCacheSettings), the command registry (initMap), the
 * line dispatch of getUserInput and executeCommand.
 *
 * Standard input is the sequence of lines it would deliver; printing is not
 * modelled. The remote calls and the JSON decode of cached bytes are given
 * functions (World); the catch rolls are parameters.
 */
module Repl {
  import opened Wrappers
  import TextInput
  import Strconv
  import PokeCache
  import PokeAPI
  import opened Commands

  // ---------------------------------------------------------------------------
  // Reading lines until one is accepted

  /** The index of the first line `accepted` holds of, or |lines| when there is none. */
  function FirstIndex(lines: seq<string>, accepted: string -> bool): (t: nat)
    ensures t <= |lines|
    ensures forall i :: 0 <= i < t ==> !accepted(lines[i])
    ensures t < |lines| ==> accepted(lines[t])
  {
    if lines == [] then 0
    else if accepted(lines[0]) then 0
    else 1 + FirstIndex(lines[1..], accepted)
  }

  /** The first accepted line is the one with no accepted line before it. */
  lemma FirstIndexAt(lines: seq<string>, accepted: string -> bool, k: nat)
    requires k < |lines| && accepted(lines[k])
    requires forall i :: 0 <= i < k ==> !accepted(lines[i])
    ensures FirstIndex(lines, accepted) == k
  {
  }

  /** No line is accepted: the search runs to the end. */
  lemma FirstIndexNone(lines: seq<string>, accepted: string -> bool)
    requires forall i :: 0 <= i < |lines| ==> !accepted(lines[i])
    ensures FirstIndex(lines, accepted) == |lines|
  {
  }

  /** Lines that are all rejected are skipped: the search goes on after them. */
  lemma {:induction false} FirstIndexSkips(rejected: seq<string>, rest: seq<string>, accepted: string -> bool)
    requires forall i :: 0 <= i < |rejected| ==> !accepted(rejected[i])
    ensures FirstIndex(rejected + rest, accepted) == |rejected| + FirstIndex(rest, accepted)
  {
    if rejected != [] {
      var lines := rejected + rest;
      assert lines[0] == rejected[0];
      assert !accepted(lines[0]);
      assert lines[1..] == rejected[1..] + rest;
      FirstIndexSkips(rejected[1..], rest, accepted);
      assert FirstIndex(lines, accepted) == 1 + FirstIndex(lines[1..], accepted);
    } else {
      assert rejected + rest == rest;
    }
  }

  // ---------------------------------------------------------------------------
  // GetCacheSettings

  /** The duration-type switch on the first word: the unit name durationMap knows, or None to ask again. */
  function DurationTypeOfWord(word: string): (r: Option<string>)
    ensures r.Some? ==> PokeCache.IsDurationUnit(r.value)
  {
    match word
    case "seconds" => Some("second")
    case "second" => Some("second")
    case "s" => Some("second")
    case "minutes" => Some("minute")
    case "minute" => Some("minute")
    case "m" => Some("minute")
    case "hours" => Some("hour")
    case "hour" => Some("hour")
    case "h" => Some("hour")
    case _ => None
  }

  /** Whether the first prompt accepts the line. */
  predicate TypeAccepted(line: string) {
    var durationInput := TextInput.CleanInput(line);
    |durationInput| != 0 && DurationTypeOfWord(durationInput[0]).Some?
  }

  /** An answer to the first prompt: the unit, or None for a blank or invalid line. */
  function DurationTypeOfLine(line: string): (r: Option<string>)
    ensures r.Some? ==> PokeCache.IsDurationUnit(r.value)
    ensures TextInput.AllSpace(line) ==> r.None?
    ensures r.Some? <==> TypeAccepted(line)
  {
    TextInput.CleanInputBlank(line);
    var durationInput := TextInput.CleanInput(line);
    if |durationInput| == 0 then None else DurationTypeOfWord(durationInput[0])
  }

  /** The life check on the first word: strconv.Atoi must succeed and the number be at least 1. */
  function LifeOfWord(word: string): (r: Option<int>)
    ensures r.Some? ==> 0 < r.value <= Strconv.MaxInt64
  {
    match Strconv.Atoi(word)
    case None => None
    case Some(num) => if num <= 0 then None else Some(num)
  }

  /** Whether the second prompt accepts the line. */
  predicate LifeAccepted(line: string) {
    var lifeInput := TextInput.CleanInput(line);
    |lifeInput| != 0 && LifeOfWord(lifeInput[0]).Some?
  }

  /** An answer to the second prompt: the life, or None for a blank or invalid line. */
  function LifeOfLine(line: string): (r: Option<int>)
    ensures r.Some? ==> 0 < r.value <= Strconv.MaxInt64
    ensures TextInput.AllSpace(line) ==> r.None?
    ensures r.Some? <==> LifeAccepted(line)
  {
    TextInput.CleanInputBlank(line);
    var lifeInput := TextInput.CleanInput(line);
    if |lifeInput| == 0 then None else LifeOfWord(lifeInput[0])
  }

  /**
   * What GetCacheSettings returns for the lines of standard input: the unit of
   * the first line the type prompt accepts, then the life of the first line
   * after it that the life prompt accepts; "" and 0 for an answer that input
   * ran out before.
   */
  function CacheSettings(lines: seq<string>): (r: (string, int))
    ensures r.0 == "" ==> r.1 == 0
    ensures r.0 != "" ==> PokeCache.IsDurationUnit(r.0)
    ensures 0 <= r.1 <= Strconv.MaxInt64
  {
    SettingsAt(lines, FirstIndex(lines, TypeAccepted))
  }

  /** The settings when the unit comes from line t, or from no line when t is past the end. */
  function SettingsAt(lines: seq<string>, t: nat): (string, int) {
    if t >= |lines| then ("", 0)
    else
      match DurationTypeOfLine(lines[t])
      case None => ("", 0)
      case Some(unit) => (unit, LifeAfter(lines[t + 1..]))
  }

  /** The life of the first line the second prompt accepts, or 0. */
  function LifeAfter(rest: seq<string>): int {
    var l := FirstIndex(rest, LifeAccepted);
    if l == |rest| then 0 else LifeOfLine(rest[l]).value
  }

  /**
   * The first prompt loop of GetCacheSettings: read lines until one names a
   * unit. Returns the unit ("" when input runs out) and how many lines it read.
   */
  method PromptDurationType(lines: seq<string>) returns (durationType: string, pos: nat)
    ensures var t := FirstIndex(lines, TypeAccepted);
            && pos == (if t < |lines| then t + 1 else |lines|)
            && durationType == (if t < |lines| then DurationTypeOfLine(lines[t]).value else "")
  {
    durationType := "";
    pos := 0;
    while pos < |lines|
      invariant 0 <= pos <= |lines|
      invariant forall i :: 0 <= i < pos ==> !TypeAccepted(lines[i])
    {
      var line := lines[pos];
      pos := pos + 1;
      var durationInput := DurationTypeOfLine(line);
      if durationInput.Some? {
        durationType := durationInput.value;
        FirstIndexAt(lines, TypeAccepted, pos - 1);
        return;
      }
    }
    FirstIndexNone(lines, TypeAccepted);
  }

  /**
   * The second prompt loop: read the remaining lines until one holds a
   * positive number. Returns the life (0 when input runs out) and the plural
   * suffix of the confirmation, "" exactly for a life of 1.
   */
  method PromptDurationLife(lines: seq<string>) returns (durationLife: int, plural: string)
    ensures var l := FirstIndex(lines, LifeAccepted);
            durationLife == if l < |lines| then LifeOfLine(lines[l]).value else 0
    ensures plural == if durationLife == 1 then "" else "s"
  {
    durationLife := 0;
    plural := "s";
    var pos := 0;
    while pos < |lines|
      invariant 0 <= pos <= |lines|
      invariant forall i :: 0 <= i < pos ==> !LifeAccepted(lines[i])
    {
      var line := lines[pos];
      pos := pos + 1;
      var lifeInput := LifeOfLine(line);
      if lifeInput.Some? {
        durationLife := lifeInput.value;
        if durationLife == 1 {
          plural := "";
        }
        FirstIndexAt(lines, LifeAccepted, pos - 1);
        return;
      }
    }
    FirstIndexNone(lines, LifeAccepted);
  }

  /** GetCacheSettings: the two prompts, the second reading on from the line after the first's answer. */
  method GetCacheSettings(lines: seq<string>) returns (durationType: string, durationLife: int, plural: string)
    ensures (durationType, durationLife) == CacheSettings(lines)
    ensures plural == if durationLife == 1 then "" else "s"
  {
    var pos;
    durationType, pos := PromptDurationType(lines);
    durationLife, plural := PromptDurationLife(lines[pos..]);
  }

  /**
   * What NewCache makes of the settings: without a life it reports the nil
   * error; with one, the source's guards all pass and only the overflow the
   * model adds can reject it.
   */
  lemma CacheSettingsReachNewCache(lines: seq<string>)
    ensures var (durationType, durationLife) := CacheSettings(lines);
            durationLife == 0 ==> PokeCache.TimeToLive(durationType, durationLife) == Failure(PokeCache.ValueIsNil)
    ensures var (durationType, durationLife) := CacheSettings(lines);
            durationLife != 0 ==>
              && PokeCache.IntervalAsWritten(durationType, durationLife).Some?
              && (PokeCache.TimeToLive(durationType, durationLife).Success?
                  || PokeCache.TimeToLive(durationType, durationLife) == Failure(PokeCache.DurationOutOfRange))
  {
    var (durationType, durationLife) := CacheSettings(lines);
    if durationLife != 0 {
      PokeCache.GuardsPass(durationType, durationLife);
    }
  }

  /** A first word that is a command-line answer decides the line, whatever follows it. */
  lemma AnswerLine(w: string, rest: string)
    requires TextInput.IsWord(w)
    requires rest == [] || TextInput.IsSpace(rest[0])
    ensures DurationTypeOfLine(w + rest) == DurationTypeOfWord(TextInput.ToLower(w))
    ensures LifeOfLine(w + rest) == LifeOfWord(TextInput.ToLower(w))
  {
    TextInput.CleanInputWordThen(w, rest);
  }

  /**
   * Two lines, a unit word in any case and a positive number in decimal,
   * give that unit and that life.
   */
  lemma CacheSettingsOfTwoAnswers(unitWord: string, life: nat)
    requires TextInput.IsWord(unitWord) && DurationTypeOfWord(TextInput.ToLower(unitWord)).Some?
    requires 0 < life <= Strconv.MaxInt64
    ensures CacheSettings([unitWord, Strconv.Digits(life)])
            == (DurationTypeOfWord(TextInput.ToLower(unitWord)).value, life)
  {
    var lines := [unitWord, Strconv.Digits(life)];
    AnswerLine(unitWord, []);
    assert unitWord + [] == unitWord;
    assert TypeAccepted(lines[0]);
    var digits := Strconv.Digits(life);
    assert TextInput.ToLower(digits) == digits;
    AnswerLine(digits, []);
    assert digits + [] == digits;
    Strconv.AtoiFormatInt(life);
    assert lines[1..] == [digits];
  }

  /** Blank and rejected answers before the first accepted one are ignored. */
  lemma CacheSettingsSkipsRejected(rejected: seq<string>, rest: seq<string>)
    requires forall i :: 0 <= i < |rejected| ==> !TypeAccepted(rejected[i])
    ensures CacheSettings(rejected + rest) == CacheSettings(rest)
  {
    FirstIndexSkips(rejected, rest, TypeAccepted);
    CacheSettingsAt(rejected + rest);
    CacheSettingsAt(rest);
    SettingsAtShift(rejected, rest, FirstIndex(rest, TypeAccepted));
  }

  lemma CacheSettingsAt(lines: seq<string>)
    ensures CacheSettings(lines) == SettingsAt(lines, FirstIndex(lines, TypeAccepted))
  {
  }

  /** Settings read from line t of the suffix are those read from the same line after the prefix. */
  lemma SettingsAtShift(prefix: seq<string>, rest: seq<string>, t: nat)
    ensures SettingsAt(prefix + rest, |prefix| + t) == SettingsAt(rest, t)
  {
    if t < |rest| {
      AfterPrefix(prefix, rest, t);
    }
  }

  /** Past a prefix, the line at an index and the lines after it are those of the suffix. */
  lemma AfterPrefix(prefix: seq<string>, rest: seq<string>, t: nat)
    requires t < |rest|
    ensures (prefix + rest)[|prefix| + t] == rest[t]
    ensures (prefix + rest)[|prefix| + t + 1..] == rest[t + 1..]
  {
    assert (prefix + rest)[|prefix| + t + 1..] == rest[t + 1..];
  }

  // ---------------------------------------------------------------------------
  // The command registry (initMap)

  datatype CommandKind = Exit | Help | Map | Mapb | Explore | Catch | Inspect | FullInspect | Pokedex

  /** cliCommand: the name and which callback runs (the help text is only printed, and is left out). */
  datatype CliCommand = CliCommand(name: string, callback: CommandKind)

  /** The name initMap registers each callback under. */
  function NameOf(kind: CommandKind): string {
    match kind
    case Exit => "exit"
    case Help => "help"
    case Map => "map"
    case Mapb => "mapb"
    case Explore => "explore"
    case Catch => "catch"
    case Inspect => "inspect"
    case FullInspect => "fullinspect"
    case Pokedex => "pokedex"
  }

  /** The entry initMap registers for each callback. */
  function CommandFor(kind: CommandKind): CliCommand {
    CliCommand(NameOf(kind), kind)
  }

  /** The nine entries initMap writes, each under its command's name. */
  function Registered(): map<string, CliCommand> {
    map[
      "exit" := CommandFor(Exit),
      "help" := CommandFor(Help),
      "map" := CommandFor(Map),
      "mapb" := CommandFor(Mapb),
      "explore" := CommandFor(Explore),
      "catch" := CommandFor(Catch),
      "inspect" := CommandFor(Inspect),
      "fullinspect" := CommandFor(FullInspect),
      "pokedex" := CommandFor(Pokedex)
    ]
  }

  /** Every callback is registered, under its own name. */
  lemma RegisteredHasEveryCommand(kind: CommandKind)
    ensures NameOf(kind) in Registered() && Registered()[NameOf(kind)] == CommandFor(kind)
  {
    match kind
    case Exit =>
    case Help =>
    case Map =>
    case Mapb =>
    case Explore =>
    case Catch =>
    case Inspect =>
    case FullInspect =>
    case Pokedex =>
  }

  /** Nothing else is registered: each entry is the command of its callback, stored under that command's name. */
  lemma RegisteredHasNothingElse(k: string)
    requires k in Registered()
    ensures Registered()[k] == CommandFor(Registered()[k].callback)
    ensures Registered()[k].name == k
  {
  }

  /** The registered names are words in lower case, so a typed command line can reach each. */
  lemma RegisteredNamesAreWords(kind: CommandKind)
    ensures TextInput.IsWord(NameOf(kind)) && TextInput.IsLowerCase(NameOf(kind))
  {
  }

  /** The package-level commandDictionary. */
  class Registry {
    var commandDictionary: map<string, CliCommand>

    /** make(map[string]cliCommand). */
    constructor ()
      ensures commandDictionary == map[]
    {
      commandDictionary := map[];
    }

    /** initMap: writes the nine entries at once, overwriting those of the same names. */
    method InitMap()
      modifies this
      ensures commandDictionary == old(commandDictionary) + Registered()
    {
      commandDictionary := commandDictionary + Registered();
    }
  }

  // ---------------------------------------------------------------------------
  // Reading a command line (getUserInput) and running it (executeCommand)

  /**
   * The command a line selects and its argument words, or None when the line
   * is blank or its first word is not a registered name.
   */
  function Dispatch(commandDictionary: map<string, CliCommand>, line: string): (r: Option<(CliCommand, seq<string>)>)
    ensures r.Some? ==> r.value.0 in commandDictionary.Values
  {
    var input := TextInput.CleanInput(line);
    if |input| == 0 then None
    else if input[0] !in commandDictionary then None
    else Some((commandDictionary[input[0]], input[1..]))
  }

  /** A blank line selects nothing. */
  lemma DispatchBlank(commandDictionary: map<string, CliCommand>, line: string)
    requires TextInput.AllSpace(line)
    ensures Dispatch(commandDictionary, line) == None
  {
    TextInput.CleanInputBlank(line);
  }

  /**
   * A line that starts with a word selects the entry of that word in lower
   * case, if there is one, with the words of the rest as its arguments.
   */
  lemma DispatchCommandWord(commandDictionary: map<string, CliCommand>, w: string, rest: string)
    requires TextInput.IsWord(w)
    requires rest == [] || TextInput.IsSpace(rest[0])
    ensures Dispatch(commandDictionary, w + rest) ==
              if TextInput.ToLower(w) in commandDictionary
              then Some((commandDictionary[TextInput.ToLower(w)], TextInput.CleanInput(rest)))
              else None
  {
    TextInput.CleanInputWordThen(w, rest);
  }

  /** After initMap every command is reached by its name. */
  lemma DispatchRegistered(kind: CommandKind, rest: string)
    requires rest == [] || TextInput.IsSpace(rest[0])
    ensures Dispatch(Registered(), CommandFor(kind).name + rest)
            == Some((CommandFor(kind), TextInput.CleanInput(rest)))
  {
    var name := CommandFor(kind).name;
    RegisteredNamesAreWords(kind);
    RegisteredHasEveryCommand(kind);
    assert TextInput.ToLower(name) == name;
    DispatchCommandWord(Registered(), name, rest);
  }

  /** The remote services and the decoder the commands use. */
  datatype World = World(
    locations: PokeAPI.Endpoint<LocationPage>,
    areas: PokeAPI.Endpoint<ExploreResponse>,
    pokemon: PokeAPI.Endpoint<Pokemon>,
    encounters: seq<PokeCache.Byte> -> Result<seq<string>, string>)

  /** Whether the loop goes on (with the command's error, if any) or the program exits. */
  datatype Outcome = Continue(err: Option<CommandError>) | Exited

  /** The single string executeCommand passes on: the first argument word, or "". */
  function Argument(args: seq<string>): string {
    if |args| > 0 then args[0] else ""
  }

  /** The page commandMap requests from a config whose next link is `next`. */
  function MapURL(next: string): string {
    if next == "" then LocationAreaURL else next
  }

  /**
   * Everything the commands read and change: the config's cursor links and
   * location, the caught Pokémon and the cache entries.
   */
  datatype Session = Session(
    next: string,
    previous: string,
    location: string,
    locationURL: string,
    caught: map<string, Pokemon>,
    entries: map<string, PokeCache.CacheEntry>)

  /** The session as the objects hold it now. */
  function Snapshot(cfg: Config): Session
    reads cfg, cfg.user, cfg.cache
  {
    Session(cfg.nextLocationsURL, cfg.previousLocationsURL, cfg.currentLocation, cfg.currentLocationURL,
            cfg.user.caughtPokemon, cfg.cache.entries)
  }

  /**
   * map and mapb once they request `url`: the cache is filled as
   * GenericURLCaller fills it; a failure is reported; a page moves both
   * cursor links to its own.
   */
  function LoadPage(s: Session, url: string, api: PokeAPI.Endpoint<LocationPage>, now: int): (Session, Outcome) {
    var page := PokeAPI.Lookup(s.entries, url, api);
    var entries := PokeAPI.Stored(s.entries, url, now, api);
    if page.Failure? then (s.(entries := entries), Continue(Some(FetchFailed(page.error))))
    else (s.(next := page.value.next, previous := page.value.previous, entries := entries), Continue(None))
  }

  /**
   * The effect of running `command` with the single argument `arg` at time
   * `now` with the catch roll `catchChance`: the session afterwards and the
   * outcome.
   */
  function Execute(s: Session, command: CliCommand, arg: string, world: World, now: int, catchChance: int)
    : (Session, Outcome)
  {
    match command.callback
    case Exit => (s, Exited)
    case Help => (s, Continue(None))
    case Map => LoadPage(s, MapURL(s.next), world.locations, now)
    case Mapb => if s.previous == "" then (s, Continue(None)) else LoadPage(s, s.previous, world.locations, now)
    case Explore =>
      var url := ExploreURL(arg);
      var response := PokeAPI.Lookup(s.entries, url, world.areas);
      var entries := PokeAPI.Stored(s.entries, url, now, world.areas);
      if response.Failure? then (s.(entries := entries), Continue(Some(FetchFailed(response.error))))
      else (s.(location := arg, locationURL := url, entries := entries), Continue(None))
    case Catch =>
      if !EncounterCheck(s.entries, s.locationURL, [arg], world.encounters).0 then (s, Continue(Some(NotInArea)))
      else
        var url := PokemonURL + arg;
        var response := PokeAPI.Lookup(s.entries, url, world.pokemon);
        var entries := PokeAPI.Stored(s.entries, url, now, world.pokemon);
        if response.Failure? then (s.(entries := entries), Continue(Some(FetchFailed(response.error))))
        else
          var p := response.value;
          var caught := if catchChance <= p.baseExperience then s.caught[p.name := p] else s.caught;
          (s.(caught := caught, entries := entries), Continue(None))
    case Inspect => (s, Continue(if arg in s.caught then None else Some(NotCaught(arg))))
    case FullInspect => (s, Continue(if arg in s.caught then None else Some(NotCaught(arg))))
    case Pokedex => (s, Continue(if |s.caught| == 0 then Some(NoneCaught) else None))
  }

  /** What a session keeps from an earlier one: every cache entry, every caught name, and location consistency. */
  predicate Preserves(before: Session, after: Session) {
    && PokeAPI.Keeps(before.entries, after.entries)
    && before.caught.Keys <= after.caught.Keys
    && (LocationMatches(before.location, before.locationURL) ==> LocationMatches(after.location, after.locationURL))
  }

  /**
   * No command evicts or rewrites a cache entry, forgets a caught Pokémon or
   * breaks the link between the location and its URL; only exit exits.
   */
  lemma ExecutePreserves(s: Session, command: CliCommand, arg: string, world: World, now: int, catchChance: int)
    ensures Preserves(s, Execute(s, command, arg, world, now, catchChance).0)
    ensures Execute(s, command, arg, world, now, catchChance).1 == Exited <==> command.callback == Exit
  {
    match command.callback
    case Map => PokeAPI.StoredExtends(s.entries, MapURL(s.next), now, world.locations);
    case Mapb => PokeAPI.StoredExtends(s.entries, s.previous, now, world.locations);
    case Explore => PokeAPI.StoredExtends(s.entries, ExploreURL(arg), now, world.areas);
    case Catch => PokeAPI.StoredExtends(s.entries, PokemonURL + arg, now, world.pokemon);
    case _ =>
  }

  /**
   * executeCommand at time `now`: the callback always receives exactly one
   * argument, so the callbacks' guards for a missing argument are never
   * taken from here.
   */
  method ExecuteCommand(cfg: Config, command: CliCommand, args: seq<string>, world: World, now: int, catchChance: int)
    returns (outcome: Outcome)
    requires 0 <= catchChance < 300
    modifies cfg, cfg.user, cfg.cache
    ensures (Snapshot(cfg), outcome) == Execute(old(Snapshot(cfg)), command, Argument(args), world, now, catchChance)
  {
    var arguments := Argument(args);
    match command.callback
    case Exit =>
      outcome := Exited;
    case Help =>
      outcome := Continue(None);
    case Map =>
      var url, err := CommandMap(cfg, world.locations, now);
      outcome := Continue(err);
    case Mapb =>
      var url, err := CommandMapb(cfg, world.locations, now);
      outcome := Continue(err);
    case Explore =>
      var url, err := CommandExplore(cfg, [arguments], world.areas, now);
      outcome := Continue(err);
    case Catch =>
      var err, caught := CommandCatch(cfg, [arguments], world.encounters, world.pokemon, now, catchChance);
      outcome := Continue(err);
    case Inspect =>
      var err := CommandInspect(cfg, [arguments]);
      outcome := Continue(err);
    case FullInspect =>
      var err := CommandFullInspect(cfg, [arguments]);
      outcome := Continue(err);
    case Pokedex =>
      var err := CommandPokedex(cfg);
      outcome := Continue(err);
  }

  /** A line that selects the exit command. */
  predicate IsExitLine(commandDictionary: map<string, CliCommand>, line: string) {
    var d := Dispatch(commandDictionary, line);
    d.Some? && d.value.0.callback == Exit
  }

  /**
   * One pass of getUserInput's loop on the session: a blank line or an
   * unknown command changes nothing and gives no outcome; any other line
   * runs its command with the first word after the command name.
   */
  function Step(s: Session, commandDictionary: map<string, CliCommand>, line: string, world: World,
                now: int, catchChance: int): (Session, Option<Outcome>)
  {
    match Dispatch(commandDictionary, line)
    case None => (s, None)
    case Some((command, args)) =>
      var (after, outcome) := Execute(s, command, Argument(args), world, now, catchChance);
      (after, Some(outcome))
  }

  /** After initMap, a `help` line leaves the session as it was. */
  lemma StepHelp(s: Session, world: World, now: int, catchChance: int)
    ensures Step(s, Registered(), "help", world, now, catchChance) == (s, Some(Continue(None)))
  {
    DispatchRegistered(Help, "");
    assert CommandFor(Help).name + "" == "help";
  }

  /** After initMap, a `map` line requests the page the next link names. */
  lemma StepMap(s: Session, world: World, now: int, catchChance: int)
    ensures var (after, outcome) := LoadPage(s, MapURL(s.next), world.locations, now);
            Step(s, Registered(), "map", world, now, catchChance) == (after, Some(outcome))
  {
    DispatchRegistered(Map, "");
    assert CommandFor(Map).name + "" == "map";
  }

  /** A pass gives the exit outcome exactly on an exit line. */
  lemma StepExits(s: Session, commandDictionary: map<string, CliCommand>, line: string, world: World,
                  now: int, catchChance: int)
    ensures Step(s, commandDictionary, line, world, now, catchChance).1 == Some(Exited)
            <==> IsExitLine(commandDictionary, line)
  {
    match Dispatch(commandDictionary, line)
    case None =>
    case Some((command, args)) => ExecutePreserves(s, command, Argument(args), world, now, catchChance);
  }

  /** A pass preserves the session. */
  lemma StepPreserves(s: Session, commandDictionary: map<string, CliCommand>, line: string, world: World,
                      now: int, catchChance: int)
    ensures Preserves(s, Step(s, commandDictionary, line, world, now, catchChance).0)
  {
    match Dispatch(commandDictionary, line)
    case None =>
    case Some((command, args)) => ExecutePreserves(s, command, Argument(args), world, now, catchChance);
  }

  /** The session after the first k lines, each run against the network as it answers then, at its time and with its catch roll. */
  function Replay(s: Session, commandDictionary: map<string, CliCommand>, lines: seq<string>, worlds: seq<World>,
                  times: seq<int>, catchChances: seq<int>, k: nat): Session
    requires k <= |lines| && |worlds| == |lines| && |times| == |lines| && |catchChances| == |lines|
  {
    if k == 0 then s
    else
      var before := Replay(s, commandDictionary, lines, worlds, times, catchChances, k - 1);
      Step(before, commandDictionary, lines[k - 1], worlds[k - 1], times[k - 1], catchChances[k - 1]).0
  }

  /** Across any number of lines no cache entry is lost or rewritten, no caught name is lost, and the location stays consistent. */
  lemma {:induction false} ReplayPreserves(s: Session, commandDictionary: map<string, CliCommand>, lines: seq<string>,
                                           worlds: seq<World>, times: seq<int>, catchChances: seq<int>, k: nat)
    requires k <= |lines| && |worlds| == |lines| && |times| == |lines| && |catchChances| == |lines|
    ensures Preserves(s, Replay(s, commandDictionary, lines, worlds, times, catchChances, k))
  {
    if k > 0 {
      ReplayPreserves(s, commandDictionary, lines, worlds, times, catchChances, k - 1);
      var before := Replay(s, commandDictionary, lines, worlds, times, catchChances, k - 1);
      StepPreserves(before, commandDictionary, lines[k - 1], worlds[k - 1], times[k - 1], catchChances[k - 1]);
    }
  }

  /**
   * A `map` whose request fails changes nothing, so typing `map` again
   * requests the same page; when the network answers it then, its links
   * become the cursor.
   */
  lemma {:induction false} ReplayMapRetry(s: Session, worlds: seq<World>, times: seq<int>, catchChances: seq<int>)
    requires |worlds| == 2 && |times| == 2 && |catchChances| == 2
    requires MapURL(s.next) !in s.entries
    requires worlds[0].locations.get(MapURL(s.next)).Failure?
    requires worlds[1].locations.get(MapURL(s.next)).Success?
    ensures var page := worlds[1].locations.get(MapURL(s.next)).value;
            var after := Replay(s, Registered(), ["map", "map"], worlds, times, catchChances, 2);
            after.next == page.next && after.previous == page.previous && MapURL(s.next) in after.entries
  {
    var lines := ["map", "map"];
    StepMap(s, worlds[0], times[0], catchChances[0]);
    assert Replay(s, Registered(), lines, worlds, times, catchChances, 1) == s;
    StepMap(s, worlds[1], times[1], catchChances[1]);
  }

  /** One pass of getUserInput's loop: run the line's command, if it selects one. */
  method RunLine(cfg: Config, commandDictionary: map<string, CliCommand>, line: string, world: World,
                 now: int, catchChance: int)
    returns (ran: Option<Outcome>)
    requires 0 <= catchChance < 300
    modifies cfg, cfg.user, cfg.cache
    ensures (Snapshot(cfg), ran) == Step(old(Snapshot(cfg)), commandDictionary, line, world, now, catchChance)
  {
    var selected := Dispatch(commandDictionary, line);
    if selected.None? {
      return None;
    }
    var command, commandArgs := selected.value.0, selected.value.1;
    var outcome := ExecuteCommand(cfg, command, commandArgs, world, now, catchChance);
    ran := Some(outcome);
  }

  /** Line k of the loop: the session moves from the replay of k lines to that of k + 1. */
  method RunNext(cfg: Config, commandDictionary: map<string, CliCommand>, lines: seq<string>, worlds: seq<World>,
                 times: seq<int>, catchChances: seq<int>, k: nat, ghost start: Session)
    returns (exited: bool)
    requires k < |lines| && |worlds| == |lines| && |times| == |lines| && |catchChances| == |lines|
    requires 0 <= catchChances[k] < 300
    requires Snapshot(cfg) == Replay(start, commandDictionary, lines, worlds, times, catchChances, k)
    modifies cfg, cfg.user, cfg.cache
    ensures Snapshot(cfg) == Replay(start, commandDictionary, lines, worlds, times, catchChances, k + 1)
    ensures exited <==> IsExitLine(commandDictionary, lines[k])
  {
    ghost var before := Snapshot(cfg);
    var ran := RunLine(cfg, commandDictionary, lines[k], worlds[k], times[k], catchChances[k]);
    StepExits(before, commandDictionary, lines[k], worlds[k], times[k], catchChances[k]);
    exited := ran == Some(Exited);
  }

  /** The number of lines the command loop reads: up to the first exit line, or all of them. */
  function LinesRead(commandDictionary: map<string, CliCommand>, lines: seq<string>): nat {
    var e := FirstIndex(lines, line => IsExitLine(commandDictionary, line));
    if e < |lines| then e + 1 else |lines|
  }

  /** None of the first k lines selects exit. */
  predicate NoExitBefore(commandDictionary: map<string, CliCommand>, lines: seq<string>, k: nat)
    requires k <= |lines|
  {
    k == 0 || (NoExitBefore(commandDictionary, lines, k - 1) && !IsExitLine(commandDictionary, lines[k - 1]))
  }

  /** NoExitBefore says of each of the first k lines that it does not select exit. */
  lemma {:induction false} NoExitBeforeEach(commandDictionary: map<string, CliCommand>, lines: seq<string>, k: nat)
    requires k <= |lines| && NoExitBefore(commandDictionary, lines, k)
    ensures forall i :: 0 <= i < k ==> !IsExitLine(commandDictionary, lines[i])
  {
    if k > 0 {
      NoExitBeforeEach(commandDictionary, lines, k - 1);
    }
  }

  /** The loop stops after line k when that is the first exit line. */
  lemma LinesReadAtExit(commandDictionary: map<string, CliCommand>, lines: seq<string>, k: nat)
    requires k < |lines| && IsExitLine(commandDictionary, lines[k])
    requires NoExitBefore(commandDictionary, lines, k)
    ensures LinesRead(commandDictionary, lines) == k + 1
  {
    NoExitBeforeEach(commandDictionary, lines, k);
    FirstIndexAt(lines, line => IsExitLine(commandDictionary, line), k);
  }

  /** Without an exit line the loop reads every line. */
  lemma LinesReadWithoutExit(commandDictionary: map<string, CliCommand>, lines: seq<string>)
    requires NoExitBefore(commandDictionary, lines, |lines|)
    ensures LinesRead(commandDictionary, lines) == |lines|
  {
    NoExitBeforeEach(commandDictionary, lines, |lines|);
    FirstIndexNone(lines, line => IsExitLine(commandDictionary, line));
  }

  /**
   * getUserInput: the command loop. Every line is run against the network
   * as it answers then, at its time and with its catch roll; the loop ends at the first line that selects exit, or when
   * input runs out. Returns how many lines were read; the session is the
   * replay of those lines.
   */
  method GetUserInput(cfg: Config, registry: Registry, lines: seq<string>, worlds: seq<World>,
                      times: seq<int>, catchChances: seq<int>)
    returns (consumed: nat)
    requires |worlds| == |lines| && |times| == |lines| && |catchChances| == |lines|
    requires forall i :: 0 <= i < |catchChances| ==> 0 <= catchChances[i] < 300
    modifies cfg, cfg.user, cfg.cache
    ensures consumed == LinesRead(registry.commandDictionary, lines)
    ensures Snapshot(cfg)
            == Replay(old(Snapshot(cfg)), registry.commandDictionary, lines, worlds, times, catchChances, consumed)
    ensures Preserves(old(Snapshot(cfg)), Snapshot(cfg))
  {
    var commandDictionary := registry.commandDictionary;
    ghost var start := Snapshot(cfg);
    consumed := 0;
    while consumed < |lines|
      invariant 0 <= consumed <= |lines|
      invariant NoExitBefore(commandDictionary, lines, consumed)
      invariant Snapshot(cfg) == Replay(start, commandDictionary, lines, worlds, times, catchChances, consumed)
    {
      var exited := RunNext(cfg, commandDictionary, lines, worlds, times, catchChances, consumed, start);
      consumed := consumed + 1;
      if exited {
        LinesReadAtExit(commandDictionary, lines, consumed - 1);
        ReplayPreserves(start, commandDictionary, lines, worlds, times, catchChances, consumed);
        return;
      }
    }
    LinesReadWithoutExit(commandDictionary, lines);
    ReplayPreserves(start, commandDictionary, lines, worlds, times, catchChances, consumed);
  }
}
