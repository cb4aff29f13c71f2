/**
 * The REPL commands of internal/repl: browsing the location-area pages,
 * exploring an area, catching and inspecting Pokémon.
 *
 * Every remote call goes through the read-through cache of
 * PokeAPI.GenericURLCaller, at the time `now` of the command. The JSON decode
 * of the cached location-area bytes in pokemonStreamingCheck is a given
 * function from bytes to the encounter names. The random catch roll is a
 * parameter.
 */
module Commands {
  import opened Wrappers
  import TextInput
  import PokeCache
  import PokeAPI

  const LocationAreaURL: string := "https://pokeapi.co/api/v2/location-area"
  const PokemonURL: string := "https://pokeapi.co/api/v2/pokemon/"

  /** The URL commandExplore requests for a location name. */
  function ExploreURL(locationName: string): string {
    LocationAreaURL + "/" + locationName
  }

  /** The location URL is the explore URL of the location, or nothing was explored. */
  predicate LocationMatches(location: string, locationURL: string) {
    (location == "" && locationURL == "") || locationURL == ExploreURL(location)
  }

  /** locationResponse: one page of location areas, with the links to its neighbours. */
  datatype LocationPage = LocationPage(next: string, previous: string, results: seq<string>)

  /** exploreResponse: the area's name and the names of the Pokémon encountered there. */
  datatype ExploreResponse = ExploreResponse(name: string, encounters: seq<string>)

  /** actors.Pokemon, reduced to the fields the commands use. */
  datatype Pokemon = Pokemon(name: string, baseExperience: int)

  datatype CommandError =
    | FetchFailed(reason: string)  // the error of GenericURLCaller, returned as is
    | NoPokemonName                // "No pokemon name provided"
    | ParseFailed(reason: string)  // "Failed to parse cache data: ..."
    | NotInArea                    // "Pokemon is not in this area"
    | NotCaught(name: string)      // "You have not caught a <name>"
    | NoneCaught                   // "You have not caught any pokemon."

  /** actors.User: the caught Pokémon by name. */
  class User {
    var caughtPokemon: map<string, Pokemon>

    constructor (caught: map<string, Pokemon>)
      ensures caughtPokemon == caught
    {
      caughtPokemon := caught;
    }
  }

  /** config: the pagination cursor, the explored location, the cache and the user. */
  class Config {
    var nextLocationsURL: string
    var previousLocationsURL: string
    var currentLocation: string
    var currentLocationURL: string
    const cache: PokeCache.Cache
    const user: User

    /** The current location and its URL agree. */
    ghost predicate LocationConsistent()
      reads this
    {
      LocationMatches(currentLocation, currentLocationURL)
    }

    /** newConfig: all four strings empty, the given cache and user. */
    constructor (cache: PokeCache.Cache, user: User)
      ensures nextLocationsURL == "" && previousLocationsURL == ""
      ensures currentLocation == "" && currentLocationURL == ""
      ensures this.cache == cache && this.user == user
      ensures LocationConsistent()
    {
      nextLocationsURL := "";
      previousLocationsURL := "";
      currentLocation := "";
      currentLocationURL := "";
      this.cache := cache;
      this.user := user;
    }
  }

  /**
   * commandMap: request the next page (the first page when there is no next
   * link) and move the cursor to the links of the page received.
   */
  method CommandMap(cfg: Config, api: PokeAPI.Endpoint<LocationPage>, now: int)
    returns (url: string, err: Option<CommandError>)
    modifies cfg, cfg.cache
    ensures url == if old(cfg.nextLocationsURL) == "" then LocationAreaURL else old(cfg.nextLocationsURL)
    ensures cfg.cache.entries == PokeAPI.Stored(old(cfg.cache.entries), url, now, api)
    ensures var page := PokeAPI.Lookup(old(cfg.cache.entries), url, api);
            page.Failure? ==> err == Some(FetchFailed(page.error)) && unchanged(cfg)
    ensures var page := PokeAPI.Lookup(old(cfg.cache.entries), url, api);
            page.Success? ==>
              && err == None
              && cfg.nextLocationsURL == page.value.next
              && cfg.previousLocationsURL == page.value.previous
              && cfg.currentLocation == old(cfg.currentLocation)
              && cfg.currentLocationURL == old(cfg.currentLocationURL)
  {
    if cfg.nextLocationsURL == "" {
      url := LocationAreaURL;
    } else {
      url := cfg.nextLocationsURL;
    }
    var locationMap := PokeAPI.GenericURLCaller(url, cfg.cache, api, now);
    if locationMap.Failure? {
      return url, Some(FetchFailed(locationMap.error));
    }
    cfg.nextLocationsURL := locationMap.value.next;
    cfg.previousLocationsURL := locationMap.value.previous;
    err := None;
  }

  /**
   * commandMapb: with no previous link do nothing (no request); otherwise
   * request the previous page and move the cursor to its links.
   */
  method CommandMapb(cfg: Config, api: PokeAPI.Endpoint<LocationPage>, now: int)
    returns (url: Option<string>, err: Option<CommandError>)
    modifies cfg, cfg.cache
    ensures old(cfg.previousLocationsURL) == "" ==>
              url == None && err == None && unchanged(cfg) && unchanged(cfg.cache)
    ensures old(cfg.previousLocationsURL) != "" ==> url == Some(old(cfg.previousLocationsURL))
    ensures url.Some? ==> cfg.cache.entries == PokeAPI.Stored(old(cfg.cache.entries), url.value, now, api)
    ensures url.Some? && PokeAPI.Lookup(old(cfg.cache.entries), url.value, api).Failure? ==>
              err == Some(FetchFailed(PokeAPI.Lookup(old(cfg.cache.entries), url.value, api).error)) && unchanged(cfg)
    ensures url.Some? && PokeAPI.Lookup(old(cfg.cache.entries), url.value, api).Success? ==>
              var page := PokeAPI.Lookup(old(cfg.cache.entries), url.value, api).value;
              && err == None
              && cfg.nextLocationsURL == page.next
              && cfg.previousLocationsURL == page.previous
              && cfg.currentLocation == old(cfg.currentLocation)
              && cfg.currentLocationURL == old(cfg.currentLocationURL)
  {
    if cfg.previousLocationsURL == "" {
      return None, None;
    }
    var target := cfg.previousLocationsURL;
    url := Some(target);
    var locationMap := PokeAPI.GenericURLCaller(target, cfg.cache, api, now);
    if locationMap.Failure? {
      return url, Some(FetchFailed(locationMap.error));
    }
    cfg.previousLocationsURL := locationMap.value.previous;
    cfg.nextLocationsURL := locationMap.value.next;
    err := None;
  }

  /**
   * commandExplore: with no argument do nothing; otherwise request the area
   * and, only when that succeeds, make it the current location.
   */
  method CommandExplore(cfg: Config, args: seq<string>, api: PokeAPI.Endpoint<ExploreResponse>, now: int)
    returns (url: Option<string>, err: Option<CommandError>)
    modifies cfg, cfg.cache
    ensures |args| == 0 ==> url == None && err == None && unchanged(cfg) && unchanged(cfg.cache)
    ensures |args| > 0 ==> url == Some(ExploreURL(args[0]))
    ensures url.Some? ==> cfg.cache.entries == PokeAPI.Stored(old(cfg.cache.entries), url.value, now, api)
    ensures url.Some? && PokeAPI.Lookup(old(cfg.cache.entries), url.value, api).Failure? ==>
              err == Some(FetchFailed(PokeAPI.Lookup(old(cfg.cache.entries), url.value, api).error)) && unchanged(cfg)
    ensures url.Some? && PokeAPI.Lookup(old(cfg.cache.entries), url.value, api).Success? ==>
              && err == None
              && cfg.currentLocation == args[0]
              && cfg.currentLocationURL == url.value
              && cfg.nextLocationsURL == old(cfg.nextLocationsURL)
              && cfg.previousLocationsURL == old(cfg.previousLocationsURL)
    ensures old(cfg.LocationConsistent()) ==> cfg.LocationConsistent()
  {
    if |args| == 0 {
      return None, None;
    }
    var locationName := args[0];
    var target := ExploreURL(locationName);
    url := Some(target);
    var locationInfo := PokeAPI.GenericURLCaller(target, cfg.cache, api, now);
    if locationInfo.Failure? {
      return url, Some(FetchFailed(locationInfo.error));
    }
    cfg.currentLocation := locationName;
    cfg.currentLocationURL := target;
    err := None;
  }

  /**
   * What pokemonStreamingCheck reports: an error without a name; false when
   * the current location is not cached; the decode error when the cached bytes
   * do not decode; otherwise whether some encounter matches the name ignoring
   * case.
   */
  function EncounterCheck(entries: map<string, PokeCache.CacheEntry>, locationURL: string, args: seq<string>,
                          decode: seq<PokeCache.Byte> -> Result<seq<string>, string>): (bool, Option<CommandError>)
  {
    if |args| == 0 then (false, Some(NoPokemonName))
    else if locationURL !in entries then (false, None)
    else match decode(entries[locationURL].val)
      case Failure(e) => (false, Some(ParseFailed(e)))
      case Success(names) => (exists i :: 0 <= i < |names| && TextInput.EqualFold(names[i], args[0]), None)
  }

  /** pokemonStreamingCheck: a read of the cache and a linear search that stops at the first match. */
  method PokemonStreamingCheck(cfg: Config, args: seq<string>, decode: seq<PokeCache.Byte> -> Result<seq<string>, string>)
    returns (found: bool, err: Option<CommandError>)
    ensures (found, err) == EncounterCheck(cfg.cache.entries, cfg.currentLocationURL, args, decode)
  {
    if |args| == 0 {
      return false, Some(NoPokemonName);
    }
    var cacheData, cached := cfg.cache.Get(cfg.currentLocationURL);
    if !cached {
      return false, None;
    }
    var partialResponse := decode(cacheData);
    if partialResponse.Failure? {
      return false, Some(ParseFailed(partialResponse.error));
    }
    var names := partialResponse.value;
    var i := 0;
    while i < |names|
      invariant 0 <= i <= |names|
      invariant forall j :: 0 <= j < i ==> !TextInput.EqualFold(names[j], args[0])
    {
      if TextInput.EqualFold(names[i], args[0]) {
        return true, None;
      }
      i := i + 1;
    }
    return false, None;
  }

  /** A positive report never carries an error. */
  lemma EncounterFoundHasNoError(entries: map<string, PokeCache.CacheEntry>, locationURL: string, args: seq<string>,
                                 decode: seq<PokeCache.Byte> -> Result<seq<string>, string>)
    ensures EncounterCheck(entries, locationURL, args, decode).0 ==> EncounterCheck(entries, locationURL, args, decode).1 == None
  {
  }

  /** The check ignores the case of the name asked for. */
  lemma EncounterCheckIgnoresCase(entries: map<string, PokeCache.CacheEntry>, locationURL: string, a: string, b: string,
                                  decode: seq<PokeCache.Byte> -> Result<seq<string>, string>)
    requires TextInput.ToLower(a) == TextInput.ToLower(b)
    ensures EncounterCheck(entries, locationURL, [a], decode) == EncounterCheck(entries, locationURL, [b], decode)
  {
  }

  /**
   * commandCatch: without a name do nothing; unless the check finds the
   * Pokémon in the current area report NotInArea (the check's own error is not
   * looked at: a true report never carries one); otherwise request the Pokémon
   * and catch it when the roll `catchChance`, drawn from [0, 300), is at most
   * its base experience.
   */
  method CommandCatch(cfg: Config, args: seq<string>, decode: seq<PokeCache.Byte> -> Result<seq<string>, string>,
                      api: PokeAPI.Endpoint<Pokemon>, now: int, catchChance: int)
    returns (err: Option<CommandError>, caught: bool)
    requires 0 <= catchChance < 300
    modifies cfg.user, cfg.cache
    ensures |args| == 0 ==> err == None && !caught && unchanged(cfg.user) && unchanged(cfg.cache)
    ensures |args| > 0 && !EncounterCheck(old(cfg.cache.entries), cfg.currentLocationURL, [args[0]], decode).0 ==>
              err == Some(NotInArea) && !caught && unchanged(cfg.user) && unchanged(cfg.cache)
    ensures |args| > 0 && EncounterCheck(old(cfg.cache.entries), cfg.currentLocationURL, [args[0]], decode).0 ==>
              cfg.cache.entries == PokeAPI.Stored(old(cfg.cache.entries), PokemonURL + args[0], now, api)
    ensures |args| > 0 && EncounterCheck(old(cfg.cache.entries), cfg.currentLocationURL, [args[0]], decode).0 ==>
              var response := PokeAPI.Lookup(old(cfg.cache.entries), PokemonURL + args[0], api);
              && (response.Failure? ==> err == Some(FetchFailed(response.error)) && !caught && unchanged(cfg.user))
              && (response.Success? ==>
                    && err == None
                    && (caught <==> catchChance <= response.value.baseExperience)
                    && cfg.user.caughtPokemon ==
                         if caught then old(cfg.user.caughtPokemon)[response.value.name := response.value]
                         else old(cfg.user.caughtPokemon))
  {
    if |args| == 0 {
      return None, false;
    }
    var pokemonName := args[0];
    var inArea, checkErr := PokemonStreamingCheck(cfg, [pokemonName], decode);
    if !inArea {
      return Some(NotInArea), false;
    }
    var url := PokemonURL + pokemonName;
    var pokemon := PokeAPI.GenericURLCaller(url, cfg.cache, api, now);
    if pokemon.Failure? {
      return Some(FetchFailed(pokemon.error)), false;
    }
    if catchChance > pokemon.value.baseExperience {
      caught := false;
    } else {
      caught := true;
      cfg.user.caughtPokemon := cfg.user.caughtPokemon[pokemon.value.name := pokemon.value];
    }
    err := None;
  }

  /** commandInspect: an error unless the named Pokémon was caught (the source indexes args[0] unchecked). */
  method CommandInspect(cfg: Config, args: seq<string>) returns (err: Option<CommandError>)
    requires |args| > 0
    ensures err == None <==> args[0] in cfg.user.caughtPokemon
    ensures err != None ==> err == Some(NotCaught(args[0]))
  {
    var pokemonName := args[0];
    if pokemonName !in cfg.user.caughtPokemon {
      return Some(NotCaught(pokemonName));
    }
    return None;
  }

  /** commandFullInspect: commandInspect's guard, then more printing. */
  method CommandFullInspect(cfg: Config, args: seq<string>) returns (err: Option<CommandError>)
    requires |args| > 0
    ensures err == None <==> args[0] in cfg.user.caughtPokemon
    ensures err != None ==> err == Some(NotCaught(args[0]))
  {
    err := CommandInspect(cfg, [args[0]]);
  }

  /** commandPokedex: an error when nothing was caught. */
  method CommandPokedex(cfg: Config) returns (err: Option<CommandError>)
    ensures err != None <==> |cfg.user.caughtPokemon| == 0
    ensures err != None ==> err == Some(NoneCaught)
  {
    if |cfg.user.caughtPokemon| <= 0 {
      return Some(NoneCaught);
    }
    return None;
  }

  /**
   * Explore, then catch: exploring an area stores its response in the cache
   * under the area's URL and makes that URL the current location, which is
   * where pokemonStreamingCheck looks. So a Pokémon the response lists, in
   * any letter case, is never reported as not in the area, provided the
   * partial decode of the marshalled response recovers its encounter names.
   */
  method ExploreThenCatch(cfg: Config, area: string, name: string, areas: PokeAPI.Endpoint<ExploreResponse>,
                          decode: seq<PokeCache.Byte> -> Result<seq<string>, string>,
                          pokemon: PokeAPI.Endpoint<Pokemon>, t1: int, t2: int, catchChance: int)
    returns (exploreErr: Option<CommandError>, catchErr: Option<CommandError>, caught: bool)
    requires 0 <= catchChance < 300
    requires ExploreURL(area) !in cfg.cache.entries && areas.get(ExploreURL(area)).Success?
    requires var response := areas.get(ExploreURL(area)).value;
             decode(areas.encode(response)) == Success(response.encounters)
    requires var encounters := areas.get(ExploreURL(area)).value.encounters;
             exists i :: 0 <= i < |encounters| && TextInput.EqualFold(encounters[i], name)
    modifies cfg, cfg.user, cfg.cache
    ensures exploreErr == None && cfg.currentLocation == area
    ensures catchErr != Some(NotInArea)
    ensures var response := PokeAPI.Lookup(old(cfg.cache.entries), PokemonURL + name, pokemon);
            response.Success? ==>
              && catchErr == None
              && (caught <==> catchChance <= response.value.baseExperience)
              && (caught ==> response.value.name in cfg.user.caughtPokemon
                              && cfg.user.caughtPokemon[response.value.name] == response.value)
  {
    var url;
    url, exploreErr := CommandExplore(cfg, [area], areas, t1);
    ghost var explored := cfg.cache.entries;
    assert (PokemonURL + name)[26] == 'p' && ExploreURL(area)[26] == 'l';
    assert PokeAPI.Lookup(explored, PokemonURL + name, pokemon)
        == PokeAPI.Lookup(old(cfg.cache.entries), PokemonURL + name, pokemon);
    catchErr, caught := CommandCatch(cfg, [name], decode, pokemon, t2, catchChance);
  }
}
