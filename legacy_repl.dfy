/**
 * The earlier shell in package repl (repl/repl.go): four commands over one
 * package-level locationResponse, into which every fetched page is decoded.
 *
 * The HTTP GET and JSON decode of genericURLCaller are a given function from
 * the URL to either the decoded body or an error message. The body is
 * decoded over the response already there, as encoding/json does.
 */
module LegacyRepl {
  import opened Wrappers
  import TextInput

  const LocationAreaURL: string := "https://pokeapi.co/api/v2/location-area"

  datatype LocationResult = LocationResult(name: string, url: string)

  /** One decoded page: the count, the links to its neighbours and its location areas. */
  datatype LocationPage = LocationPage(count: int, next: string, previous: string, results: seq<LocationResult>)

  /** locationResponse: the package-level `config` the commands read and overwrite. */
  class LocationResponse {
    var count: int
    var next: string
    var previous: string
    var results: seq<LocationResult>

    /** &locationResponse{}: every field at its zero value. */
    constructor ()
      ensures Page() == LocationPage(0, "", "", [])
    {
      count := 0;
      next := "";
      previous := "";
      results := [];
    }

    /** The fields as one value. */
    function Page(): LocationPage
      reads this
    {
      LocationPage(count, next, previous, results)
    }
  }

  /**
   * A decoded body: each field the JSON gives, or None where it leaves the
   * key out or, for a string or the count, gives null. For those fields
   * json.Decoder.Decode keeps the old value. A null list of results decodes
   * as an empty one, Some([]).
   */
  datatype PageBody = PageBody(
    count: Option<int>,
    next: Option<string>,
    previous: Option<string>,
    results: Option<seq<LocationResult>>)

  /** Decoding into the existing response: each field the body gives replaces the old one. */
  function Merged(page: LocationPage, body: PageBody): LocationPage {
    LocationPage(
      if body.count.Some? then body.count.value else page.count,
      if body.next.Some? then body.next.value else page.next,
      if body.previous.Some? then body.previous.value else page.previous,
      if body.results.Some? then body.results.value else page.results)
  }

  /** Decoding the same body twice has the effect of decoding it once. */
  lemma MergedIdempotent(page: LocationPage, body: PageBody)
    ensures Merged(Merged(page, body), body) == Merged(page, body)
  {
  }

  /** A body that gives every field determines the response, whatever it held before. */
  lemma MergedComplete(page: LocationPage, other: LocationPage, body: PageBody)
    requires body.count.Some? && body.next.Some? && body.previous.Some? && body.results.Some?
    ensures Merged(page, body) == Merged(other, body)
    ensures Merged(page, body) == LocationPage(body.count.value, body.next.value, body.previous.value, body.results.value)
  {
  }

  /** A link the body leaves out or gives as null keeps its old value. */
  lemma MergedKeepsMissingLinks(page: LocationPage, body: PageBody)
    ensures body.next.None? ==> Merged(page, body).next == page.next
    ensures body.previous.None? ==> Merged(page, body).previous == page.previous
  {
  }

  datatype CommandKind = Exit | Help | Map | Mapb

  /** cliCommand: the name and which callback runs (the help text is only printed, and is left out). */
  datatype CliCommand = CliCommand(name: string, callback: CommandKind)

  /** The name initMap registers each callback under. */
  function NameOf(kind: CommandKind): string {
    match kind
    case Exit => "exit"
    case Help => "help"
    case Map => "map"
    case Mapb => "mapb"
  }

  /** The four entries initMap writes, each under its command's name. */
  function Registered(): map<string, CliCommand> {
    map[
      "exit" := CliCommand(NameOf(Exit), Exit),
      "help" := CliCommand(NameOf(Help), Help),
      "map" := CliCommand(NameOf(Map), Map),
      "mapb" := CliCommand(NameOf(Mapb), Mapb)
    ]
  }

  /** The package-level commandDictionary. */
  class Registry {
    var commandDictionary: map<string, CliCommand>

    /** make(map[string]cliCommand). */
    constructor ()
      ensures commandDictionary == map[]
    {
      commandDictionary := map[];
    }

    /** initMap: writes the four entries at once, overwriting those of the same names. */
    method InitMap()
      modifies this
      ensures commandDictionary == old(commandDictionary) + Registered()
    {
      commandDictionary := commandDictionary + Registered();
    }
  }

  /** Each callback is registered under its own name, and every entry is one of those. */
  lemma RegisteredNames(kind: CommandKind, k: string)
    ensures NameOf(kind) in Registered() && Registered()[NameOf(kind)] == CliCommand(NameOf(kind), kind)
    ensures k in Registered() ==> Registered()[k] == CliCommand(k, Registered()[k].callback)
                                  && NameOf(Registered()[k].callback) == k
  {
  }

  /**
   * The command a line selects in this shell's getUserInput, or None for a
   * blank line or an unknown first word. The other words are not passed on:
   * the callbacks take only the shared config.
   */
  function Dispatch(commandDictionary: map<string, CliCommand>, line: string): (r: Option<CliCommand>)
    ensures r.Some? ==> r.value in commandDictionary.Values
  {
    var input := TextInput.CleanInput(line);
    if |input| == 0 then None
    else if input[0] !in commandDictionary then None
    else Some(commandDictionary[input[0]])
  }

  /** A blank line selects nothing. */
  lemma DispatchBlank(commandDictionary: map<string, CliCommand>, line: string)
    requires TextInput.AllSpace(line)
    ensures Dispatch(commandDictionary, line) == None
  {
    TextInput.CleanInputBlank(line);
  }

  /** The first word alone decides, in any letter case; what follows it is ignored. */
  lemma DispatchCommandWord(commandDictionary: map<string, CliCommand>, w: string, rest: string)
    requires TextInput.IsWord(w)
    requires rest == [] || TextInput.IsSpace(rest[0])
    ensures Dispatch(commandDictionary, w + rest) ==
              if TextInput.ToLower(w) in commandDictionary then Some(commandDictionary[TextInput.ToLower(w)]) else None
  {
    TextInput.CleanInputWordThen(w, rest);
  }

  /**
   * commandMap: request the next page (the first page when the next link is
   * empty) and decode it into the config.
   */
  method CommandMap(cfg: LocationResponse, fetch: string -> Result<PageBody, string>)
    returns (url: string, err: Option<string>)
    modifies cfg
    ensures url == if old(cfg.next) == "" then LocationAreaURL else old(cfg.next)
    ensures fetch(url).Failure? ==> err == Some(fetch(url).error) && unchanged(cfg)
    ensures fetch(url).Success? ==> err == None && cfg.Page() == Merged(old(cfg.Page()), fetch(url).value)
  {
    if cfg.next == "" {
      url := LocationAreaURL;
    } else {
      url := cfg.next;
    }
    err := GenericURLCaller(url, cfg, fetch);
  }

  /**
   * commandMapb: with an empty previous link do nothing (no request);
   * otherwise request the previous page and decode it into the config.
   */
  method CommandMapb(cfg: LocationResponse, fetch: string -> Result<PageBody, string>)
    returns (url: Option<string>, err: Option<string>)
    modifies cfg
    ensures old(cfg.previous) == "" ==> url == None && err == None && unchanged(cfg)
    ensures old(cfg.previous) != "" ==> url == Some(old(cfg.previous))
    ensures url.Some? && fetch(url.value).Failure? ==> err == Some(fetch(url.value).error) && unchanged(cfg)
    ensures url.Some? && fetch(url.value).Success? ==> err == None && cfg.Page() == Merged(old(cfg.Page()), fetch(url.value).value)
  {
    if cfg.previous == "" {
      return None, None;
    }
    url := Some(cfg.previous);
    err := GenericURLCaller(cfg.previous, cfg, fetch);
  }

  /**
   * genericURLCaller: on success the fetched body is decoded over the
   * config's fields; on failure nothing changes.
   */
  method GenericURLCaller(url: string, cfg: LocationResponse, fetch: string -> Result<PageBody, string>)
    returns (err: Option<string>)
    modifies cfg
    ensures fetch(url).Failure? ==> err == Some(fetch(url).error) && unchanged(cfg)
    ensures fetch(url).Success? ==> err == None && cfg.Page() == Merged(old(cfg.Page()), fetch(url).value)
  {
    var response := fetch(url);
    if response.Failure? {
      return Some(response.error);
    }
    var page := Merged(cfg.Page(), response.value);
    cfg.count, cfg.next, cfg.previous, cfg.results := page.count, page.next, page.previous, page.results;
    err := None;
  }

  /** Whether the loop goes on or the program exits. */
  datatype Outcome = Continue(err: Option<string>) | Exited

  /** `command.callback(config)`: run one command against the shared config. */
  method Invoke(cfg: LocationResponse, command: CliCommand, fetch: string -> Result<PageBody, string>)
    returns (outcome: Outcome)
    modifies cfg
    ensures outcome == Exited <==> command.callback == Exit
    ensures command.callback == Help ==> outcome == Continue(None)
    ensures command.callback in {Exit, Help} ==> unchanged(cfg)
    ensures command.callback == Map ==>
              var url := if old(cfg.next) == "" then LocationAreaURL else old(cfg.next);
              && (fetch(url).Failure? ==> outcome == Continue(Some(fetch(url).error)) && unchanged(cfg))
              && (fetch(url).Success? ==> outcome == Continue(None) && cfg.Page() == Merged(old(cfg.Page()), fetch(url).value))
    ensures command.callback == Mapb && old(cfg.previous) == "" ==> unchanged(cfg) && outcome == Continue(None)
    ensures command.callback == Mapb && old(cfg.previous) != "" ==>
              var url := old(cfg.previous);
              && (fetch(url).Failure? ==> outcome == Continue(Some(fetch(url).error)) && unchanged(cfg))
              && (fetch(url).Success? ==> outcome == Continue(None) && cfg.Page() == Merged(old(cfg.Page()), fetch(url).value))
  {
    match command.callback
    case Exit =>
      outcome := Exited;
    case Help =>
      outcome := Continue(None);
    case Map =>
      var url, err := CommandMap(cfg, fetch);
      outcome := Continue(err);
    case Mapb =>
      var url, err := CommandMapb(cfg, fetch);
      outcome := Continue(err);
  }

  /**
   * Paging forward then back: after `map` has loaded a page whose previous
   * link is p, `mapb` requests exactly p. The link is the body's, or the old
   * one when the body gives none.
   */
  method MapThenMapb(cfg: LocationResponse, fetch: string -> Result<PageBody, string>)
    returns (forward: string, back: Option<string>)
    modifies cfg
    ensures forward == if old(cfg.next) == "" then LocationAreaURL else old(cfg.next)
    ensures fetch(forward).Success? ==>
              var previous := Merged(old(cfg.Page()), fetch(forward).value).previous;
              back == if previous == "" then None else Some(previous)
  {
    var err;
    forward, err := CommandMap(cfg, fetch);
    if err.None? {
      back, err := CommandMapb(cfg, fetch);
    } else {
      back := None;
    }
  }

  /**
   * At the end of the list: when the page `map` loads gives no next link (the
   * JSON null of the last page), the next link keeps the URL just requested,
   * or stays empty, and the following `map` requests the same page again.
   */
  method MapPastLastPage(cfg: LocationResponse, fetch: string -> Result<PageBody, string>)
    returns (first: string, second: string)
    modifies cfg
    ensures first == if old(cfg.next) == "" then LocationAreaURL else old(cfg.next)
    ensures fetch(first).Success? && fetch(first).value.next.None? ==> second == first
  {
    var err;
    first, err := CommandMap(cfg, fetch);
    second, err := CommandMap(cfg, fetch);
  }

  /**
   * At the start of the list: when the page `mapb` loads from the previous
   * link p gives no previous link (the JSON null of the first page), the
   * previous link keeps p, so the following `mapb` requests p again instead
   * of reporting that there is no previous page.
   */
  method MapbPastFirstPage(cfg: LocationResponse, fetch: string -> Result<PageBody, string>)
    returns (first: Option<string>, second: Option<string>)
    modifies cfg
    ensures first == if old(cfg.previous) == "" then None else Some(old(cfg.previous))
    ensures first.Some? && fetch(first.value).Success? && fetch(first.value).value.previous.None? ==> second == first
  {
    var err;
    first, err := CommandMapb(cfg, fetch);
    second, err := CommandMapb(cfg, fetch);
  }
}
