/**
 * The message-bus session as the driver and the orchestrator see it: the
 * toolkit's clients, the per-task endpoint, picking the client of the bus
 * server, and dumping the session's resources (`get_resources` in run.py and
 * the resource dump of the orchestrator's submit tool).
 *
 * Listing and reading resources, and parsing XML, are inputs: `listResources`
 * gives a session's resource URIs or the `repr` of what it raised,
 * `readResource` the texts of a resource's `contents` or the `repr` of what it
 * raised, `parse` the parsed document or `None` when the parser raises.
 */
module Mcp {
  import opened Wrappers
  import opened Ledger

  /** A connected client: the URL it was configured with and its session. */
  datatype Client = Client(url: string, session: nat)

  datatype Toolkit = Toolkit(clients: seq<Client>)

  /** The bus server's address. */
  const ServerHost := "localhost:5555"

  /** The per-task endpoint of the bus server. */
  function TaskUrl(taskId: string): string {
    "http://" + ServerHost + "/devmode/exampleApplication/privkey/" + taskId + "/sse"
  }

  predicate StartsWith(s: string, prefix: string) {
    |prefix| <= |s| && s[..|prefix|] == prefix
  }

  /** Length of the leading run of characters other than '/'. */
  function SegmentLen(s: string): (n: nat)
    ensures n <= |s|
    ensures forall i :: 0 <= i < n ==> s[i] != '/'
    ensures n < |s| ==> s[n] == '/'
  {
    if s == [] || s[0] == '/' then 0 else 1 + SegmentLen(s[1..])
  }

  /**
   * `re.match(r"http://([^/]+)/(.+)", url)` and its first group: "http://",
   * a non-empty run without '/', a '/', then at least one character that is
   * not a newline ('.' does not match a newline).
   */
  function MatchServer(url: string): Option<string> {
    if StartsWith(url, "http://") then
      var rest := url[7..];
      var n := SegmentLen(rest);
      if 0 < n && n + 1 < |rest| && rest[n + 1] != '\n' then Some(rest[..n]) else None
    else None
  }

  /** The decomposition the regular expression accepts, with `host` as its first group. */
  predicate RegexMatches(url: string, host: string) {
    && |host| > 0
    && (forall i :: 0 <= i < |host| ==> host[i] != '/')
    && |url| > 8 + |host|
    && url[..7] == "http://"
    && url[7..7 + |host|] == host
    && url[7 + |host|] == '/'
    && url[8 + |host|] != '\n'
  }

  lemma SegmentLenOf(host: string, t: string)
    requires forall i :: 0 <= i < |host| ==> host[i] != '/'
    requires |t| > 0 && t[0] == '/'
    ensures SegmentLen(host + t) == |host|
  {
    if host != [] {
      assert (host + t)[1..] == host[1..] + t;
      SegmentLenOf(host[1..], t);
    }
  }

  /** `MatchServer` returns exactly the first group of the regular expression. */
  lemma MatchServerIsRegex(url: string, host: string)
    ensures MatchServer(url) == Some(host) <==> RegexMatches(url, host)
  {
    if RegexMatches(url, host) {
      var rest := url[7..];
      assert rest == host + rest[|host|..];
      SegmentLenOf(host, rest[|host|..]);
    }
  }

  /** Any "http://" URL whose host is followed by a path of at least one line character matches. */
  lemma RegexOfConcat(host: string, path: string)
    requires |host| > 0 && forall i :: 0 <= i < |host| ==> host[i] != '/'
    requires |path| >= 2 && path[0] == '/' && path[1] != '\n'
    ensures RegexMatches("http://" + host + path, host)
  {
    var url := "http://" + host + path;
    assert url[..7] == "http://";
    assert url[7..7 + |host|] == host;
    assert url[7 + |host|] == path[0];
    assert url[8 + |host|] == path[1];
  }

  /** The driver's endpoint always matches, with the bus server's address as host. */
  lemma TaskUrlMatches(taskId: string)
    ensures MatchServer(TaskUrl(taskId)) == Some(ServerHost)
  {
    var tail := "/devmode/exampleApplication/privkey/" + taskId + "/sse";
    assert TaskUrl(taskId) == "http://" + ServerHost + tail;
    assert tail[0] == '/' && tail[1] == 'd';
    RegexOfConcat(ServerHost, tail);
    MatchServerIsRegex(TaskUrl(taskId), ServerHost);
  }

  /** The first client whose URL starts with `prefix`. */
  function FirstClient(clients: seq<Client>, prefix: string): (r: Option<Client>)
    ensures r.Some? ==> r.value in clients && StartsWith(r.value.url, prefix)
  {
    if clients == [] then None
    else if StartsWith(clients[0].url, prefix) then Some(clients[0])
    else FirstClient(clients[1..], prefix)
  }

  /**
   * `FirstClient` finds nothing exactly when no client's URL starts with
   * `prefix`, and otherwise the client at the first position whose URL does.
   */
  lemma {:induction false} FirstClientIsFirst(clients: seq<Client>, prefix: string)
    ensures FirstClient(clients, prefix).None? <==>
      forall k :: 0 <= k < |clients| ==> !StartsWith(clients[k].url, prefix)
    ensures FirstClient(clients, prefix).Some? ==>
      exists j :: (&& 0 <= j < |clients|
                   && FirstClient(clients, prefix) == Some(clients[j])
                   && forall k :: 0 <= k < j ==> !StartsWith(clients[k].url, prefix))
  {
    if clients != [] && !StartsWith(clients[0].url, prefix) {
      var rest := clients[1..];
      FirstClientIsFirst(rest, prefix);
      assert forall k :: 1 <= k < |clients| ==> clients[k] == rest[k - 1];
      if FirstClient(clients, prefix).Some? {
        var j :| && 0 <= j < |rest|
                 && FirstClient(rest, prefix) == Some(rest[j])
                 && forall k :: 0 <= k < j ==> !StartsWith(rest[k].url, prefix);
        assert FirstClient(clients, prefix) == Some(clients[j + 1]);
        assert forall k :: 1 <= k < j + 1 ==> clients[k] == rest[k - 1];
      }
    } else if clients != [] {
      assert FirstClient(clients, prefix) == Some(clients[0]);
    }
  }

  /** The loop that picks the client: the first one whose URL starts with `prefix`. */
  method FindClient(clients: seq<Client>, prefix: string) returns (found: Option<Client>)
    ensures found == FirstClient(clients, prefix)
  {
    found := None;
    var i := 0;
    while i < |clients|
      invariant 0 <= i <= |clients|
      invariant FirstClient(clients, prefix) == FirstClient(clients[i..], prefix)
    {
      if StartsWith(clients[i].url, prefix) {
        found := Some(clients[i]);
        return;
      }
      assert clients[i..][1..] == clients[i + 1..];
      i := i + 1;
    }
  }

  /** What indexing the empty list of contents raises. */
  const EmptyContentsError := "IndexError('list index out of range')"

  /** `contents.contents[0].text`: the first content's text, or the `IndexError` of an empty list. */
  function FirstText(read: Result<seq<string>, string>): (r: Result<string, string>)
    ensures read.Err? ==> r == Err(read.error)
    ensures read.Ok? && |read.value| > 0 ==> r == Ok(read.value[0])
    ensures read.Ok? && |read.value| == 0 ==> r == Err(EmptyContentsError)
  {
    match read
    case Err(e) => Err(e)
    case Ok(texts) => if |texts| == 0 then Err(EmptyContentsError) else Ok(texts[0])
  }

  /** The parsed document, or `{"raw_xml": text}` when the parser raises. */
  function ParsedOrRaw(text: string, parse: string -> Option<Xml>): (a: Artifact)
    ensures parse(text).Some? ==> a == Parsed(parse(text).value)
    ensures parse(text).None? ==> a == RawXml(text)
  {
    match parse(text)
    case Some(doc) => Parsed(doc)
    case None => RawXml(text)
  }

  /** The driver's entry for one resource: any failure to read it becomes an error marker. */
  function ArtifactOf(read: Result<seq<string>, string>, parse: string -> Option<Xml>): (a: Artifact)
    ensures a.ReadError? <==> FirstText(read).Err?
    ensures a.RawXml? ==> parse(a.raw).None? && FirstText(read) == Ok(a.raw)
    ensures a.Parsed? ==> exists t :: FirstText(read) == Ok(t) && parse(t) == Some(a.doc)
  {
    match FirstText(read)
    case Err(e) => ReadError(e)
    case Ok(text) => ParsedOrRaw(text, parse)
  }

  /**
   * What the driver's dump is: empty when no client points at the bus server;
   * the listing failure when listing raises; otherwise one entry per listed
   * URI, each depending on that resource alone.
   */
  function ExpectedDump(
    toolkit: Toolkit,
    listResources: nat -> Result<seq<string>, string>,
    readResource: (nat, string) -> Result<seq<string>, string>,
    parse: string -> Option<Xml>): Result<map<string, Artifact>, string>
  {
    match FirstClient(toolkit.clients, "http://" + ServerHost)
    case None => Ok(map[])
    case Some(c) =>
      match listResources(c.session)
      case Err(e) => Err(e)
      case Ok(uris) => Ok(map u | u in uris :: ArtifactOf(readResource(c.session, u), parse))
  }

  /**
   * `get_resources` in run.py. Its `if not match: return {}` branch is dead:
   * the endpoint always matches (`TaskUrlMatches`).
   */
  method GetResources(
    toolkit: Toolkit, taskId: string,
    listResources: nat -> Result<seq<string>, string>,
    readResource: (nat, string) -> Result<seq<string>, string>,
    parse: string -> Option<Xml>)
    returns (r: Result<map<string, Artifact>, string>)
    ensures r == ExpectedDump(toolkit, listResources, readResource, parse)
  {
    var url := TaskUrl(taskId);
    TaskUrlMatches(taskId);
    var server := MatchServer(url).value;
    var client := FindClient(toolkit.clients, "http://" + server);
    if client.None? {
      return Ok(map[]);
    }
    var session := client.value.session;
    var listing := listResources(session);
    if listing.Err? {
      return Err(listing.error);
    }
    var dump := DumpResources(session, listing.value, readResource, parse);
    r := Ok(dump);
  }

  /** The loop of `get_resources`: one entry per URI, read failures caught per URI. */
  method DumpResources(
    session: nat, uris: seq<string>,
    readResource: (nat, string) -> Result<seq<string>, string>,
    parse: string -> Option<Xml>)
    returns (dump: map<string, Artifact>)
    ensures dump == map u | u in uris :: ArtifactOf(readResource(session, u), parse)
  {
    dump := map[];
    var i := 0;
    while i < |uris|
      invariant 0 <= i <= |uris|
      invariant forall u :: u in dump <==> u in uris[..i]
      invariant forall u :: u in dump ==> dump[u] == ArtifactOf(readResource(session, u), parse)
    {
      var uri := uris[i];
      var read := readResource(session, uri);
      match FirstText(read) {
        case Err(e) =>
          dump := dump[uri := ReadError(e)];
        case Ok(raw) =>
          match parse(raw) {
            case Some(doc) => dump := dump[uri := Parsed(doc)];
            case None => dump := dump[uri := RawXml(raw)];
          }
      }
      assert uris[..i + 1] == uris[..i] + [uri];
      i := i + 1;
    }
    assert uris[..i] == uris;
  }

  /** One listed resource whose read fails makes only its own entry an error marker. */
  lemma DumpToleratesFailures(
    toolkit: Toolkit,
    listResources: nat -> Result<seq<string>, string>,
    readResource: (nat, string) -> Result<seq<string>, string>,
    parse: string -> Option<Xml>, c: Client, uris: seq<string>, u: string)
    requires FirstClient(toolkit.clients, "http://" + ServerHost) == Some(c)
    requires listResources(c.session) == Ok(uris)
    requires u in uris
    ensures ExpectedDump(toolkit, listResources, readResource, parse).Ok?
    ensures var m := ExpectedDump(toolkit, listResources, readResource, parse).value;
      && m.Keys == set v | v in uris
      && (m[u].ReadError? <==> FirstText(readResource(c.session, u)).Err?)
  {
  }

  /** The first failure, in listing order, to read a resource's first text. */
  function FirstFailure(session: nat, uris: seq<string>, readResource: (nat, string) -> Result<seq<string>, string>): Option<string> {
    if uris == [] then None
    else match FirstText(readResource(session, uris[0]))
      case Err(e) => Some(e)
      case Ok(_) => FirstFailure(session, uris[1..], readResource)
  }

  /** `FirstFailure` finds the failure of the first resource that cannot be read, if any. */
  lemma {:induction false} FirstFailureIsFirst(session: nat, uris: seq<string>, readResource: (nat, string) -> Result<seq<string>, string>)
    ensures FirstFailure(session, uris, readResource).None? <==>
      forall k :: 0 <= k < |uris| ==> FirstText(readResource(session, uris[k])).Ok?
    ensures FirstFailure(session, uris, readResource).Some? ==>
      exists k :: (&& 0 <= k < |uris|
                   && (forall j :: 0 <= j < k ==> FirstText(readResource(session, uris[j])).Ok?)
                   && FirstText(readResource(session, uris[k])) == Err(FirstFailure(session, uris, readResource).value))
  {
    if uris != [] && FirstText(readResource(session, uris[0])).Ok? {
      FirstFailureIsFirst(session, uris[1..], readResource);
      assert forall k :: 1 <= k < |uris| ==> uris[k] == uris[1..][k - 1];
      if FirstFailure(session, uris, readResource).Some? {
        var k :| && 0 <= k < |uris[1..]|
                 && (forall j :: 0 <= j < k ==> FirstText(readResource(session, uris[1..][j])).Ok?)
                 && FirstText(readResource(session, uris[1..][k])) == Err(FirstFailure(session, uris, readResource).value);
        assert forall j :: 1 <= j < k + 1 ==> uris[j] == uris[1..][j - 1];
        assert FirstText(readResource(session, uris[k + 1])) == Err(FirstFailure(session, uris, readResource).value);
      }
    }
  }

  /** The text of a resource known to be readable. */
  function TextOf(read: Result<seq<string>, string>): string {
    match FirstText(read)
    case Ok(t) => t
    case Err(_) => ""
  }

  /**
   * What the submit tool's dump is: like `ExpectedDump`, except that a
   * failure to read a resource is not caught, so the first one ends the dump.
   */
  function ExpectedSubmissionDump(
    toolkit: Toolkit,
    listResources: nat -> Result<seq<string>, string>,
    readResource: (nat, string) -> Result<seq<string>, string>,
    parse: string -> Option<Xml>): Result<map<string, Artifact>, string>
  {
    match FirstClient(toolkit.clients, "http://" + ServerHost)
    case None => Ok(map[])
    case Some(c) =>
      match listResources(c.session)
      case Err(e) => Err(e)
      case Ok(uris) =>
        match FirstFailure(c.session, uris, readResource)
        case Some(e) => Err(e)
        case None => Ok(map u | u in uris :: ParsedOrRaw(TextOf(readResource(c.session, u)), parse))
  }

  /** The resource dump of the orchestrator's submit tool. */
  method SubmissionDump(
    toolkit: Toolkit, taskId: string,
    listResources: nat -> Result<seq<string>, string>,
    readResource: (nat, string) -> Result<seq<string>, string>,
    parse: string -> Option<Xml>)
    returns (r: Result<map<string, Artifact>, string>)
    ensures r == ExpectedSubmissionDump(toolkit, listResources, readResource, parse)
  {
    var url := TaskUrl(taskId);
    TaskUrlMatches(taskId);
    var server := MatchServer(url).value;
    var client := FindClient(toolkit.clients, "http://" + server);
    if client.None? {
      return Ok(map[]);
    }
    var session := client.value.session;
    var listing := listResources(session);
    if listing.Err? {
      return Err(listing.error);
    }
    r := ReadAllResources(session, listing.value, readResource, parse);
  }

  /** The loop of the submit tool's dump: the first read failure ends it. */
  method ReadAllResources(
    session: nat, uris: seq<string>,
    readResource: (nat, string) -> Result<seq<string>, string>,
    parse: string -> Option<Xml>)
    returns (r: Result<map<string, Artifact>, string>)
    ensures FirstFailure(session, uris, readResource).Some? ==>
      r == Err(FirstFailure(session, uris, readResource).value)
    ensures FirstFailure(session, uris, readResource).None? ==>
      r == Ok(map u | u in uris :: ParsedOrRaw(TextOf(readResource(session, u)), parse))
  {
    var dump: map<string, Artifact> := map[];
    var i := 0;
    while i < |uris|
      invariant 0 <= i <= |uris|
      invariant FirstFailure(session, uris, readResource) == FirstFailure(session, uris[i..], readResource)
      invariant forall u :: u in dump <==> u in uris[..i]
      invariant forall u :: u in dump ==> dump[u] == ParsedOrRaw(TextOf(readResource(session, u)), parse)
    {
      var uri := uris[i];
      var text := FirstText(readResource(session, uri));
      assert uris[i..][0] == uri;
      if text.Err? {
        assert FirstFailure(session, uris[i..], readResource) == Some(text.error);
        return Err(text.error);
      }
      dump := dump[uri := ParsedOrRaw(text.value, parse)];
      assert uris[..i + 1] == uris[..i] + [uri];
      assert uris[i..][1..] == uris[i + 1..];
      i := i + 1;
    }
    assert uris[..i] == uris;
    DumpIsComprehension(session, uris, dump, readResource, parse);
    r := Ok(dump);
  }

  /** A map with exactly the listed keys, each holding its read artifact, is the dump comprehension. */
  lemma DumpIsComprehension(
    session: nat, uris: seq<string>, dump: map<string, Artifact>,
    readResource: (nat, string) -> Result<seq<string>, string>,
    parse: string -> Option<Xml>)
    requires forall u :: u in dump <==> u in uris
    requires forall u :: u in dump ==> dump[u] == ParsedOrRaw(TextOf(readResource(session, u)), parse)
    ensures dump == map u | u in uris :: ParsedOrRaw(TextOf(readResource(session, u)), parse)
  {
  }
}
