// config/repo.py: the trust-aware loader and its TTL and ETag cache.
module RepoConfig {
  import opened Common

  const CONFIG_PATH := ".github/vidi-pr.yml"

  /** Five minutes, in seconds. */
  const CACHE_TTL := 300

  datatype Strictness = Lenient | Normal | Strict

  datatype ReviewConfig = ReviewConfig(
    projectContext: Option<string>, projectContextFile: Option<string>, languageNotes: map<string, string>,
    focus: seq<string>, ignore: seq<string>, includeConversation: Option<bool>, strictness: Option<Strictness>)

  datatype Config = Config(
    enabled: bool, allowedUsers: seq<string>, allowedAssociations: seq<string>,
    trustedBaseBranches: seq<string>, review: ReviewConfig)

  datatype Defaults = Defaults(enabled: bool, includeConversation: bool, strictness: Strictness)

  datatype FetchKey = FetchKey(repo: string, ref: string, path: string)

  datatype FetchStatus = Found | NotModified | NotFound

  datatype FetchResult = FetchResult(status: FetchStatus, content: Option<string>, etag: Option<string>)

  /** `Raised` stands for any exception of the fetcher. */
  datatype LoadError = Raised(message: string) | InvalidConfig(message: string)

  datatype CacheEntry = CacheEntry(etag: Option<string>, content: Option<string>, fetchedAt: int)

  type Cache = map<FetchKey, CacheEntry>

  /** What the fetcher answers for a key and an optional If-None-Match value. */
  type Fetcher = (FetchKey, Option<string>) -> Result<FetchResult, string>

  /** One request: when the loader reads its clock, when the origin answers, and what it answers. */
  datatype Request = Request(now: int, at: int, fetch: Fetcher)

  /** Library behaviour left abstract: YAML parsing with schema validation. */
  type Parser = string -> Result<Config, string>

  predicate FreshEntry(cache: Cache, key: FetchKey, now: int) {
    key in cache && now - cache[key].fetchedAt < CACHE_TTL
  }

  function KnownEtag(cache: Cache, key: FetchKey): Option<string> {
    if key in cache then cache[key].etag else None
  }

  /** The value and the cache after one cached fetch. */
  function Fetched(cache: Cache, key: FetchKey, request: Request): (Result<Option<string>, string>, Cache) {
    if FreshEntry(cache, key, request.now) then (Success(cache[key].content), cache)
    else
      match request.fetch(key, KnownEtag(cache, key))
      case Failure(message) => (Failure(message), cache)
      case Success(r) =>
        if r.status.NotModified? && key in cache then
          (Success(cache[key].content), cache[key := cache[key].(fetchedAt := request.now)])
        else if r.status.NotFound? then (Success(None), cache[key := CacheEntry(None, None, request.now)])
        else (Success(r.content), cache[key := CacheEntry(r.etag, r.content, request.now)])
  }

  function WithContext(config: Config, context: Option<string>): Config {
    if context == None then config else config.(review := config.review.(projectContext := context))
  }

  /** The three texts a load may look at; the context file is looked up on the chosen ref. */
  datatype Sources = Sources(onDefault: Option<string>, onBase: Option<string>, context: FetchKey -> Option<string>)

  function AbsentConfig(defaults: Defaults): Config {
    Config(defaults.enabled, [], ["OWNER"], [],
           ReviewConfig(None, None, map[], [], [], Some(defaults.includeConversation), Some(defaults.strictness)))
  }

  function Resolved(sources: Sources, repo: string, ref: string, config: Config): Config {
    match config.review.projectContextFile
    case None => config
    case Some(path) => WithContext(config, sources.context(FetchKey(repo, ref, path)))
  }

  predicate ListsBase(config: Config, baseRef: string, defaultBranch: string) {
    baseRef != defaultBranch && baseRef in config.trustedBaseBranches
  }

  /** The trust rules, with no cache: which config wins and on which ref its context file is read. */
  function LoadFrom(sources: Sources, parse: Parser, defaults: Defaults, repo: string, baseRef: string,
                    defaultBranch: string): Result<Config, LoadError>
  {
    match sources.onDefault
    case None => Success(AbsentConfig(defaults))
    case Some(text) =>
      match parse(text)
      case Failure(message) => Failure(InvalidConfig(message))
      case Success(config) =>
        if !ListsBase(config, baseRef, defaultBranch) || sources.onBase == None then
          Success(Resolved(sources, repo, defaultBranch, config))
        else
          match parse(sources.onBase.value)
          case Failure(message) => Failure(InvalidConfig(message))
          case Success(chosen) => Success(Resolved(sources, repo, baseRef, chosen))
  }

  /** What `_resolve_project_context` returns; its fetch carries no ETag and bypasses the cache. */
  function ContextResolved(repo: string, ref: string, config: Config, request: Request): Result<Config, LoadError> {
    match config.review.projectContextFile
    case None => Success(config)
    case Some(path) =>
      match request.fetch(FetchKey(repo, ref, path), None)
      case Failure(message) => Failure(Raised(message))
      case Success(r) => Success(WithContext(config, if r.status.Found? then r.content else None))
  }

  /** The result and the cache after one load. */
  function Loaded(cache: Cache, parse: Parser, defaults: Defaults, repo: string, baseRef: string, defaultBranch: string,
                  first: Request, second: Request, third: Request): (Result<Config, LoadError>, Cache)
  {
    var (text, cache1) := Fetched(cache, FetchKey(repo, defaultBranch, CONFIG_PATH), first);
    if text.Failure? then (Failure(Raised(text.error)), cache1)
    else if text.value == None then (Success(AbsentConfig(defaults)), cache1)
    else
      match parse(text.value.value)
      case Failure(message) => (Failure(InvalidConfig(message)), cache1)
      case Success(config) =>
        if !ListsBase(config, baseRef, defaultBranch) then
          (ContextResolved(repo, defaultBranch, config, third), cache1)
        else
          var (baseText, cache2) := Fetched(cache1, FetchKey(repo, baseRef, CONFIG_PATH), second);
          if baseText.Failure? then (Failure(Raised(baseText.error)), cache2)
          else if baseText.value == None then (ContextResolved(repo, defaultBranch, config, third), cache2)
          else
            match parse(baseText.value.value)
            case Failure(message) => (Failure(InvalidConfig(message)), cache2)
            case Success(chosen) => (ContextResolved(repo, baseRef, chosen, third), cache2)
  }

  // ---------- what the three methods of the loader must do ----------

  /**
   * A cached fetch: an entry younger than five minutes is served without a request; otherwise the entry's tag goes with
   * the request, a 304 keeps the entry's content, a 404 is remembered as no content, and an exception changes nothing.
   */
  ghost predicate CachedRight(cache: Cache, key: FetchKey, request: Request, content: Result<Option<string>, string>,
                              after: Cache)
  {
    if key in cache && request.now - cache[key].fetchedAt < 300 then
      content == Success(cache[key].content) && after == cache
    else
      match request.fetch(key, if key in cache then cache[key].etag else None)
      case Failure(message) => content == Failure(message) && after == cache
      case Success(FetchResult(NotFound, _, _)) =>
        content == Success(None) && after == cache[key := CacheEntry(None, None, request.now)]
      case Success(FetchResult(Found, text, etag)) =>
        content == Success(text) && after == cache[key := CacheEntry(etag, text, request.now)]
      case Success(FetchResult(NotModified, text, etag)) =>
        if key in cache then
          && content == Success(cache[key].content)
          && after == cache[key := CacheEntry(cache[key].etag, cache[key].content, request.now)]
        else
          content == Success(text) && after == cache[key := CacheEntry(etag, text, request.now)]
  }

  /** `result` is `config` with the context file that it names on `ref`, if that file is found. */
  ghost predicate ContextInlined(repo: string, ref: string, config: Config, request: Request,
                                 result: Result<Config, LoadError>)
  {
    match config.review.projectContextFile
    case None => result == Success(config)
    case Some(path) =>
      match request.fetch(FetchKey(repo, ref, path), None)
      case Failure(message) => result == Failure(Raised(message))
      case Success(FetchResult(Found, Some(text), _)) =>
        result == Success(config.(review := config.review.(projectContext := Some(text))))
      case Success(_) => result == Success(config)
  }

  /**
   * The trust rules. Without a config on the default branch only owners may ask for reviews. The base ref's config
   * counts only if it is another ref and the default branch's config lists it; otherwise it is not asked about.
   */
  ghost predicate FollowsTrustRules(cache: Cache, parse: Parser, defaults: Defaults, repo: string, baseRef: string,
                                    defaultBranch: string, first: Request, second: Request, third: Request,
                                    result: Result<Config, LoadError>, after: Cache)
  {
    var (text, cache1) := Fetched(cache, FetchKey(repo, defaultBranch, ".github/vidi-pr.yml"), first);
    match text
    case Failure(message) => result == Failure(Raised(message)) && after == cache1
    case Success(None) =>
      && after == cache1
      && result.Success? && result.value.allowedUsers == [] && result.value.allowedAssociations == ["OWNER"]
      && result.value.trustedBaseBranches == [] && result.value.enabled == defaults.enabled
      && result.value.review ==
         ReviewConfig(None, None, map[], [], [], Some(defaults.includeConversation), Some(defaults.strictness))
    case Success(Some(t)) =>
      match parse(t)
      case Failure(message) => result == Failure(InvalidConfig(message)) && after == cache1
      case Success(config) =>
        if baseRef == defaultBranch || baseRef !in config.trustedBaseBranches then
          after == cache1 && ContextInlined(repo, defaultBranch, config, third, result)
        else
          var (baseText, cache2) := Fetched(cache1, FetchKey(repo, baseRef, ".github/vidi-pr.yml"), second);
          && after == cache2
          && match baseText
             case Failure(message) => result == Failure(Raised(message))
             case Success(None) => ContextInlined(repo, defaultBranch, config, third, result)
             case Success(Some(b)) =>
               match parse(b)
               case Failure(message) => result == Failure(InvalidConfig(message))
               case Success(chosen) => ContextInlined(repo, baseRef, chosen, third, result)
  }

  lemma ContextIsInlined(repo: string, ref: string, config: Config, request: Request)
    ensures ContextInlined(repo, ref, config, request, ContextResolved(repo, ref, config, request))
  {
  }

  /** The function the theorems are about follows the trust rules. */
  lemma LoadedFollowsTrustRules(cache: Cache, parse: Parser, defaults: Defaults, repo: string, baseRef: string,
                                defaultBranch: string, first: Request, second: Request, third: Request)
    ensures var (result, after) := Loaded(cache, parse, defaults, repo, baseRef, defaultBranch, first, second, third);
            FollowsTrustRules(cache, parse, defaults, repo, baseRef, defaultBranch, first, second, third, result, after)
  {
    var (text, cache1) := Fetched(cache, FetchKey(repo, defaultBranch, CONFIG_PATH), first);
    if text.Success? && text.value.Some? && parse(text.value.value).Success? {
      var config := parse(text.value.value).value;
      ContextIsInlined(repo, defaultBranch, config, third);
      if ListsBase(config, baseRef, defaultBranch) {
        var baseText := Fetched(cache1, FetchKey(repo, baseRef, CONFIG_PATH), second).0;
        if baseText.Success? && baseText.value.Some? && parse(baseText.value.value).Success? {
          ContextIsInlined(repo, baseRef, parse(baseText.value.value).value, third);
        }
      }
    }
  }

  /** The function the theorems are about is the cached fetch. */
  lemma FetchedIsRight(cache: Cache, key: FetchKey, request: Request)
    ensures var (content, after) := Fetched(cache, key, request); CachedRight(cache, key, request, content, after)
  {
  }

  /** A base ref the default branch does not list is never asked about: any answers for it leave the load as it is. */
  lemma UnlistedBaseIsNotAsked(cache: Cache, parse: Parser, defaults: Defaults, repo: string, baseRef: string,
                               defaultBranch: string, first: Request, second: Request, other: Request, third: Request,
                               text: string)
    requires Fetched(cache, FetchKey(repo, defaultBranch, ".github/vidi-pr.yml"), first).0 == Success(Some(text))
    requires parse(text).Success?
    requires baseRef == defaultBranch || baseRef !in parse(text).value.trustedBaseBranches
    ensures Loaded(cache, parse, defaults, repo, baseRef, defaultBranch, first, second, third) ==
            Loaded(cache, parse, defaults, repo, baseRef, defaultBranch, first, other, third)
  {
  }

  class RepoConfigLoader {
    const defaults: Defaults
    const parse: Parser
    var cache: Cache

    constructor (defaults: Defaults, parse: Parser)
      ensures cache == map[] && this.defaults == defaults && this.parse == parse
    {
      this.defaults := defaults;
      this.parse := parse;
      cache := map[];
    }

    method CachedFetch(key: FetchKey, request: Request) returns (content: Result<Option<string>, string>)
      modifies this
      ensures (content, cache) == Fetched(old(cache), key, request)
      ensures CachedRight(old(cache), key, request, content, cache)
    {
      if key in cache && request.now - cache[key].fetchedAt < CACHE_TTL {
        return Success(cache[key].content);
      }

      var reply := request.fetch(key, if key in cache then cache[key].etag else None);
      if reply.Failure? {
        return Failure(reply.error);
      }

      var result := reply.value;
      if result.status.NotModified? && key in cache {
        cache := cache[key := cache[key].(fetchedAt := request.now)];
        return Success(cache[key].content);
      }
      if result.status.NotFound? {
        cache := cache[key := CacheEntry(None, None, request.now)];
        return Success(None);
      }
      cache := cache[key := CacheEntry(result.etag, result.content, request.now)];
      content := Success(result.content);
    }

    method ResolveProjectContext(repo: string, ref: string, config: Config, request: Request)
      returns (result: Result<Config, LoadError>)
      ensures result == ContextResolved(repo, ref, config, request)
      ensures ContextInlined(repo, ref, config, request, result)
    {
      var path := config.review.projectContextFile;
      if path == None {
        return Success(config);
      }
      var reply := request.fetch(FetchKey(repo, ref, path.value), None);
      if reply.Failure? {
        return Failure(Raised(reply.error));
      }
      if reply.value.status.NotFound? || reply.value.status.NotModified? || reply.value.content == None {
        return Success(config);
      }
      result := Success(config.(review := config.review.(projectContext := reply.value.content)));
    }

    /** `first`, `second` and `third` are the requests for the default branch, the base ref and the context file. */
    method Load(repo: string, baseRef: string, defaultBranch: string, first: Request, second: Request, third: Request)
      returns (result: Result<Config, LoadError>)
      modifies this
      ensures (result, cache) ==
              Loaded(old(cache), parse, defaults, repo, baseRef, defaultBranch, first, second, third)
      ensures FollowsTrustRules(old(cache), parse, defaults, repo, baseRef, defaultBranch, first, second, third,
                                result, cache)
    {
      var defaultText := CachedFetch(FetchKey(repo, defaultBranch, CONFIG_PATH), first);
      if defaultText.Failure? {
        return Failure(Raised(defaultText.error));
      }
      if defaultText.value == None {
        return Success(AbsentConfig(defaults));
      }
      var parsed := parse(defaultText.value.value);
      if parsed.Failure? {
        return Failure(InvalidConfig(parsed.error));
      }

      var targetConfig, targetRef := parsed.value, defaultBranch;
      if baseRef != defaultBranch && baseRef in targetConfig.trustedBaseBranches {
        var baseText := CachedFetch(FetchKey(repo, baseRef, CONFIG_PATH), second);
        if baseText.Failure? {
          return Failure(Raised(baseText.error));
        }
        if baseText.value.Some? {
          var parsedBase := parse(baseText.value.value);
          if parsedBase.Failure? {
            return Failure(InvalidConfig(parsedBase.error));
          }
          targetConfig, targetRef := parsedBase.value, baseRef;
        }
      }
      result := ResolveProjectContext(repo, targetRef, targetConfig, third);
    }
  }

  // ---------- the origin, and what an honest fetcher answers ----------

  datatype File = File(content: string, etag: Option<string>)

  /** What the repository holds at a key, instant by instant. */
  type Origin = (FetchKey, int) -> Option<File>

  function ContentAt(origin: Origin, key: FetchKey, t: int): Option<string> {
    match origin(key, t)
    case None => None
    case Some(file) => Some(file.content)
  }

  function EtagAt(origin: Origin, key: FetchKey, t: int): Option<string> {
    match origin(key, t)
    case None => None
    case Some(file) => file.etag
  }

  /** Equal entity tags at a key mean equal content. */
  ghost predicate HonestOrigin(origin: Origin) {
    forall key, t, u :: EtagAt(origin, key, t).Some? && EtagAt(origin, key, t) == EtagAt(origin, key, u) ==>
      ContentAt(origin, key, t) == ContentAt(origin, key, u)
  }

  /**
   * Section 13.1.2 and section 15.4.5 of RFC 9110: a 304 is possible only when the request carried an entity tag
   * and the current representation still has it.
   */
  ghost predicate HonestReply(origin: Origin, key: FetchKey, etag: Option<string>, at: int, r: FetchResult) {
    match origin(key, at)
    case None => r == FetchResult(NotFound, None, None)
    case Some(file) =>
      || r == FetchResult(Found, Some(file.content), file.etag)
      || (r == FetchResult(NotModified, None, None) && etag.Some? && etag == file.etag)
  }

  ghost predicate Honest(origin: Origin, request: Request) {
    forall key, etag :: request.fetch(key, etag).Success? ==>
      HonestReply(origin, key, etag, request.at, request.fetch(key, etag).value)
  }

  /** Requests follow one another, and the clock does not go back. */
  ghost predicate Sequential(requests: seq<Request>) {
    && (forall i :: 0 <= i < |requests| ==> requests[i].now <= requests[i].at)
    && (forall i :: 0 <= i < |requests| - 1 ==> requests[i].at <= requests[i + 1].now)
  }

  /** Strictly within the TTL of the moment the loader asked, and not in the future. */
  ghost predicate RecentEnough(t: int, now: int, at: int) {
    now - CACHE_TTL < t <= at
  }

  /** An entry is what the origin held at some instant since it was last validated. */
  ghost predicate EntryTracks(entry: CacheEntry, origin: Origin, key: FetchKey, latest: int, t: int) {
    && entry.fetchedAt <= t <= latest
    && entry.content == ContentAt(origin, key, t)
    && entry.etag == EtagAt(origin, key, t)
  }

  ghost predicate CacheTracks(cache: Cache, origin: Origin, latest: int) {
    forall key :: key in cache ==> exists t :: EntryTracks(cache[key], origin, key, latest, t)
  }

  function SourcesAt(origin: Origin, repo: string, baseRef: string, defaultBranch: string, td: int, tb: int, tc: int)
    : Sources
  {
    Sources(ContentAt(origin, FetchKey(repo, defaultBranch, CONFIG_PATH), td),
            ContentAt(origin, FetchKey(repo, baseRef, CONFIG_PATH), tb),
            key => ContentAt(origin, key, tc))
  }

  lemma CacheTracksLater(cache: Cache, origin: Origin, latest: int, later: int)
    requires CacheTracks(cache, origin, latest) && latest <= later
    ensures CacheTracks(cache, origin, later)
  {
    forall key | key in cache ensures exists t :: EntryTracks(cache[key], origin, key, later, t) {
      var t :| EntryTracks(cache[key], origin, key, latest, t);
      assert EntryTracks(cache[key], origin, key, later, t);
    }
  }

  /** One cached fetch: the value is recent enough, and the cache keeps tracking the origin. */
  lemma FetchIsRecent(cache: Cache, origin: Origin, key: FetchKey, request: Request) returns (t: int)
    requires HonestOrigin(origin) && Honest(origin, request) && request.now <= request.at
    requires CacheTracks(cache, origin, request.now)
    ensures RecentEnough(t, request.now, request.at)
    ensures Fetched(cache, key, request).0.Success? ==>
              Fetched(cache, key, request).0.value == ContentAt(origin, key, t)
    ensures CacheTracks(Fetched(cache, key, request).1, origin, request.at)
  {
    CacheTracksLater(cache, origin, request.now, request.at);
    t := request.at;
    if FreshEntry(cache, key, request.now) {
      t :| EntryTracks(cache[key], origin, key, request.now, t);
    } else if request.fetch(key, KnownEtag(cache, key)).Success? {
      var after := Fetched(cache, key, request).1;
      var r := request.fetch(key, KnownEtag(cache, key)).value;
      assert HonestReply(origin, key, KnownEtag(cache, key), request.at, r);
      if key in cache {
        var u :| EntryTracks(cache[key], origin, key, request.now, u);
        assert EtagAt(origin, key, u) == cache[key].etag;
      }
      assert EntryTracks(after[key], origin, key, request.at, request.at);
    }
  }

  // ---------- the theorems about load ----------

  lemma ContextIsCurrent(origin: Origin, repo: string, ref: string, config: Config, request: Request, sources: Sources)
    requires Honest(origin, request)
    requires forall key :: sources.context(key) == ContentAt(origin, key, request.at)
    ensures var result := ContextResolved(repo, ref, config, request);
            result.Success? ==> result.value == Resolved(sources, repo, ref, config)
    ensures var result := ContextResolved(repo, ref, config, request);
            result.Failure? ==> result.error.Raised?
  {
    match config.review.projectContextFile
    case None =>
    case Some(path) =>
      var key := FetchKey(repo, ref, path);
      if request.fetch(key, None).Success? {
        assert HonestReply(origin, key, None, request.at, request.fetch(key, None).value);
      }
  }

  /**
   * Whatever the origin did meanwhile, a load that no exception cut short returns what the loader with no cache
   * returns for sources that were each current at some instant less than the TTL before the loader asked for them.
   */
  lemma LoadFromTrackingCache(cache: Cache, origin: Origin, parse: Parser, defaults: Defaults, repo: string,
                              baseRef: string, defaultBranch: string,
                              first: Request, second: Request, third: Request)
    returns (td: int, tb: int)
    requires HonestOrigin(origin) && Honest(origin, first) && Honest(origin, second) && Honest(origin, third)
    requires Sequential([first, second, third]) && CacheTracks(cache, origin, first.now)
    ensures RecentEnough(td, first.now, first.at) && RecentEnough(tb, second.now, second.at)
    ensures var (result, after) :=
              Loaded(cache, parse, defaults, repo, baseRef, defaultBranch, first, second, third);
            && CacheTracks(after, origin, third.at)
            && (result.Success? || result.error.InvalidConfig? ==>
                  result == LoadFrom(SourcesAt(origin, repo, baseRef, defaultBranch, td, tb, third.at),
                                     parse, defaults, repo, baseRef, defaultBranch))
  {
    hide HonestOrigin, Honest, CacheTracks, RecentEnough, Fetched;
    var requests := [first, second, third];
    assert requests[0] == first && requests[1] == second && requests[2] == third;
    var defaultKey, baseKey := FetchKey(repo, defaultBranch, CONFIG_PATH), FetchKey(repo, baseRef, CONFIG_PATH);
    td := FetchIsRecent(cache, origin, defaultKey, first);
    var cache1 := Fetched(cache, defaultKey, first).1;
    CacheTracksLater(cache1, origin, first.at, second.now);
    CacheTracksLater(cache1, origin, first.at, third.at);
    tb := FetchIsRecent(cache1, origin, baseKey, second);
    CacheTracksLater(Fetched(cache1, baseKey, second).1, origin, second.at, third.at);
    var sources := SourcesAt(origin, repo, baseRef, defaultBranch, td, tb, third.at);
    forall ref, config {
      ContextIsCurrent(origin, repo, ref, config, third, sources);
    }
  }

  /** A 304 is only ever answered from an entry that holds both an entity tag and content. */
  lemma NotModifiedNeedsTagAndContent(cache: Cache, origin: Origin, key: FetchKey, request: Request)
    requires CacheTracks(cache, origin, request.now) && Honest(origin, request)
    requires var reply := request.fetch(key, KnownEtag(cache, key)); reply.Success? && reply.value.status.NotModified?
    ensures key in cache && cache[key].etag.Some? && cache[key].content.Some?
    ensures cache[key].etag == EtagAt(origin, key, request.at)
  {
    assert HonestReply(origin, key, KnownEtag(cache, key), request.at, request.fetch(key, KnownEtag(cache, key)).value);
    var t :| EntryTracks(cache[key], origin, key, request.now, t);
  }

  datatype Fetch = Fetch(key: FetchKey, request: Request)

  function AfterFetches(fetches: seq<Fetch>): Cache {
    if fetches == [] then map[]
    else
      var last := fetches[|fetches| - 1];
      Fetched(AfterFetches(fetches[..|fetches| - 1]), last.key, last.request).1
  }

  ghost predicate HonestHistory(origin: Origin, fetches: seq<Fetch>) {
    && HonestOrigin(origin)
    && (forall i :: 0 <= i < |fetches| ==>
          Honest(origin, fetches[i].request) && fetches[i].request.now <= fetches[i].request.at)
    && (forall i :: 0 <= i < |fetches| - 1 ==> fetches[i].request.at <= fetches[i + 1].request.now)
  }

  /** Over any history of origin changes and cached fetches, the cache stays within what the origin has held. */
  lemma {:induction false} HistoryKeepsCacheTracking(origin: Origin, fetches: seq<Fetch>, latest: int)
    requires HonestHistory(origin, fetches)
    requires fetches != [] ==> fetches[|fetches| - 1].request.at <= latest
    ensures CacheTracks(AfterFetches(fetches), origin, latest)
  {
    if fetches != [] {
      var n := |fetches| - 1;
      var last := fetches[n];
      var before := fetches[..n];
      assert n > 0 ==> before[n - 1] == fetches[n - 1];
      assert forall i :: 0 <= i < n ==> before[i] == fetches[i];
      HistoryKeepsCacheTracking(origin, before, last.request.now);
      var _ := FetchIsRecent(AfterFetches(before), origin, last.key, last.request);
      CacheTracksLater(AfterFetches(fetches), origin, last.request.at, latest);
    }
  }

  /** The value of the next cached fetch was the origin's at an instant less than the TTL before it was asked for. */
  lemma EveryFetchIsRecent(origin: Origin, fetches: seq<Fetch>, next: Fetch) returns (t: int)
    requires HonestHistory(origin, fetches + [next])
    ensures RecentEnough(t, next.request.now, next.request.at)
    ensures var value := Fetched(AfterFetches(fetches), next.key, next.request).0;
            value.Success? ==> value.value == ContentAt(origin, next.key, t)
  {
    var all := fetches + [next];
    assert forall i :: 0 <= i < |fetches| ==> all[i] == fetches[i];
    assert all[|fetches|] == next;
    HistoryKeepsCacheTracking(origin, fetches, next.request.now);
    t := FetchIsRecent(AfterFetches(fetches), origin, next.key, next.request);
  }

  /** The requests of a load come after all the fetches so far. */
  ghost predicate Follows(fetches: seq<Fetch>, first: Request, second: Request, third: Request) {
    && Sequential([first, second, third])
    && (fetches != [] ==> fetches[|fetches| - 1].request.at <= first.now)
  }

  /**
   * Over any history of origin changes and cached fetches, a load gives what the loader with no cache gives on a
   * default config and a base config each less than the TTL old, and on the current context file; or it raises.
   */
  lemma LoadIsRecent(origin: Origin, fetches: seq<Fetch>, parse: Parser, defaults: Defaults, repo: string,
                     baseRef: string, defaultBranch: string, first: Request, second: Request, third: Request)
    returns (td: int, tb: int)
    requires HonestHistory(origin, fetches) && Follows(fetches, first, second, third)
    requires Honest(origin, first) && Honest(origin, second) && Honest(origin, third)
    ensures RecentEnough(td, first.now, first.at) && RecentEnough(tb, second.now, second.at)
    ensures var result :=
              Loaded(AfterFetches(fetches), parse, defaults, repo, baseRef, defaultBranch, first, second, third).0;
            result.Success? || result.error.InvalidConfig? ==>
              result == LoadFrom(SourcesAt(origin, repo, baseRef, defaultBranch, td, tb, third.at),
                                 parse, defaults, repo, baseRef, defaultBranch)
  {
    hide Loaded, LoadFrom, Honest, HonestOrigin, CacheTracks, RecentEnough;
    HistoryKeepsCacheTracking(origin, fetches, first.now);
    td, tb := LoadFromTrackingCache(AfterFetches(fetches), origin, parse, defaults, repo, baseRef, defaultBranch,
                                    first, second, third);
  }

  ghost predicate Unchanging(origin: Origin) {
    forall key, t, u :: origin(key, t) == origin(key, u)
  }

  /** On an unchanging origin the cache is invisible, whatever was fetched before: a load equals the load with no cache,
      or raises. */
  lemma CacheIsInvisibleOnAnUnchangingOrigin(origin: Origin, fetches: seq<Fetch>, parse: Parser, defaults: Defaults,
                                             repo: string, baseRef: string, defaultBranch: string,
                                             first: Request, second: Request, third: Request, t: int)
    requires Unchanging(origin) && HonestHistory(origin, fetches) && Follows(fetches, first, second, third)
    requires Honest(origin, first) && Honest(origin, second) && Honest(origin, third)
    ensures var result :=
              Loaded(AfterFetches(fetches), parse, defaults, repo, baseRef, defaultBranch, first, second, third).0;
            || result == LoadFrom(SourcesAt(origin, repo, baseRef, defaultBranch, t, t, t),
                                  parse, defaults, repo, baseRef, defaultBranch)
            || (result.Failure? && result.error.Raised?)
  {
    hide Loaded, LoadFrom, Honest, HonestOrigin;
    var td, tb := LoadIsRecent(origin, fetches, parse, defaults, repo, baseRef, defaultBranch, first, second, third);
    var now := SourcesAt(origin, repo, baseRef, defaultBranch, td, tb, third.at);
    var steady := SourcesAt(origin, repo, baseRef, defaultBranch, t, t, t);
    forall key ensures now.context(key) == steady.context(key) {
      assert origin(key, third.at) == origin(key, t);
    }
    assert origin(FetchKey(repo, defaultBranch, CONFIG_PATH), td) ==
           origin(FetchKey(repo, defaultBranch, CONFIG_PATH), t);
    assert origin(FetchKey(repo, baseRef, CONFIG_PATH), tb) == origin(FetchKey(repo, baseRef, CONFIG_PATH), t);
    SameSourcesSameConfig(now, steady, parse, defaults, repo, baseRef, defaultBranch);
  }

  // ---------- what load depends on ----------

  /** The default branch's config, if it exists and is valid. */
  function TrustedConfig(sources: Sources, parse: Parser): Option<Config> {
    if sources.onDefault == None || parse(sources.onDefault.value).Failure? then None
    else Some(parse(sources.onDefault.value).value)
  }

  /** Whether the base ref's config is looked at: only the default branch can say so. */
  predicate TrustsBase(sources: Sources, parse: Parser, baseRef: string, defaultBranch: string) {
    && TrustedConfig(sources, parse).Some?
    && ListsBase(TrustedConfig(sources, parse).value, baseRef, defaultBranch)
  }

  /** The ref and config the trust rules settle on. */
  function Chosen(sources: Sources, parse: Parser, baseRef: string, defaultBranch: string): Option<(string, Config)> {
    if TrustedConfig(sources, parse) == None then None
    else if !TrustsBase(sources, parse, baseRef, defaultBranch) || sources.onBase == None then
      Some((defaultBranch, TrustedConfig(sources, parse).value))
    else
      match parse(sources.onBase.value)
      case Failure(_) => None
      case Success(config) => Some((baseRef, config))
  }

  /** The context file `load` reads, if any: on the chosen ref, at the path the chosen config names. */
  function ContextKey(sources: Sources, parse: Parser, repo: string, baseRef: string, defaultBranch: string)
    : Option<FetchKey>
  {
    match Chosen(sources, parse, baseRef, defaultBranch)
    case None => None
    case Some((ref, config)) =>
      match config.review.projectContextFile
      case None => None
      case Some(path) => Some(FetchKey(repo, ref, path))
  }

  /** Two repository states that agree on the default config, on the base config if listed, and on the chosen
      context file are indistinguishable to the loader without cache. */
  lemma LoadFromReadsNothingElse(a: Sources, b: Sources, parse: Parser, defaults: Defaults, repo: string,
                                 baseRef: string, defaultBranch: string)
    requires a.onDefault == b.onDefault
    requires TrustsBase(a, parse, baseRef, defaultBranch) ==> a.onBase == b.onBase
    requires ContextKey(a, parse, repo, baseRef, defaultBranch).Some? ==>
               var key := ContextKey(a, parse, repo, baseRef, defaultBranch).value; a.context(key) == b.context(key)
    ensures LoadFrom(a, parse, defaults, repo, baseRef, defaultBranch) ==
            LoadFrom(b, parse, defaults, repo, baseRef, defaultBranch)
  {
  }

  lemma SameSourcesSameConfig(a: Sources, b: Sources, parse: Parser, defaults: Defaults, repo: string, baseRef: string,
                              defaultBranch: string)
    requires a.onDefault == b.onDefault && a.onBase == b.onBase
    requires forall key :: a.context(key) == b.context(key)
    ensures LoadFrom(a, parse, defaults, repo, baseRef, defaultBranch) ==
            LoadFrom(b, parse, defaults, repo, baseRef, defaultBranch)
  {
    LoadFromReadsNothingElse(a, b, parse, defaults, repo, baseRef, defaultBranch);
  }

  // ---------- what a load asks for ----------

  /** Two requests, in two worlds, that are made at the same time and answered alike for one key. */
  ghost predicate AnsweredAlike(a: Request, b: Request, key: FetchKey) {
    a.now == b.now && forall etag :: a.fetch(key, etag) == b.fetch(key, etag)
  }

  ghost predicate CachedAlike(a: Cache, b: Cache, key: FetchKey) {
    (key in a <==> key in b) && (key in a ==> a[key] == b[key])
  }

  /** The config a fetch brought, if it brought a valid one. */
  function ConfigOf(text: Result<Option<string>, string>, parse: Parser): Option<Config> {
    if text.Failure? || text.value == None || parse(text.value.value).Failure? then None
    else Some(parse(text.value.value).value)
  }

  /** The config this load gets from the default branch. */
  function DefaultConfig(cache: Cache, parse: Parser, repo: string, defaultBranch: string, first: Request)
    : Option<Config>
  {
    ConfigOf(Fetched(cache, FetchKey(repo, defaultBranch, CONFIG_PATH), first).0, parse)
  }

  /** Whether this load asks for the base ref's config: only the default branch can make it. */
  predicate AsksForBase(cache: Cache, parse: Parser, repo: string, baseRef: string, defaultBranch: string,
                        first: Request)
  {
    var config := DefaultConfig(cache, parse, repo, defaultBranch, first);
    config.Some? && ListsBase(config.value, baseRef, defaultBranch)
  }

  /** The context file this load asks for, if any. */
  function ContextAsked(cache: Cache, parse: Parser, repo: string, baseRef: string, defaultBranch: string,
                        first: Request, second: Request): Option<FetchKey>
  {
    var default := DefaultConfig(cache, parse, repo, defaultBranch, first);
    if default == None then None
    else if !AsksForBase(cache, parse, repo, baseRef, defaultBranch, first) then
      ContextOn(repo, defaultBranch, default.value)
    else
      var cache1 := Fetched(cache, FetchKey(repo, defaultBranch, CONFIG_PATH), first).1;
      var text := Fetched(cache1, FetchKey(repo, baseRef, CONFIG_PATH), second).0;
      if text == Success(None) then ContextOn(repo, defaultBranch, default.value)
      else if ConfigOf(text, parse) == None then None
      else ContextOn(repo, baseRef, ConfigOf(text, parse).value)
  }

  function ContextOn(repo: string, ref: string, config: Config): Option<FetchKey> {
    match config.review.projectContextFile
    case None => None
    case Some(path) => Some(FetchKey(repo, ref, path))
  }

  lemma FetchedAlike(cache: Cache, other: Cache, key: FetchKey, a: Request, b: Request)
    requires AnsweredAlike(a, b, key) && CachedAlike(cache, other, key)
    ensures Fetched(cache, key, a).0 == Fetched(other, key, b).0
    ensures CachedAlike(Fetched(cache, key, a).1, Fetched(other, key, b).1, key)
    ensures forall k :: k != key && CachedAlike(cache, other, k) ==>
              CachedAlike(Fetched(cache, key, a).1, Fetched(other, key, b).1, k)
  {
    assert KnownEtag(cache, key) == KnownEtag(other, key);
  }

  lemma ContextAlike(repo: string, ref: string, config: Config, a: Request, b: Request)
    requires ContextOn(repo, ref, config).Some? ==> AnsweredAlike(a, b, ContextOn(repo, ref, config).value)
    ensures ContextResolved(repo, ref, config, a) == ContextResolved(repo, ref, config, b)
  {
  }

  /**
   * A load depends on nothing but the default branch's config, the base ref's config if the default branch lists that
   * ref, and the context file on the chosen ref: two worlds, with any fetchers and any caches, that agree on those give
   * the same result.
   */
  lemma LoadReadsNothingElse(cache: Cache, other: Cache, parse: Parser, defaults: Defaults, repo: string,
                             baseRef: string, defaultBranch: string,
                             a1: Request, a2: Request, a3: Request, b1: Request, b2: Request, b3: Request)
    requires var key := FetchKey(repo, defaultBranch, CONFIG_PATH);
             AnsweredAlike(a1, b1, key) && CachedAlike(cache, other, key)
    requires AsksForBase(cache, parse, repo, baseRef, defaultBranch, a1) ==>
               var key := FetchKey(repo, baseRef, CONFIG_PATH);
               AnsweredAlike(a2, b2, key) && CachedAlike(cache, other, key)
    requires var context := ContextAsked(cache, parse, repo, baseRef, defaultBranch, a1, a2);
             context.Some? ==> AnsweredAlike(a3, b3, context.value)
    ensures Loaded(cache, parse, defaults, repo, baseRef, defaultBranch, a1, a2, a3).0 ==
            Loaded(other, parse, defaults, repo, baseRef, defaultBranch, b1, b2, b3).0
  {
    hide Fetched, AnsweredAlike, CachedAlike, ContextResolved, ContextOn;
    var defaultKey, baseKey := FetchKey(repo, defaultBranch, CONFIG_PATH), FetchKey(repo, baseRef, CONFIG_PATH);
    var (text, cache1) := Fetched(cache, defaultKey, a1);
    FetchedAlike(cache, other, defaultKey, a1, b1);
    if AsksForBase(cache, parse, repo, baseRef, defaultBranch, a1) {
      FetchedAlike(cache1, Fetched(other, defaultKey, b1).1, baseKey, a2, b2);
      var baseText := Fetched(cache1, baseKey, a2).0;
      if baseText == Success(None) {
        ContextAlike(repo, defaultBranch, ConfigOf(text, parse).value, a3, b3);
      } else if ConfigOf(baseText, parse).Some? {
        ContextAlike(repo, baseRef, ConfigOf(baseText, parse).value, a3, b3);
      }
    } else if ConfigOf(text, parse).Some? {
      ContextAlike(repo, defaultBranch, ConfigOf(text, parse).value, a3, b3);
    }
  }

  /**
   * Trust listed by a base ref is never followed: whatever the configs list, the answers for any ref but the default
   * branch and the base ref are irrelevant, and so are those for the base ref unless the default branch lists it.
   */
  lemma NoFurtherRefIsRead(cache: Cache, other: Cache, parse: Parser, defaults: Defaults, repo: string, baseRef: string,
                           defaultBranch: string,
                           a1: Request, a2: Request, a3: Request, b1: Request, b2: Request, b3: Request)
    requires forall key: FetchKey {:trigger CachedAlike(cache, other, key)} ::
               key.repo == repo && (key.ref == defaultBranch ||
                 (key.ref == baseRef && AsksForBase(cache, parse, repo, baseRef, defaultBranch, a1))) ==>
               && CachedAlike(cache, other, key)
               && AnsweredAlike(a1, b1, key) && AnsweredAlike(a2, b2, key) && AnsweredAlike(a3, b3, key)
    ensures Loaded(cache, parse, defaults, repo, baseRef, defaultBranch, a1, a2, a3).0 ==
            Loaded(other, parse, defaults, repo, baseRef, defaultBranch, b1, b2, b3).0
  {
    hide Fetched, AnsweredAlike, Loaded, ContextResolved;
    var context := ContextAsked(cache, parse, repo, baseRef, defaultBranch, a1, a2);
    assert CachedAlike(cache, other, FetchKey(repo, defaultBranch, CONFIG_PATH));
    if AsksForBase(cache, parse, repo, baseRef, defaultBranch, a1) {
      assert CachedAlike(cache, other, FetchKey(repo, baseRef, CONFIG_PATH));
    }
    if context.Some? { assert CachedAlike(cache, other, context.value); }
    LoadReadsNothingElse(cache, other, parse, defaults, repo, baseRef, defaultBranch, a1, a2, a3, b1, b2, b3);
  }

  function Relisted(result: Result<Config, LoadError>, list: seq<string>): Result<Config, LoadError> {
    match result
    case Failure(error) => Failure(error)
    case Success(config) => Success(config.(trustedBaseBranches := list))
  }

  /**
   * The trust list of a base ref is carried along but never acted on: reading that ref's config with any other list
   * in it changes the result in that list and nowhere else, and leaves the same cache.
   */
  lemma TrustIsNotTransitive(cache: Cache, parse: Parser, relisting: Parser, list: seq<string>, defaults: Defaults,
                             repo: string, baseRef: string, defaultBranch: string,
                             first: Request, second: Request, third: Request)
    requires AsksForBase(cache, parse, repo, baseRef, defaultBranch, first)
    requires var (text, cache1) := Fetched(cache, FetchKey(repo, defaultBranch, CONFIG_PATH), first);
             var baseText := Fetched(cache1, FetchKey(repo, baseRef, CONFIG_PATH), second).0;
             && relisting(text.value.value) == parse(text.value.value)
             && ConfigOf(baseText, parse).Some?
             && relisting(baseText.value.value) ==
                Success(ConfigOf(baseText, parse).value.(trustedBaseBranches := list))
    ensures var (result, after) := Loaded(cache, parse, defaults, repo, baseRef, defaultBranch, first, second, third);
            Loaded(cache, relisting, defaults, repo, baseRef, defaultBranch, first, second, third) ==
            (Relisted(result, list), after)
  {
    hide Fetched, AbsentConfig;
    var (text, cache1) := Fetched(cache, FetchKey(repo, defaultBranch, CONFIG_PATH), first);
    var baseText := Fetched(cache1, FetchKey(repo, baseRef, CONFIG_PATH), second).0;
    var config := ConfigOf(baseText, parse).value;
    ContextIgnoresList(repo, baseRef, config, list, third);
  }

  lemma ContextIgnoresList(repo: string, ref: string, config: Config, list: seq<string>, request: Request)
    ensures ContextResolved(repo, ref, config.(trustedBaseBranches := list), request) ==
            Relisted(ContextResolved(repo, ref, config, request), list)
  {
  }
}
