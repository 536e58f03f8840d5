/**
 * StravaSegmentService: five get-or-add caches in front of fetchers that
 * read the access token and unit setting, request a URL from the web
 * client, deserialise and normalise the answer, and turn any failure into
 * a logged null; plus the composer that adds statistics groups to an
 * effort. The caches are modelled sequentially.
 */
module SegmentService {
  import opened Wrappers
  import opened Text
  import opened Models
  import opened Statistics

  /**
   * The endpoint base URLs. The leaderboard endpoint is a format string
   * with one "{0}" placeholder for the segment id; it is given as the text
   * before and after that placeholder.
   */
  datatype Endpoints = Endpoints(
    Segment: string,
    SegmentEffort: string,
    LeaderboardBeforeId: string,
    LeaderboardAfterId: string,
    Athletes: string,
    Starred: string)

  // ---------------------------------------------------------------------
  // Request URLs.

  const AccessTokenQuery: string := "?access_token="
  const FollowingQuery: string := "&following=true"
  const StarredPath: string := "/segments/starred"

  function SegmentUrl(ep: Endpoints, segmentId: string, token: string): string
  {
    ep.Segment + "/" + segmentId + AccessTokenQuery + token
  }

  function SegmentEffortUrl(ep: Endpoints, segmentEffortId: string, token: string): string
  {
    ep.SegmentEffort + "/" + segmentEffortId + AccessTokenQuery + token
  }

  function LeaderboardUrl(ep: Endpoints, segmentId: string, token: string, following: bool): string
  {
    var url := ep.LeaderboardBeforeId + segmentId + ep.LeaderboardAfterId + AccessTokenQuery + token;
    if following then url + FollowingQuery else url
  }

  function AthleteStarredUrl(ep: Endpoints, athleteId: string, token: string): string
  {
    ep.Athletes + "/" + athleteId + StarredPath + AccessTokenQuery + token
  }

  function StarredUrl(ep: Endpoints, token: string): string
  {
    ep.Starred + AccessTokenQuery + token
  }

  /**
   * The leaderboard URL is the formatted endpoint with the access token;
   * the following variant is exactly that URL with "&following=true"
   * appended, so the two requests differ.
   */
  lemma LeaderboardUrlFollowingFlag(ep: Endpoints, segmentId: string, token: string)
    ensures LeaderboardUrl(ep, segmentId, token, false)
            == ep.LeaderboardBeforeId + segmentId + ep.LeaderboardAfterId + AccessTokenQuery + token
    ensures LeaderboardUrl(ep, segmentId, token, true)
            == LeaderboardUrl(ep, segmentId, token, false) + FollowingQuery
    ensures LeaderboardUrl(ep, segmentId, token, true) != LeaderboardUrl(ep, segmentId, token, false)
  {
  }

  // ---------------------------------------------------------------------
  // Titles of the logged failures.

  predicate OccursAt(s: string, part: string, i: nat)
  {
    i + |part| <= |s| && s[i..i + |part|] == part
  }

  predicate Contains(s: string, part: string)
  {
    exists i: nat :: i <= |s| && OccursAt(s, part, i)
  }

  lemma ContainsAt(s: string, part: string, i: nat)
    requires OccursAt(s, part, i)
    ensures Contains(s, part)
  {
  }

  /** How C# interpolates a bool. */
  function BoolText(b: bool): string
  {
    if b then "True" else "False"
  }

  const SegmentTitlePrefix: string := "StravaSegmentService.GetSegmentFromServiceAsync - segmentId "
  const SegmentEffortTitlePrefix: string := "StravaSegmentService.GetSegmentEffortFromServiceAsync - segmentEffortId "
  const LeaderboardTitlePrefix: string := "StravaSegmentService.GetLeaderboardFromServiceAsync - segmentId "
  const AthleteStarredTitlePrefix: string := "StravaSegmentService.GetStarredSegmentsFromServiceAsync - athleteId "

  function SegmentTitle(segmentId: string): (title: string)
    ensures Contains(title, segmentId)
  {
    var prefix := SegmentTitlePrefix;
    var title := prefix + segmentId;
    ContainsAt(title, segmentId, |prefix|);
    title
  }

  function SegmentEffortTitle(segmentEffortId: string): (title: string)
    ensures Contains(title, segmentEffortId)
  {
    var prefix := SegmentEffortTitlePrefix;
    var title := prefix + segmentEffortId;
    ContainsAt(title, segmentEffortId, |prefix|);
    title
  }

  function LeaderboardTitle(segmentId: string, following: bool): (title: string)
    ensures Contains(title, segmentId)
    ensures Contains(title, "following " + BoolText(following))
  {
    var prefix := LeaderboardTitlePrefix;
    var flag := "following " + BoolText(following);
    var title := prefix + segmentId + " - " + flag;
    assert title[|prefix|..|prefix| + |segmentId|] == segmentId;
    assert title[|prefix| + |segmentId| + 3..|title|] == flag;
    ContainsAt(title, segmentId, |prefix|);
    ContainsAt(title, flag, |prefix| + |segmentId| + 3);
    title
  }

  function AthleteStarredTitle(athleteId: string): (title: string)
    ensures Contains(title, athleteId)
  {
    var prefix := AthleteStarredTitlePrefix;
    var title := prefix + athleteId;
    ContainsAt(title, athleteId, |prefix|);
    title
  }

  const StarredTitle: string := "StravaSegmentService.GetStarredSegmentsAsync"

  // ---------------------------------------------------------------------
  // The collaborators and what the service records of its calls to them.

  /**
   * The settings, the web client and the deserialisers. The web client
   * answers a URL with a body or an exception message, and may answer
   * differently on each call: its second argument is the number of
   * requests made before this one.
   */
  datatype Collaborators = Collaborators(
    endpoints: Endpoints,
    accessToken: string,
    distanceUnitType: DistanceUnitType,
    get: (string, nat) -> Result<string, string>,
    segmentJson: string -> Result<Segment, string>,
    effortJson: string -> Result<EffortData, string>,
    leaderboardJson: string -> Result<Leaderboard, string>,
    summariesJson: string -> Result<seq<SegmentSummary>, string>)

  /** Which fetch a web request served. */
  datatype Request =
    | SegmentRequest(segmentId: string)
    | SegmentEffortRequest(segmentEffortId: string)
    | LeaderboardRequest(segmentId: string, following: bool)
    | AthleteStarredRequest(athleteId: string)
    | StarredRequest

  /** Every request but the uncached starred list has a cache behind it. */
  predicate IsCacheKey(q: Request)
  {
    !q.StarredRequest?
  }

  /** The keys present in each of the five caches. */
  datatype CacheKeys = CacheKeys(
    segments: set<string>,
    segmentEfforts: set<string>,
    leaderboards: set<string>,
    followingLeaderboards: set<string>,
    starredSegments: set<string>)

  /** The result of the fetch the request stands for is in a cache. */
  predicate IsCached(q: Request, keys: CacheKeys)
  {
    match q
    case SegmentRequest(id) => id in keys.segments
    case SegmentEffortRequest(id) => id in keys.segmentEfforts
    case LeaderboardRequest(id, following) =>
      if following then id in keys.followingLeaderboards else id in keys.leaderboards
    case AthleteStarredRequest(id) => id in keys.starredSegments
    case StarredRequest => false
  }

  /** The keys after the fetch `q` has stored its result. */
  function AddKey(keys: CacheKeys, q: Request): (keys': CacheKeys)
    requires IsCacheKey(q)
    ensures forall x :: IsCached(x, keys') <==> IsCached(x, keys) || x == q
  {
    match q
    case SegmentRequest(id) => keys.(segments := keys.segments + {id})
    case SegmentEffortRequest(id) => keys.(segmentEfforts := keys.segmentEfforts + {id})
    case LeaderboardRequest(id, following) =>
      if following then keys.(followingLeaderboards := keys.followingLeaderboards + {id})
      else keys.(leaderboards := keys.leaderboards + {id})
    case AthleteStarredRequest(id) => keys.(starredSegments := keys.starredSegments + {id})
  }

  /** How many of the requests served fetch `q`. */
  ghost function FetchCount(requests: seq<Request>, q: Request): nat
  {
    multiset(requests)[q]
  }

  /** Every cached key was requested exactly once, every other cache key never. */
  ghost predicate OncePerKey(requests: seq<Request>, keys: CacheKeys)
  {
    forall q {:trigger FetchCount(requests, q)} :: IsCacheKey(q) ==> FetchCount(requests, q) == if IsCached(q, keys) then 1 else 0
  }

  /** A fetch of a key not yet cached, followed by storing its result, keeps OncePerKey. */
  lemma OncePerKeyAfterFetch(requests: seq<Request>, keys: CacheKeys, q: Request)
    requires OncePerKey(requests, keys) && IsCacheKey(q) && !IsCached(q, keys)
    ensures OncePerKey(requests + [q], AddKey(keys, q))
  {
    assert multiset(requests + [q]) == multiset(requests) + multiset{q};
    forall x | IsCacheKey(x)
      ensures FetchCount(requests + [q], x) == if IsCached(x, AddKey(keys, q)) then 1 else 0
    {
      assert FetchCount(requests, x) == if IsCached(x, keys) then 1 else 0;
    }
  }

  /** A request no cache stands behind leaves OncePerKey as it was. */
  lemma OncePerKeyAfterUncached(requests: seq<Request>, keys: CacheKeys)
    requires OncePerKey(requests, keys)
    ensures OncePerKey(requests + [StarredRequest], keys)
  {
    assert multiset(requests + [StarredRequest]) == multiset(requests) + multiset{StarredRequest};
    forall x | IsCacheKey(x)
      ensures FetchCount(requests + [StarredRequest], x) == if IsCached(x, keys) then 1 else 0
    {
      assert FetchCount(requests, x) == if IsCached(x, keys) then 1 else 0;
    }
  }

  /** One call of the log service's LogException. */
  datatype LogRecord = LogRecord(title: string, message: string)

  /** What a fetcher returns for an outcome: the value, or null after an exception. */
  function Stored<T>(o: Result<T, string>): (r: Option<T>)
    ensures r.Some? <==> o.Success?
    ensures r.Some? ==> r.value == o.value
  {
    if o.Success? then Some(o.value) else None
  }

  /** What a fetcher logs for an outcome: one record on failure, nothing on success. */
  function FailureLog<T>(title: string, o: Result<T, string>): (log: seq<LogRecord>)
    ensures |log| == (if o.Failure? then 1 else 0)
    ensures o.Failure? ==> log[0] == LogRecord(title, o.error)
  {
    if o.Failure? then [LogRecord(title, o.error)] else []
  }

  /** The entries with the segment attached and their units normalised. */
  function WithSegment(entries: seq<LeaderboardEntry>, segment: Option<Segment>, units: DistanceUnitType): seq<LeaderboardEntry>
  {
    seq(|entries|, i requires 0 <= i < |entries| => entries[i].(Segment := segment, Units := Some(units)))
  }

  function WithUnits(summaries: seq<SegmentSummary>, units: DistanceUnitType): seq<SegmentSummary>
  {
    seq(|summaries|, i requires 0 <= i < |summaries| => summaries[i].(Units := Some(units)))
  }

  /** The foreach of the leaderboard fetcher: every entry gets the segment and the unit system. */
  method AttachSegment(entries: seq<LeaderboardEntry>, segment: Option<Segment>, units: DistanceUnitType)
    returns (r: seq<LeaderboardEntry>)
    ensures |r| == |entries|
    ensures forall i :: 0 <= i < |r| ==> r[i] == entries[i].(Segment := segment, Units := Some(units))
  {
    r := entries;
    var i := 0;
    while i < |r|
      invariant 0 <= i <= |r| == |entries|
      invariant forall j :: 0 <= j < i ==> r[j] == entries[j].(Segment := segment, Units := Some(units))
      invariant forall j :: i <= j < |r| ==> r[j] == entries[j]
    {
      r := r[i := r[i].(Segment := segment, Units := Some(units))];
      i := i + 1;
    }
  }

  /** The foreach of the starred-list fetchers: every summary gets the unit system. */
  method NormaliseSummaries(summaries: seq<SegmentSummary>, units: DistanceUnitType)
    returns (r: seq<SegmentSummary>)
    ensures |r| == |summaries|
    ensures forall i :: 0 <= i < |r| ==> r[i] == summaries[i].(Units := Some(units))
  {
    r := summaries;
    var i := 0;
    while i < |r|
      invariant 0 <= i <= |r| == |summaries|
      invariant forall j :: 0 <= j < i ==> r[j] == summaries[j].(Units := Some(units))
      invariant forall j :: i <= j < |r| ==> r[j] == summaries[j]
    {
      r := r[i := r[i].(Units := Some(units))];
      i := i + 1;
    }
  }

  /** The group is the one the composer built: its header, rows and back-references. */
  ghost predicate ComposedGroup(g: StatisticsGroup, name: string, sort: int, groupType: StatisticGroupType, rows: seq<DetailRow>)
    reads g
  {
    && g.Name == name && g.Sort == sort && g.Type == groupType
    && Rows(g.Details) == rows
    && forall d :: d in g.Details ==> d.Group == g
  }

  /** A freshly fetched effort: the deserialised fields, normalised, with its "this effort" group. */
  ghost predicate FetchedEffort(e: SegmentEffort, data: EffortData, units: DistanceUnitType)
    reads e, e.Statistics
  {
    && e.Data() == data && e.Units == Some(units)
    && |e.Statistics| == 1
    && ComposedGroup(e.Statistics[0], "this effort", 0, Current, CurrentEffortRows(data))
  }

  class StravaSegmentService {
    const env: Collaborators

    var starredSegments: map<string, Option<seq<SegmentSummary>>>
    var segments: map<string, Option<Segment>>
    var segmentEfforts: map<string, Option<SegmentEffort>>
    var leaderboards: map<string, Option<Leaderboard>>
    var followingLeaderboards: map<string, Option<Leaderboard>>

    /** The LogException calls made on the log service, oldest first. */
    var logged: seq<LogRecord>
    /** The number of requests made to the web client. */
    var webCalls: nat
    /** For each of those requests, the fetch it served. */
    ghost var requests: seq<Request>

    /** How many web requests have served fetch `q`. */
    ghost function Fetches(q: Request): nat
      reads this`requests
    {
      FetchCount(requests, q)
    }

    function LeaderboardCache(following: bool): map<string, Option<Leaderboard>>
      reads this`leaderboards, this`followingLeaderboards
    {
      if following then followingLeaderboards else leaderboards
    }

    function Keys(): CacheKeys
      reads this`segments, this`segmentEfforts, this`leaderboards, this`followingLeaderboards, this`starredSegments
    {
      CacheKeys(segments.Keys, segmentEfforts.Keys, leaderboards.Keys, followingLeaderboards.Keys, starredSegments.Keys)
    }

    /**
     * Each cached key was fetched exactly once and every other key never:
     * a cache entry is only created by its own fetch and never replaced.
     */
    ghost predicate Valid()
      reads this
    {
      webCalls == |requests| && OncePerKey(requests, Keys())
    }

    constructor (collaborators: Collaborators)
      ensures Valid() && env == collaborators
      ensures segments == map[] && segmentEfforts == map[] && starredSegments == map[]
      ensures leaderboards == map[] && followingLeaderboards == map[]
      ensures logged == [] && webCalls == 0
    {
      env := collaborators;
      segments, segmentEfforts, starredSegments := map[], map[], map[];
      leaderboards, followingLeaderboards := map[], map[];
      logged, webCalls, requests := [], 0, [];
    }

    // -------------------------------------------------------------------
    // What each fetch yields, as a function of the collaborators and of the
    // number of web requests made before it.

    function SegmentOutcome(segmentId: string, call: nat): Result<Segment, string>
    {
      var body := env.get(SegmentUrl(env.endpoints, segmentId, env.accessToken), call);
      if body.Failure? then Failure(body.error)
      else match env.segmentJson(body.value)
        case Failure(e) => Failure(e)
        case Success(s) => Success(s.(Units := Some(env.distanceUnitType)))
    }

    function SegmentEffortOutcome(segmentEffortId: string, call: nat): Result<EffortData, string>
    {
      var body := env.get(SegmentEffortUrl(env.endpoints, segmentEffortId, env.accessToken), call);
      if body.Failure? then Failure(body.error) else env.effortJson(body.value)
    }

    function LeaderboardOutcome(segmentId: string, following: bool, segment: Option<Segment>, call: nat): Result<Leaderboard, string>
    {
      var body := env.get(LeaderboardUrl(env.endpoints, segmentId, env.accessToken, following), call);
      if body.Failure? then Failure(body.error)
      else match env.leaderboardJson(body.value)
        case Failure(e) => Failure(e)
        case Success(lb) =>
          if lb.Entries.None? then Success(lb)
          else Success(lb.(Entries := Some(WithSegment(lb.Entries.value, segment, env.distanceUnitType))))
    }

    function AthleteStarredOutcome(athleteId: string, call: nat): Result<seq<SegmentSummary>, string>
    {
      var body := env.get(AthleteStarredUrl(env.endpoints, athleteId, env.accessToken), call);
      if body.Failure? then Failure(body.error)
      else match env.summariesJson(body.value)
        case Failure(e) => Failure(e)
        case Success(list) => Success(WithUnits(list, env.distanceUnitType))
    }

    function StarredOutcome(call: nat): Result<seq<SegmentSummary>, string>
    {
      var body := env.get(StarredUrl(env.endpoints, env.accessToken), call);
      if body.Failure? then Failure(body.error)
      else match env.summariesJson(body.value)
        case Failure(e) => Failure(e)
        case Success(list) => Success(WithUnits(list, env.distanceUnitType))
    }

    // -------------------------------------------------------------------
    // Calls on the collaborators.

    /** One request to the web client, recorded as serving fetch `q`. */
    method WebGet(url: string, ghost q: Request) returns (r: Result<string, string>)
      modifies this`webCalls, this`requests
      ensures r == env.get(url, old(webCalls))
      ensures webCalls == old(webCalls) + 1 && requests == old(requests) + [q]
    {
      r := env.get(url, webCalls);
      webCalls := webCalls + 1;
      requests := requests + [q];
    }

    method LogException(title: string, message: string)
      modifies this`logged
      ensures logged == old(logged) + [LogRecord(title, message)]
    {
      logged := logged + [LogRecord(title, message)];
    }

    // -------------------------------------------------------------------
    // The fetchers: each makes exactly one web request, and on an exception
    // logs once and returns null.

    method GetSegmentFromService(segmentId: string) returns (r: Option<Segment>)
      modifies this`logged, this`webCalls, this`requests
      ensures webCalls == old(webCalls) + 1 && requests == old(requests) + [SegmentRequest(segmentId)]
      ensures r == Stored(SegmentOutcome(segmentId, old(webCalls)))
      ensures logged == old(logged) + FailureLog(SegmentTitle(segmentId), SegmentOutcome(segmentId, old(webCalls)))
    {
      var json := WebGet(SegmentUrl(env.endpoints, segmentId, env.accessToken), SegmentRequest(segmentId));
      var segment := if json.Failure? then Failure(json.error) else env.segmentJson(json.value);
      if segment.Failure? {
        LogException(SegmentTitle(segmentId), segment.error);
        return None;
      }
      r := Some(segment.value.(Units := Some(env.distanceUnitType)));
    }

    method GetSegmentEffortFromService(segmentEffortId: string) returns (r: Option<SegmentEffort>)
      modifies this`logged, this`webCalls, this`requests
      ensures webCalls == old(webCalls) + 1 && requests == old(requests) + [SegmentEffortRequest(segmentEffortId)]
      ensures r.Some? <==> SegmentEffortOutcome(segmentEffortId, old(webCalls)).Success?
      ensures r.Some? ==> FetchedEffort(r.value, SegmentEffortOutcome(segmentEffortId, old(webCalls)).value, env.distanceUnitType)
      ensures r.Some? ==> fresh(r.value) && fresh(r.value.Statistics[0])
      ensures logged == old(logged) + FailureLog(SegmentEffortTitle(segmentEffortId), SegmentEffortOutcome(segmentEffortId, old(webCalls)))
    {
      var json := WebGet(SegmentEffortUrl(env.endpoints, segmentEffortId, env.accessToken), SegmentEffortRequest(segmentEffortId));
      var data := if json.Failure? then Failure(json.error) else env.effortJson(json.value);
      if data.Failure? {
        LogException(SegmentEffortTitle(segmentEffortId), data.error);
        return None;
      }
      var effort := new SegmentEffort(data.value);
      effort.SetMetricUnits(env.distanceUnitType);
      FillStatistics(effort);
      r := Some(effort);
    }

    /**
     * The leaderboard fetcher first takes the segment through the segment
     * cache, so it may fetch the segment too; then it requests the
     * leaderboard and attaches that segment to every entry.
     */
    method GetLeaderboardFromService(segmentId: string, following: bool) returns (r: Option<Leaderboard>)
      requires Valid()
      modifies this`segments, this`logged, this`webCalls, this`requests
      ensures webCalls == |requests|
      ensures segmentId in old(segments) ==>
                var o := LeaderboardOutcome(segmentId, following, old(segments)[segmentId], old(webCalls));
                && segments == old(segments)
                && requests == old(requests) + [LeaderboardRequest(segmentId, following)]
                && r == Stored(o)
                && logged == old(logged) + FailureLog(LeaderboardTitle(segmentId, following), o)
      ensures segmentId !in old(segments) ==>
                var so := SegmentOutcome(segmentId, old(webCalls));
                var o := LeaderboardOutcome(segmentId, following, Stored(so), old(webCalls) + 1);
                && segments == old(segments)[segmentId := Stored(so)]
                && requests == old(requests) + [SegmentRequest(segmentId), LeaderboardRequest(segmentId, following)]
                && r == Stored(o)
                && logged == old(logged) + FailureLog(SegmentTitle(segmentId), so) + FailureLog(LeaderboardTitle(segmentId, following), o)
    {
      var segment := GetSegment(segmentId);
      r := RequestLeaderboard(segmentId, following, segment);
    }

    /** The leaderboard request itself, with the segment already at hand. */
    method RequestLeaderboard(segmentId: string, following: bool, segment: Option<Segment>) returns (r: Option<Leaderboard>)
      modifies this`logged, this`webCalls, this`requests
      ensures webCalls == old(webCalls) + 1 && requests == old(requests) + [LeaderboardRequest(segmentId, following)]
      ensures r == Stored(LeaderboardOutcome(segmentId, following, segment, old(webCalls)))
      ensures logged == old(logged) + FailureLog(LeaderboardTitle(segmentId, following), LeaderboardOutcome(segmentId, following, segment, old(webCalls)))
    {
      var json := WebGet(LeaderboardUrl(env.endpoints, segmentId, env.accessToken, following), LeaderboardRequest(segmentId, following));
      var leaderboard := if json.Failure? then Failure(json.error) else env.leaderboardJson(json.value);
      if leaderboard.Failure? {
        LogException(LeaderboardTitle(segmentId, following), leaderboard.error);
        return None;
      }
      var lb := leaderboard.value;
      if lb.Entries.Some? {
        var entries := AttachSegment(lb.Entries.value, segment, env.distanceUnitType);
        assert entries == WithSegment(lb.Entries.value, segment, env.distanceUnitType);
        lb := lb.(Entries := Some(entries));
      }
      r := Some(lb);
    }

    method GetStarredSegmentsFromService(athleteId: string) returns (r: Option<seq<SegmentSummary>>)
      modifies this`logged, this`webCalls, this`requests
      ensures webCalls == old(webCalls) + 1 && requests == old(requests) + [AthleteStarredRequest(athleteId)]
      ensures r == Stored(AthleteStarredOutcome(athleteId, old(webCalls)))
      ensures logged == old(logged) + FailureLog(AthleteStarredTitle(athleteId), AthleteStarredOutcome(athleteId, old(webCalls)))
    {
      var json := WebGet(AthleteStarredUrl(env.endpoints, athleteId, env.accessToken), AthleteStarredRequest(athleteId));
      var list := if json.Failure? then Failure(json.error) else env.summariesJson(json.value);
      if list.Failure? {
        LogException(AthleteStarredTitle(athleteId), list.error);
        return None;
      }
      var normalised := NormaliseSummaries(list.value, env.distanceUnitType);
      assert normalised == WithUnits(list.value, env.distanceUnitType);
      r := Some(normalised);
    }

    // -------------------------------------------------------------------
    // The public operations.

    /** The starred segments of the signed-in athlete: never cached, one request per call. */
    method GetStarredSegments() returns (r: Option<seq<SegmentSummary>>)
      requires Valid()
      modifies this`logged, this`webCalls, this`requests
      ensures Valid()
      ensures webCalls == old(webCalls) + 1 && requests == old(requests) + [StarredRequest]
      ensures r == Stored(StarredOutcome(old(webCalls)))
      ensures logged == old(logged) + FailureLog(StarredTitle, StarredOutcome(old(webCalls)))
    {
      var json := WebGet(StarredUrl(env.endpoints, env.accessToken), StarredRequest);
      OncePerKeyAfterUncached(old(requests), Keys());
      var list := if json.Failure? then Failure(json.error) else env.summariesJson(json.value);
      if list.Failure? {
        LogException(StarredTitle, list.error);
        return None;
      }
      var normalised := NormaliseSummaries(list.value, env.distanceUnitType);
      assert normalised == WithUnits(list.value, env.distanceUnitType);
      r := Some(normalised);
    }

    method GetSegment(segmentId: string) returns (r: Option<Segment>)
      requires Valid()
      modifies this`segments, this`logged, this`webCalls, this`requests
      ensures Valid()
      ensures segmentId in segments && r == segments[segmentId]
      ensures segmentId in old(segments) ==>
                segments == old(segments) && requests == old(requests) && logged == old(logged) && webCalls == old(webCalls)
      ensures segmentId !in old(segments) ==>
                var o := SegmentOutcome(segmentId, old(webCalls));
                && segments == old(segments)[segmentId := Stored(o)]
                && requests == old(requests) + [SegmentRequest(segmentId)]
                && logged == old(logged) + FailureLog(SegmentTitle(segmentId), o)
    {
      if segmentId in segments {
        return segments[segmentId];
      }
      r := GetSegmentFromService(segmentId);
      segments := segments[segmentId := r];
      OncePerKeyAfterFetch(old(requests), old(Keys()), SegmentRequest(segmentId));
      assert Keys() == AddKey(old(Keys()), SegmentRequest(segmentId));
    }

    method GetSegmentEffort(segmentEffortId: string) returns (r: Option<SegmentEffort>)
      requires Valid()
      modifies this`segmentEfforts, this`logged, this`webCalls, this`requests
      ensures Valid()
      ensures segmentEffortId in segmentEfforts && r == segmentEfforts[segmentEffortId]
      ensures segmentEffortId in old(segmentEfforts) ==>
                segmentEfforts == old(segmentEfforts) && requests == old(requests) && logged == old(logged) && webCalls == old(webCalls)
      ensures segmentEffortId !in old(segmentEfforts) ==>
                var o := SegmentEffortOutcome(segmentEffortId, old(webCalls));
                && segmentEfforts == old(segmentEfforts)[segmentEffortId := r]
                && requests == old(requests) + [SegmentEffortRequest(segmentEffortId)]
                && logged == old(logged) + FailureLog(SegmentEffortTitle(segmentEffortId), o)
                && (r.Some? <==> o.Success?)
                && (r.Some? ==> fresh(r.value) && FetchedEffort(r.value, o.value, env.distanceUnitType))
    {
      if segmentEffortId in segmentEfforts {
        return segmentEfforts[segmentEffortId];
      }
      r := GetSegmentEffortFromService(segmentEffortId);
      StoreSegmentEffort(segmentEffortId, r);
      OncePerKeyAfterFetch(old(requests), old(Keys()), SegmentEffortRequest(segmentEffortId));
    }

    /** Stores a fetched effort in the effort cache. */
    method StoreSegmentEffort(segmentEffortId: string, r: Option<SegmentEffort>)
      modifies this`segmentEfforts
      ensures segmentEfforts == old(segmentEfforts)[segmentEffortId := r]
      ensures Keys() == AddKey(old(Keys()), SegmentEffortRequest(segmentEffortId))
    {
      segmentEfforts := segmentEfforts[segmentEffortId := r];
    }

    method GetAthleteStarredSegments(athleteId: string) returns (r: Option<seq<SegmentSummary>>)
      requires Valid()
      modifies this`starredSegments, this`logged, this`webCalls, this`requests
      ensures Valid()
      ensures athleteId in starredSegments && r == starredSegments[athleteId]
      ensures athleteId in old(starredSegments) ==>
                starredSegments == old(starredSegments) && requests == old(requests) && logged == old(logged) && webCalls == old(webCalls)
      ensures athleteId !in old(starredSegments) ==>
                var o := AthleteStarredOutcome(athleteId, old(webCalls));
                && starredSegments == old(starredSegments)[athleteId := Stored(o)]
                && requests == old(requests) + [AthleteStarredRequest(athleteId)]
                && logged == old(logged) + FailureLog(AthleteStarredTitle(athleteId), o)
    {
      if athleteId in starredSegments {
        return starredSegments[athleteId];
      }
      r := GetStarredSegmentsFromService(athleteId);
      starredSegments := starredSegments[athleteId := r];
      OncePerKeyAfterFetch(old(requests), old(Keys()), AthleteStarredRequest(athleteId));
      assert Keys() == AddKey(old(Keys()), AthleteStarredRequest(athleteId));
    }

    /**
     * The following and the overall leaderboard of a segment are two keys
     * in two maps: the call reads and writes only the map its flag selects.
     */
    method GetLeaderboard(segmentId: string, following: bool) returns (r: Option<Leaderboard>)
      requires Valid()
      modifies this`leaderboards, this`followingLeaderboards, this`segments, this`logged, this`webCalls, this`requests
      ensures Valid()
      ensures LeaderboardCache(!following) == old(LeaderboardCache(!following))
      ensures segmentId in LeaderboardCache(following) && r == LeaderboardCache(following)[segmentId]
      ensures segmentId in old(LeaderboardCache(following)) ==>
                && LeaderboardCache(following) == old(LeaderboardCache(following))
                && segments == old(segments) && requests == old(requests) && logged == old(logged) && webCalls == old(webCalls)
      ensures segmentId !in old(LeaderboardCache(following)) && segmentId in old(segments) ==>
                && segments == old(segments)
                && LeaderboardCache(following) == old(LeaderboardCache(following))[segmentId :=
                     Stored(LeaderboardOutcome(segmentId, following, old(segments)[segmentId], old(webCalls)))]
                && requests == old(requests) + [LeaderboardRequest(segmentId, following)]
                && logged == old(logged) + FailureLog(LeaderboardTitle(segmentId, following),
                                                      LeaderboardOutcome(segmentId, following, old(segments)[segmentId], old(webCalls)))
      ensures segmentId !in old(LeaderboardCache(following)) && segmentId !in old(segments) ==>
                var so := SegmentOutcome(segmentId, old(webCalls));
                && segments == old(segments)[segmentId := Stored(so)]
                && LeaderboardCache(following) == old(LeaderboardCache(following))[segmentId :=
                     Stored(LeaderboardOutcome(segmentId, following, Stored(so), old(webCalls) + 1))]
                && requests == old(requests) + [SegmentRequest(segmentId), LeaderboardRequest(segmentId, following)]
                && logged == old(logged) + FailureLog(SegmentTitle(segmentId), so)
                                         + FailureLog(LeaderboardTitle(segmentId, following),
                                                      LeaderboardOutcome(segmentId, following, Stored(so), old(webCalls) + 1))
    {
      if segmentId in LeaderboardCache(following) {
        return LeaderboardCache(following)[segmentId];
      }
      ghost var q, keys := LeaderboardRequest(segmentId, following), Keys();
      r := GetLeaderboardFromService(segmentId, following);
      StoreLeaderboard(segmentId, following, r);
      if segmentId in old(segments) {
        assert Keys() == AddKey(keys, q);
        OncePerKeyAfterFetch(old(requests), keys, q);
      } else {
        var s := SegmentRequest(segmentId);
        assert Keys() == AddKey(AddKey(keys, s), q);
        OncePerKeyAfterFetch(old(requests), keys, s);
        OncePerKeyAfterFetch(old(requests) + [s], AddKey(keys, s), q);
        assert requests == old(requests) + [s] + [q];
      }
    }

    /** Stores a leaderboard in the map the flag selects. */
    method StoreLeaderboard(segmentId: string, following: bool, r: Option<Leaderboard>)
      modifies this`leaderboards, this`followingLeaderboards
      ensures LeaderboardCache(following) == old(LeaderboardCache(following))[segmentId := r]
      ensures LeaderboardCache(!following) == old(LeaderboardCache(!following))
      ensures Keys() == AddKey(old(Keys()), LeaderboardRequest(segmentId, following))
    {
      if following {
        followingLeaderboards := followingLeaderboards[segmentId := r];
      } else {
        leaderboards := leaderboards[segmentId := r];
      }
    }

    // -------------------------------------------------------------------
    // The statistics composer.

    /** Adds the "this effort" group to the effort, after the groups it has. */
    static method FillStatistics(effort: SegmentEffort)
      modifies effort`Statistics
      ensures |effort.Statistics| == |old(effort.Statistics)| + 1
      ensures effort.Statistics[..|old(effort.Statistics)|] == old(effort.Statistics)
      ensures var g := effort.Statistics[|effort.Statistics| - 1];
              && fresh(g)
              && ComposedGroup(g, "this effort", 0, Current, CurrentEffortRows(effort.Data()))
    {
      var current := NewGroup("this effort", 0, Current, CurrentEffortRows(effort.Data()));
      effort.Statistics := effort.Statistics + [current];
    }

    /** A new group holding one new detail per row, in order, each referring back to the group. */
    static method NewGroup(name: string, sort: int, groupType: StatisticGroupType, rows: seq<DetailRow>)
      returns (g: StatisticsGroup)
      requires |rows| == 4
      ensures fresh(g) && ComposedGroup(g, name, sort, groupType, rows)
    {
      g := new StatisticsGroup(name, sort, groupType);
      var first := new StatisticsDetail(rows[0], g);
      var second := new StatisticsDetail(rows[1], g);
      var third := new StatisticsDetail(rows[2], g);
      var fourth := new StatisticsDetail(rows[3], g);
      g.AddDetail(first);
      g.AddDetail(second);
      g.AddDetail(third);
      g.AddDetail(fourth);
      assert g.Details == [first, second, third, fourth];
      assert Rows(g.Details) == rows;
    }

    /**
     * Adds the "personal record" group built from the first entry of the
     * effort's athlete. Nothing changes for a null leaderboard or when no
     * entry is the athlete's; a leaderboard whose entries are null makes
     * the query raise ArgumentNullException.
     */
    method FillStatisticsFromLeaderboard(effort: SegmentEffort, leaderboard: Option<Leaderboard>) returns (o: Outcome<string>)
      modifies effort`Statistics
      ensures o.Fail? <==> leaderboard.Some? && leaderboard.value.Entries.None?
      ensures o.Fail? ==> o.error == "ArgumentNullException"
      ensures leaderboard.None? || leaderboard.value.Entries.None?
              || FirstEntryOf(leaderboard.value.Entries.value, effort.Athlete.Id).None?
              ==> effort.Statistics == old(effort.Statistics)
      ensures leaderboard.Some? && leaderboard.value.Entries.Some? ==>
                var entries := leaderboard.value.Entries.value;
                var k := FirstEntryOf(entries, effort.Athlete.Id);
                k.Some? ==>
                  && |effort.Statistics| == |old(effort.Statistics)| + 1
                  && effort.Statistics[..|old(effort.Statistics)|] == old(effort.Statistics)
                  && var g := effort.Statistics[|effort.Statistics| - 1];
                     && fresh(g)
                     && ComposedGroup(g, "personal record", 1, PR, PersonalRecordRows(entries[k.value], leaderboard.value.EntryCount))
    {
      if leaderboard.None? {
        return Pass;
      }
      if leaderboard.value.Entries.None? {
        return Fail("ArgumentNullException");
      }
      var entries := leaderboard.value.Entries.value;
      var k := FirstEntryOf(entries, effort.Athlete.Id);
      if k.None? {
        return Pass;
      }
      var pr := NewGroup("personal record", 1, PR, PersonalRecordRows(entries[k.value], leaderboard.value.EntryCount));
      effort.Statistics := effort.Statistics + [pr];
      o := Pass;
    }
  }

  /**
   * Asking twice for one segment yields the stored result both times, and
   * the segment has been fetched exactly once.
   */
  method GetSegmentTwice(service: StravaSegmentService, segmentId: string) returns (first: Option<Segment>, second: Option<Segment>)
    requires service.Valid()
    modifies service`segments, service`logged, service`webCalls, service`requests
    ensures service.Valid()
    ensures first == second
    ensures service.Fetches(SegmentRequest(segmentId)) == 1
  {
    first := service.GetSegment(segmentId);
    second := service.GetSegment(segmentId);
    assert IsCached(SegmentRequest(segmentId), service.Keys());
  }

  /**
   * The following and the overall leaderboard of one segment are fetched
   * separately: having one cached never stands in for the other.
   */
  method GetBothLeaderboards(service: StravaSegmentService, segmentId: string) returns (following: Option<Leaderboard>, overall: Option<Leaderboard>)
    requires service.Valid()
    modifies service`leaderboards, service`followingLeaderboards, service`segments, service`logged, service`webCalls, service`requests
    ensures service.Valid()
    ensures segmentId in service.followingLeaderboards && following == service.followingLeaderboards[segmentId]
    ensures segmentId in service.leaderboards && overall == service.leaderboards[segmentId]
    ensures service.Fetches(LeaderboardRequest(segmentId, true)) == 1
    ensures service.Fetches(LeaderboardRequest(segmentId, false)) == 1
  {
    following := service.GetLeaderboard(segmentId, true);
    overall := service.GetLeaderboard(segmentId, false);
    assert IsCached(LeaderboardRequest(segmentId, true), service.Keys());
    assert IsCached(LeaderboardRequest(segmentId, false), service.Keys());
  }

  /** The signed-in athlete's starred list is fetched anew on every call. */
  method GetStarredSegmentsTwice(service: StravaSegmentService) returns (first: Option<seq<SegmentSummary>>, second: Option<seq<SegmentSummary>>)
    requires service.Valid()
    modifies service`logged, service`webCalls, service`requests
    ensures service.Valid()
    ensures service.webCalls == old(service.webCalls) + 2
    ensures service.Fetches(StarredRequest) == old(service.Fetches(StarredRequest)) + 2
  {
    first := service.GetStarredSegments();
    second := service.GetStarredSegments();
    assert service.requests == old(service.requests) + [StarredRequest, StarredRequest];
  }
}
