# Kliva segment service and analytics log, modelled in Dafny

Kliva is a Windows client for Strava. This project models two of its services.

**`StravaSegmentService`** (`segment_service.dfy`, `statistics.dfy`, `models.dfy`):
- Five get-or-add caches: segments, segment efforts, starred lists per athlete, overall leaderboards and following leaderboards.
- Behind the caches, the fetchers. Each reads the access token and unit setting, requests a URL from the web client, deserialises and normalises the answer, and turns any exception into a logged `null`.
- The uncached starred list of the signed-in athlete.
- The two `FillStatistics` composers, which add a "this effort" or a "personal record" group of display rows to an effort.

In the model:
- The service is a class. Each cache is a `map` field that only ever gains keys.
- The web client and the deserialisers are functions that may fail, passed in at construction.
- The web client also receives the number of requests made before the current one, so repeated requests may answer differently.
- A ghost list records which fetch every web request served. The class invariant `Valid()` says each cached key was fetched exactly once and no uncached key ever was. Every public operation preserves it.
- Efforts, statistics groups and statistics details are objects, because the service adds to their lists after creating them. Segments, summaries, leaderboards and entries are values.

**`GoogleAnalyticsLogService`** (`analytics_log.dfy`):
- At construction it reads device and package information. It decodes the 64-bit device family version into four 16-bit fields and formats both versions as dotted quads.
- It sends events as they are, with value 0.
- It sends exceptions as a seven-line report, built in a shared line builder that is cleared first.
- The platform readings are a parameter of construction. A version text that `ulong.Parse` rejects makes construction fail, with the .NET exception as the error.

`text.dfy` holds the text these need:
- decimal printing and `ulong.Parse`
- splitting and joining on a separator
- the lines of `StringBuilder.AppendLine` output
- `Math.Round`'s round-half-to-even on a real stand-in

Behaviours of the code worth noting:
- **Null leaderboard entries.** `FillStatistics(effort, leaderboard)` queries `leaderboard.Entries` without a null check. A leaderboard whose `Entries` is null (a hazardous segment) therefore raises `ArgumentNullException` instead of being a no-op. `FillStatisticsFromLeaderboard` returns that error. An empty entry list is a no-op.
- **Max heart rate.** The maximum heart rate is printed as it is. Only the average is rounded.
- **Rank sort value.** The rank detail of the personal-record group has `Sort` 2, the same as the average heart rate. The group's sort values therefore ascend but not strictly.
- **Moving time.** The "moving time" detail of the current-effort group is built from the effort's `ElapsedTime`.

## Model

| member | source | states |
|---|---|---|
| Text.NatToString | src/Kliva/Services/GoogleAnalyticsLogService.cs:38 | a number in decimal is a non-empty digit string with no leading zero |
| Text.DigitsValueOfNatToString | src/Kliva/Services/GoogleAnalyticsLogService.cs:38 | the decimal text of a number reads back as that number |
| Text.IntToString | src/Kliva/Services/StravaSegmentService.cs:263 | an integer in decimal: non-empty, starting with a minus sign exactly when it is negative, and the rest is digits denoting its absolute value |
| Text.ParseULong | src/Kliva/Services/GoogleAnalyticsLogService.cs:33 | `ulong.Parse` succeeds exactly when the unsigned text is a non-empty run of digits whose value is at most 2^64-1, and is 0 if a minus sign was given. The unsigned text is what remains after removing leading white space, a final run of U+0000, trailing white space and the sign. The result never exceeds 2^64-1 |
| Text.ParseULongOfNatToString | src/Kliva/Services/GoogleAnalyticsLogService.cs:33 | every ulong printed in decimal parses back to itself |
| Text.TrimTrailingNuls | src/Kliva/Services/GoogleAnalyticsLogService.cs:33 | removes exactly the run of U+0000 characters the text ends with, which `ulong.Parse` accepts |
| Text.ParseULongAcceptsTrailingNul | src/Kliva/Services/GoogleAnalyticsLogService.cs:33 | "1" followed by U+0000 parses as 1 |
| Text.ParseULongAcceptsNulAfterWhiteSpace | src/Kliva/Services/GoogleAnalyticsLogService.cs:33 | "1", a space and U+0000 parses as 1 |
| Text.ParseULongRejectsNulBeforeWhiteSpace | src/Kliva/Services/GoogleAnalyticsLogService.cs:33 | "1", U+0000 and a space fails with FormatException: U+0000 is accepted only after all white space |
| Text.ParseULongRejectsStrayCharacter | src/Kliva/Services/GoogleAnalyticsLogService.cs:33 | a character that is not a digit, white space, a sign or U+0000 makes the parse fail with FormatException |
| Text.SplitJoin | src/Kliva/Services/StravaSegmentService.cs:263 | parts free of the separator, joined with it, split back into the same parts |
| Text.ParseDottedQuadOfDottedQuad | src/Kliva/Services/GoogleAnalyticsLogService.cs:38 | "a.b.c.d" reads back as the four numbers a, b, c, d in that order |
| Text.IndexOfCrLf | src/Kliva/Services/GoogleAnalyticsLogService.cs:65-67 | the position of the first line break, or the length when there is none |
| Text.SplitLinesOfJoined | src/Kliva/Services/GoogleAnalyticsLogService.cs:65-80 | lines without line breaks, each appended with AppendLine, are exactly the lines of the builder's text |
| Text.RoundHalfEven | src/Kliva/Services/StravaSegmentService.cs:58 | the result is within one half of the argument, and on a tie it is even |
| Models.StatisticsGroup.AddDetail | src/Kliva/Services/StravaSegmentService.cs:71-74 | the detail is appended after the existing ones |
| Models.StatisticsDetail.constructor | src/Kliva/Services/StravaSegmentService.cs:36-43 | the detail shows the given row and refers back to its group |
| Models.SegmentEffort.constructor | src/Kliva/Services/StravaSegmentService.cs:113 | a deserialised effort has the deserialised fields, no unit normalisation and no statistics |
| Models.SegmentEffort.SetMetricUnits | src/Kliva/Services/StravaSegmentService.cs:114 | the effort is normalised to the preferred unit system |
| Statistics.CurrentEffortRows | src/Kliva/Services/StravaSegmentService.cs:35-69 | four rows with Sort 0, 1, 2, 3 strictly ascending from 0 and empty icons. In order: moving time from the elapsed time, average speed, average heart rate rounded and followed by " bpm", max heart rate printed raw |
| Statistics.PersonalRecordRows | src/Kliva/Services/StravaSegmentService.cs:230-265 | four rows with Sort 0, 1, 2, 2 (ascending from 0 but not strictly) and empty icons. In order: moving time, average speed, rounded average heart rate, rank shown as "rank/entry count" |
| Statistics.FirstEntryOf | src/Kliva/Services/StravaSegmentService.cs:219-221 | the position of the first entry of the athlete, and None exactly when no entry is the athlete's |
| Statistics.RankTextSplits | src/Kliva/Services/StravaSegmentService.cs:263 | the rank text splits at "/" into the rank and the entry count |
| Statistics.AverageHeartRateExample | src/Kliva/Services/StravaSegmentService.cs:58 | an average heart rate of 142.6 is shown as "143 bpm" |
| Statistics.RankTextExample | src/Kliva/Services/StravaSegmentService.cs:263 | rank 3 of 50 is shown as "3/50" |
| SegmentService.LeaderboardUrlFollowingFlag | src/Kliva/Services/StravaSegmentService.cs:158-160 | the leaderboard URL is the formatted endpoint plus the access token; the following URL is exactly that plus "&following=true", so the two differ |
| SegmentService.SegmentTitle | src/Kliva/Services/StravaSegmentService.cs:96 | the logged title contains the segment id |
| SegmentService.SegmentEffortTitle | src/Kliva/Services/StravaSegmentService.cs:122 | the logged title contains the effort id |
| SegmentService.LeaderboardTitle | src/Kliva/Services/StravaSegmentService.cs:179 | the logged title contains the segment id and "following True" or "following False" |
| SegmentService.AthleteStarredTitle | src/Kliva/Services/StravaSegmentService.cs:208 | the logged title contains the athlete id |
| SegmentService.Stored | src/Kliva/Services/StravaSegmentService.cs:92-100 | a fetcher returns the value on success and null exactly on failure |
| SegmentService.FailureLog | src/Kliva/Services/StravaSegmentService.cs:94-98 | a failed fetch logs exactly one record, with its title and the exception message; a successful one logs nothing |
| SegmentService.AddKey | src/Kliva/Services/StravaSegmentService.cs:277-324 | storing a fetch's result adds exactly that key to exactly its cache |
| SegmentService.OncePerKeyAfterFetch | src/Kliva/Services/StravaSegmentService.cs:277-285 | fetching a key not yet cached and then storing its result keeps every cached key fetched exactly once |
| SegmentService.OncePerKeyAfterUncached | src/Kliva/Services/StravaSegmentService.cs:287-311 | a request for the uncached starred list leaves every cache key's fetch count as it was |
| SegmentService.AttachSegment | src/Kliva/Services/StravaSegmentService.cs:166-173 | every entry gets the segment and the unit system; the list keeps its length and order and the entries keep their other fields |
| SegmentService.NormaliseSummaries | src/Kliva/Services/StravaSegmentService.cs:201-202 | every summary is normalised to the unit system; the list keeps its length, order and other fields |
| SegmentService.StravaSegmentService.constructor | src/Kliva/Services/StravaSegmentService.cs:18-31 | all five caches empty, nothing logged, no request made, and the invariant holds |
| SegmentService.StravaSegmentService.WebGet | src/Kliva/Services/StravaSegmentService.cs:87 | one request to the web client, counted and recorded as serving the given fetch |
| SegmentService.StravaSegmentService.LogException | src/Kliva/Services/StravaSegmentService.cs:97 | one record is added to the log |
| SegmentService.StravaSegmentService.GetSegmentFromService | src/Kliva/Services/StravaSegmentService.cs:79-101 | exactly one request; the deserialised segment normalised to the preferred units on success; one logged record containing the id and null on failure |
| SegmentService.StravaSegmentService.GetSegmentEffortFromService | src/Kliva/Services/StravaSegmentService.cs:103-127 | exactly one request. On success: a new effort with the deserialised fields, normalised, holding one "this effort" group. On failure: one logged record and null |
| SegmentService.StravaSegmentService.GetLeaderboardFromService | src/Kliva/Services/StravaSegmentService.cs:148-184 | takes the segment through the segment cache, fetching it only if absent, then makes the leaderboard request; records every request, the result and each logged failure in order |
| SegmentService.StravaSegmentService.RequestLeaderboard | src/Kliva/Services/StravaSegmentService.cs:158-183 | exactly one request. On success: the leaderboard with the segment attached to every entry, or untouched when its entries are absent. On failure: one logged record and null |
| SegmentService.StravaSegmentService.GetStarredSegmentsFromService | src/Kliva/Services/StravaSegmentService.cs:190-213 | exactly one request; the normalised list on success; one logged record containing the athlete id and null on failure |
| SegmentService.StravaSegmentService.GetStarredSegments | src/Kliva/Services/StravaSegmentService.cs:287-311 | touches no cache and makes exactly one request on every call; the normalised list, or a logged failure and null |
| SegmentService.StravaSegmentService.GetSegment | src/Kliva/Services/StravaSegmentService.cs:277-280 | a cached key returns its stored result with nothing changed and no request. A missing key is fetched once and its result, null included, stored. The invariant is kept |
| SegmentService.StravaSegmentService.GetSegmentEffort | src/Kliva/Services/StravaSegmentService.cs:282-285 | the same get-or-add behaviour for efforts; a freshly fetched effort holds its "this effort" group |
| SegmentService.StravaSegmentService.GetAthleteStarredSegments | src/Kliva/Services/StravaSegmentService.cs:313-316 | the same get-or-add behaviour, keyed by athlete id |
| SegmentService.StravaSegmentService.GetLeaderboard | src/Kliva/Services/StravaSegmentService.cs:318-324 | reads and writes only the map the flag selects, leaving the other unchanged. Otherwise the same get-or-add behaviour, with the segment fetched first when it is not cached. A fresh fetch logs one record per failed request, titled with the id and the flag for the leaderboard |
| SegmentService.StravaSegmentService.StoreSegmentEffort | src/Kliva/Services/StravaSegmentService.cs:284 | the fetched effort goes into the effort cache under its id, and that id becomes the one new cached key |
| SegmentService.StravaSegmentService.StoreLeaderboard | src/Kliva/Services/StravaSegmentService.cs:320-323 | the result goes into the map of its flag only |
| SegmentService.StravaSegmentService.NewGroup | src/Kliva/Services/StravaSegmentService.cs:230-270 | a new group with the given header holding one new detail per row, in order, each referring back to the group |
| SegmentService.StravaSegmentService.FillStatistics | src/Kliva/Services/StravaSegmentService.cs:33-77 | appends exactly one new group, "this effort", Sort 0, type Current, holding the current-effort rows in order, each referring back to the group; earlier groups are kept |
| SegmentService.StravaSegmentService.FillStatisticsFromLeaderboard | src/Kliva/Services/StravaSegmentService.cs:215-275 | no change for a null leaderboard or when no entry is the athlete's; ArgumentNullException for null entries. Otherwise, for the first matching entry, one new group "personal record", Sort 1, type PR, holding the personal-record rows with the rank out of the entry count |
| SegmentService.GetSegmentTwice | src/Kliva/Services/StravaSegmentService.cs:277-280 | asking twice for one segment gives the same result and fetches it exactly once |
| SegmentService.GetBothLeaderboards | src/Kliva/Services/StravaSegmentService.cs:318-324 | the following and the overall leaderboard of one segment are fetched once each; neither stands in for the other |
| SegmentService.GetStarredSegmentsTwice | src/Kliva/Services/StravaSegmentService.cs:287-311 | two calls for the signed-in athlete's starred list make two requests |
| AnalyticsLog.DecodeVersion | src/Kliva/Services/GoogleAnalyticsLogService.cs:33-37 | each of the four fields is below 65536, and (v1<<48)\|(v2<<32)\|(v3<<16)\|v4 is the version |
| AnalyticsLog.DecodeEncodeVersion | src/Kliva/Services/GoogleAnalyticsLogService.cs:34-37 | four fields below 65536, packed and decoded, come back unchanged |
| AnalyticsLog.VersionTextRecoversVersion | src/Kliva/Services/GoogleAnalyticsLogService.cs:33-38 | the "v1.v2.v3.v4" text reads back as the four fields, most significant first, and they pack into the version |
| AnalyticsLog.SystemVersionRecoversVersion | src/Kliva/Services/GoogleAnalyticsLogService.cs:32-38 | SystemVersion reads back as the four fields of the parsed device family version |
| AnalyticsLog.ArchitectureName | src/Kliva/Services/GoogleAnalyticsLogService.cs:42 | the architecture is reported by a non-empty name |
| AnalyticsLog.ArchitectureNameInjective | src/Kliva/Services/GoogleAnalyticsLogService.cs:42 | different architectures are reported under different names |
| AnalyticsLog.ApplicationVersionText | src/Kliva/Services/GoogleAnalyticsLogService.cs:48-49 | ApplicationVersion reads back as Major, Minor, Build and Revision in that order |
| AnalyticsLog.ReadDeviceInfo | src/Kliva/Services/GoogleAnalyticsLogService.cs:23-55 | construction fails exactly when the version parse does, with its error. Otherwise family, architecture name, display name, manufacturer and model are taken over as reported |
| AnalyticsLog.ConstructionFailsOnStrayCharacter | src/Kliva/Services/GoogleAnalyticsLogService.cs:32-33 | a version text holding a character that is not a digit, white space, a sign or U+0000 makes construction fail with FormatException |
| AnalyticsLog.DeviceInfoLines | src/Kliva/Services/GoogleAnalyticsLogService.cs:72-81 | five lines, the first and last "****" |
| AnalyticsLog.ExceptionLines | src/Kliva/Services/GoogleAnalyticsLogService.cs:62-81 | seven lines: the title, the device block, and the message |
| AnalyticsLog.DashJoinedHasNoCrLf | src/Kliva/Services/GoogleAnalyticsLogService.cs:76-78 | "a - b" has no line break when a and b have none |
| AnalyticsLog.ExceptionReportLines | src/Kliva/Services/GoogleAnalyticsLogService.cs:62-81 | when no part holds a line break, the sent report splits back into exactly the seven lines in order |
| AnalyticsLog.ExceptionReportStartsWithTitle | src/Kliva/Services/GoogleAnalyticsLogService.cs:65 | the report starts with the title and a line break |
| AnalyticsLog.GoogleAnalyticsLogService.constructor | src/Kliva/Services/GoogleAnalyticsLogService.cs:23-55 | the seven properties are the given ones; empty builder, nothing sent |
| AnalyticsLog.GoogleAnalyticsLogService.Create | src/Kliva/Services/GoogleAnalyticsLogService.cs:23-55 | a new service with the device information the platform yields, or the parse error when the version text is rejected |
| AnalyticsLog.GoogleAnalyticsLogService.Clear | src/Kliva/Services/GoogleAnalyticsLogService.cs:64 | the builder is empty |
| AnalyticsLog.GoogleAnalyticsLogService.AppendLine | src/Kliva/Services/GoogleAnalyticsLogService.cs:65 | the line is appended after the existing ones |
| AnalyticsLog.GoogleAnalyticsLogService.Log | src/Kliva/Services/GoogleAnalyticsLogService.cs:57-60 | one event with category, action and label unchanged and value 0 |
| AnalyticsLog.GoogleAnalyticsLogService.LogException | src/Kliva/Services/GoogleAnalyticsLogService.cs:62-70 | the builder holds exactly the seven report lines, whatever it held before, and one non-fatal exception carrying that text is sent |
| AnalyticsLog.GoogleAnalyticsLogService.AppendDeviceInfo | src/Kliva/Services/GoogleAnalyticsLogService.cs:72-81 | the five device lines are appended in order |

## Left out

- Concurrency. The caches are modelled sequentially. `ConcurrentDictionary.GetOrAdd` may run a factory twice under a race, so the model's "fetched exactly once" holds only for sequential calls. The tasks are modelled by the values they complete with.
- HTTP, JSON and settings. The web client and the four deserialisers are functions passed in; the access token, unit setting and endpoints are values. Reading the settings is taken never to fail.
- A deserialiser that yields null (an empty payload), which then faults during normalisation, is a failure of that function in the model.
- `StravaService.SetMetricUnits` is not part of this model. Its effect is recorded as the unit system the entity was normalised to (`Units := Some(u)`).
- `SecToTimeConverter` and `UserMeasurementUnitStatisticsDetail` are not part of this model. The details hold the seconds and the speed value they are given.
- Statistics.CurrentEffortRows: the max heart rate's text (a double printed by the current culture) is held as the raw value, not as a string.
- Text.RoundHalfEven: works on a real rather than a double, and does not produce the "-0" text that .NET prints for a negative value rounding to zero.
- Text.ParseULong: takes the invariant culture's signs; other cultures' sign symbols are left out. A null string is left out too, as the platform never reports one.
- Leaderboard entries, segments and summaries are values, so the model does not capture aliasing between a cached leaderboard's entries and other holders of them. `AttachSegment` returns the updated list rather than assigning in place.
- A null key. `GetOrAdd(null, …)` in the four cached gets (StravaSegmentService.cs:279, 284, 315, 321, 323) throws ArgumentNullException to the caller, outside any try block; the model's string keys cannot be null.
- An effort whose `Athlete` is null (a NullReferenceException in the personal-record query) is left out; every effort has an athlete.
- The analytics tracker is external. `Tracker.SendEvent` and `SendException` are recorded in the `sent` list.
- `ProcessorArchitecture.ToString()` on a value outside the enum (which prints the number) is left out.
- `src/Kliva/Models/MenuItem.cs` is UI data-binding code with no logic; it is not part of this model.
