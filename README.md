# Remind-Me: contest selection and reminder planning, in Dafny

This project models the core of the Remind-Me Discord bot, which reminds programming
communities about upcoming contests:

- the contest record (`Round`) and its allow/disallow name policy;
- the per-website schema table;
- the contest cache file and its 30-minute freshness rule (`clist_api.cache`);
- the `Reminders` cog. The cog splits the cached contests into future, active and
  finished lists and buckets the future contests by start time in `start_time_map`.
  It plans, for every guild, one reminder request per (bucket with a contest the guild
  wants, lead time). It renders the reminder text and the embed fields, filters contest
  lists by `+alias`, and validates and stores guild settings. It also throttles backups
  of the guild settings to one per six hours.

Times are whole seconds (`int`). A contest's start is its POSIX time stamp, which is also
its `start_time_map` key. Strings are `seq<char>`. Python exceptions the modelled code can
raise are values of `Results.Error`, carried by `Result`/`Outcome`.

Files and modules:

| file | module | models |
|---|---|---|
| `results.dfy` | `Results` | `Option`, `Result`, `Outcome` and the Python exceptions that can occur |
| `text.dfy` | `Text` | `in` on strings, ASCII `lower()`, `join`, `str(int)`, `rjust`, `%02d` |
| `lists.dfy` | `Lists` | order-preserving selection (`Filter`) and mapping (`Map`) |
| `sorting.dfy` | `Sorting` | `sorted(key=…, reverse=…)` as a stable insertion sort on integer keys |
| `rounds.dfy` | `Rounds` | `remind/util/rounds.py` |
| `website_schema.dfy` | `WebsiteSchema` | `remind/util/website_schema.py` |
| `clist_api.dfy` | `ClistApi` | `remind/util/clist_api.py`; the db file is the field of class `ContestStore` |
| `reminder_helpers.dfy` | `ReminderHelpers` | the module-level code of `remind/cogs/reminders.py` |
| `reminders_cog.dfy` | `RemindersCog` | class `Reminders` of `remind/cogs/reminders.py`, with the functions that specify its methods |

The cog is a class. Its fields are the ones the source mutates: the three lists,
`start_time_map` (an insertion-ordered `seq<Bucket>`, since dict order fixes request order),
`task_map` (guild to planned requests), `guild_map`, `last_guild_backup_time`, and the
backups written so far. Each method is proved against a function of the old state
(`Plan`, `BucketsOf`, `FutureContests`, `ApplyPatterns`, …), and the lemmas about those
functions state what the source promises. `Valid()` holds that `start_time_map` buckets
the future contests and that backups are six hours apart. The constructor establishes it
and the methods that touch those fields preserve it.

`guild_map` is a `defaultdict(get_default_guild_settings)`. Reading a missing guild
inserts the defaults (`Materialized`), and the model keeps that insertion, because it
decides whether `clear` finds the key. `Settings(gm, gid)` is the value such a read returns.

## Model

| member | source | states |
|---|---|---|
| Rounds.FromRaw | remind/util/rounds.py:6-12 | each field of the record is the corresponding key of the API object |
| Rounds.EligibleForOwnSite | remind/util/rounds.py:24-25 | a contest is eligible for a site iff the site is the contest's website, the API object's `resource` |
| Rounds.IsDesiredIff | remind/util/rounds.py:31-41 | `is_desired` holds iff no disallowed pattern occurs in the lowercased name and some allowed pattern does |
| Rounds.DisallowWins | remind/util/rounds.py:33-35 | a disallowed pattern occurring in the lowercased name rejects it, whatever the allowed list |
| Rounds.NoAllowedNothingDesired | remind/util/rounds.py:37-41 | with an empty allowed list no name is desired |
| Rounds.EmptyAllowedAdmitsAll | remind/util/rounds.py:33-41 | an allowed `''` admits every name no disallowed pattern hits |
| Rounds.EmptyDisallowedBlocksAll | remind/util/rounds.py:34 | a disallowed `''` rejects every name |
| Rounds.DesiredDependsOnLowerOnly | remind/util/rounds.py:33-41 | names equal after lowercasing get the same verdict, and lowercasing first changes nothing |
| Rounds.Show | remind/util/rounds.py:14-22 | `__str__` is `(` + the six `Key = value` fields joined by `", "` + `)`: the final `", "` is cut |
| Rounds.JoinSix | remind/util/rounds.py:15-21 | six fields each followed by the separator, minus the last separator, are the fields joined by it |
| Rounds.TimedeltaNegative | remind/util/rounds.py:18 | `str(timedelta)` of -1 s is "-1 day, 23:59:59": a negative day count and a normalised clock |
| WebsiteSchema.MakePatterns | remind/util/website_schema.py:5-16 | an omitted list argument becomes `[]`, an omitted prefix `""`; given arguments are stored as given |
| WebsiteSchema.DefaultPatternsEmpty | remind/util/website_schema.py:19 | the defaultdict's default entry has empty lists and prefix `""` |
| WebsiteSchema.FindSite | remind/util/website_schema.py:19-68 | the position of a site in the table is its first occurrence, or past the end when it is unlisted |
| WebsiteSchema.Lookup | remind/util/website_schema.py:19-68 | `schema[site]` is the listed entry, or the default entry for an unlisted site |
| WebsiteSchema.LookupEntry | remind/util/website_schema.py:21-68 | looking up a listed site gives that site's entry |
| WebsiteSchema.SitesDistinct | remind/util/website_schema.py:21-68 | no site is listed twice |
| WebsiteSchema.UnlistedNeverDesired | remind/util/website_schema.py:19 | no contest of an unlisted website is desired |
| WebsiteSchema.CodeforcesPolicy | remind/util/website_schema.py:21-26 | a Codeforces name is desired iff it mentions none of wild, fools, kotlin, unrated |
| WebsiteSchema.CodechefLongCookRejected | remind/util/website_schema.py:28-33 | a CodeChef name with both "cook" and "long" is rejected |
| WebsiteSchema.EntriesHaveMetadata | remind/util/website_schema.py:21-68 | every listed entry has a shorthand and a non-empty prefix |
| WebsiteSchema.SchemaShorthandsDisjoint | remind/util/website_schema.py:21-68 | no shorthand is listed by two entries |
| WebsiteSchema.ShorthandsNotLater | remind/util/website_schema.py:21-68 | the shorthands of each entry appear in no later entry |
| WebsiteSchema.ShorthandSite | remind/util/website_schema.py:21-68 | a shorthand resolved by searching the table names a site whose entry lists it |
| WebsiteSchema.ShorthandSiteIff | remind/util/website_schema.py:21-68 | a shorthand resolves to a site exactly when that site's entry lists it, so shorthand to website is a function |
| WebsiteSchema.ShorthandSiteFound | remind/util/website_schema.py:21-68 | the same for any table with distinct sites and disjoint shorthands |
| ClistApi.QueryApi | remind/util/clist_api.py:45-52 | `_query_api` succeeds iff the response has status 200 and an `objects` list, which it returns; anything else is `ClientError` |
| ClistApi.LastQueryTime | remind/util/clist_api.py:59-66 | an unreadable file or an empty object gives 0, a stored time gives that time, a non-empty object without `querytime` raises KeyError |
| ClistApi.FreshSkips | remind/util/clist_api.py:68-69 | not forced and less than 1800 s since the last query: no query, file unchanged |
| ClistApi.ForcedQueries | remind/util/clist_api.py:68-74 | a forced call queries however fresh the file, whenever the last query time can be read (an unreadable file counts as time 0) |
| ClistApi.FailureKeepsSnapshot | remind/util/clist_api.py:71-74 | a failed query leaves the file as it was |
| ClistApi.SuccessReplaces | remind/util/clist_api.py:68-78 | a due, successful query replaces the file with exactly `{querytime: now, objects}` |
| ClistApi.ReplacedIsFresh | remind/util/clist_api.py:66-78 | right after a replacement, an unforced call within the window does not query |
| ClistApi.ContestStore.constructor | remind/util/clist_api.py:57 | the store starts with the given file content |
| ClistApi.ContestStore.Cache | remind/util/clist_api.py:55-78 | the new file and the outcome are those of `CacheStep` on the old file |
| ReminderHelpers.AllowedWebsitesListed | remind/cogs/reminders.py:62-73 | the websites the aliases name are the seven supported websites |
| ReminderHelpers.SupportedAreSchemaSites | remind/cogs/reminders.py:62-73 | the supported websites are exactly the sites of the schema table |
| ReminderHelpers.DefaultsMatchSchema | remind/cogs/reminders.py:45-60 | for every supported website, the module's default pattern tables equal the schema's lists |
| ReminderHelpers.DefaultsMatchEntry | remind/cogs/reminders.py:45-60 | the same agreement, entry by entry of the schema |
| ReminderHelpers.AllowedDefaultAt | remind/cogs/reminders.py:53-60 | `_WEBSITE_ALLOWED_PATTERNS` holds each entry's allowed patterns |
| ReminderHelpers.DisallowedDefaultAt | remind/cogs/reminders.py:45-51 | `_WEBSITE_DISALLOWED_PATTERNS` holds each entry's disallowed patterns; usaco.org's missing key reads as `[]` |
| ReminderHelpers.DefaultGuildSettings | remind/cogs/reminders.py:94-100 | ids and offsets unset, time zone UTC, pattern tables reading as the module defaults |
| ReminderHelpers.DefaultSettingsFollowSchema | remind/cogs/reminders.py:94-100 | a guild with default settings wants exactly the contests the schema admits |
| ReminderHelpers.TimeFormatRecombines | remind/cogs/reminders.py:109 | the day/hour/minute/second split recombines to the input, with hours, minutes and seconds in range |
| ReminderHelpers.DurationFormatShape | remind/cogs/reminders.py:108-113 | for any split of the duration into days and in-range hours, minutes and seconds, the text is `"Hh Mm"` of that split, with `"Dd "` in front exactly when the duration is at least a day |
| ReminderHelpers.DurationFormatExample | remind/cogs/reminders.py:108-113 | a 9000 s contest is shown as `"2h 30m"` |
| ReminderHelpers.FirstLabel | remind/cogs/reminders.py:124-141 | the index of the first listed substring occurring in the URL, or none when no substring occurs |
| ReminderHelpers.ContestWebsiteIsFirstMatch | remind/cogs/reminders.py:124-141 | the label is that of the first matching substring in the codeforces…usaco order, "Not Found" iff none matches |
| ReminderHelpers.MaxDurationLen | remind/cogs/reminders.py:150 | the widest duration text of a non-empty list: no wider and attained |
| ReminderHelpers.FieldsIndex | remind/cogs/reminders.py:145-156 | one field per contest, field `i` built from contest `i` |
| ReminderHelpers.EmbedFields | remind/cogs/reminders.py:144-156 | an empty list raises ValueError (from `max`), and nothing else does; a non-empty list always succeeds with the fields of the contests in order, padded to the widest duration |
| ReminderHelpers.EmbedDurationsAligned | remind/cogs/reminders.py:116-121 | every duration of one embed is padded to the same width |
| ReminderHelpers.FormattedDescLayout | remind/cogs/reminders.py:116-121 | the description is a backquote, the start time and a bar, each between en spaces; the right-justified duration follows at offset `len(start) + 5`, then an en-space bar |
| ReminderHelpers.FormattedDescColumns | remind/cogs/reminders.py:116-121 | with a width no smaller than the duration, the duration column holds exactly `width` characters from `len(start) + 5`, followed by the bar |
| ReminderHelpers.FieldColumns | remind/cogs/reminders.py:144-156 | the value of field `i` holds contest `i`'s padded duration from after its start time, when no duration is wider than the width |
| ReminderHelpers.EmbedColumnsAligned | remind/cogs/reminders.py:144-156 | in every field of one embed the duration column has the widest duration's width, from after the start time, followed by the bar, so the columns line up |
| ReminderHelpers.BeforePartsCount | remind/cogs/reminders.py:172-173 | the reminder text has one part per non-zero day/hr/min/sec component |
| ReminderHelpers.TimeFormatOfMinutes | remind/cogs/reminders.py:164 | a lead time of whole minutes splits into days, hours and minutes, never seconds |
| ReminderHelpers.BeforePartsOfMinutes | remind/cogs/reminders.py:164-173 | the parts for `60 * mins` are day, hr and min of `mins`, in that order, zeros left out |
| ReminderHelpers.AboutToStartTenMinutes | remind/cogs/reminders.py:166-174 | ten minutes reads "About to start in 10 mins" (plural) |
| ReminderHelpers.TenMinutesParts | remind/cogs/reminders.py:166-173 | ten minutes is the single part "10 mins" |
| ReminderHelpers.TenMinutesMake | remind/cogs/reminders.py:166-168 | a value other than 1 takes an "s" |
| ReminderHelpers.AboutToStartOneHour | remind/cogs/reminders.py:166-174 | one hour reads "About to start in 1 hr" (singular) |
| ReminderHelpers.AboutToStartNow | remind/cogs/reminders.py:172-174 | a zero lead time leaves no parts |
| ReminderHelpers.AnyFilterSelects | remind/cogs/reminders.py:187-191 | whether some `+alias` filter names the contest's website; an empty filter raises IndexError |
| ReminderHelpers.FilterContests | remind/cogs/reminders.py:181-194 | no filters: the input unchanged; otherwise the order-preserving subsequence some filter selects; an empty filter raises IndexError once a contest is examined |
| ReminderHelpers.BadFilterSelectsNothing | remind/cogs/reminders.py:189 | a filter without "+" or with an unknown alias selects nothing |
| ReminderHelpers.FilteredMembership | remind/cogs/reminders.py:186-193 | a contest is kept iff some `+alias` filter maps to its website |
| ReminderHelpers.EmbedPairs | remind/cogs/reminders.py:176-177 | one pair per field, in order: the website and the name joined by a double bar, and the field value |
| ReminderHelpers.SendReminderAt | remind/cogs/reminders.py:159-178 | nothing is sent iff the send time is not in the future; a future send time with no contests raises ValueError; with contests, a missing channel raises AttributeError, and otherwise the notice goes to the request's channel with the role, the "About to start in …" text and one embed pair per contest |
| RemindersCog.UpdatePartition | remind/cogs/reminders.py:245-260 | future is `start > now`, active `start <= now <= end`, finished `end < now`; each list holds the cached contests its test admits, whatever the duration; each cached contest with a non-negative duration is in exactly one list; the future and active lists and the untruncated finished list are sorted |
| RemindersCog.InSortBy | remind/cogs/reminders.py:258-260 | sorting keeps exactly the same contests |
| RemindersCog.StoredFinished | remind/cogs/reminders.py:249-262 | the stored `finished_contests` holds at most five contests, all finished contests of the cache, latest end first |
| RemindersCog.FinishedKeepsMostRecent | remind/cogs/reminders.py:259-262 | a dropped finished contest means five were kept, none ending earlier than it |
| RemindersCog.FindBucket | remind/cogs/reminders.py:265 | the bucket keyed by a start time, if any |
| RemindersCog.AddToBucketContents | remind/cogs/reminders.py:265 | appending a contest to the defaultdict keeps every bucket exact |
| RemindersCog.AddToExisting | remind/cogs/reminders.py:265 | appending to an existing bucket keeps the buckets exact |
| RemindersCog.AddAsNew | remind/cogs/reminders.py:265 | a new start time opens a new bucket at the end |
| RemindersCog.BucketsOfContents | remind/cogs/reminders.py:263-265 | keys distinct; each bucket holds exactly the contests with its start, in order; every contest has a bucket |
| RemindersCog.BucketsPartition | remind/cogs/reminders.py:263-265 | every future contest lies in exactly one bucket, the one keyed by its start |
| RemindersCog.RequestsShape | remind/cogs/reminders.py:313-316 | one request per offset, request `k` for offset `k` |
| RemindersCog.PlannedCount | remind/cogs/reminders.py:309-318 | the number of requests is the number of offsets times the number of buckets with a wanted contest |
| RemindersCog.PlannedMembership | remind/cogs/reminders.py:309-318 | a request is planned iff it is the request of a bucket with wanted contests and an offset |
| RemindersCog.PlannedHas | remind/cogs/reminders.py:309-318 | every such (bucket, offset) pair is planned |
| RemindersCog.PlannedFrom | remind/cogs/reminders.py:309-318 | every planned request comes from such a pair |
| RemindersCog.RequestsCarryDesired | remind/cogs/reminders.py:310-316 | a request carries only wanted contests of one bucket (at least one) and is sent `60 * mins` s before that bucket's start |
| RemindersCog.PlannedInStep | remind/cogs/reminders.py:289-291 | storing the next guild's plan extends the planned prefix of guilds; a guild that cannot be planned is not in that prefix |
| RemindersCog.ProgressStep | remind/cogs/reminders.py:289-302 | one `_reschedule_tasks` step writes only that guild's task list and, with buckets, adds only its key to `guild_map`: the rescheduled prefix grows by the guild, or the loop stops there with its list emptied |
| RemindersCog.RepeatedOffsetRepeats | remind/cogs/reminders.py:313-318 | a repeated offset plans the same reminder twice, since offsets are not deduplicated |
| RemindersCog.MaterializeInvisible | remind/cogs/reminders.py:207 | the defaultdict's insertion on read changes no value a read sees |
| RemindersCog.ApplyPatternsEffect | remind/cogs/reminders.py:484-499 | supported websites in the input get the source's patterns; other websites and all other settings are unchanged |
| RemindersCog.UnsubscribeBlocks | remind/cogs/reminders.py:537-538 | after `unsubscribe`, no contest of an unsubscribed website is wanted |
| RemindersCog.SubscribeRestoresSchema | remind/cogs/reminders.py:514-515 | after `subscribe`, a subscribed website follows the schema table again |
| RemindersCog.DescendingOffsets | remind/cogs/reminders.py:375-382 | the stored offsets are a descending permutation of the given ones, non-negative when those were |
| RemindersCog.ReactionGuard | remind/cogs/reminders.py:603-623 | the guard passes iff a check mark is added in the reminder channel with a final-call channel set, never with default settings |
| RemindersCog.BackupRunSpaced | remind/cogs/reminders.py:350-358 | backups over any sequence of calls are six hours after the last one and six hours apart, and occur at call times |
| RemindersCog.CachedContestsFollowSchema | remind/cogs/reminders.py:270-277 | every cached contest comes from the file and, for a supported website, is admitted by the schema |
| RemindersCog.Reminders.constructor | remind/cogs/reminders.py:198-208 | lists unset, maps empty, last backup time -1 |
| RemindersCog.Reminders.Materialize | remind/cogs/reminders.py:207 | `guild_map[gid]` inserts the defaults when the guild is absent |
| RemindersCog.Reminders.GetGuildContests | remind/cogs/reminders.py:279-287 | the contests the guild's own tables admit, in order |
| RemindersCog.Reminders.GenerateContestCache | remind/cogs/reminders.py:270-277 | the file after `cache()`, then the cache from the file; a missing file or key raises and keeps the old cache |
| RemindersCog.Reminders.UpdateTask | remind/cogs/reminders.py:239-266 | the file follows the cache rule; on an exception while reading the cache nothing in the cog changes; otherwise the three lists and the buckets derive from the new cache and the guilds are rescheduled as `RescheduleAllTasks` states, and `Valid()` is kept |
| RemindersCog.Reminders.Replan | remind/cogs/reminders.py:245-266 | the lists and buckets derive from the cache, then the guilds are rescheduled as `RescheduleAllTasks` states |
| RemindersCog.Reminders.RebuildLists | remind/cogs/reminders.py:245-265 | the three lists are the sorted comprehensions (finished truncated to five, see `StoredFinished`) and the buckets are those of the future list |
| RemindersCog.Reminders.RebuildStartTimeMap | remind/cogs/reminders.py:263-265 | `start_time_map` becomes the buckets of the future contests |
| RemindersCog.Reminders.RescheduleAllTasks | remind/cogs/reminders.py:289-291 | it passes iff every listed guild can be planned, and then each holds its plan; otherwise it fails with TypeError at a guild that cannot be planned: every guild before it holds its plan and its own list is empty; every guild not yet reached (unlisted, or later in the list) keeps its task entry or its absence; `guild_map` gains exactly the keys reached when there are buckets; every guild's settings as read are unchanged |
| RemindersCog.Reminders.RescheduleTasks | remind/cogs/reminders.py:293-318 | the guild's task list is emptied, then holds `Plan` of the buckets and its settings; only that guild's entry changes |
| RemindersCog.Reminders.PlanBuckets | remind/cogs/reminders.py:309-318 | the nested loop computes `Plan`; `remind_before = None` with a wanted contest raises TypeError |
| RemindersCog.Reminders.BucketReminders | remind/cogs/reminders.py:313-318 | one request per offset, in offset order |
| RemindersCog.Reminders.SetGuildSetting | remind/cogs/reminders.py:484-499 | the guild's settings become `ApplyPatterns` of the old ones; the input is split in order into supported and unsupported |
| RemindersCog.Reminders.UpdatePatterns | remind/cogs/reminders.py:489-496 | the loop computes `ApplyPatterns` and the two ordered lists |
| RemindersCog.Reminders.Subscribe | remind/cogs/reminders.py:503-523 | an alert and no change when no website is supported; otherwise the default patterns for the supported ones |
| RemindersCog.Reminders.Unsubscribe | remind/cogs/reminders.py:527-546 | an alert and no change when no website is supported; otherwise allowed `[]` and disallowed `['']` for the supported ones |
| RemindersCog.Reminders.Clear | remind/cogs/reminders.py:550-552 | deletes the guild's entry; KeyError when there is none |
| RemindersCog.Reminders.SetRemindSettings | remind/cogs/reminders.py:366-382 | rejects a role that is not mentionable, then empty or negative offsets; otherwise stores channel, role and the descending offsets |
| RemindersCog.Reminders.SetFinalcallSettings | remind/cogs/reminders.py:631-636 | rejects an offset that is not positive; otherwise stores offset and channel |
| RemindersCog.Reminders.OnRawReactionAdd | remind/cogs/reminders.py:603-611 | the "set" message is sent iff the guard passes |
| RemindersCog.Reminders.OnRawReactionRemove | remind/cogs/reminders.py:614-623 | the "removed" message is sent iff the guard passes |
| RemindersCog.Reminders.BackupSerialize | remind/cogs/reminders.py:350-358 | backs up iff six hours have passed since the last backup, then records `now` |
| RemindersCog.Reminders.AfterInvoke | remind/cogs/reminders.py:234-237 | first the backup rule on the guild map as it was (a backup iff six hours have passed, then recorded with that map), then the guild's task list holds its plan, and the guild map gains only the defaultdict entry |
| Sorting.SortBy | remind/cogs/reminders.py:258-260 | sorting keeps the length |
| Sorting.SortBySorted | remind/cogs/reminders.py:258-260 | the result is in key order, ascending or descending |
| Sorting.SortByPermutes | remind/cogs/reminders.py:258-260 | the result is a permutation of the input |
| Sorting.InsertSorted | remind/cogs/reminders.py:258-260 | inserting into a sorted list keeps it sorted |
| Sorting.InsertPermutes | remind/cogs/reminders.py:258-260 | inserting adds exactly the new element |
| Lists.Filter | remind/cogs/reminders.py:245-256 | the kept elements are exactly those of the input passing the test |
| Lists.FilterAppend | remind/cogs/reminders.py:283-287 | selection distributes over concatenation, so relative order is kept |
| Text.OccursIff | remind/util/rounds.py:33-41 | `p in s` iff `p` is a contiguous slice of `s` |
| Text.EmptyOccurs | remind/util/rounds.py:33-41 | `'' in s` always holds |
| Text.AnyOccursIff | remind/util/rounds.py:33-39 | the pattern loop hits iff some pattern occurs |
| Text.LowerIdempotent | remind/util/rounds.py:33-41 | lowercasing twice is lowercasing once |
| Text.ParseNatToString | remind/util/rounds.py:15 | `str(n)` reads back as `n` |
| Text.NatToStringInjective | remind/util/rounds.py:15 | different numbers print differently |
| Text.NatToStringDigits | remind/util/rounds.py:15 | `str(n)` is non-empty digits without a leading zero |
| Text.RJustPads | remind/cogs/reminders.py:119 | `rjust` pads on the left with the fill character to the width, keeping the string at the end |

## Left out

- Discord transport is not modelled: sending messages and embeds, DMs, `get_channel`/`get_role`, the paginator, command decorators and permissions, `cog_command_error`, and the listing commands `future`/`active`/`finished` with `_make_contest_pages` and `_send_contest_list`. Their selection logic is modelled: `GetGuildContests`, then `FilterContests`, then `EmbedFields`.
- asyncio is not modelled: `create_task`, `sleep`, `cancel` and the self-re-arming `_update_task` loop. A planned task is the `RemindRequest` it would run. `SendReminderAt` reads the clock once, as its `now` parameter.
- File and network I/O are not modelled: pickle, JSON, `requests.get`, environment variables, and `on_ready`'s pickle load. The db file is a field of `ContestStore`. `_query_api`'s HTTP reply is a parameter of `QueryApi`. `UpdateTask` receives the query result directly.
- `_serialize_guild_map` is not modelled. `BackupSerialize` records each backup's time and guild map instead of writing it.
- Time zones and dates are not modelled: `pytz`, `strftime`/`astimezone` in `_contest_start_time_format` (a `startFormat` parameter), `strptime` in `Round.__init__`, `time.mktime` (the bucket key is the start time stamp, so the local-offset shift is not modelled) and `utcnow` (a `now` parameter).
- `discord_common.time_format` is not part of this model. `TimeFormat` assumes it splits seconds into days, hours, minutes and seconds by successive `divmod`.
- `Round.__init__` calls `schema[website].normalize`, which `WebsitePatterns` does not define. `FromRaw` keeps the name as given. `Round.is_rare` reads the undefined `schema.rare` and is not modelled.
- `is_desired` takes one table in `remind/util/rounds.py:31`, while `remind/cogs/reminders.py:276-277,284` passes an allowed and a disallowed table. The model follows the call: `IsDesired` takes the allowed list, the disallowed list and the name, and `ContestDesired` reads both lists from the two tables.
- `str.lower()` is modelled on ASCII letters only.
- `reset_judges_settings` reads attributes that `GuildSettings` lacks and is not modelled. `settz` depends on `random.sample` and the pytz list and is not modelled. The `settings` command only renders text and is not modelled.
- `RemindRequest.schedule_remind`/`unschedule_remind` are never called and are not modelled. Final-call tasks and subscription counters do not exist in this code: `finalcall_tasks_map` and `finalcall_subscribe_count` are never used.
- Sorting.SortBy: Python's `list.sort` is in place. The model sorts a sequence and assigns the result, and does not state stability beyond sortedness and permutation.
- RemindersCog.Reminders.SetGuildSetting: the defaultdict insertion on the first read is not shown separately, because the same key is stored back at the end of the method.
- RemindersCog.Reminders.PlanBuckets: `get_guild_contests` inside the loop reads an entry that `_reschedule_tasks` has already inserted, so the loop takes the settings value directly.
- RemindersCog.Reminders.UpdateTask: when reading the cache raises, or `_reschedule_all_tasks()` raises TypeError, the Python round ends before `create_task` re-arms it, so no later refresh happens. The model returns the error and does not model the stopped loop.
- ReminderHelpers.FilterContests: `SupportedWebsites` is the alias map `_SUPPORTED_WEBSITES`; filter words come from Discord's argument parser, whose splitting is not modelled.
- A db file whose `querytime` is JSON `null` is not represented: `Db` has the key either absent or holding a number. Python reads `null` as time 0, but `cache` itself only ever writes a number.
- Contest start times and durations are whole seconds. `timedelta` microseconds do not occur.

## Behaviour worth noting

- The reminder offsets are not deduplicated, so a repeated offset plans the same reminder twice (`RepeatedOffsetRepeats`).
- Contests within a bucket are not deduplicated by URL (`PlannedMembership`).
- A reminder whose send time has already passed is still planned; it is skipped when its task starts (`SendReminderAt`).
- A non-empty db object without `querytime` raises KeyError (`LastQueryTime`).
- `Round` parses a contest record without any error handling; the model takes records already parsed.
- `set_finalcall_settings` rejects 0 as well as negative offsets (`SetFinalcallSettings`).
- The reaction handlers only send a direct message; they keep no subscription state and assign no role (`ReactionGuard`).
