/** The `Reminders` cog of remind/cogs/reminders.py: the contest lists and the
    `start_time_map` buckets rebuilt by `_update_task`, the reminder requests that
    `_reschedule_tasks` starts for a guild, and the guild settings commands. */
module RemindersCog {
  import opened Results
  import opened Lists
  import opened Sorting
  import opened Rounds
  import opened ReminderHelpers
  import WebsiteSchema
  import ClistApi

  // ---------------------------------------------------------------------------
  // `_update_task`: partition of the cache into future, active and finished

  function StartTime(c: Round): int {
    c.startTime
  }

  function EndTime(c: Round): int {
    c.startTime + c.duration
  }

  predicate IsFuture(c: Round, now: int) {
    c.startTime > now
  }

  predicate IsActive(c: Round, now: int) {
    c.startTime <= now <= c.startTime + c.duration
  }

  predicate IsFinished(c: Round, now: int) {
    c.startTime + c.duration < now
  }

  /** `future_contests` after the sort: upcoming contests by ascending start. */
  function FutureContests(cache: seq<Round>, now: int): seq<Round> {
    SortBy(Filter(cache, c => IsFuture(c, now)), StartTime, false)
  }

  /** `active_contests` after the sort: running contests by ascending start. */
  function ActiveContests(cache: seq<Round>, now: int): seq<Round> {
    SortBy(Filter(cache, c => IsActive(c, now)), StartTime, false)
  }

  /** All finished contests, latest end first. */
  function AllFinished(cache: seq<Round>, now: int): seq<Round> {
    SortBy(Filter(cache, c => IsFinished(c, now)), EndTime, true)
  }

  /** `finished_contests[:_FINISHED_CONTESTS_LIMIT]`. */
  function FinishedContests(cache: seq<Round>, now: int): seq<Round> {
    var all := AllFinished(cache, now);
    if |all| <= FinishedContestsLimit then all else all[..FinishedContestsLimit]
  }

  lemma InSortBy(s: seq<Round>, key: Round -> int, descending: bool, c: Round)
    ensures c in SortBy(s, key, descending) <==> c in s
  {
    var r := SortBy(s, key, descending);
    SortByPermutes(s, key, descending);
    assert c in r <==> c in multiset(r);
    assert c in s <==> c in multiset(s);
  }

  /** Each list before truncation holds the contests of the cache its test admits; one
      with a non-negative duration is in exactly one of them. Future and active are sorted
      by start, finished by descending end. */
  lemma UpdatePartition(cache: seq<Round>, now: int, c: Round)
    ensures c in FutureContests(cache, now) <==> c in cache && IsFuture(c, now)
    ensures c in ActiveContests(cache, now) <==> c in cache && IsActive(c, now)
    ensures c in AllFinished(cache, now) <==> c in cache && IsFinished(c, now)
    ensures c in cache && c.duration >= 0 ==>
      (if c in FutureContests(cache, now) then 1 else 0) + (if c in ActiveContests(cache, now) then 1 else 0)
        + (if c in AllFinished(cache, now) then 1 else 0) == 1
    ensures Sorted(FutureContests(cache, now), StartTime, false)
    ensures Sorted(ActiveContests(cache, now), StartTime, false)
    ensures Sorted(AllFinished(cache, now), EndTime, true)
  {
    InSortBy(Filter(cache, x => IsFuture(x, now)), StartTime, false, c);
    InSortBy(Filter(cache, x => IsActive(x, now)), StartTime, false, c);
    InSortBy(Filter(cache, x => IsFinished(x, now)), EndTime, true, c);
    SortBySorted(Filter(cache, x => IsFuture(x, now)), StartTime, false);
    SortBySorted(Filter(cache, x => IsActive(x, now)), StartTime, false);
    SortBySorted(Filter(cache, x => IsFinished(x, now)), EndTime, true);
  }

  /** At most five finished contests are kept, and none that was dropped ended later
      than one that was kept. */
  lemma FinishedKeepsMostRecent(cache: seq<Round>, now: int, dropped: Round)
    requires dropped in cache && IsFinished(dropped, now)
    requires dropped !in FinishedContests(cache, now)
    ensures |FinishedContests(cache, now)| == FinishedContestsLimit
    ensures forall d :: d in FinishedContests(cache, now) ==> EndTime(d) >= EndTime(dropped)
  {
    var all := AllFinished(cache, now);
    InSortBy(Filter(cache, x => IsFinished(x, now)), EndTime, true, dropped);
    SortBySorted(Filter(cache, x => IsFinished(x, now)), EndTime, true);
    var j :| 0 <= j < |all| && all[j] == dropped;
    assert |all| > FinishedContestsLimit;
    var kept := all[..FinishedContestsLimit];
    assert forall i :: 0 <= i < |kept| ==> kept[i] == all[i] && kept[i] in kept;
    assert j >= FinishedContestsLimit;
    forall d | d in kept
      ensures EndTime(d) >= EndTime(dropped)
    {
      var i :| 0 <= i < |kept| && kept[i] == d;
      assert InOrder(EndTime, true, all[i], all[j]);
    }
  }

  /** The stored `finished_contests`: at most five finished contests of the cache, latest
      end first. */
  lemma StoredFinished(cache: seq<Round>, now: int)
    ensures |FinishedContests(cache, now)| <= FinishedContestsLimit
    ensures Sorted(FinishedContests(cache, now), EndTime, true)
    ensures forall c :: c in FinishedContests(cache, now) ==> c in cache && IsFinished(c, now)
  {
    var all := AllFinished(cache, now);
    SortBySorted(Filter(cache, x => IsFinished(x, now)), EndTime, true);
    forall c | c in FinishedContests(cache, now)
      ensures c in cache && IsFinished(c, now)
    {
      assert c in all;
      InSortBy(Filter(cache, x => IsFinished(x, now)), EndTime, true, c);
    }
  }

  // ---------------------------------------------------------------------------
  // `start_time_map`: buckets of future contests keyed by start, in insertion order

  datatype Bucket = Bucket(start: int, contests: seq<Round>)

  /** The position of the bucket keyed `key`, if there is one. */
  function FindBucket(buckets: seq<Bucket>, key: int): (r: Option<nat>)
    ensures r.Some? ==> r.value < |buckets| && buckets[r.value].start == key
    ensures r.None? ==> forall i :: 0 <= i < |buckets| ==> buckets[i].start != key
  {
    if buckets == [] then None
    else if buckets[0].start == key then Some(0)
    else match FindBucket(buckets[1..], key)
      case None => None
      case Some(i) => Some(i + 1)
  }

  /** `start_time_map[c.start_time].append(c)` on a `defaultdict(list)`. */
  function AddToBucket(buckets: seq<Bucket>, c: Round): seq<Bucket> {
    match FindBucket(buckets, c.startTime)
    case Some(i) => buckets[i := Bucket(buckets[i].start, buckets[i].contests + [c])]
    case None => buckets + [Bucket(c.startTime, [c])]
  }

  /** The map built by appending every contest of `contests` in turn. */
  function BucketsOf(contests: seq<Round>): seq<Bucket> {
    if contests == [] then []
    else AddToBucket(BucketsOf(contests[..|contests| - 1]), contests[|contests| - 1])
  }

  /** The contests of `contests` that start at `key`, in order. */
  function StartingAt(contests: seq<Round>, key: int): seq<Round> {
    Filter(contests, (c: Round) => c.startTime == key)
  }

  lemma StartingAtSnoc(contests: seq<Round>, c: Round, key: int)
    ensures StartingAt(contests + [c], key) == StartingAt(contests, key) + (if c.startTime == key then [c] else [])
  {
    assert (contests + [c])[..|contests|] == contests;
  }

  ghost predicate KeysDistinct(buckets: seq<Bucket>) {
    forall i, j :: 0 <= i < j < |buckets| ==> buckets[i].start != buckets[j].start
  }

  /** Every bucket holds exactly the contests with its start, in order, at least one. */
  ghost predicate BucketsExact(buckets: seq<Bucket>, contests: seq<Round>) {
    forall i :: 0 <= i < |buckets| ==>
      buckets[i].contests == StartingAt(contests, buckets[i].start) && buckets[i].contests != []
  }

  ghost predicate BucketsCover(buckets: seq<Bucket>, contests: seq<Round>) {
    forall c :: c in contests ==> exists i :: 0 <= i < |buckets| && buckets[i].start == c.startTime
  }

  /** Keys are distinct, every bucket holds exactly the contests with its start, and
      every contest has a bucket. */
  ghost predicate BucketsOver(buckets: seq<Bucket>, contests: seq<Round>) {
    KeysDistinct(buckets) && BucketsExact(buckets, contests) && BucketsCover(buckets, contests)
  }

  /** Appending to the existing bucket `i` keeps the buckets exact. */
  lemma AddToExisting(b: seq<Bucket>, init: seq<Round>, c: Round, i: nat)
    requires BucketsOver(b, init)
    requires i < |b| && b[i].start == c.startTime
    ensures BucketsOver(b[i := Bucket(b[i].start, b[i].contests + [c])], init + [c])
  {
    var r := b[i := Bucket(b[i].start, b[i].contests + [c])];
    assert forall j :: 0 <= j < |b| ==> r[j].start == b[j].start;
    assert KeysDistinct(r);
    forall j | 0 <= j < |r|
      ensures r[j].contests == StartingAt(init + [c], r[j].start) && r[j].contests != []
    {
      StartingAtSnoc(init, c, r[j].start);
    }
    forall x | x in init + [c]
      ensures exists j :: 0 <= j < |r| && r[j].start == x.startTime
    {
      if x != c {
        assert x in init;
        var j :| 0 <= j < |b| && b[j].start == x.startTime;
        assert r[j].start == x.startTime;
      } else {
        assert r[i].start == x.startTime;
      }
    }
  }

  /** A contest whose start has no bucket opens a new one at the end. */
  lemma AddAsNew(b: seq<Bucket>, init: seq<Round>, c: Round)
    requires BucketsOver(b, init)
    requires forall i :: 0 <= i < |b| ==> b[i].start != c.startTime
    ensures BucketsOver(b + [Bucket(c.startTime, [c])], init + [c])
  {
    var r := b + [Bucket(c.startTime, [c])];
    assert KeysDistinct(r);
    forall j | 0 <= j < |r|
      ensures r[j].contests == StartingAt(init + [c], r[j].start) && r[j].contests != []
    {
      StartingAtSnoc(init, c, r[j].start);
      if j == |b| {
        assert forall x :: x in init ==> x.startTime != c.startTime;
        FilterNone(init, (x: Round) => x.startTime == c.startTime);
      }
    }
    forall x | x in init + [c]
      ensures exists j :: 0 <= j < |r| && r[j].start == x.startTime
    {
      if x != c {
        assert x in init;
        var j :| 0 <= j < |b| && b[j].start == x.startTime;
        assert r[j].start == x.startTime;
      } else {
        assert r[|b|].start == x.startTime;
      }
    }
  }

  /** Appending one contest keeps the buckets exact. */
  lemma AddToBucketContents(b: seq<Bucket>, init: seq<Round>, c: Round)
    requires BucketsOver(b, init)
    ensures BucketsOver(AddToBucket(b, c), init + [c])
  {
    match FindBucket(b, c.startTime)
    case Some(i) => AddToExisting(b, init, c, i);
    case None => AddAsNew(b, init, c);
  }

  lemma {:induction false} BucketsOfContents(contests: seq<Round>)
    ensures BucketsOver(BucketsOf(contests), contests)
  {
    if contests != [] {
      var init, c := contests[..|contests| - 1], contests[|contests| - 1];
      assert contests == init + [c];
      BucketsOfContents(init);
      AddToBucketContents(BucketsOf(init), init, c);
    }
  }

  /** Every future contest lies in exactly one bucket, the one keyed by its start. */
  lemma BucketsPartition(contests: seq<Round>, c: Round)
    requires c in contests
    ensures exists i :: 0 <= i < |BucketsOf(contests)| && BucketsOf(contests)[i].start == c.startTime
                        && c in BucketsOf(contests)[i].contests
    ensures forall i, j ::
      (0 <= i < |BucketsOf(contests)| && 0 <= j < |BucketsOf(contests)| &&
       c in BucketsOf(contests)[i].contests && c in BucketsOf(contests)[j].contests) ==> i == j
  {
    var b := BucketsOf(contests);
    BucketsOfContents(contests);
    var i :| 0 <= i < |b| && b[i].start == c.startTime;
    assert c in StartingAt(contests, b[i].start);
  }

  // ---------------------------------------------------------------------------
  // `_reschedule_tasks`: the reminder requests planned for a guild

  /** `get_guild_contests`: the contests the guild's own tables admit, in order. */
  function GuildContests(s: GuildSettings, contests: seq<Round>): seq<Round> {
    Filter(contests, c => ContestDesired(s.websiteAllowedPatterns, s.websiteDisallowedPatterns, c))
  }

  /** The request for one bucket and one offset of `remind_before` (in minutes). */
  function Request(s: GuildSettings, role: int, contests: seq<Round>, start: int, mins: int): RemindRequest {
    RemindRequest(s.remindChannelId, role, contests, 60 * mins, start - 60 * mins, s.localTimezone, true, false)
  }

  /** The requests for one bucket's desired contests, one per offset, in offset order. */
  function Requests(s: GuildSettings, role: int, contests: seq<Round>, start: int, before: seq<int>)
    : seq<RemindRequest>
  {
    if before == [] then []
    else Requests(s, role, contests, start, before[..|before| - 1]) + [Request(s, role, contests, start, before[|before| - 1])]
  }

  function BucketRequests(s: GuildSettings, role: int, before: seq<int>, b: Bucket): seq<RemindRequest> {
    var contests := GuildContests(s, b.contests);
    if contests == [] then [] else Requests(s, role, contests, b.start, before)
  }

  /** The nested loop of `_reschedule_tasks`: buckets in map order, offsets inside. */
  function Planned(s: GuildSettings, role: int, before: seq<int>, buckets: seq<Bucket>): seq<RemindRequest> {
    if buckets == [] then []
    else Planned(s, role, before, buckets[..|buckets| - 1]) + BucketRequests(s, role, before, buckets[|buckets| - 1])
  }

  /** The number of buckets holding at least one contest the guild wants. */
  function DesiredBuckets(s: GuildSettings, buckets: seq<Bucket>): nat {
    if buckets == [] then 0
    else DesiredBuckets(s, buckets[..|buckets| - 1]) + (if GuildContests(s, buckets[|buckets| - 1].contests) == [] then 0 else 1)
  }

  predicate AnyDesired(s: GuildSettings, buckets: seq<Bucket>) {
    exists i :: 0 <= i < |buckets| && GuildContests(s, buckets[i].contests) != []
  }

  /** What `_reschedule_tasks` leaves in `task_map[guild]`: nothing without buckets or
      without a role; iterating `remind_before = None` raises TypeError once a bucket
      has a desired contest. */
  function Plan(buckets: seq<Bucket>, s: GuildSettings): Result<seq<RemindRequest>> {
    if buckets == [] || s.remindRoleId.None? then Success([])
    else if s.remindBefore.None? then
      if AnyDesired(s, buckets) then Failure(TypeError) else Success([])
    else Success(Planned(s, s.remindRoleId.value, s.remindBefore.value, buckets))
  }

  lemma {:induction false} RequestsShape(s: GuildSettings, role: int, contests: seq<Round>, start: int,
                                         before: seq<int>)
    ensures |Requests(s, role, contests, start, before)| == |before|
    ensures forall k :: 0 <= k < |before| ==>
      Requests(s, role, contests, start, before)[k] == Request(s, role, contests, start, before[k])
  {
    if before != [] {
      RequestsShape(s, role, contests, start, before[..|before| - 1]);
    }
  }

  /** Planning one more bucket appends that bucket's requests. */
  lemma PlannedSnoc(s: GuildSettings, role: int, before: Option<seq<int>>, buckets: seq<Bucket>, i: int)
    requires 0 <= i < |buckets|
    ensures buckets[..i + 1][..i] == buckets[..i]
    ensures before.Some? ==>
      (Planned(s, role, before.value, buckets[..i + 1])
        == Planned(s, role, before.value, buckets[..i]) + BucketRequests(s, role, before.value, buckets[i]))
  {
    assert buckets[..i + 1][..i] == buckets[..i];
  }

  /** Exactly one request per (bucket with a desired contest, offset). */
  lemma {:induction false} PlannedCount(s: GuildSettings, role: int, before: seq<int>, buckets: seq<Bucket>)
    ensures |Planned(s, role, before, buckets)| == |before| * DesiredBuckets(s, buckets)
  {
    if buckets != [] {
      var init, last := buckets[..|buckets| - 1], buckets[|buckets| - 1];
      PlannedCount(s, role, before, init);
      RequestsShape(s, role, GuildContests(s, last.contests), last.start, before);
      var d := if GuildContests(s, last.contests) == [] then 0 else 1;
      assert |BucketRequests(s, role, before, last)| == |before| * d;
      assert DesiredBuckets(s, buckets) == DesiredBuckets(s, init) + d;
      assert |before| * (DesiredBuckets(s, init) + d) == |before| * DesiredBuckets(s, init) + |before| * d;
    }
  }

  /** A request is planned exactly when it belongs to a bucket with desired contests and
      an offset: it carries that bucket's desired contests and is sent `60 * mins`
      seconds before the bucket's start. */
  lemma PlannedMembership(s: GuildSettings, role: int, before: seq<int>, buckets: seq<Bucket>, r: RemindRequest)
    ensures r in Planned(s, role, before, buckets) <==>
      exists i, k :: 0 <= i < |buckets| && 0 <= k < |before| && GuildContests(s, buckets[i].contests) != []
        && r == Request(s, role, GuildContests(s, buckets[i].contests), buckets[i].start, before[k])
  {
    if r in Planned(s, role, before, buckets) {
      PlannedFrom(s, role, before, buckets, r);
    } else {
      forall i, k | 0 <= i < |buckets| && 0 <= k < |before| && GuildContests(s, buckets[i].contests) != []
        ensures r != Request(s, role, GuildContests(s, buckets[i].contests), buckets[i].start, before[k])
      {
        PlannedHas(s, role, before, buckets, i, k);
      }
    }
  }

  /** Every (bucket with a desired contest, offset) pair is planned. */
  lemma {:induction false} PlannedHas(s: GuildSettings, role: int, before: seq<int>, buckets: seq<Bucket>,
                                      i: int, k: int)
    requires 0 <= i < |buckets| && 0 <= k < |before| && GuildContests(s, buckets[i].contests) != []
    ensures Request(s, role, GuildContests(s, buckets[i].contests), buckets[i].start, before[k])
      in Planned(s, role, before, buckets)
  {
    var init, last := buckets[..|buckets| - 1], buckets[|buckets| - 1];
    if i < |init| {
      assert buckets[i] == init[i];
      PlannedHas(s, role, before, init, i, k);
    } else {
      RequestsShape(s, role, GuildContests(s, last.contests), last.start, before);
      assert BucketRequests(s, role, before, last)[k] in BucketRequests(s, role, before, last);
    }
  }

  /** Every planned request comes from such a pair. */
  lemma {:induction false} PlannedFrom(s: GuildSettings, role: int, before: seq<int>, buckets: seq<Bucket>,
                                       r: RemindRequest)
    requires r in Planned(s, role, before, buckets)
    ensures exists i, k ::
      0 <= i < |buckets| && 0 <= k < |before| && GuildContests(s, buckets[i].contests) != []
      && r == Request(s, role, GuildContests(s, buckets[i].contests), buckets[i].start, before[k])
  {
    var init, last := buckets[..|buckets| - 1], buckets[|buckets| - 1];
    if r in Planned(s, role, before, init) {
      PlannedFrom(s, role, before, init, r);
      var i, k :| 0 <= i < |init| && 0 <= k < |before| && GuildContests(s, init[i].contests) != []
        && r == Request(s, role, GuildContests(s, init[i].contests), init[i].start, before[k]);
      assert buckets[i] == init[i];
    } else {
      RequestsShape(s, role, GuildContests(s, last.contests), last.start, before);
      var k :| 0 <= k < |before| && BucketRequests(s, role, before, last)[k] == r;
      assert buckets[|buckets| - 1] == last;
    }
  }

  /** Every planned request holds only desired contests of one bucket, at least one,
      and is timed by that bucket's start. */
  lemma RequestsCarryDesired(s: GuildSettings, role: int, before: seq<int>, buckets: seq<Bucket>,
                             r: RemindRequest)
    requires r in Planned(s, role, before, buckets)
    ensures r.contests != [] && r.role == role && r.scheduled && !r.finalCall
    ensures r.channel == s.remindChannelId && r.localTimezone == s.localTimezone
    ensures forall c :: c in r.contests ==>
      ContestDesired(s.websiteAllowedPatterns, s.websiteDisallowedPatterns, c)
    ensures exists i ::
      0 <= i < |buckets| && r.sendTime == buckets[i].start - r.beforeSecs &&
      (forall c :: c in r.contests ==> c in buckets[i].contests)
    ensures exists k :: 0 <= k < |before| && r.beforeSecs == 60 * before[k]
  {
    PlannedMembership(s, role, before, buckets, r);
    var i, k :| 0 <= i < |buckets| && 0 <= k < |before| && GuildContests(s, buckets[i].contests) != []
      && r == Request(s, role, GuildContests(s, buckets[i].contests), buckets[i].start, before[k]);
    assert r.sendTime == buckets[i].start - r.beforeSecs;
  }

  /** Offsets are not deduplicated: a repeated offset plans the same reminder twice. */
  lemma RepeatedOffsetRepeats(s: GuildSettings, role: int, b: Bucket, mins: int)
    requires GuildContests(s, b.contests) != []
    ensures Planned(s, role, [mins, mins], [b]) ==
      [Request(s, role, GuildContests(s, b.contests), b.start, mins),
       Request(s, role, GuildContests(s, b.contests), b.start, mins)]
  {
    var contests := GuildContests(s, b.contests);
    assert [b][..0] == [];
    assert Planned(s, role, [mins, mins], [b]) == BucketRequests(s, role, [mins, mins], b);
    RequestsShape(s, role, contests, b.start, [mins, mins]);
  }

  // ---------------------------------------------------------------------------
  // `guild_map`: a `defaultdict(get_default_guild_settings)`

  /** The map after `guild_map[gid]` has been read: a missing key is inserted with the
      default settings. */
  function Materialized(gm: map<int, GuildSettings>, gid: int): map<int, GuildSettings> {
    if gid in gm then gm else gm[gid := DefaultGuildSettings()]
  }

  /** The settings `guild_map[gid]` reads. */
  function Settings(gm: map<int, GuildSettings>, gid: int): GuildSettings {
    if gid in gm then gm[gid] else DefaultGuildSettings()
  }

  /** Reading a guild's settings inserts its key, and changes what no read sees. */
  lemma MaterializeInvisible(gm: map<int, GuildSettings>, gid: int, other: int)
    ensures gid in Materialized(gm, gid)
    ensures Settings(Materialized(gm, gid), other) == Settings(gm, other)
    ensures forall g :: g in gm ==> g in Materialized(gm, gid) && Materialized(gm, gid)[g] == gm[g]
  {
  }

  // ---------------------------------------------------------------------------
  // `_set_guild_setting`, `subscribe`, `unsubscribe`

  /** A pattern table as a `defaultdict`: what it reads for a missing website. */
  datatype PatternSource = PatternSource(table: PatternTable, missing: seq<string>)

  function Read(src: PatternSource, site: string): seq<string> {
    if site in src.table then src.table[site] else src.missing
  }

  /** `subscribe` copies the default tables. */
  const SubscribeAllowed := PatternSource(DefaultAllowed, [])
  const SubscribeDisallowed := PatternSource(DefaultDisallowed, [])
  /** `unsubscribe` uses `defaultdict(list)` and `defaultdict(lambda: [''])`. */
  const UnsubscribeAllowed := PatternSource(map[], [])
  const UnsubscribeDisallowed := PatternSource(map[], [""])

  /** The guild settings once the loop of `_set_guild_setting` has seen `websites`. */
  function ApplyPatterns(s: GuildSettings, websites: seq<string>, allowed: PatternSource,
                         disallowed: PatternSource): GuildSettings
  {
    if websites == [] then s
    else
      var t := ApplyPatterns(s, websites[..|websites| - 1], allowed, disallowed);
      var w := websites[|websites| - 1];
      if w !in AllowedWebsites() then t
      else t.(websiteAllowedPatterns := t.websiteAllowedPatterns[w := Read(allowed, w)],
              websiteDisallowedPatterns := t.websiteDisallowedPatterns[w := Read(disallowed, w)])
  }

  /** Supported websites among `websites` get the source's patterns, every other website
      keeps its patterns, and nothing but the two tables changes. */
  lemma {:induction false} ApplyPatternsEffect(s: GuildSettings, websites: seq<string>, allowed: PatternSource,
                                               disallowed: PatternSource, site: string)
    ensures var r := ApplyPatterns(s, websites, allowed, disallowed);
      r.(websiteAllowedPatterns := s.websiteAllowedPatterns,
         websiteDisallowedPatterns := s.websiteDisallowedPatterns) == s
    ensures var r := ApplyPatterns(s, websites, allowed, disallowed);
      site in websites && site in AllowedWebsites() ==>
        site in r.websiteAllowedPatterns && r.websiteAllowedPatterns[site] == Read(allowed, site)
        && site in r.websiteDisallowedPatterns && r.websiteDisallowedPatterns[site] == Read(disallowed, site)
    ensures var r := ApplyPatterns(s, websites, allowed, disallowed);
      !(site in websites && site in AllowedWebsites()) ==>
        (site in r.websiteAllowedPatterns <==> site in s.websiteAllowedPatterns)
        && (site in r.websiteDisallowedPatterns <==> site in s.websiteDisallowedPatterns)
        && Patterns(r.websiteAllowedPatterns, site) == Patterns(s.websiteAllowedPatterns, site)
        && Patterns(r.websiteDisallowedPatterns, site) == Patterns(s.websiteDisallowedPatterns, site)
  {
    if websites != [] {
      var init, w := websites[..|websites| - 1], websites[|websites| - 1];
      assert websites == init + [w];
      ApplyPatternsEffect(s, init, allowed, disallowed, site);
    }
  }

  /** After `unsubscribe`, no contest of an unsubscribed website is desired. */
  lemma UnsubscribeBlocks(s: GuildSettings, websites: seq<string>, c: Round)
    requires c.website in websites && c.website in AllowedWebsites()
    ensures var r := ApplyPatterns(s, websites, UnsubscribeAllowed, UnsubscribeDisallowed);
      !ContestDesired(r.websiteAllowedPatterns, r.websiteDisallowedPatterns, c)
  {
    ApplyPatternsEffect(s, websites, UnsubscribeAllowed, UnsubscribeDisallowed, c.website);
    NoAllowedNothingDesired([""], c.name);
  }

  /** After `subscribe`, a subscribed website follows the schema table again. */
  lemma SubscribeRestoresSchema(s: GuildSettings, websites: seq<string>, c: Round)
    requires c.website in websites && c.website in AllowedWebsites()
    ensures var r := ApplyPatterns(s, websites, SubscribeAllowed, SubscribeDisallowed);
      ContestDesired(r.websiteAllowedPatterns, r.websiteDisallowedPatterns, c)
        == WebsiteSchema.SchemaDesired(c.website, c.name)
  {
    ApplyPatternsEffect(s, websites, SubscribeAllowed, SubscribeDisallowed, c.website);
    DefaultsMatchSchema(c.website);
  }

  /** `all(website not in _ALLOWED_WEBSITES for website in websites)`. */
  predicate NoneSupported(websites: seq<string>) {
    forall i :: 0 <= i < |websites| ==> websites[i] !in AllowedWebsites()
  }

  // ---------------------------------------------------------------------------
  // `set_remind_settings`, `set_finalcall_settings`, reaction handlers

  const MentionableMessage := "The role for reminders must be mentionable"
  const BeforeMessage := "Please provide valid `before` values"

  function Minutes(m: int): int {
    m
  }

  /** `sorted(before, reverse=True)`. */
  function Descending(before: seq<int>): seq<int> {
    SortBy(before, Minutes, true)
  }

  /** The offsets stored by `set_remind_settings`: a descending permutation of the given
      ones, so still non-negative when they were. */
  lemma DescendingOffsets(before: seq<int>)
    ensures forall i, j :: 0 <= i < j < |Descending(before)| ==> Descending(before)[i] >= Descending(before)[j]
    ensures multiset(Descending(before)) == multiset(before)
    ensures (forall i :: 0 <= i < |before| ==> before[i] >= 0) ==>
      forall i :: 0 <= i < |Descending(before)| ==> Descending(before)[i] >= 0
  {
    var d := Descending(before);
    SortBySorted(before, Minutes, true);
    SortByPermutes(before, Minutes, true);
    forall i, j | 0 <= i < j < |d|
      ensures d[i] >= d[j]
    {
      assert InOrder(Minutes, true, d[i], d[j]);
    }
    if forall i :: 0 <= i < |before| ==> before[i] >= 0 {
      forall i | 0 <= i < |d|
        ensures d[i] >= 0
      {
        assert d[i] in multiset(d);
        assert d[i] in before;
      }
    }
  }

  const CheckMark := "\U{2705}"
  const FinalCallSet := "Final Call alarm set Successfully"
  const FinalCallRemoved := "Final Call alarm removed Successfully"

  /** The guard of `on_raw_reaction_add/remove`: a check mark in the guild's reminder
      channel, with a final-call channel set. */
  predicate ReactionAccepted(s: GuildSettings, channelId: int, emoji: string) {
    !(s.remindChannelId.None? || s.remindChannelId.value != channelId
      || emoji != CheckMark || s.finalcallChannelId.None?)
  }

  /** The guard holds exactly for a check mark in the reminder channel once a final-call
      channel is set, and so never for a guild with default settings. */
  lemma ReactionGuard(s: GuildSettings, channelId: int, emoji: string)
    ensures ReactionAccepted(s, channelId, emoji) <==>
      s.remindChannelId == Some(channelId) && emoji == CheckMark && s.finalcallChannelId.Some?
    ensures !ReactionAccepted(DefaultGuildSettings(), channelId, emoji)
  {
  }

  // ---------------------------------------------------------------------------
  // `_backup_serialize_guild_map`

  /** The backup times when the method is called at the successive times `clock`, the
      last backup having been at `last`. */
  function BackupRun(last: int, clock: seq<int>): seq<int>
    decreases |clock|
  {
    if clock == [] then []
    else if clock[0] - last < GuildSettingsBackupPeriod then BackupRun(last, clock[1..])
    else [clock[0]] + BackupRun(clock[0], clock[1..])
  }

  /** Backups are at least six hours after the previous one and six hours apart from
      each other, whatever the clock does. */
  lemma {:induction false} BackupRunSpaced(last: int, clock: seq<int>)
    ensures forall i :: 0 <= i < |BackupRun(last, clock)| ==> BackupRun(last, clock)[i] - last >= GuildSettingsBackupPeriod
    ensures forall i, j :: 0 <= i < j < |BackupRun(last, clock)| ==>
      BackupRun(last, clock)[j] - BackupRun(last, clock)[i] >= GuildSettingsBackupPeriod
    ensures forall t :: t in BackupRun(last, clock) ==> t in clock
    decreases |clock|
  {
    if clock != [] {
      BackupRunSpaced(last, clock[1..]);
      BackupRunSpaced(clock[0], clock[1..]);
    }
  }

  // ---------------------------------------------------------------------------
  // `_generate_contest_cache`

  /** `[Round(contest) for contest in data['objects']]`, kept when the default tables
      admit it. */
  function CachedContests(objects: seq<RawContest>): seq<Round> {
    Filter(seq(|objects|, i requires 0 <= i < |objects| => FromRaw(objects[i])),
           c => ContestDesired(DefaultAllowed, DefaultDisallowed, c))
  }

  /** Every cached contest comes from the file and is admitted by the schema table of
      its website. */
  lemma CachedContestsFollowSchema(objects: seq<RawContest>, c: Round)
    requires c in CachedContests(objects) && c.website in AllowedWebsites()
    ensures exists i :: 0 <= i < |objects| && c == FromRaw(objects[i])
    ensures WebsiteSchema.SchemaDesired(c.website, c.name)
  {
    var all := seq(|objects|, i requires 0 <= i < |objects| => FromRaw(objects[i]));
    assert c in all;
    DefaultSettingsFollowSchema(c);
  }

  /** The contests cached after `cache(forced=False)` at `now` on the file `file`. */
  function Refreshed(file: Option<ClistApi.Db>, now: int, query: Result<seq<RawContest>>): Result<seq<Round>> {
    var (next, outcome) := ClistApi.CacheStep(file, false, now, query);
    LoadCache(next, outcome)
  }

  /** The contest list `_generate_contest_cache` reads after `cache()` ended with
      `outcome` and left `file`: a missing file or key raises. */
  function LoadCache(file: Option<ClistApi.Db>, outcome: ClistApi.CacheOutcome): Result<seq<Round>> {
    if outcome.CacheRaised? then Failure(outcome.error)
    else if file.None? then Failure(FileNotFound)
    else if file.value.objects.None? then Failure(KeyError)
    else Success(CachedContests(file.value.objects.value))
  }

  // ---------------------------------------------------------------------------
  // The cog

  ghost predicate BucketsValid(future: Option<seq<Round>>, startTimeMap: seq<Bucket>) {
    (future.None? ==> startTimeMap == [])
    && (future.Some? ==> startTimeMap == BucketsOf(future.value))
  }

  ghost predicate BackupsValid(last: int, backups: seq<(int, map<int, GuildSettings>)>) {
    last == (if backups == [] then -1 else backups[|backups| - 1].0)
    && (forall i, j :: 0 <= i < j < |backups| ==> backups[j].0 - backups[i].0 >= GuildSettingsBackupPeriod)
  }

  /** Every guild of `guilds` holds in `tasks` the plan of its settings in `gm` over `buckets`. */
  ghost predicate PlannedIn(tasks: map<int, seq<RemindRequest>>, buckets: seq<Bucket>, gm: map<int, GuildSettings>,
                            guilds: seq<int>)
  {
    forall g :: g in guilds ==>
      g in tasks && Plan(buckets, Settings(gm, g)).Success? && tasks[g] == Plan(buckets, Settings(gm, g)).value
  }

  /** One step of `_reschedule_all_tasks`: storing the next guild's plan extends the
      planned prefix; a guild that cannot be planned is not in that prefix. */
  lemma PlannedInStep(tasks: map<int, seq<RemindRequest>>, buckets: seq<Bucket>, gm: map<int, GuildSettings>,
                      guilds: seq<int>, g: int)
    requires PlannedIn(tasks, buckets, gm, guilds)
    ensures var p := Plan(buckets, Settings(gm, g));
      p.Success? ==> PlannedIn(tasks[g := p.value], buckets, gm, guilds + [g])
    ensures var p := Plan(buckets, Settings(gm, g));
      p.Failure? ==> g !in guilds && PlannedIn(tasks[g := []], buckets, gm, guilds)
  {
  }

  /** Every guild outside `guilds` has in `tasks` the entry it had in `before`, or none
      when it had none. */
  ghost predicate KeptOutside(tasks: map<int, seq<RemindRequest>>, before: map<int, seq<RemindRequest>>,
                              guilds: seq<int>)
  {
    forall g :: g !in guilds ==> (g in tasks <==> g in before) && (g in before ==> tasks[g] == before[g])
  }

  /** The keys of `guild_map` once `_reschedule_tasks` has run for each of `guilds` on the
      guild map `gm`: with buckets to plan from, it reads, and so inserts, every such guild. */
  ghost predicate KeysRead(gmNow: map<int, GuildSettings>, gm: map<int, GuildSettings>, buckets: seq<Bucket>,
                           guilds: seq<int>)
  {
    forall g :: g in gmNow <==> g in gm || (buckets != [] && g in guilds)
  }

  /** The task map and the guild map once `_reschedule_all_tasks` has rescheduled each of
      `guilds` from the task map `tasks` and the guild map `gm` before it: each of them holds
      its plan, every other guild keeps its entry or its absence, and, when there are
      buckets, each of them became a key of the guild map. */
  ghost predicate Progressed(tasksNow: map<int, seq<RemindRequest>>, gmNow: map<int, GuildSettings>,
                             tasks: map<int, seq<RemindRequest>>, gm: map<int, GuildSettings>,
                             buckets: seq<Bucket>, guilds: seq<int>)
  {
    PlannedIn(tasksNow, buckets, gm, guilds) && KeptOutside(tasksNow, tasks, guilds)
    && KeysRead(gmNow, gm, buckets, guilds)
  }

  /** The two maps when `_reschedule_tasks(guilds[i])` raised: the guilds before it hold
      their plans, its own list was emptied, the guilds after it that did not come earlier
      keep their entries or their absence, and the guild map gained the keys read so far. */
  ghost predicate StoppedAt(tasksNow: map<int, seq<RemindRequest>>, gmNow: map<int, GuildSettings>,
                            tasks: map<int, seq<RemindRequest>>, gm: map<int, GuildSettings>,
                            buckets: seq<Bucket>, guilds: seq<int>, i: int)
    requires 0 <= i < |guilds|
  {
    Plan(buckets, Settings(gm, guilds[i])).Failure?
    && PlannedIn(tasksNow, buckets, gm, guilds[..i])
    && guilds[i] in tasksNow && tasksNow[guilds[i]] == []
    && KeptOutside(tasksNow, tasks, guilds[..i + 1])
    && KeysRead(gmNow, gm, buckets, guilds[..i + 1])
  }

  /** One step of `_reschedule_all_tasks`: `_reschedule_tasks(guilds[i])` writes only that
      guild's list and, when there are buckets, reads its settings; the prefix grows, or
      the loop stops at `i`. */
  lemma ProgressStep(tasksNow: map<int, seq<RemindRequest>>, gmNow: map<int, GuildSettings>,
                     tasks: map<int, seq<RemindRequest>>, gm: map<int, GuildSettings>,
                     buckets: seq<Bucket>, guilds: seq<int>, i: int)
    requires 0 <= i < |guilds|
    requires Progressed(tasksNow, gmNow, tasks, gm, buckets, guilds[..i])
    ensures var p := Plan(buckets, Settings(gm, guilds[i]));
      var t := tasksNow[guilds[i] := if p.Success? then p.value else []];
      var m := if buckets == [] then gmNow else Materialized(gmNow, guilds[i]);
      (p.Success? ==> Progressed(t, m, tasks, gm, buckets, guilds[..i + 1]))
      && (p.Failure? ==> StoppedAt(t, m, tasks, gm, buckets, guilds, i))
  {
    var g := guilds[i];
    assert guilds[..i + 1] == guilds[..i] + [g];
    PlannedInStep(tasksNow, buckets, gm, guilds[..i], g);
  }

  /** What `_reschedule_all_tasks` over `guilds` leaves in the task map `tasksNow` and the
      guild map `gmNow`, from `tasks` and `gm` before it: settings as read are unchanged;
      it passes exactly when every guild can be planned, and then `Progressed` holds;
      otherwise it raised TypeError and stopped at a guild that cannot be planned. */
  ghost predicate Rescheduled(tasksNow: map<int, seq<RemindRequest>>, gmNow: map<int, GuildSettings>,
                              buckets: seq<Bucket>, guilds: seq<int>, gm: map<int, GuildSettings>,
                              tasks: map<int, seq<RemindRequest>>, r: Outcome)
  {
    (forall g :: Settings(gmNow, g) == Settings(gm, g))
    && (r.Pass? <==> forall g :: g in guilds ==> Plan(buckets, Settings(gm, g)).Success?)
    && (r.Pass? ==> Progressed(tasksNow, gmNow, tasks, gm, buckets, guilds))
    && (r.Fail? ==> r.error == TypeError)
    && (r.Fail? ==> exists i :: 0 <= i < |guilds| && StoppedAt(tasksNow, gmNow, tasks, gm, buckets, guilds, i))
  }

  /** The reply of `subscribe`/`unsubscribe`: an alert when no website is supported,
      otherwise the supported and unsupported websites in input order. */
  datatype SubscriptionReply = NoneSupportedAlert | Changed(supported: seq<string>, unsupported: seq<string>)

  class Reminders {
    var contestCache: Option<seq<Round>>
    var futureContests: Option<seq<Round>>
    var activeContests: Option<seq<Round>>
    var finishedContests: Option<seq<Round>>
    var startTimeMap: seq<Bucket>
    var taskMap: map<int, seq<RemindRequest>>
    var guildMap: map<int, GuildSettings>
    var lastGuildBackupTime: int
    /** The backup files written so far: their time stamp and the guild map they hold. */
    var backups: seq<(int, map<int, GuildSettings>)>

    /** `start_time_map` always buckets `future_contests`; the last backup time is the
        time stamp of the latest backup, and backups are six hours apart. */
    ghost predicate Valid()
      reads this
    {
      BucketsValid(futureContests, startTimeMap) && BackupsValid(lastGuildBackupTime, backups)
    }

    constructor ()
      ensures Valid()
      ensures contestCache.None? && futureContests.None? && activeContests.None? && finishedContests.None?
      ensures startTimeMap == [] && taskMap == map[] && guildMap == map[]
      ensures lastGuildBackupTime == -1 && backups == []
    {
      contestCache, futureContests, activeContests, finishedContests := None, None, None, None;
      startTimeMap := [];
      taskMap := map[];
      guildMap := map[];
      lastGuildBackupTime := -1;
      backups := [];
    }

    /** `self.guild_map[gid]` on the `defaultdict`: inserts the defaults when absent. */
    method Materialize(gid: int)
      modifies this`guildMap
      ensures guildMap == Materialized(old(guildMap), gid)
    {
      if gid !in guildMap {
        guildMap := guildMap[gid := DefaultGuildSettings()];
      }
    }

    /** `get_guild_contests(contests, guild_id)`. */
    method GetGuildContests(contests: seq<Round>, gid: int) returns (desired: seq<Round>)
      modifies this`guildMap
      ensures guildMap == Materialized(old(guildMap), gid)
      ensures desired == GuildContests(Settings(old(guildMap), gid), contests)
    {
      Materialize(gid);
      var settings := guildMap[gid];
      desired := [];
      for i := 0 to |contests|
        invariant desired == GuildContests(settings, contests[..i])
      {
        assert contests[..i + 1][..i] == contests[..i];
        if ContestDesired(settings.websiteAllowedPatterns, settings.websiteDisallowedPatterns, contests[i]) {
          desired := desired + [contests[i]];
        }
      }
      assert contests[..|contests|] == contests;
    }

    /** `_generate_contest_cache`: refreshes the db file unless fresh, then reads it and
        keeps the contests the default tables admit. */
    method GenerateContestCache(store: ClistApi.ContestStore, now: int, query: Result<seq<RawContest>>)
      returns (r: Outcome)
      modifies this`contestCache, store
      ensures store.file == ClistApi.CacheStep(old(store.file), false, now, query).0
      ensures Refreshed(old(store.file), now, query).Failure? ==>
        r == Fail(Refreshed(old(store.file), now, query).error) && contestCache == old(contestCache)
      ensures Refreshed(old(store.file), now, query).Success? ==>
        r == Pass && contestCache == Some(Refreshed(old(store.file), now, query).value)
    {
      ghost var file := store.file;
      var outcome := store.Cache(false, now, query);
      var loaded := LoadCache(store.file, outcome);
      assert loaded == Refreshed(file, now, query);
      if loaded.Failure? {
        return Fail(loaded.error);
      }
      contestCache := Some(loaded.value);
      r := Pass;
    }

    /** The three lists and `start_time_map` as `_update_task` derives them from `cache`. */
    ghost predicate ListsFrom(cache: seq<Round>, now: int)
      reads this`futureContests, this`activeContests, this`finishedContests, this`startTimeMap
    {
      futureContests == Some(FutureContests(cache, now))
      && activeContests == Some(ActiveContests(cache, now))
      && finishedContests == Some(FinishedContests(cache, now))
      && startTimeMap == BucketsOf(FutureContests(cache, now))
    }

    /** One round of `_update_task` at time `now` for the bot's guilds `guilds`:
        rebuilds the cache, the three lists and `start_time_map`, then reschedules the
        reminders of every guild. An exception while reading the cache ends the round. */
    method UpdateTask(store: ClistApi.ContestStore, now: int, query: Result<seq<RawContest>>, guilds: seq<int>)
      returns (r: Outcome)
      requires Valid()
      modifies this`contestCache, this`futureContests, this`activeContests, this`finishedContests
      modifies this`startTimeMap, this`taskMap, this`guildMap, store
      ensures Valid()
      ensures store.file == ClistApi.CacheStep(old(store.file), false, now, query).0
      ensures Refreshed(old(store.file), now, query).Failure? ==>
        r == Fail(Refreshed(old(store.file), now, query).error)
        && contestCache == old(contestCache) && futureContests == old(futureContests)
        && activeContests == old(activeContests) && finishedContests == old(finishedContests)
        && startTimeMap == old(startTimeMap) && taskMap == old(taskMap) && guildMap == old(guildMap)
      ensures Refreshed(old(store.file), now, query).Success? ==>
        contestCache == Some(Refreshed(old(store.file), now, query).value)
        && ListsFrom(Refreshed(old(store.file), now, query).value, now)
        && Rescheduled(taskMap, guildMap, startTimeMap, guilds, old(guildMap), old(taskMap), r)
    {
      assert BackupsValid(lastGuildBackupTime, backups);
      var g := GenerateContestCache(store, now, query);
      assert BackupsValid(lastGuildBackupTime, backups);
      if g.Fail? {
        return g;
      }
      r := Replan(contestCache.value, now, guilds);
      assert BackupsValid(lastGuildBackupTime, backups);
    }

    /** The part of `_update_task` after the cache is read: the lists and buckets from
        `cache`, then every guild's reminders. */
    method Replan(cache: seq<Round>, now: int, guilds: seq<int>) returns (r: Outcome)
      modifies this`futureContests, this`activeContests, this`finishedContests
      modifies this`startTimeMap, this`taskMap, this`guildMap
      ensures ListsFrom(cache, now) && BucketsValid(futureContests, startTimeMap)
      ensures Rescheduled(taskMap, guildMap, startTimeMap, guilds, old(guildMap), old(taskMap), r)
    {
      RebuildLists(cache, now);
      r := RescheduleAllTasks(guilds);
    }

    /** The list comprehensions, sorts and truncation of `_update_task`, then the
        buckets. */
    method RebuildLists(cache: seq<Round>, now: int)
      modifies this`futureContests, this`activeContests, this`finishedContests, this`startTimeMap
      ensures ListsFrom(cache, now) && BucketsValid(futureContests, startTimeMap)
    {
      var future := FutureContests(cache, now);
      futureContests := Some(future);
      finishedContests := Some(FinishedContests(cache, now));
      activeContests := Some(ActiveContests(cache, now));
      RebuildStartTimeMap(future);
    }

    /** `start_time_map.clear()` and the loop appending each future contest to the bucket
        of its start. */
    method RebuildStartTimeMap(future: seq<Round>)
      modifies this`startTimeMap
      ensures startTimeMap == BucketsOf(future)
    {
      startTimeMap := [];
      for i := 0 to |future|
        invariant startTimeMap == BucketsOf(future[..i])
      {
        var c := future[i];
        assert future[..i + 1][..i] == future[..i];
        match FindBucket(startTimeMap, c.startTime)
        case Some(k) =>
          startTimeMap := startTimeMap[k := Bucket(startTimeMap[k].start, startTimeMap[k].contests + [c])];
        case None =>
          startTimeMap := startTimeMap + [Bucket(c.startTime, [c])];
      }
      assert future[..|future|] == future;
    }

    /** `_reschedule_all_tasks`: reschedules each guild in turn; an error stops the loop. */
    method RescheduleAllTasks(guilds: seq<int>) returns (r: Outcome)
      modifies this`taskMap, this`guildMap
      ensures Rescheduled(taskMap, guildMap, startTimeMap, guilds, old(guildMap), old(taskMap), r)
    {
      for i := 0 to |guilds|
        invariant forall g :: Settings(guildMap, g) == Settings(old(guildMap), g)
        invariant Progressed(taskMap, guildMap, old(taskMap), old(guildMap), startTimeMap, guilds[..i])
      {
        ProgressStep(taskMap, guildMap, old(taskMap), old(guildMap), startTimeMap, guilds, i);
        var done := RescheduleTasks(guilds[i]);
        if done.Fail? {
          assert StoppedAt(taskMap, guildMap, old(taskMap), old(guildMap), startTimeMap, guilds, i);
          assert guilds[i] in guilds;
          return done;
        }
      }
      assert guilds[..|guilds|] == guilds;
      r := Pass;
    }

    /** `_reschedule_tasks(gid)`: empties the guild's task list, then plans one request
        per bucket with desired contests and per offset. */
    method RescheduleTasks(gid: int) returns (r: Outcome)
      modifies this`taskMap, this`guildMap
      ensures guildMap == if startTimeMap == [] then old(guildMap) else Materialized(old(guildMap), gid)
      ensures var p := Plan(startTimeMap, Settings(old(guildMap), gid));
        taskMap == old(taskMap)[gid := if p.Success? then p.value else []]
        && r == (if p.Success? then Pass else Fail(p.error))
    {
      taskMap := taskMap[gid := []];
      if startTimeMap == [] {
        return Pass;
      }
      Materialize(gid);
      var settings := guildMap[gid];
      assert settings == Settings(old(guildMap), gid);
      if settings.remindRoleId.None? {
        return Pass;
      }
      var planned := PlanBuckets(startTimeMap, settings);
      if planned.Failure? {
        return Fail(planned.error);
      }
      taskMap := taskMap[gid := planned.value];
      r := Pass;
    }

    /** The loop of `_reschedule_tasks` over `start_time_map`, for a guild with a role;
        `get_guild_contests` only reads the guild's entry, which already exists here. */
    static method PlanBuckets(buckets: seq<Bucket>, settings: GuildSettings) returns (r: Result<seq<RemindRequest>>)
      requires settings.remindRoleId.Some?
      ensures r == Plan(buckets, settings)
    {
      var role := settings.remindRoleId.value;
      var tasks: seq<RemindRequest> := [];
      for i := 0 to |buckets|
        invariant settings.remindBefore.Some? ==>
          tasks == Planned(settings, role, settings.remindBefore.value, buckets[..i])
        invariant settings.remindBefore.None? ==>
          tasks == [] && forall j :: 0 <= j < i ==> GuildContests(settings, buckets[j].contests) == []
      {
        var bucket := buckets[i];
        PlannedSnoc(settings, role, settings.remindBefore, buckets, i);
        var contests := GuildContests(settings, bucket.contests);
        if contests == [] {
          continue;
        }
        if settings.remindBefore.None? {
          return Failure(TypeError);
        }
        var requests := BucketReminders(settings, role, contests, bucket.start, settings.remindBefore.value);
        tasks := tasks + requests;
      }
      assert buckets[..|buckets|] == buckets;
      r := Success(tasks);
    }

    /** The inner loop of `_reschedule_tasks`: one request per offset, in order. */
    static method BucketReminders(settings: GuildSettings, role: int, contests: seq<Round>, start: int,
                                  before: seq<int>) returns (requests: seq<RemindRequest>)
      ensures requests == Requests(settings, role, contests, start, before)
    {
      requests := [];
      for k := 0 to |before|
        invariant requests == Requests(settings, role, contests, start, before[..k])
      {
        assert before[..k + 1][..k] == before[..k];
        var beforeSecs := 60 * before[k];
        var request := RemindRequest(settings.remindChannelId, role, contests, beforeSecs,
                                     start - beforeSecs, settings.localTimezone, true, false);
        requests := requests + [request];
      }
      assert before[..|before|] == before;
    }

    /** `_set_guild_setting`: copies the sources' patterns for each supported website and
        splits the input into supported and unsupported websites. */
    method SetGuildSetting(gid: int, websites: seq<string>, allowed: PatternSource, disallowed: PatternSource)
      returns (supported: seq<string>, unsupported: seq<string>)
      modifies this`guildMap
      ensures guildMap == old(guildMap)[gid := ApplyPatterns(Settings(old(guildMap), gid), websites, allowed, disallowed)]
      ensures supported == Filter(websites, w => w in AllowedWebsites())
      ensures unsupported == Filter(websites, w => w !in AllowedWebsites())
    {
      // The entry read here is stored back below, so the insertion on read is subsumed.
      var settings := Settings(guildMap, gid);
      settings, supported, unsupported := UpdatePatterns(settings, websites, allowed, disallowed);
      guildMap := guildMap[gid := settings];
    }

    /** The loop of `_set_guild_setting` on the guild's settings record. */
    static method UpdatePatterns(settings: GuildSettings, websites: seq<string>, allowed: PatternSource,
                                 disallowed: PatternSource)
      returns (updated: GuildSettings, supported: seq<string>, unsupported: seq<string>)
      ensures updated == ApplyPatterns(settings, websites, allowed, disallowed)
      ensures supported == Filter(websites, w => w in AllowedWebsites())
      ensures unsupported == Filter(websites, w => w !in AllowedWebsites())
    {
      updated, supported, unsupported := settings, [], [];
      for i := 0 to |websites|
        invariant updated == ApplyPatterns(settings, websites[..i], allowed, disallowed)
        invariant supported == Filter(websites[..i], w => w in AllowedWebsites())
        invariant unsupported == Filter(websites[..i], w => w !in AllowedWebsites())
      {
        var website := websites[i];
        assert websites[..i + 1][..i] == websites[..i];
        if website !in AllowedWebsites() {
          unsupported := unsupported + [website];
          continue;
        }
        updated := updated.(
          websiteAllowedPatterns := updated.websiteAllowedPatterns[website := Read(allowed, website)],
          websiteDisallowedPatterns := updated.websiteDisallowedPatterns[website := Read(disallowed, website)]);
        supported := supported + [website];
      }
      assert websites[..|websites|] == websites;
    }

    /** `subscribe`: restores the default patterns of the supported websites. */
    method Subscribe(gid: int, websites: seq<string>) returns (reply: SubscriptionReply)
      modifies this`guildMap
      ensures NoneSupported(websites) ==> reply == NoneSupportedAlert && guildMap == old(guildMap)
      ensures !NoneSupported(websites) ==>
        guildMap == old(guildMap)[gid := ApplyPatterns(Settings(old(guildMap), gid), websites,
                                                       SubscribeAllowed, SubscribeDisallowed)]
        && reply == Changed(Filter(websites, w => w in AllowedWebsites()), Filter(websites, w => w !in AllowedWebsites()))
    {
      if NoneSupported(websites) {
        return NoneSupportedAlert;
      }
      var supported, unsupported := SetGuildSetting(gid, websites, SubscribeAllowed, SubscribeDisallowed);
      reply := Changed(supported, unsupported);
    }

    /** `unsubscribe`: sets allowed `[]` and disallowed `['']` for the supported websites. */
    method Unsubscribe(gid: int, websites: seq<string>) returns (reply: SubscriptionReply)
      modifies this`guildMap
      ensures NoneSupported(websites) ==> reply == NoneSupportedAlert && guildMap == old(guildMap)
      ensures !NoneSupported(websites) ==>
        guildMap == old(guildMap)[gid := ApplyPatterns(Settings(old(guildMap), gid), websites,
                                                       UnsubscribeAllowed, UnsubscribeDisallowed)]
        && reply == Changed(Filter(websites, w => w in AllowedWebsites()), Filter(websites, w => w !in AllowedWebsites()))
    {
      if NoneSupported(websites) {
        return NoneSupportedAlert;
      }
      var unsubscribed, unsupported := SetGuildSetting(gid, websites, UnsubscribeAllowed, UnsubscribeDisallowed);
      reply := Changed(unsubscribed, unsupported);
    }

    /** `clear`: `del self.guild_map[gid]`, a KeyError when the guild has no entry. */
    method Clear(gid: int) returns (r: Outcome)
      modifies this`guildMap
      ensures gid !in old(guildMap) ==> r == Fail(KeyError) && guildMap == old(guildMap)
      ensures gid in old(guildMap) ==> r == Pass && guildMap == old(guildMap) - {gid}
    {
      if gid !in guildMap {
        return Fail(KeyError);
      }
      guildMap := guildMap - {gid};
      r := Pass;
    }

    /** `set_remind_settings`: the role must be mentionable and the offsets non-empty and
        non-negative; then channel, role and the offsets in descending order are stored. */
    method SetRemindSettings(gid: int, channelId: int, roleId: int, mentionable: bool, before: seq<int>)
      returns (r: Outcome)
      modifies this`guildMap
      ensures !mentionable ==> r == Fail(RemindersCogError(MentionableMessage)) && guildMap == old(guildMap)
      ensures mentionable && (before == [] || exists i :: 0 <= i < |before| && before[i] < 0) ==>
        r == Fail(RemindersCogError(BeforeMessage)) && guildMap == old(guildMap)
      ensures mentionable && before != [] && (forall i :: 0 <= i < |before| ==> before[i] >= 0) ==>
        r == Pass && guildMap == old(guildMap)[gid := Settings(old(guildMap), gid).(
          remindChannelId := Some(channelId), remindRoleId := Some(roleId), remindBefore := Some(Descending(before)))]
    {
      if !mentionable {
        return Fail(RemindersCogError(MentionableMessage));
      }
      if before == [] || exists i :: 0 <= i < |before| && before[i] < 0 {
        return Fail(RemindersCogError(BeforeMessage));
      }
      var sorted := Descending(before);
      Materialize(gid);
      guildMap := guildMap[gid := guildMap[gid].(remindChannelId := Some(channelId))];
      guildMap := guildMap[gid := guildMap[gid].(remindRoleId := Some(roleId))];
      guildMap := guildMap[gid := guildMap[gid].(remindBefore := Some(sorted))];
      r := Pass;
    }

    /** `set_finalcall_settings`: `not before or before < 0` rejects every offset that is
        not positive; otherwise offset and channel are stored. */
    method SetFinalcallSettings(gid: int, channelId: int, before: int) returns (r: Outcome)
      modifies this`guildMap
      ensures before <= 0 ==> r == Fail(RemindersCogError(BeforeMessage)) && guildMap == old(guildMap)
      ensures before > 0 ==> r == Pass && guildMap == old(guildMap)[gid := Settings(old(guildMap), gid).(
        finalcallBefore := Some(before), finalcallChannelId := Some(channelId))]
    {
      if before == 0 || before < 0 {
        return Fail(RemindersCogError(BeforeMessage));
      }
      Materialize(gid);
      guildMap := guildMap[gid := guildMap[gid].(finalcallBefore := Some(before))];
      guildMap := guildMap[gid := guildMap[gid].(finalcallChannelId := Some(channelId))];
      r := Pass;
    }

    /** `on_raw_reaction_add`: the direct message sent, if the guard lets it through. */
    method OnRawReactionAdd(gid: int, channelId: int, emoji: string) returns (dm: Option<string>)
      modifies this`guildMap
      ensures guildMap == Materialized(old(guildMap), gid)
      ensures dm == if ReactionAccepted(Settings(old(guildMap), gid), channelId, emoji) then Some(FinalCallSet) else None
    {
      Materialize(gid);
      var settings := guildMap[gid];
      if settings.remindChannelId.None? || settings.remindChannelId.value != channelId
         || emoji != CheckMark || settings.finalcallChannelId.None? {
        return None;
      }
      dm := Some(FinalCallSet);
    }

    /** `on_raw_reaction_remove`: the same guard, another message. */
    method OnRawReactionRemove(gid: int, channelId: int, emoji: string) returns (dm: Option<string>)
      modifies this`guildMap
      ensures guildMap == Materialized(old(guildMap), gid)
      ensures dm == if ReactionAccepted(Settings(old(guildMap), gid), channelId, emoji) then Some(FinalCallRemoved) else None
    {
      Materialize(gid);
      var settings := guildMap[gid];
      if settings.remindChannelId.None? || settings.remindChannelId.value != channelId
         || emoji != CheckMark || settings.finalcallChannelId.None? {
        return None;
      }
      dm := Some(FinalCallRemoved);
    }

    /** `_backup_serialize_guild_map` at time `now`: writes a backup of the guild map only
        when six hours have passed since the last one. */
    method BackupSerialize(now: int) returns (backedUp: bool)
      requires Valid()
      modifies this`lastGuildBackupTime, this`backups
      ensures Valid()
      ensures backedUp <==> now - old(lastGuildBackupTime) >= GuildSettingsBackupPeriod
      ensures backedUp ==> lastGuildBackupTime == now && backups == old(backups) + [(now, guildMap)]
      ensures !backedUp ==> lastGuildBackupTime == old(lastGuildBackupTime) && backups == old(backups)
    {
      if now - lastGuildBackupTime < GuildSettingsBackupPeriod {
        return false;
      }
      assert forall i :: 0 <= i < |backups| ==> backups[i].0 <= lastGuildBackupTime;
      lastGuildBackupTime := now;
      backups := backups + [(now, guildMap)];
      backedUp := true;
    }

    /** `cog_after_invoke` after a command in guild `gid` at time `now`: the backup rule,
        then the guild's reminders are rescheduled. */
    method AfterInvoke(gid: int, now: int) returns (backedUp: bool, r: Outcome)
      requires Valid()
      modifies this`lastGuildBackupTime, this`backups, this`taskMap, this`guildMap
      ensures Valid()
      ensures backedUp <==> now - old(lastGuildBackupTime) >= GuildSettingsBackupPeriod
      ensures backedUp ==> lastGuildBackupTime == now && backups == old(backups) + [(now, old(guildMap))]
      ensures !backedUp ==> lastGuildBackupTime == old(lastGuildBackupTime) && backups == old(backups)
      ensures guildMap == if startTimeMap == [] then old(guildMap) else Materialized(old(guildMap), gid)
      ensures var p := Plan(startTimeMap, Settings(old(guildMap), gid));
        taskMap == old(taskMap)[gid := if p.Success? then p.value else []]
        && r == (if p.Success? then Pass else Fail(p.error))
    {
      backedUp := BackupSerialize(now);
      r := RescheduleTasks(gid);
    }
  }
}
