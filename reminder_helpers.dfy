/** The module-level definitions of remind/cogs/reminders.py: guild settings and their
    defaults, contest rendering, the reminder text and the `+alias` filter. */
module ReminderHelpers {
  import opened Results
  import opened Text
  import opened Lists
  import opened Rounds
  import WebsiteSchema

  const FinishedContestsLimit: nat := 5
  const GuildSettingsBackupPeriod: int := 6 * 60 * 60

  /** A `defaultdict(list)` from website to patterns: a missing key reads as `[]`. */
  type PatternTable = map<string, seq<string>>

  function Patterns(t: PatternTable, site: string): seq<string> {
    if site in t then t[site] else []
  }

  const DefaultDisallowed: PatternTable := map[
    "codeforces.com" := ["wild", "fools", "kotlin", "unrated"],
    "codechef.com" := ["unrated", "long"],
    "atcoder.jp" := [],
    "codingcompetitions.withgoogle.com" := ["registration", "coding practice"],
    "facebook.com/hackercup" := [],
    "leetcode.com" := []]

  const DefaultAllowed: PatternTable := map[
    "codeforces.com" := [""],
    "codechef.com" := ["lunch", "cook", "rated"],
    "atcoder.jp" := ["abc:", "arc:", "agc:", "grand", "beginner", "regular"],
    "codingcompetitions.withgoogle.com" := [""],
    "facebook.com/hackercup" := [""],
    "usaco.org" := [""],
    "leetcode.com" := [""]]

  /** `_SUPPORTED_WEBSITES`: filter alias to website. */
  const SupportedWebsites: map<string, string> := map[
    "cf" := "codeforces.com", "codeforces" := "codeforces.com",
    "cc" := "codechef.com", "codechef" := "codechef.com",
    "atc" := "atcoder.jp", "atcoder" := "atcoder.jp",
    "google" := "codingcompetitions.withgoogle.com",
    "hackercup" := "facebook.com/hackercup",
    "leetcode" := "leetcode.com",
    "usaco" := "usaco.org"]

  /** `set(_SUPPORTED_WEBSITES.values())`. */
  function AllowedWebsites(): set<string> {
    SupportedWebsites.Values
  }

  lemma AllowedWebsitesListed()
    ensures AllowedWebsites() == {"codeforces.com", "codechef.com", "atcoder.jp",
      "codingcompetitions.withgoogle.com", "facebook.com/hackercup", "leetcode.com", "usaco.org"}
  {
    var w := AllowedWebsites();
    assert SupportedWebsites["cf"] == "codeforces.com" && SupportedWebsites["cc"] == "codechef.com";
    assert SupportedWebsites["atc"] == "atcoder.jp" && SupportedWebsites["google"] == "codingcompetitions.withgoogle.com";
    assert SupportedWebsites["hackercup"] == "facebook.com/hackercup" && SupportedWebsites["leetcode"] == "leetcode.com";
    assert SupportedWebsites["usaco"] == "usaco.org";
  }

  /** The default tables agree with the schema table for every supported website. */
  lemma DefaultsMatchSchema(site: string)
    requires site in AllowedWebsites()
    ensures Patterns(DefaultAllowed, site) == WebsiteSchema.Lookup(site).allowedPatterns
    ensures Patterns(DefaultDisallowed, site) == WebsiteSchema.Lookup(site).disallowedPatterns
  {
    SupportedAreSchemaSites();
    var k :| 0 <= k < |WebsiteSchema.Entries| && WebsiteSchema.Entries[k].0 == site;
    DefaultsMatchEntry(k);
  }

  /** The websites the aliases name are exactly the websites of the schema table. */
  lemma SupportedAreSchemaSites()
    ensures AllowedWebsites() == set k | 0 <= k < |WebsiteSchema.Entries| :: WebsiteSchema.Entries[k].0
  {
    AllowedWebsitesListed();
    var e := WebsiteSchema.Entries;
    assert e[0].0 == "codeforces.com" && e[1].0 == "codechef.com" && e[2].0 == "atcoder.jp";
    assert e[3].0 == "codingcompetitions.withgoogle.com" && e[4].0 == "usaco.org";
    assert e[5].0 == "facebook.com/hackercup" && e[6].0 == "leetcode.com";
  }

  /** The same agreement, entry by entry of the schema table. */
  lemma DefaultsMatchEntry(k: int)
    requires 0 <= k < |WebsiteSchema.Entries|
    ensures var e := WebsiteSchema.Entries[k];
      Patterns(DefaultAllowed, e.0) == e.1.allowedPatterns && Patterns(DefaultDisallowed, e.0) == e.1.disallowedPatterns
      && WebsiteSchema.Lookup(e.0) == e.1
  {
    WebsiteSchema.LookupEntry(k);
    AllowedDefaultAt(k);
    DisallowedDefaultAt(k);
  }

  /** `_WEBSITE_ALLOWED_PATTERNS` holds the schema's allowed patterns of entry `k`. */
  lemma AllowedDefaultAt(k: int)
    requires 0 <= k < |WebsiteSchema.Entries|
    ensures Patterns(DefaultAllowed, WebsiteSchema.Entries[k].0) == WebsiteSchema.Entries[k].1.allowedPatterns
  {
    if k == 0 {
      assert Patterns(DefaultAllowed, "codeforces.com") == [""];
    } else if k == 1 {
      assert Patterns(DefaultAllowed, "codechef.com") == ["lunch", "cook", "rated"];
    } else if k == 2 {
      assert Patterns(DefaultAllowed, "atcoder.jp") == ["abc:", "arc:", "agc:", "grand", "beginner", "regular"];
    } else if k == 3 {
      assert Patterns(DefaultAllowed, "codingcompetitions.withgoogle.com") == [""];
    } else if k == 4 {
      assert Patterns(DefaultAllowed, "usaco.org") == [""];
    } else if k == 5 {
      assert Patterns(DefaultAllowed, "facebook.com/hackercup") == [""];
    } else {
      assert Patterns(DefaultAllowed, "leetcode.com") == [""];
    }
  }

  /** `_WEBSITE_DISALLOWED_PATTERNS` holds the schema's disallowed patterns of entry `k`;
      for usaco.org the missing key reads as the empty list. */
  lemma DisallowedDefaultAt(k: int)
    requires 0 <= k < |WebsiteSchema.Entries|
    ensures Patterns(DefaultDisallowed, WebsiteSchema.Entries[k].0) == WebsiteSchema.Entries[k].1.disallowedPatterns
  {
    if k == 0 {
      assert Patterns(DefaultDisallowed, "codeforces.com") == ["wild", "fools", "kotlin", "unrated"];
    } else if k == 1 {
      assert Patterns(DefaultDisallowed, "codechef.com") == ["unrated", "long"];
    } else if k == 2 {
      assert Patterns(DefaultDisallowed, "atcoder.jp") == [];
    } else if k == 3 {
      assert Patterns(DefaultDisallowed, "codingcompetitions.withgoogle.com") == ["registration", "coding practice"];
    } else if k == 4 {
      assert Patterns(DefaultDisallowed, "usaco.org") == [];
    } else if k == 5 {
      assert Patterns(DefaultDisallowed, "facebook.com/hackercup") == [];
    } else {
      assert Patterns(DefaultDisallowed, "leetcode.com") == [];
    }
  }

  /** `Round.is_desired(allowed, disallowed)` with both tables read per website. */
  predicate ContestDesired(allowed: PatternTable, disallowed: PatternTable, c: Round) {
    IsDesired(Patterns(allowed, c.website), Patterns(disallowed, c.website), c.name)
  }

  /** `GuildSettings`: ids and offsets are `None` until set. The time zone is kept by name. */
  datatype GuildSettings = GuildSettings(
    remindChannelId: Option<int>, remindRoleId: Option<int>, remindBefore: Option<seq<int>>,
    finalcallChannelId: Option<int>, finalcallBefore: Option<int>, localTimezone: string,
    websiteAllowedPatterns: PatternTable, websiteDisallowedPatterns: PatternTable)

  /** `get_default_guild_settings()`. */
  function DefaultGuildSettings(): (s: GuildSettings)
    ensures s.remindChannelId.None? && s.remindRoleId.None? && s.remindBefore.None?
    ensures s.finalcallChannelId.None? && s.finalcallBefore.None? && s.localTimezone == "UTC"
    ensures forall site :: Patterns(s.websiteAllowedPatterns, site) == Patterns(DefaultAllowed, site)
    ensures forall site :: Patterns(s.websiteDisallowedPatterns, site) == Patterns(DefaultDisallowed, site)
  {
    GuildSettings(None, None, None, None, None, "UTC", DefaultAllowed, DefaultDisallowed)
  }

  /** A guild with default settings gets exactly the contests the schema table admits
      for the supported websites. */
  lemma DefaultSettingsFollowSchema(c: Round)
    requires c.website in AllowedWebsites()
    ensures ContestDesired(DefaultGuildSettings().websiteAllowedPatterns,
                           DefaultGuildSettings().websiteDisallowedPatterns, c)
        == WebsiteSchema.SchemaDesired(c.website, c.name)
  {
    DefaultsMatchSchema(c.website);
  }

  /** `discord_common.time_format`, assumed to split seconds into days, hours, minutes
      and seconds by successive `divmod`. */
  function TimeFormat(secs: int): (int, int, int, int) {
    var days, rest := secs / 86400, secs % 86400;
    var hours, rest' := rest / 3600, rest % 3600;
    (days, hours, rest' / 60, rest' % 60)
  }

  lemma TimeFormatRecombines(secs: int)
    ensures var (d, h, m, s) := TimeFormat(secs);
      d * 86400 + h * 3600 + m * 60 + s == secs && 0 <= h < 24 && 0 <= m < 60 && 0 <= s < 60
  {
    var rest := secs % 86400;
    var rest' := rest % 3600;
    assert secs == secs / 86400 * 86400 + rest;
    assert rest == rest / 3600 * 3600 + rest';
    assert rest' == rest' / 60 * 60 + rest' % 60;
  }

  /** `_contest_duration_format`: `"Hh Mm"`, prefixed by `"Dd "` when there are days. */
  function DurationFormat(c: Round): string {
    var (d, h, m, _) := TimeFormat(c.duration);
    var hm := IntToString(h) + "h " + IntToString(m) + "m";
    if d > 0 then IntToString(d) + "d " + hm else hm
  }

  /** The duration text reads off the split of the duration: for any day count and any
      hours, minutes and seconds in range that add up to it, the text is the hours and
      minutes, preceded by the day count exactly when the contest lasts a day or more. */
  lemma DurationFormatShape(c: Round, d: int, h: int, m: int, s: int)
    requires c.duration == d * 86400 + h * 3600 + m * 60 + s
    requires 0 <= h < 24 && 0 <= m < 60 && 0 <= s < 60
    ensures d > 0 <==> c.duration >= 86400
    ensures DurationFormat(c) ==
      (if c.duration >= 86400 then IntToString(d) + "d " else "") + IntToString(h) + "h " + IntToString(m) + "m"
  {
    DivModUnique(c.duration, 86400, d, h * 3600 + m * 60 + s);
    DivModUnique(h * 3600 + m * 60 + s, 3600, h, m * 60 + s);
    DivModUnique(m * 60 + s, 60, m, s);
  }

  lemma DurationFormatExample()
    ensures DurationFormat(Round(0, "", 0, 9000, "", "")) == "2h 30m"
  {
    assert TimeFormat(9000) == (0, 2, 30, 0);
    assert IntToString(2) == "2";
    assert IntToString(30) == NatToString(3) + "0" == "30";
  }

  const EnSpace: char := '\U{2002}'
  const LinkSquare: char := '\U{25F3}'

  /** `_get_formatted_contest_desc`. */
  function FormattedDesc(start: string, duration: string, url: string, maxDurationLen: int): string {
    ['`', EnSpace] + start + [EnSpace, '|', EnSpace] + RJust(duration, maxDurationLen, EnSpace)
    + [EnSpace, '|', EnSpace] + "`[`link " + [LinkSquare] + "`](" + url + " \"Link to contest page\")"
  }

  /** The description starts with the start time between a backquote and a bar; the
      padded duration follows at `|start| + 5`, and a bar right after it. */
  lemma FormattedDescLayout(start: string, duration: string, url: string, width: int)
    ensures var d := FormattedDesc(start, duration, url, width);
      var pad := RJust(duration, width, EnSpace);
      var o := |start| + 5;
      |d| >= o + |pad| + 3
      && d[..o] == ['`', EnSpace] + start + [EnSpace, '|', EnSpace]
      && d[o..o + |pad|] == pad
      && d[o + |pad|..o + |pad| + 3] == [EnSpace, '|', EnSpace]
  {
  }

  /** `d` holds the column `col` of width `w` at offset `o`, closed by a bar. */
  predicate ColumnAt(d: string, o: int, w: int, col: string) {
    0 <= o && 0 <= w && |d| >= o + w + 3 && d[o..o + w] == col && d[o + w..o + w + 3] == [EnSpace, '|', EnSpace]
  }

  /** With a width no smaller than the duration, the duration column of the description
      is exactly `width` characters, from `|start| + 5`. */
  lemma FormattedDescColumns(start: string, duration: string, url: string, width: int)
    requires |duration| <= width
    ensures ColumnAt(FormattedDesc(start, duration, url, width), |start| + 5, width, RJust(duration, width, EnSpace))
  {
    RJustPads(duration, width, EnSpace);
    FormattedDescLayout(start, duration, url, width);
  }

  /** The substrings `_contest_website` tries, in order, with their labels. */
  const WebsiteLabels: seq<(string, string)> := [
    ("codeforces", "CodeForces"), ("codechef", "CodeChef"), ("atcoder", "AtCoder"),
    ("google", "Google"), ("hacker-cup", "FB HackerCup"), ("leetcode", "LeetCode"), ("usaco", "USACO")]

  /** The label of the first entry of `labels` whose key occurs in `url`. */
  function FirstLabel(url: string, labels: seq<(string, string)>): (r: Option<nat>)
    ensures r.Some? ==> r.value < |labels| && Occurs(labels[r.value].0, url)
    ensures r.Some? ==> forall j :: 0 <= j < r.value ==> !Occurs(labels[j].0, url)
    ensures r.None? ==> forall j :: 0 <= j < |labels| ==> !Occurs(labels[j].0, url)
  {
    if labels == [] then None
    else if Occurs(labels[0].0, url) then Some(0)
    else match FirstLabel(url, labels[1..])
      case None => None
      case Some(k) => Some(k + 1)
  }

  /** `_contest_website`: the chain of `url.find(...) != -1` tests. */
  function ContestWebsite(url: string): string {
    if Occurs("codeforces", url) then "CodeForces"
    else if Occurs("codechef", url) then "CodeChef"
    else if Occurs("atcoder", url) then "AtCoder"
    else if Occurs("google", url) then "Google"
    else if Occurs("hacker-cup", url) then "FB HackerCup"
    else if Occurs("leetcode", url) then "LeetCode"
    else if Occurs("usaco", url) then "USACO"
    else "Not Found"
  }

  /** The label is that of the first listed substring found in the URL, and
      "Not Found" exactly when none of them occurs. */
  lemma ContestWebsiteIsFirstMatch(url: string)
    ensures match FirstLabel(url, WebsiteLabels)
      case Some(k) => ContestWebsite(url) == WebsiteLabels[k].1
      case None => ContestWebsite(url) == "Not Found"
  {
    var l := WebsiteLabels;
    assert l[0].0 == "codeforces" && l[1].0 == "codechef" && l[2].0 == "atcoder" && l[3].0 == "google";
    assert l[4].0 == "hacker-cup" && l[5].0 == "leetcode" && l[6].0 == "usaco";
    var r := FirstLabel(url, l);
    if r.Some? {
      var k := r.value;
      assert k == 0 || k == 1 || k == 2 || k == 3 || k == 4 || k == 5 || k == 6;
    } else {
      assert forall j :: 0 <= j < 7 ==> !Occurs(l[j].0, url);
      assert !Occurs(l[0].0, url) && !Occurs(l[1].0, url) && !Occurs(l[2].0, url) && !Occurs(l[3].0, url);
      assert !Occurs(l[4].0, url) && !Occurs(l[5].0, url) && !Occurs(l[6].0, url);
    }
  }

  /** One embed field: its name, the formatted description, the website label. */
  datatype Field = Field(name: string, value: string, website: string)

  /** `max(len(duration) for ...)` over a non-empty list. */
  function MaxDurationLen(contests: seq<Round>): (m: nat)
    requires contests != []
    ensures forall i :: 0 <= i < |contests| ==> |DurationFormat(contests[i])| <= m
    ensures exists i :: 0 <= i < |contests| && |DurationFormat(contests[i])| == m
  {
    var here := |DurationFormat(contests[0])|;
    if |contests| == 1 then here
    else
      var rest := MaxDurationLen(contests[1..]);
      assert forall i :: 1 <= i < |contests| ==> contests[i] == contests[1..][i - 1];
      if here >= rest then here else rest
  }

  /** The field of one contest once the widest duration is known. */
  function FieldOf(c: Round, startFormat: Round -> string, width: int): Field {
    Field(c.name, FormattedDesc(startFormat(c), DurationFormat(c), c.url, width), ContestWebsite(c.url))
  }

  /** The fields of `contests` in order, all padded to `width`. */
  function Fields(contests: seq<Round>, startFormat: Round -> string, width: int): seq<Field> {
    Map(contests, (c: Round) => FieldOf(c, startFormat, width))
  }

  /** One field per contest, in the contests' order. */
  lemma FieldsIndex(contests: seq<Round>, startFormat: Round -> string, width: int, i: int)
    requires 0 <= i < |contests|
    ensures |Fields(contests, startFormat, width)| == |contests|
    ensures Fields(contests, startFormat, width)[i] == FieldOf(contests[i], startFormat, width)
  {
    MapIndex(contests, (c: Round) => FieldOf(c, startFormat, width), i);
  }

  /** Appending the field of the next contest extends the fields of a prefix. */
  lemma FieldsSnoc(contests: seq<Round>, startFormat: Round -> string, width: int, i: int)
    requires 0 <= i < |contests|
    ensures Fields(contests[..i + 1], startFormat, width)
         == Fields(contests[..i], startFormat, width) + [FieldOf(contests[i], startFormat, width)]
  {
    assert contests[..i + 1][..i] == contests[..i];
  }

  /** `_get_embed_fields_from_contests`: `max` of an empty list raises ValueError.
      `startFormat` is `_contest_start_time_format` in the guild's time zone. */
  method EmbedFields(contests: seq<Round>, startFormat: Round -> string) returns (r: Result<seq<Field>>)
    ensures contests == [] <==> r == Failure(ValueError)
    ensures contests != [] ==> r == Success(Fields(contests, startFormat, MaxDurationLen(contests)))
  {
    if contests == [] {
      return Failure(ValueError);
    }
    var width := MaxDurationLen(contests);
    var fields: seq<Field> := [];
    for i := 0 to |contests|
      invariant fields == Fields(contests[..i], startFormat, width)
    {
      FieldsSnoc(contests, startFormat, width, i);
      fields := fields + [FieldOf(contests[i], startFormat, width)];
    }
    assert contests[..|contests|] == contests;
    r := Success(fields);
  }

  /** All durations of one embed are padded to the same width, so the columns line up. */
  lemma EmbedDurationsAligned(contests: seq<Round>, i: int)
    requires 0 <= i < |contests|
    ensures |RJust(DurationFormat(contests[i]), MaxDurationLen(contests), EnSpace)| == MaxDurationLen(contests)
  {
    RJustPads(DurationFormat(contests[i]), MaxDurationLen(contests), EnSpace);
  }

  /** The field of contest `i` has its duration column, `width` wide, from after its start
      time, when no duration is wider. */
  lemma FieldColumns(contests: seq<Round>, startFormat: Round -> string, width: int, i: int)
    requires 0 <= i < |contests| && |DurationFormat(contests[i])| <= width
    ensures ColumnAt(Fields(contests, startFormat, width)[i].value, |startFormat(contests[i])| + 5, width,
                     RJust(DurationFormat(contests[i]), width, EnSpace))
  {
    FieldsIndex(contests, startFormat, width, i);
    var c := contests[i];
    FormattedDescColumns(startFormat(c), DurationFormat(c), c.url, width);
  }

  /** In every field of one embed the duration column starts after the start time and
      has the common width, and the closing bar follows it. */
  lemma EmbedColumnsAligned(contests: seq<Round>, startFormat: Round -> string, i: int)
    requires 0 <= i < |contests|
    ensures ColumnAt(Fields(contests, startFormat, MaxDurationLen(contests))[i].value,
                     |startFormat(contests[i])| + 5, MaxDurationLen(contests),
                     RJust(DurationFormat(contests[i]), MaxDurationLen(contests), EnSpace))
  {
    FieldColumns(contests, startFormat, MaxDurationLen(contests), i);
  }

  /** `make(value, label)` in `_send_reminder_at`: plural "s" unless the value is 1. */
  function Make(value: int, unit: string): string {
    var tmp := IntToString(value) + " " + unit;
    if value == 1 then tmp else tmp + "s"
  }

  function Part(value: int, unit: string): seq<string> {
    if value > 0 then [Make(value, unit)] else []
  }

  /** The joined parts of `before_str`: day, hr, min, sec in that order, zero values left out. */
  function BeforeParts(beforeSecs: int): seq<string> {
    var (d, h, m, s) := TimeFormat(beforeSecs);
    Part(d, "day") + Part(h, "hr") + Part(m, "min") + Part(s, "sec")
  }

  /** The description of a reminder. */
  function AboutToStart(beforeSecs: int): string {
    "About to start in " + Join(BeforeParts(beforeSecs), " ")
  }

  /** The number of parts is the number of non-zero components. */
  lemma BeforePartsCount(beforeSecs: int)
    ensures var (d, h, m, s) := TimeFormat(beforeSecs);
      |BeforeParts(beforeSecs)| ==
        (if d > 0 then 1 else 0) + (if h > 0 then 1 else 0) + (if m > 0 then 1 else 0) + (if s > 0 then 1 else 0)
  {
  }

  /** Quotient and remainder by one of the `time_format` divisors are determined by
      `a == b * q + r` with `0 <= r < b`. */
  lemma DivModUnique(a: int, b: int, q: int, r: int)
    requires b == 86400 || b == 3600 || b == 60
    requires a == b * q + r && 0 <= r < b
    ensures a / b == q && a % b == r
  {
    if b == 86400 {
      assert a == 86400 * q + r;
    } else if b == 3600 {
      assert a == 3600 * q + r;
    } else {
      assert a == 60 * q + r;
    }
  }

  /** `time_format` of a whole number of minutes: no seconds, and the minutes split into
      days, hours and minutes. */
  lemma TimeFormatOfMinutes(mins: nat)
    ensures TimeFormat(60 * mins) == (mins / 1440, mins % 1440 / 60, mins % 60, 0)
  {
    var q, r := mins / 1440, mins % 1440;
    var h, m := r / 60, r % 60;
    assert 60 * mins == 86400 * q + 60 * r;
    DivModUnique(60 * mins, 86400, q, 60 * r);
    assert 60 * r == 3600 * h + 60 * m;
    DivModUnique(60 * r, 3600, h, 60 * m);
    DivModUnique(60 * m, 60, m, 0);
    assert mins == 60 * (24 * q + h) + m;
    DivModUnique(mins, 60, 24 * q + h, m);
  }

  /** A lead time of `mins` minutes renders as days, hours and minutes of `mins`, never seconds. */
  lemma BeforePartsOfMinutes(mins: nat)
    ensures BeforeParts(60 * mins) == Part(mins / 1440, "day") + Part(mins % 1440 / 60, "hr") + Part(mins % 60, "min")
  {
    TimeFormatOfMinutes(mins);
  }

  /** Ten minutes before a contest. */
  lemma AboutToStartTenMinutes()
    ensures AboutToStart(600) == "About to start in 10 mins"
  {
    TenMinutesParts();
  }

  /** Ten minutes is one part, in minutes. */
  lemma TenMinutesParts()
    ensures BeforeParts(600) == ["10 mins"]
  {
    BeforePartsOfMinutes(10);
    TenMinutesMake();
  }

  /** A count other than one takes the plural. */
  lemma TenMinutesMake()
    ensures Make(10, "min") == "10 mins"
  {
    assert IntToString(10) == NatToString(1) + "0" == "10";
  }

  /** One hour before a contest: the unit stays singular. */
  lemma AboutToStartOneHour()
    ensures AboutToStart(3600) == "About to start in 1 hr"
  {
    assert BeforeParts(3600) == ["1 hr"] by {
      BeforePartsOfMinutes(60);
      assert Make(1, "hr") == "1 hr" by {
        assert IntToString(1) == "1";
      }
    }
  }

  /** A zero lead time leaves the description without parts. */
  lemma AboutToStartNow()
    ensures AboutToStart(0) == "About to start in "
  {
    assert TimeFormat(0) == (0, 0, 0, 0);
    assert BeforeParts(0) == [];
  }

  /** A filter word selects a contest when it is `"+alias"` with a known alias naming the
      contest's website. */
  predicate Selects(f: string, c: Round) {
    |f| > 0 && f[0] == '+' && f[1..] in SupportedWebsites && IsEligible(c, SupportedWebsites[f[1..]])
  }

  predicate SelectedByAny(filters: seq<string>, c: Round) {
    exists k :: 0 <= k < |filters| && Selects(filters[k], c)
  }

  /** The inner loop of `filter_contests`: whether some filter selects `contest`;
      `contest_filter[0]` on an empty filter raises IndexError. */
  method AnyFilterSelects(filters: seq<string>, contest: Round) returns (r: Result<bool>)
    ensures r.Failure? <==> "" in filters
    ensures r.Failure? ==> r.error == IndexError
    ensures r.Success? ==> (r.value <==> SelectedByAny(filters, contest))
  {
    var eligible := false;
    for k := 0 to |filters|
      invariant "" !in filters[..k]
      invariant eligible <==> exists j :: 0 <= j < k && Selects(filters[j], contest)
    {
      var f := filters[k];
      if f == [] {
        assert filters[k] == "";
        return Failure(IndexError);
      }
      if f[0] == '+' && f[1..] in SupportedWebsites {
        var website := SupportedWebsites[f[1..]];
        eligible := eligible || IsEligible(contest, website);
      }
      assert filters[..k + 1] == filters[..k] + [f];
    }
    assert filters[..|filters|] == filters;
    r := Success(eligible);
  }

  /** `filter_contests`: with filters, keeps (in order) the contests some filter selects.
      An empty filter raises IndexError as soon as a contest is examined. */
  method FilterContests(filters: seq<string>, contests: seq<Round>) returns (r: Result<seq<Round>>)
    ensures filters == [] ==> r == Success(contests)
    ensures filters != [] && contests != [] && "" in filters ==> r == Failure(IndexError)
    ensures filters != [] && (contests == [] || "" !in filters) ==>
      r == Success(Filter(contests, c => SelectedByAny(filters, c)))
  {
    if filters == [] {
      return Success(contests);
    }
    var filtered: seq<Round> := [];
    for i := 0 to |contests|
      invariant filtered == Filter(contests[..i], c => SelectedByAny(filters, c))
      invariant i > 0 ==> "" !in filters
    {
      var contest := contests[i];
      var eligible := AnyFilterSelects(filters, contest);
      if eligible.Failure? {
        return Failure(eligible.error);
      }
      assert contests[..i + 1][..i] == contests[..i];
      if eligible.value {
        filtered := filtered + [contest];
      }
    }
    assert contests[..|contests|] == contests;
    r := Success(filtered);
  }

  /** A filter without "+" or with an unknown alias selects nothing. */
  lemma BadFilterSelectsNothing(f: string, c: Round)
    requires |f| == 0 || f[0] != '+' || f[1..] !in SupportedWebsites
    ensures !Selects(f, c)
  {
  }

  /** With filters, the kept contests are exactly those from a website some `+alias` names. */
  lemma FilteredMembership(filters: seq<string>, contests: seq<Round>, c: Round)
    ensures c in Filter(contests, x => SelectedByAny(filters, x)) <==>
      c in contests && (exists k :: 0 <= k < |filters| && |filters[k]| > 0 && filters[k][0] == '+'
                          && filters[k][1..] in SupportedWebsites && SupportedWebsites[filters[k][1..]] == c.website)
  {
  }

  /** One planned message: `RemindRequest` with the channel and role by id. */
  datatype RemindRequest = RemindRequest(
    channel: Option<int>, role: int, contests: seq<Round>, beforeSecs: int, sendTime: int,
    localTimezone: string, scheduled: bool, finalCall: bool)

  /** The message a reminder task posts: the channel it goes to, the role mention, the
      description and the embed fields as (name, value). */
  datatype Notice = Notice(channel: int, role: int, description: string, fields: seq<(string, string)>)

  datatype Delivery = Skipped | Failed(error: Error) | Sent(notice: Notice)

  /** The embed of a reminder: one `(website || name, value)` pair per field. */
  method EmbedPairs(fields: seq<Field>) returns (embed: seq<(string, string)>)
    ensures |embed| == |fields|
    ensures forall j :: 0 <= j < |fields| ==>
      embed[j] == (fields[j].website + " || " + fields[j].name, fields[j].value)
  {
    embed := [];
    for i := 0 to |fields|
      invariant |embed| == i
      invariant forall j :: 0 <= j < i ==>
        embed[j] == (fields[j].website + " || " + fields[j].name, fields[j].value)
    {
      var f := fields[i];
      embed := embed + [(f.website + " || " + f.name, f.value)];
    }
  }

  /** `_send_reminder_at(request)`, with the clock read once as `now` before the sleep:
      nothing is sent when the send time is not in the future. A missing channel
      (`get_channel` found none) makes `request.channel.send` raise AttributeError once
      the embed is built. */
  method SendReminderAt(request: RemindRequest, now: int, startFormat: Round -> string)
    returns (d: Delivery)
    ensures d.Skipped? <==> request.sendTime - now <= 0
    ensures request.sendTime - now > 0 && request.contests == [] ==> d == Failed(ValueError)
    ensures request.sendTime - now > 0 && request.contests != [] ==>
      (request.channel.None? <==> d == Failed(AttributeError)) && (request.channel.Some? <==> d.Sent?)
    ensures d.Sent? ==> request.channel.Some? && d.notice.channel == request.channel.value
    ensures d.Sent? ==> d.notice.role == request.role
    ensures d.Sent? ==> d.notice.description == AboutToStart(request.beforeSecs)
    ensures d.Sent? ==> |d.notice.fields| == |request.contests| && request.contests != []
    ensures d.Sent? ==> var fs := Fields(request.contests, startFormat, MaxDurationLen(request.contests));
      forall i :: 0 <= i < |fs| ==> d.notice.fields[i] == (fs[i].website + " || " + fs[i].name, fs[i].value)
  {
    var delay := request.sendTime - now;
    if delay <= 0 {
      return Skipped;
    }
    var desc := AboutToStart(request.beforeSecs);
    var fields := EmbedFields(request.contests, startFormat);
    if fields.Failure? {
      return Failed(fields.error);
    }
    var embed := EmbedPairs(fields.value);
    if request.channel.None? {
      return Failed(AttributeError);
    }
    d := Sent(Notice(request.channel.value, request.role, desc, embed));
  }
}
