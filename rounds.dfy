/** A contest record and the allow/disallow policy applied to its name
    (remind/util/rounds.py). */
module Rounds {
  import opened Text

  /** One object of the contest API, with `start` already converted to seconds. */
  datatype RawContest = RawContest(
    id: int, start: int, duration: int, href: string, resource: string, event: string)

  /** `Round`: start time and duration are whole seconds. */
  datatype Round = Round(
    id: int, name: string, startTime: int, duration: int, url: string, website: string)

  /** `Round.__init__`: the name is taken as given (the per-website normalisation it
      calls is not defined by `WebsitePatterns`). */
  function FromRaw(raw: RawContest): (r: Round)
    ensures r.id == raw.id && r.url == raw.href && r.website == raw.resource
    ensures r.name == raw.event && r.startTime == raw.start && r.duration == raw.duration
  {
    Round(raw.id, raw.event, raw.start, raw.duration, raw.href, raw.resource)
  }

  /** `Round.is_eligible(site)`. */
  predicate IsEligible(r: Round, site: string) {
    site == r.website
  }

  /** A contest built from an API object is eligible for exactly one site, its resource. */
  lemma EligibleForOwnSite(raw: RawContest, site: string)
    ensures IsEligible(FromRaw(raw), site) <==> site == raw.resource
  {
  }

  /** `Round.is_desired` over one website's pattern lists: the disallow loop runs first
      and returns False on a hit, then the allow loop returns True on a hit. */
  predicate IsDesired(allowed: seq<string>, disallowed: seq<string>, name: string) {
    var lowered := Lower(name);
    if AnyOccurs(disallowed, lowered) then false else AnyOccurs(allowed, lowered)
  }

  /** The policy as two quantifiers: no disallowed pattern occurs and some allowed one does. */
  lemma IsDesiredIff(allowed: seq<string>, disallowed: seq<string>, name: string)
    ensures IsDesired(allowed, disallowed, name) <==>
      (forall k :: 0 <= k < |disallowed| ==> !Occurs(disallowed[k], Lower(name))) &&
      (exists k :: 0 <= k < |allowed| && Occurs(allowed[k], Lower(name)))
  {
    AnyOccursIff(disallowed, Lower(name));
    AnyOccursIff(allowed, Lower(name));
  }

  /** A disallow hit rejects the name whatever the allowed patterns are. */
  lemma DisallowWins(allowed: seq<string>, disallowed: seq<string>, name: string, k: int)
    requires 0 <= k < |disallowed| && Occurs(disallowed[k], Lower(name))
    ensures !IsDesired(allowed, disallowed, name)
  {
    IsDesiredIff(allowed, disallowed, name);
  }

  /** With no allowed pattern nothing is desired. */
  lemma NoAllowedNothingDesired(disallowed: seq<string>, name: string)
    ensures !IsDesired([], disallowed, name)
  {
  }

  /** An allowed `''` admits every name that no disallowed pattern hits. */
  lemma EmptyAllowedAdmitsAll(allowed: seq<string>, disallowed: seq<string>, name: string)
    requires "" in allowed
    requires forall k :: 0 <= k < |disallowed| ==> !Occurs(disallowed[k], Lower(name))
    ensures IsDesired(allowed, disallowed, name)
  {
    var k :| 0 <= k < |allowed| && allowed[k] == "";
    EmptyOccurs(Lower(name));
    IsDesiredIff(allowed, disallowed, name);
  }

  /** A disallowed `''` blocks every name. */
  lemma EmptyDisallowedBlocksAll(allowed: seq<string>, disallowed: seq<string>, name: string)
    requires "" in disallowed
    ensures !IsDesired(allowed, disallowed, name)
  {
    var k :| 0 <= k < |disallowed| && disallowed[k] == "";
    EmptyOccurs(Lower(name));
    DisallowWins(allowed, disallowed, name, k);
  }

  /** The verdict depends on the lowercased name only; in particular lowercasing the
      name first changes nothing. */
  lemma DesiredDependsOnLowerOnly(allowed: seq<string>, disallowed: seq<string>, a: string, b: string)
    requires Lower(a) == Lower(b)
    ensures IsDesired(allowed, disallowed, a) == IsDesired(allowed, disallowed, b)
    ensures IsDesired(allowed, disallowed, Lower(a)) == IsDesired(allowed, disallowed, a)
  {
    LowerIdempotent(a);
  }

  /** The fields `__str__` lists, in order. */
  function StrFields(r: Round, startText: string): seq<string> {
    ["ID = " + IntToString(r.id), "Name = " + r.name, "Start_time = " + startText,
     "Duration = " + TimedeltaToString(r.duration), "URL = " + r.url, "Website = " + r.website]
  }

  /** `Round.__str__`: every field is appended with a trailing ", " and the last two
      characters are cut before the parentheses are added. `startText` is
      `str(start_time)`, which depends on the date library. */
  method Show(r: Round, startText: string) returns (st: string)
    ensures st == "(" + Join(StrFields(r, startText), ", ") + ")"
  {
    var fields := StrFields(r, startText);
    st := fields[0] + ", ";
    st := st + (fields[1] + ", ");
    st := st + (fields[2] + ", ");
    st := st + (fields[3] + ", ");
    st := st + (fields[4] + ", ");
    st := st + (fields[5] + ", ");
    JoinSix(fields, ", ");
    st := "(" + st[..|st| - 2] + ")";
  }

  /** Six fields each followed by `sep`, minus the final `sep`, are the fields joined by `sep`. */
  lemma JoinSix(fs: seq<string>, sep: string)
    requires |fs| == 6 && |sep| == 2
    ensures var t := fs[0] + sep + (fs[1] + sep) + (fs[2] + sep) + (fs[3] + sep) + (fs[4] + sep) + (fs[5] + sep);
      t[..|t| - 2] == Join(fs, sep)
  {
    JoinSnoc(fs[..1], fs[1], sep);
    assert fs[..2] == fs[..1] + [fs[1]];
    JoinSnoc(fs[..2], fs[2], sep);
    assert fs[..3] == fs[..2] + [fs[2]];
    JoinSnoc(fs[..3], fs[3], sep);
    assert fs[..4] == fs[..3] + [fs[3]];
    JoinSnoc(fs[..4], fs[4], sep);
    assert fs[..5] == fs[..4] + [fs[4]];
    JoinSnoc(fs[..5], fs[5], sep);
    assert fs == fs[..5] + [fs[5]];
    var j := Join(fs, sep);
    var t := fs[0] + sep + (fs[1] + sep) + (fs[2] + sep) + (fs[3] + sep) + (fs[4] + sep) + (fs[5] + sep);
    assert t == j + sep;
    assert (j + sep)[..|j|] == j;
  }

  /** `str(timedelta(seconds=secs))`: `"[D day[s], ]H:MM:SS"`, with Python's floor
      division so that a negative duration shows a negative day count. */
  function TimedeltaToString(secs: int): string {
    var days := secs / 86400;
    var rest := secs % 86400;
    var clock := NatToString(rest / 3600) + ":" + Pad2(rest % 3600 / 60) + ":" + Pad2(rest % 60);
    if days == 0 then clock
    else IntToString(days) + " day" + (if days == 1 || days == -1 then "" else "s") + ", " + clock
  }

  /** A negative duration is one day back plus a clock time, as timedelta normalises it. */
  lemma TimedeltaNegative()
    ensures TimedeltaToString(-1) == "-1 day, 23:59:59"
  {
    assert -1 / 86400 == -1 && -1 % 86400 == 86399;
    assert 86399 / 3600 == 23 && 86399 % 3600 / 60 == 59 && 86399 % 60 == 59;
    LastSecondClock();
    assert IntToString(-1) == "-1" by {
      assert NatToString(1) == "1";
    }
  }

  /** The clock part of the last second of a day. */
  lemma LastSecondClock()
    ensures NatToString(23) + ":" + Pad2(59) + ":" + Pad2(59) == "23:59:59"
  {
    assert NatToString(23) == NatToString(2) + "3" == "23";
    assert Pad2(59) == NatToString(5) + "9" == "59";
  }
}
