/** Per-website contest patterns and display metadata (remind/util/website_schema.py). */
module WebsiteSchema {
  import opened Results
  import opened Text
  import opened Rounds

  datatype WebsitePatterns = WebsitePatterns(
    allowedPatterns: seq<string>, disallowedPatterns: seq<string>,
    shorthands: seq<string>, prefix: string)

  /** The keyword-only constructor: an omitted list argument becomes a fresh empty
      list and an omitted prefix is "". */
  function MakePatterns(allowed: Option<seq<string>>, disallowed: Option<seq<string>>,
                        shorthands: Option<seq<string>>, prefix: Option<string>): (w: WebsitePatterns)
    ensures allowed.None? ==> w.allowedPatterns == []
    ensures disallowed.None? ==> w.disallowedPatterns == []
    ensures shorthands.None? ==> w.shorthands == []
    ensures prefix.None? ==> w.prefix == ""
    ensures allowed.Some? ==> w.allowedPatterns == allowed.value
    ensures disallowed.Some? ==> w.disallowedPatterns == disallowed.value
    ensures shorthands.Some? ==> w.shorthands == shorthands.value
    ensures prefix.Some? ==> w.prefix == prefix.value
  {
    WebsitePatterns(allowed.GetOr([]), disallowed.GetOr([]), shorthands.GetOr([]), prefix.GetOr(""))
  }

  /** `WebsitePatterns()`, the value the defaultdict creates on a miss. */
  function DefaultPatterns(): WebsitePatterns {
    MakePatterns(None, None, None, None)
  }

  lemma DefaultPatternsEmpty()
    ensures DefaultPatterns() == WebsitePatterns([], [], [], "")
  {
  }

  /** The entries of `schema`, in the order the module inserts them; every entry passes
      all four constructor arguments. */
  const Entries: seq<(string, WebsitePatterns)> := [
    ("codeforces.com", WebsitePatterns([""], ["wild", "fools", "kotlin", "unrated"],
                                       ["cf", "codeforces"], "CodeForces")),
    ("codechef.com", WebsitePatterns(["lunch", "cook", "rated"], ["unrated", "long"],
                                     ["cc", "codechef"], "CodeChef")),
    ("atcoder.jp", WebsitePatterns(["abc:", "arc:", "agc:", "grand", "beginner", "regular"], [],
                                   ["ac", "atcoder"], "AtCoder")),
    ("codingcompetitions.withgoogle.com", WebsitePatterns([""], ["registration", "coding practice"],
                                                          ["google"], "Google")),
    ("usaco.org", WebsitePatterns([""], [], ["usaco"], "USACO")),
    ("facebook.com/hackercup", WebsitePatterns([""], [], ["hackercup", "fbhc"], "FB Hackercup")),
    ("leetcode.com", WebsitePatterns([""], [], ["leetcode", "lc"], "LeetCode"))
  ]

  /** Index of `site` in `entries`, or |entries| when it is not listed. */
  function FindSite(entries: seq<(string, WebsitePatterns)>, site: string): (k: nat)
    ensures k <= |entries|
    ensures k < |entries| ==> entries[k].0 == site
    ensures forall j :: 0 <= j < k ==> entries[j].0 != site
  {
    if entries == [] then 0
    else if entries[0].0 == site then 0
    else 1 + FindSite(entries[1..], site)
  }

  predicate Listed(site: string) {
    exists k :: 0 <= k < |Entries| && Entries[k].0 == site
  }

  /** `schema[site]`: the listed entry, or the default one on a miss. */
  function Lookup(site: string): (w: WebsitePatterns)
    ensures !Listed(site) ==> w == DefaultPatterns()
    ensures forall k :: 0 <= k < |Entries| && Entries[k].0 == site ==> w == Entries[k].1
  {
    var k := FindSite(Entries, site);
    assert forall j :: 0 <= j < |Entries| ==> Entries[j].0 == site ==> j >= k by {
      forall j | 0 <= j < |Entries| && Entries[j].0 == site ensures j >= k {
      }
    }
    if k < |Entries| then
      assert forall j :: 0 <= j < |Entries| && Entries[j].0 == site ==> j == k by {
        SitesDistinct();
      }
      Entries[k].1
    else DefaultPatterns()
  }

  /** `schema[site]` for a listed site is that site's entry. */
  lemma LookupEntry(k: int)
    requires 0 <= k < |Entries|
    ensures Lookup(Entries[k].0) == Entries[k].1
  {
  }

  /** Every listed website appears once, so `Lookup` is a function of the table. */
  lemma SitesDistinct()
    ensures SitesUnique(Entries)
  {
  }

  /** The verdict of `Round.is_desired` under the schema entry of the contest's website. */
  predicate SchemaDesired(site: string, name: string) {
    IsDesired(Lookup(site).allowedPatterns, Lookup(site).disallowedPatterns, name)
  }

  /** An unlisted website gets the default entry, which admits no contest. */
  lemma UnlistedNeverDesired(site: string, name: string)
    requires !Listed(site)
    ensures !SchemaDesired(site, name)
  {
    NoAllowedNothingDesired([], name);
  }

  /** Codeforces: rejected exactly when the name mentions unrated, wild, fools or kotlin. */
  lemma CodeforcesPolicy(name: string)
    ensures SchemaDesired("codeforces.com", name) <==>
      !(Occurs("wild", Lower(name)) || Occurs("fools", Lower(name)) ||
        Occurs("kotlin", Lower(name)) || Occurs("unrated", Lower(name)))
  {
    var w := Lookup("codeforces.com");
    assert Entries[0].0 == "codeforces.com";
    assert w == Entries[0].1;
    var d, t := w.disallowedPatterns, Lower(name);
    assert d == ["wild", "fools", "kotlin", "unrated"];
    assert w.allowedPatterns[0] == "";
    EmptyOccurs(t);
    IsDesiredIff(w.allowedPatterns, d, name);
    assert (forall k :: 0 <= k < |d| ==> !Occurs(d[k], t)) <==>
      !Occurs(d[0], t) && !Occurs(d[1], t) && !Occurs(d[2], t) && !Occurs(d[3], t);
  }

  /** CodeChef: a name with both "cook" and "long" is rejected, disallow winning over allow. */
  lemma CodechefLongCookRejected(name: string)
    requires Occurs("cook", Lower(name)) && Occurs("long", Lower(name))
    ensures !SchemaDesired("codechef.com", name)
  {
    var w := Lookup("codechef.com");
    assert Entries[1].0 == "codechef.com";
    assert w == Entries[1].1;
    assert w.disallowedPatterns[1] == "long";
    DisallowWins(w.allowedPatterns, w.disallowedPatterns, name, 1);
  }

  /** Every listed entry has at least one shorthand and a non-empty prefix. */
  lemma EntriesHaveMetadata()
    ensures forall k :: 0 <= k < |Entries| ==> Entries[k].1.shorthands != [] && Entries[k].1.prefix != ""
  {
  }

  /** No shorthand is listed by two different entries. */
  ghost predicate ShorthandsDisjoint(entries: seq<(string, WebsitePatterns)>) {
    forall i, j, sh :: 0 <= i < j < |entries| && sh in entries[i].1.shorthands ==> sh !in entries[j].1.shorthands
  }

  ghost predicate SitesUnique(entries: seq<(string, WebsitePatterns)>) {
    forall i, j :: 0 <= i < j < |entries| ==> entries[i].0 != entries[j].0
  }

  lemma SchemaShorthandsDisjoint()
    ensures ShorthandsDisjoint(Entries)
  {
    forall i | 0 <= i < |Entries|
      ensures forall j, sh :: i < j < |Entries| && sh in Entries[i].1.shorthands ==> sh !in Entries[j].1.shorthands
    {
      ShorthandsNotLater(i);
    }
  }

  /** The shorthands of entry `i` appear in no later entry. */
  lemma ShorthandsNotLater(i: nat)
    requires i < |Entries|
    ensures forall j, sh :: i < j < |Entries| && sh in Entries[i].1.shorthands ==> sh !in Entries[j].1.shorthands
  {
    var sh := seq(|Entries|, k requires 0 <= k < |Entries| => Entries[k].1.shorthands);
    assert sh == [["cf", "codeforces"], ["cc", "codechef"], ["ac", "atcoder"], ["google"], ["usaco"],
                  ["hackercup", "fbhc"], ["leetcode", "lc"]];
  }

  /** The website a shorthand stands for, searching the entries in order. */
  function ShorthandSite(entries: seq<(string, WebsitePatterns)>, sh: string): (r: Option<string>)
    ensures r.Some? ==> exists j :: 0 <= j < |entries| && entries[j].0 == r.value && sh in entries[j].1.shorthands
  {
    if entries == [] then None
    else if sh in entries[0].1.shorthands then Some(entries[0].0)
    else ShorthandSite(entries[1..], sh)
  }

  /** Because shorthands are disjoint, a shorthand maps to a website exactly when that
      website's entry lists it. */
  lemma ShorthandSiteIff(sh: string, k: int)
    requires 0 <= k < |Entries|
    ensures ShorthandSite(Entries, sh) == Some(Entries[k].0) <==> sh in Entries[k].1.shorthands
  {
    SchemaShorthandsDisjoint();
    SitesDistinct();
    ShorthandSiteFound(Entries, sh, k);
  }

  lemma {:induction false} ShorthandSiteFound(entries: seq<(string, WebsitePatterns)>, sh: string, k: int)
    requires 0 <= k < |entries|
    requires SitesUnique(entries) && ShorthandsDisjoint(entries)
    ensures ShorthandSite(entries, sh) == Some(entries[k].0) <==> sh in entries[k].1.shorthands
  {
    var rest := entries[1..];
    if sh in entries[0].1.shorthands {
      if k > 0 {
        assert sh !in entries[k].1.shorthands;
        assert entries[0].0 != entries[k].0;
      }
    } else if k > 0 {
      assert rest[k - 1] == entries[k];
      assert SitesUnique(rest) by {
        forall i, j | 0 <= i < j < |rest| ensures rest[i].0 != rest[j].0 {
          assert rest[i] == entries[i + 1] && rest[j] == entries[j + 1];
        }
      }
      assert ShorthandsDisjoint(rest) by {
        forall i, j, s | 0 <= i < j < |rest| && s in rest[i].1.shorthands ensures s !in rest[j].1.shorthands {
          assert rest[i] == entries[i + 1] && rest[j] == entries[j + 1];
        }
      }
      ShorthandSiteFound(rest, sh, k - 1);
    } else {
      var r := ShorthandSite(rest, sh);
      if r.Some? {
        var j :| 0 <= j < |rest| && rest[j].0 == r.value && sh in rest[j].1.shorthands;
        assert rest[j] == entries[j + 1];
      }
    }
  }
}
