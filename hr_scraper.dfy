/** Recruiter discovery: the profile links one search for a company's HR
    staff yields, and the same search over a list of companies
    (companies_details_extraction/hr_scraper.py). */
module HrScraper {
  import opened Common
  import opened Text
  import opened Browser

  const ProfilePattern: string := "linkedin.com/in/"
  const Site: string := "site:linkedin.com/in "

  /** The search text: profile pages naming the company, in quotes, and the
      designation, in parentheses. */
  function HrQuery(company: string, designation: string): string {
    Site + "\"" + company + "\" (" + designation + ")"
  }

  /** The query is restricted to profile pages and names both the company
      and the designation. */
  lemma HrQueryMentionsBoth(company: string, designation: string)
    ensures Site <= HrQuery(company, designation)
    ensures Contains(HrQuery(company, designation), company)
    ensures Contains(HrQuery(company, designation), designation)
  {
    GluedMentionsBoth(Site, "\"", company, "\" (", designation, ")");
  }

  /** The test a result link must pass. */
  predicate IsProfileLink(href: string) {
    href != "" && Contains(href, ProfilePattern)
  }

  /** The loop over the result anchors: a profile link not yet kept is
      appended, and the loop stops as soon as `n` links are kept (after the
      first one when `n` is 1 or less). `None` when reading an anchor's
      `href` raises, which makes the whole call return nothing. */
  function Scan(links: seq<string>, anchors: seq<Anchor>, n: int): Option<seq<string>>
    decreases |anchors|
  {
    if anchors == [] then Some(links)
    else match anchors[0]
      case Stale => None
      case Anchor(None) => Scan(links, anchors[1..], n)
      case Anchor(Some(h)) =>
        if IsProfileLink(h) && h !in links then
          var kept := links + [h];
          if n <= |kept| then Some(kept) else Scan(kept, anchors[1..], n)
        else Scan(links, anchors[1..], n)
  }

  /** What `get_hr_profiles` returns. `PageFault` stands for any exception
      inside its `try`: starting the browser, loading the page or finding
      the results. */
  function HrProfiles(company: string, n: int, designation: string, engine: string -> Page): seq<string> {
    match engine(HrQuery(company, designation))
    case PageFault => []
    case Results(anchors) =>
      match Scan([], anchors, n)
      case None => []
      case Some(links) => links
  }

  method GetHrProfiles(company: string, n: int, designation: string, engine: string -> Page)
    returns (profiles: seq<string>)
    ensures profiles == HrProfiles(company, n, designation, engine)
  {
    var page := engine(HrQuery(company, designation));
    if page.PageFault? {
      return [];
    }
    var results := page.anchors;
    var profileLinks: seq<string> := [];
    var i := 0;
    while i < |results|
      invariant 0 <= i <= |results|
      invariant Scan([], results, n) == Scan(profileLinks, results[i..], n)
    {
      assert results[i..][1..] == results[i + 1..];
      match results[i] {
        case Stale =>
          return [];
        case Anchor(None) =>
        case Anchor(Some(href)) =>
          if href != "" && Contains(href, ProfilePattern) && href !in profileLinks {
            profileLinks := profileLinks + [href];
            if |profileLinks| >= n {
              break;
            }
          }
      }
      i := i + 1;
    }
    profiles := profileLinks;
  }

  /** `batch_process_companies`: every company of the list is a key, bound
      to what one search for it returns. */
  method BatchProcessCompanies(companies: seq<string>, n: int, designation: string, engine: string -> Page)
    returns (results: map<string, seq<string>>)
    ensures results.Keys == set c | c in companies
    ensures forall c :: c in results ==> results[c] == HrProfiles(c, n, designation, engine)
  {
    results := map[];
    var i := 0;
    while i < |companies|
      invariant 0 <= i <= |companies|
      invariant results.Keys == set c | c in companies[..i]
      invariant forall c :: c in results ==> results[c] == HrProfiles(c, n, designation, engine)
    {
      var profiles := GetHrProfiles(companies[i], n, designation, engine);
      TakeOneMore(companies, i);
      results := results[companies[i] := profiles];
      i := i + 1;
    }
    assert companies[..|companies|] == companies;
  }

  // ---------------------------------------------------------------------
  // Properties
  // ---------------------------------------------------------------------

  /** The larger of `n` and 1: the most links a call can return. */
  function Cap(n: int): (m: nat)
    ensures 1 <= m && n <= m
  {
    if n < 1 then 1 else n
  }

  /** The profile-link targets of a list of anchors, repeats included. */
  function ProfileHrefs(anchors: seq<Anchor>): (hrefs: seq<string>)
    ensures forall h :: h in hrefs <==> IsProfileLink(h) && Anchor(Some(h)) in anchors
  {
    if anchors == [] then []
    else
      (match anchors[0]
       case Anchor(Some(h)) => if IsProfileLink(h) then [h] else []
       case _ => [])
      + ProfileHrefs(anchors[1..])
  }

  /** While no anchor is stale, the scan keeps the first `max(n, 1)` distinct
      profile links in the order the results show them. */
  lemma {:induction false} ScanKeepsFirstDistinct(links: seq<string>, anchors: seq<Anchor>, n: int)
    requires NoDups(links) && |links| < Cap(n)
    requires Stale !in anchors
    ensures Scan(links, anchors, n) == Some(SlicePrefix(DistinctFrom(links, ProfileHrefs(anchors)), Cap(n)))
    decreases |anchors|
  {
    if anchors != [] {
      var rest := anchors[1..];
      assert Stale !in rest by { assert forall a :: a in rest ==> a in anchors; }
      match anchors[0]
      case Anchor(None) =>
        assert ProfileHrefs(anchors) == ProfileHrefs(rest);
        ScanKeepsFirstDistinct(links, rest, n);
      case Anchor(Some(h)) =>
        if IsProfileLink(h) {
          assert ProfileHrefs(anchors) == [h] + ProfileHrefs(rest);
          DistinctFromCons(links, h, ProfileHrefs(rest));
          if h !in links {
            var kept := links + [h];
            assert NoDups(kept);
            if n <= |kept| {
              var all := DistinctFrom(kept, ProfileHrefs(rest));
              DistinctFromProperties(kept, ProfileHrefs(rest));
              assert |kept| == Cap(n);
              SlicePrefixOfExtension(kept, all);
            } else {
              ScanKeepsFirstDistinct(kept, rest, n);
            }
          } else {
            ScanKeepsFirstDistinct(links, rest, n);
          }
        } else {
          assert ProfileHrefs(anchors) == ProfileHrefs(rest);
          ScanKeepsFirstDistinct(links, rest, n);
        }
    }
  }

  lemma {:induction false} ScanWellFormed(links: seq<string>, anchors: seq<Anchor>, n: int)
    requires NoDups(links) && |links| < Cap(n)
    requires forall x :: x in links ==> IsProfileLink(x)
    ensures Scan(links, anchors, n).Some? ==>
      var kept := Scan(links, anchors, n).value;
      links <= kept && NoDups(kept) && |kept| <= Cap(n)
      && forall x :: x in kept ==> IsProfileLink(x)
    decreases |anchors|
  {
    if anchors != [] && anchors[0].Anchor? && anchors[0].href.Some? {
      var h := anchors[0].href.value;
      if IsProfileLink(h) && h !in links {
        var kept := links + [h];
        assert NoDups(kept);
        if |kept| < n {
          ScanWellFormed(kept, anchors[1..], n);
        }
      } else {
        ScanWellFormed(links, anchors[1..], n);
      }
    } else if anchors != [] && anchors[0] == Anchor(None) {
      ScanWellFormed(links, anchors[1..], n);
    }
  }

  /** A call returns at most `max(num_profiles, 1)` links, each a profile
      link, none twice. */
  lemma HrProfilesWellFormed(company: string, n: int, designation: string, engine: string -> Page)
    ensures var r := HrProfiles(company, n, designation, engine);
      |r| <= Cap(n) && NoDups(r) && forall x :: x in r ==> IsProfileLink(x)
  {
    if engine(HrQuery(company, designation)).Results? {
      ScanWellFormed([], engine(HrQuery(company, designation)).anchors, n);
    }
  }

  /** Once `n` links are kept the loop breaks: the results after that point,
      stale or not, make no difference. */
  lemma {:induction false} ScanStopsAtTarget(links: seq<string>, anchors: seq<Anchor>, later: seq<Anchor>,
                                             n: int, kept: seq<string>)
    requires Scan(links, anchors, n) == Some(kept) && n <= |kept| && |links| < n
    ensures Scan(links, anchors + later, n) == Some(kept)
    decreases |anchors|
  {
    assert anchors != [];
    assert (anchors + later)[0] == anchors[0] && (anchors + later)[1..] == anchors[1..] + later;
    match anchors[0]
    case Anchor(None) =>
      ScanStopsAtTarget(links, anchors[1..], later, n, kept);
    case Anchor(Some(h)) =>
      if IsProfileLink(h) && h !in links {
        if |links + [h]| < n {
          ScanStopsAtTarget(links + [h], anchors[1..], later, n, kept);
        }
      } else {
        ScanStopsAtTarget(links, anchors[1..], later, n, kept);
      }
  }

  /** A stale anchor met before the target is reached empties the result,
      even when profile links were kept before it. */
  lemma {:induction false} StaleAnchorEmptiesResult(links: seq<string>, anchors: seq<Anchor>, later: seq<Anchor>,
                                                    n: int, kept: seq<string>)
    requires Scan(links, anchors, n) == Some(kept) && |kept| < n
    ensures Scan(links, anchors + [Stale] + later, n).None?
    decreases |anchors|
  {
    if anchors == [] {
      assert anchors + [Stale] + later == [Stale] + later;
    } else {
      assert (anchors + [Stale] + later)[0] == anchors[0];
      assert (anchors + [Stale] + later)[1..] == anchors[1..] + [Stale] + later;
      match anchors[0]
      case Anchor(None) =>
        StaleAnchorEmptiesResult(links, anchors[1..], later, n, kept);
      case Anchor(Some(h)) =>
        if IsProfileLink(h) && h !in links {
          StaleAnchorEmptiesResult(links + [h], anchors[1..], later, n, kept);
        } else {
          StaleAnchorEmptiesResult(links, anchors[1..], later, n, kept);
        }
    }
  }
}
