/** Company discovery: the links of company pages found through four
    phrasings of one search, and the display name of a company page
    (companies_details_extraction/company_scraper.py). */
module CompanyScraper {
  import opened Common
  import opened Text
  import opened Browser
  import EmailPredictor

  const CompanyPattern: string := "linkedin.com/company/"
  const JobsPattern: string := "linkedin.com/company/jobs"
  const CompanyMarker: string := "/company/"

  /** Rounds of anchor extraction per phrasing. */
  const MaxAttempts: nat := 3

  // ---------------------------------------------------------------------
  // extract_company_name_from_url
  // ---------------------------------------------------------------------

  /** The display name of a company page: the segment after the first
      "/company/", hyphens turned into spaces, title-cased; the URL itself
      when it has no "/company/". */
  function ExtractCompanyNameFromUrl(url: string): (name: string)
    ensures !Contains(url, CompanyMarker) ==> name == url
  {
    match SegmentAfter(url, CompanyMarker)
    case None => url
    case Some(seg) => Title(ReplaceChar(seg, '-', ' '))
  }

  /** Character by character, the name is the segment with '-' turned into a
      space, every letter that starts a run of letters in upper case and every
      other letter in lower case: "acme-software" gives "Acme Software". */
  lemma CompanyNameAt(url: string, seg: string, i: nat)
    requires SegmentAfter(url, CompanyMarker) == Some(seg)
    requires i < |seg|
    ensures |ExtractCompanyNameFromUrl(url)| == |seg|
    ensures ExtractCompanyNameFromUrl(url)[i]
         == if seg[i] == '-' then ' '
            else if i > 0 && IsCased(seg[i - 1]) then Lower(seg[i])
            else Upper(seg[i])
  {
    var spaced := ReplaceChar(seg, '-', ' ');
    TitleAt(spaced, i);
  }

  /** The display name and the guessed mail domain of a company page come
      from the same segment: lower-cased, with spaces back to hyphens, the
      name followed by ".com" is the lower-cased domain with spaces turned
      into hyphens. */
  lemma NameAgreesWithDomain(url: string)
    requires Contains(url, CompanyMarker)
    ensures LowerAll(ReplaceChar(ExtractCompanyNameFromUrl(url), ' ', '-')) + ".com"
         == LowerAll(ReplaceChar(EmailPredictor.ExtractCompanyDomain(url), ' ', '-'))
  {
    var seg := SegmentAfter(url, CompanyMarker).value;
    TitledSegmentLowered(seg);
    LoweredWithSuffix(seg, ".com");
  }

  /** Title-casing the segment with hyphens as spaces, then lower-casing it
      with spaces as hyphens, gives the segment lower-cased with spaces as
      hyphens. */
  lemma TitledSegmentLowered(seg: string)
    ensures LowerAll(ReplaceChar(Title(ReplaceChar(seg, '-', ' ')), ' ', '-')) == LowerAll(ReplaceChar(seg, ' ', '-'))
  {
    var spaced := ReplaceChar(seg, '-', ' ');
    var l := LowerAll(ReplaceChar(Title(spaced), ' ', '-'));
    var r := LowerAll(ReplaceChar(seg, ' ', '-'));
    forall i | 0 <= i < |seg|
      ensures l[i] == r[i]
    {
      TitleAt(spaced, i);
      CaseFoldAgrees(seg[i], !(i > 0 && IsCased(spaced[i - 1])));
    }
  }

  /** One character through both routes: hyphen to space, either case, space
      to hyphen, lower case; or space to hyphen, lower case. */
  lemma CaseFoldAgrees(c: char, up: bool)
    ensures var x := if c == '-' then ' ' else c;
      var y := if up then Upper(x) else Lower(x);
      Lower(if y == ' ' then '-' else y) == Lower(if c == ' ' then '-' else c)
  {
  }

  /** Lower-casing with spaces as hyphens distributes over a suffix that
      holds no upper-case letter and no space. */
  lemma LoweredWithSuffix(s: string, suffix: string)
    requires forall i :: 0 <= i < |suffix| ==> !IsUpper(suffix[i]) && suffix[i] != ' '
    ensures LowerAll(ReplaceChar(s + suffix, ' ', '-')) == LowerAll(ReplaceChar(s, ' ', '-')) + suffix
  {
    var l := LowerAll(ReplaceChar(s + suffix, ' ', '-'));
    var r := LowerAll(ReplaceChar(s, ' ', '-')) + suffix;
    forall i | 0 <= i < |l|
      ensures l[i] == r[i]
    {
      if i >= |s| {
        var c := suffix[i - |s|];
        assert (s + suffix)[i] == c;
        assert !IsUpper(c) && c != ' ';
        assert Lower(c) == c;
      } else {
        assert (s + suffix)[i] == s[i];
      }
    }
  }

  // ---------------------------------------------------------------------
  // get_linkedin_company_links: the specification
  // ---------------------------------------------------------------------

  const Site: string := "site:linkedin.com/company "

  /** `Site + lead + a + mid + b + trail`: a phrasing of the search for `a`
      in `b`. */
  function Phrase(lead: string, a: string, mid: string, b: string, trail: string): string {
    Site + lead + a + mid + b + trail
  }

  /** The four phrasings of one search, tried in this order. */
  function Phrasings(domain: string, location: string): (queries: seq<string>)
    ensures |queries| == 4
  {
    [ Phrase("", domain, " ", location, ""),
      Phrase("\"", domain, "\" \"", location, "\""),
      Phrase("", domain, " company ", location, ""),
      Phrase("", domain, " in ", location, "") ]
  }

  /** `q` is restricted to company pages and names both `a` and `b`. */
  predicate Mentions(q: string, a: string, b: string) {
    Site <= q && Contains(q, a) && Contains(q, b)
  }

  /** Every phrasing restricts the search to company pages and names both
      the domain and the location. */
  lemma PhrasingsMentionBoth(domain: string, location: string)
    ensures forall i :: 0 <= i < 4 ==> Mentions(Phrasings(domain, location)[i], domain, location)
  {
    PhraseMentionsBoth("", domain, " ", location, "");
    PhraseMentionsBoth("\"", domain, "\" \"", location, "\"");
    PhraseMentionsBoth("", domain, " company ", location, "");
    PhraseMentionsBoth("", domain, " in ", location, "");
  }

  lemma PhraseMentionsBoth(lead: string, a: string, mid: string, b: string, trail: string)
    ensures Mentions(Phrase(lead, a, mid, b, trail), a, b)
  {
    GluedMentionsBoth(Site, lead, a, mid, b, trail);
  }

  /** The inclusion/exclusion test on an anchor's target. */
  predicate IsCompanyLink(href: string) {
    href != "" && Contains(href, CompanyPattern) && !Contains(href, JobsPattern)
  }

  /** One anchor through `process_element`: a wanted target not seen before
      is appended; an anchor whose `href` cannot be read is skipped, since
      the thread pool's results are never collected. */
  function Admit(links: seq<string>, a: Anchor): seq<string> {
    match a
    case Anchor(Some(h)) => if IsCompanyLink(h) && h !in links then links + [h] else links
    case _ => links
  }

  /** All anchors of one round, in order. */
  function Harvest(links: seq<string>, anchors: seq<Anchor>): seq<string>
    decreases |anchors|
  {
    if anchors == [] then links else Harvest(Admit(links, anchors[0]), anchors[1..])
  }

  /** The wanted targets of a list of anchors, repeats included. */
  function CompanyHrefs(anchors: seq<Anchor>): (hrefs: seq<string>)
    ensures forall h :: h in hrefs <==> IsCompanyLink(h) && Anchor(Some(h)) in anchors
  {
    if anchors == [] then []
    else
      (match anchors[0]
       case Anchor(Some(h)) => if IsCompanyLink(h) then [h] else []
       case _ => [])
      + CompanyHrefs(anchors[1..])
  }

  /** The anchor at round `k`; a page with no more rounds finds nothing. */
  function RoundAt(rounds: seq<Round>, k: nat): Round {
    if k < |rounds| then rounds[k] else Elements([])
  }

  /** The rounds of one phrasing from attempt `attempt` on: stop at the
      target count, after `MaxAttempts` rounds, or after a round that found
      no anchor at all; `None` when the browser raises. */
  function RunRounds(links: seq<string>, rounds: seq<Round>, attempt: nat, n: int): Option<seq<string>>
    decreases MaxAttempts - attempt
  {
    if n <= |links| || MaxAttempts <= attempt then Some(links)
    else match RoundAt(rounds, attempt)
      case RoundFault => None
      case Elements(anchors) =>
        var next := Harvest(links, anchors);
        if |anchors| == 0 then Some(next) else RunRounds(next, rounds, attempt + 1, n)
  }

  /** The phrasings in order, each tried only while fewer than `n` links are
      known; `None` when the browser raises. */
  function RunPhrasings(links: seq<string>, queries: seq<string>, engine: string -> Visit, n: int)
    : Option<seq<string>>
    decreases |queries|
  {
    if queries == [] || n <= |links| then Some(links)
    else match engine(queries[0])
      case NavFault => None
      case Visited(rounds) =>
        match RunRounds(links, rounds, 0, n)
        case None => None
        case Some(next) => RunPhrasings(next, queries[1..], engine, n)
  }

  /** What `get_linkedin_company_links` returns: the links found, cut to
      `n`, or nothing at all when the browser raises at any point. */
  function CompanyLinks(location: string, domain: string, n: int, driverFails: bool, engine: string -> Visit)
    : seq<string>
  {
    if driverFails then []
    else match RunPhrasings([], Phrasings(domain, location), engine, n)
      case None => []
      case Some(links) => SlicePrefix(links, n)
  }

  // ---------------------------------------------------------------------
  // get_linkedin_company_links: the loop
  // ---------------------------------------------------------------------

  method GetLinkedinCompanyLinks(location: string, domain: string, numCompanies: int,
                                 driverFails: bool, engine: string -> Visit)
    returns (links: seq<string>)
    ensures links == CompanyLinks(location, domain, numCompanies, driverFails, engine)
  {
    var queries := Phrasings(domain, location);
    var companyLinks: seq<string> := [];
    var seenLinks: set<string> := {};
    if driverFails {
      return [];
    }
    var q := 0;
    while q < |queries|
      invariant 0 <= q <= |queries|
      invariant forall x :: x in seenLinks <==> x in companyLinks
      invariant RunPhrasings([], queries, engine, numCompanies)
             == RunPhrasings(companyLinks, queries[q..], engine, numCompanies)
    {
      if |companyLinks| >= numCompanies {
        break;
      }
      var visit := engine(queries[q]);
      if visit.NavFault? {
        return [];
      }
      var ok;
      ok, companyLinks, seenLinks := SearchPage(companyLinks, seenLinks, visit.rounds, numCompanies);
      if !ok {
        return [];
      }
      assert queries[q..][1..] == queries[q + 1..];
      q := q + 1;
    }
    links := SlicePrefix(companyLinks, numCompanies);
  }

  /** The rounds on one result page; `ok` is false when the browser raised. */
  method SearchPage(links0: seq<string>, seen0: set<string>, rounds: seq<Round>, numCompanies: int)
    returns (ok: bool, links: seq<string>, seen: set<string>)
    requires forall x :: x in seen0 <==> x in links0
    ensures forall x :: x in seen <==> x in links
    ensures ok <==> RunRounds(links0, rounds, 0, numCompanies).Some?
    ensures ok ==> RunRounds(links0, rounds, 0, numCompanies) == Some(links)
  {
    links, seen := links0, seen0;
    var attempt := 0;
    while |links| < numCompanies && attempt < MaxAttempts
      invariant 0 <= attempt <= MaxAttempts
      invariant forall x :: x in seen <==> x in links
      invariant RunRounds(links0, rounds, 0, numCompanies) == RunRounds(links, rounds, attempt, numCompanies)
      decreases MaxAttempts - attempt
    {
      var round := RoundAt(rounds, attempt);
      if round.RoundFault? {
        return false, links, seen;
      }
      var elements := round.anchors;
      ghost var before := links;
      var i := 0;
      while i < |elements|
        invariant 0 <= i <= |elements|
        invariant forall x :: x in seen <==> x in links
        invariant Harvest(before, elements) == Harvest(links, elements[i..])
      {
        assert elements[i..][1..] == elements[i + 1..];
        links, seen := ProcessElement(links, seen, elements[i]);
        i := i + 1;
      }
      attempt := attempt + 1;
      if |elements| == 0 {
        return true, links, seen;
      }
    }
    ok := true;
  }

  /** `process_element`: one anchor, with `seen` mirroring `links`. */
  method ProcessElement(links0: seq<string>, seen0: set<string>, element: Anchor)
    returns (links: seq<string>, seen: set<string>)
    requires forall x :: x in seen0 <==> x in links0
    ensures forall x :: x in seen <==> x in links
    ensures links == Admit(links0, element)
  {
    links, seen := links0, seen0;
    match element {
      case Anchor(Some(href)) =>
        if href != "" && Contains(href, CompanyPattern) && !Contains(href, JobsPattern) {
          if href !in seen {
            seen := seen + {href};
            links := links + [href];
          }
        }
      case _ =>
    }
  }

  // ---------------------------------------------------------------------
  // Properties
  // ---------------------------------------------------------------------

  /** Harvesting a round is taking, in order, the first occurrence of each
      wanted target not already known. */
  lemma {:induction false} HarvestTakesFirstOccurrences(links: seq<string>, anchors: seq<Anchor>)
    ensures Harvest(links, anchors) == DistinctFrom(links, CompanyHrefs(anchors))
    decreases |anchors|
  {
    if anchors != [] {
      HarvestTakesFirstOccurrences(Admit(links, anchors[0]), anchors[1..]);
      var rest := CompanyHrefs(anchors[1..]);
      match anchors[0]
      case Anchor(Some(h)) =>
        if IsCompanyLink(h) {
          assert CompanyHrefs(anchors) == [h] + rest;
          assert ([h] + rest)[0] == h && ([h] + rest)[1..] == rest;
        } else {
          assert CompanyHrefs(anchors) == rest;
        }
      case _ =>
        assert CompanyHrefs(anchors) == rest;
    }
  }

  /** The links a call keeps collecting: no repeat, each a wanted target. */
  ghost predicate Collected(links: seq<string>) {
    NoDups(links) && forall x :: x in links ==> IsCompanyLink(x)
  }

  /** A round keeps the links known before it, in front, and adds exactly
      the wanted targets it shows that were not known. */
  lemma HarvestProperties(links: seq<string>, anchors: seq<Anchor>)
    requires Collected(links)
    ensures links <= Harvest(links, anchors) && Collected(Harvest(links, anchors))
    ensures forall x :: x in Harvest(links, anchors)
                   <==> x in links || (IsCompanyLink(x) && Anchor(Some(x)) in anchors)
  {
    HarvestTakesFirstOccurrences(links, anchors);
    DistinctFromProperties(links, CompanyHrefs(anchors));
  }

  lemma {:induction false} RunRoundsProperties(links: seq<string>, rounds: seq<Round>, attempt: nat, n: int)
    requires Collected(links)
    ensures RunRounds(links, rounds, attempt, n).Some? ==>
      links <= RunRounds(links, rounds, attempt, n).value && Collected(RunRounds(links, rounds, attempt, n).value)
    decreases MaxAttempts - attempt
  {
    if !(n <= |links| || MaxAttempts <= attempt) && RoundAt(rounds, attempt).Elements? {
      var next := Harvest(links, RoundAt(rounds, attempt).anchors);
      HarvestProperties(links, RoundAt(rounds, attempt).anchors);
      if |RoundAt(rounds, attempt).anchors| != 0 {
        RunRoundsProperties(next, rounds, attempt + 1, n);
      }
    }
  }

  lemma {:induction false} RunPhrasingsProperties(links: seq<string>, queries: seq<string>,
                                                  engine: string -> Visit, n: int)
    requires Collected(links)
    ensures RunPhrasings(links, queries, engine, n).Some? ==>
      links <= RunPhrasings(links, queries, engine, n).value && Collected(RunPhrasings(links, queries, engine, n).value)
    decreases |queries|
  {
    if !(queries == [] || n <= |links|) && engine(queries[0]).Visited? {
      var rounds := engine(queries[0]).rounds;
      RunRoundsProperties(links, rounds, 0, n);
      if RunRounds(links, rounds, 0, n).Some? {
        RunPhrasingsProperties(RunRounds(links, rounds, 0, n).value, queries[1..], engine, n);
      }
    }
  }

  /** The result never holds more than `num_companies` links, never the same
      link twice, and only company pages other than the jobs page. */
  lemma CompanyLinksWellFormed(location: string, domain: string, n: int, driverFails: bool,
                               engine: string -> Visit)
    ensures var links := CompanyLinks(location, domain, n, driverFails, engine);
      |links| <= (if n < 0 then 0 else n) && NoDups(links) && forall x :: x in links ==> IsCompanyLink(x)
  {
    var links := CompanyLinks(location, domain, n, driverFails, engine);
    RunPhrasingsProperties([], Phrasings(domain, location), engine, n);
    if !driverFails {
      var found := RunPhrasings([], Phrasings(domain, location), engine, n);
      if n <= 0 {
        assert found == Some([]);
      }
      if found.Some? {
        assert links <= found.value;
        forall i, j | 0 <= i < j < |links| ensures links[i] != links[j] {
          assert links[i] == found.value[i] && links[j] == found.value[j];
        }
      }
    }
  }

  /** Once the phrasings tried so far reach `n` links, the phrasings after
      them are never tried: appending more changes nothing, whatever the
      search engine would return for them. */
  lemma {:induction false} LaterPhrasingsUntried(links: seq<string>, tried: seq<string>, later: seq<string>,
                                                 engine: string -> Visit, n: int, found: seq<string>)
    requires RunPhrasings(links, tried, engine, n) == Some(found) && n <= |found|
    ensures RunPhrasings(links, tried + later, engine, n) == Some(found)
    decreases |tried|
  {
    if tried == [] {
      assert tried + later == later;
    } else if n <= |links| {
    } else {
      assert (tried + later)[0] == tried[0] && (tried + later)[1..] == tried[1..] + later;
      var rounds := engine(tried[0]).rounds;
      LaterPhrasingsUntried(RunRounds(links, rounds, 0, n).value, tried[1..], later, engine, n, found);
    }
  }

  /** Rounds past the third are never consulted. */
  lemma {:induction false} AtMostThreeRounds(links: seq<string>, rounds: seq<Round>, attempt: nat, n: int)
    requires attempt <= MaxAttempts < |rounds|
    ensures RunRounds(links, rounds, attempt, n) == RunRounds(links, rounds[..MaxAttempts], attempt, n)
    decreases MaxAttempts - attempt
  {
    if !(n <= |links| || MaxAttempts <= attempt) {
      assert RoundAt(rounds, attempt) == RoundAt(rounds[..MaxAttempts], attempt);
      var r := RoundAt(rounds, attempt);
      if r.Elements? && |r.anchors| != 0 {
        AtMostThreeRounds(Harvest(links, r.anchors), rounds, attempt + 1, n);
      }
    }
  }

  /** A round that finds no anchor ends the phrasing: the rounds after it
      are never consulted. */
  lemma {:induction false} EmptyRoundEndsPhrasing(links: seq<string>, rounds: seq<Round>, attempt: nat,
                                                  j: nat, n: int)
    requires attempt <= j < |rounds| && rounds[j] == Elements([])
    ensures RunRounds(links, rounds, attempt, n) == RunRounds(links, rounds[..j + 1], attempt, n)
    decreases j - attempt
  {
    if !(n <= |links| || MaxAttempts <= attempt) {
      assert RoundAt(rounds, attempt) == RoundAt(rounds[..j + 1], attempt);
      var r := RoundAt(rounds, attempt);
      if r.Elements? && |r.anchors| != 0 {
        assert attempt != j;
        EmptyRoundEndsPhrasing(Harvest(links, r.anchors), rounds, attempt + 1, j, n);
      }
    }
  }

  /** Any failure of the browser, wherever it happens, empties the result,
      even when links were already found before it. */
  lemma FailureDiscardsEverything(location: string, domain: string, n: int, engine: string -> Visit)
    requires 0 < n
    requires engine(Phrasings(domain, location)[0]).Visited?
    requires var rounds := engine(Phrasings(domain, location)[0]).rounds;
      2 <= |rounds| && rounds[0].Elements? && |Harvest([], rounds[0].anchors)| < n && rounds[0].anchors != []
      && rounds[1] == RoundFault
    ensures CompanyLinks(location, domain, n, false, engine) == []
  {
  }
}
