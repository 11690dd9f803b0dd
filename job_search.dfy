/** Job and internship search over four job boards, two of them behind a
    24-hour result cache kept in a directory of files
    (companies_details_extraction/job_search.py). */
module JobSearch {
  import opened Common
  import opened Text
  import opened Browser

  // ---------------------------------------------------------------------
  // Listings and platforms
  // ---------------------------------------------------------------------

  /** One row of the result: a dictionary with these four keys. */
  datatype Listing = Listing(title: string, link: string, description: string, source: string)

  datatype Platform = LinkedIn | Indeed | Internshala | Glassdoor {

    /** The text a kept result link must contain. */
    function Marker(): string {
      match this
      case LinkedIn => "linkedin.com/jobs"
      case Indeed => "indeed.com"
      case Internshala => "internshala.com"
      case Glassdoor => "glassdoor.com"
    }

    /** The `source` written into every listing of this platform. */
    function SourceName(): string {
      match this
      case LinkedIn => "LinkedIn"
      case Indeed => "Indeed"
      case Internshala => "Internshala"
      case Glassdoor => "Glassdoor"
    }

    /** The search engine's site filter in this platform's query. */
    function SiteFilter(): string {
      match this
      case LinkedIn => "site:linkedin.com"
      case Indeed => "site:indeed.com"
      case Internshala => "site:internshala.com"
      case Glassdoor => "site:glassdoor.com/job"
    }

    /** The search text sent to the search engine. */
    function Query(title: string, location: string, isInternship: bool): string {
      var jobType := if isInternship then "internship" else "job";
      match this
      case LinkedIn => SiteFilter() + " \"" + jobType + "\" \"" + title + "\" \"" + location + "\""
      case Indeed => SiteFilter() + " \"" + jobType + "\" \"" + title + "\" \"" + location + "\""
      case Internshala => title + " " + "internship" + " " + location + " " + SiteFilter()
      case Glassdoor => title + " " + jobType + " " + location + " " + SiteFilter()
    }

    /** How many result blocks are read, as the bound of a Python slice:
        Internshala always reads the first ten, whatever the limit. */
    function Window(limit: int): int {
      if this == Internshala then 10 else limit
    }
  }

  /** One result block: no listing when it has no heading link or the link
      has no `href` (the `in` test then raises and the block is skipped) or
      the link is not on the platform; otherwise a listing whose description
      is the first paragraph, or empty. */
  function ListingOf(p: Platform, b: Block): (l: Option<Listing>)
    ensures l.Some? <==> b.heading.Some? && b.heading.value.href.Some?
                         && Contains(b.heading.value.href.value, p.Marker())
    ensures l.Some? ==>
      l.value.source == p.SourceName() && l.value.title == b.heading.value.text
      && l.value.link == b.heading.value.href.value && l.value.description == b.snippet.GetOr("")
  {
    match b.heading
    case None => None
    case Some(Heading(text, href)) =>
      match href
      case None => None
      case Some(link) =>
        if Contains(link, p.Marker())
        then Some(Listing(text, link, b.snippet.GetOr(""), p.SourceName()))
        else None
  }

  /** The listing of one block, as a list of zero or one. */
  function Yield(p: Platform, b: Block): seq<Listing> {
    match ListingOf(p, b)
    case None => []
    case Some(l) => [l]
  }

  /** The listings of a run of blocks, in order. */
  function Collect(p: Platform, blocks: seq<Block>): seq<Listing>
    decreases |blocks|
  {
    if blocks == [] then [] else Yield(p, blocks[0]) + Collect(p, blocks[1..])
  }

  /** What one platform's search function returns. `driverFails` says that
      starting the browser raises, outside the `try`, so the exception
      escapes; a failure on the page itself is caught and gives no
      listing. */
  function PlatformListings(p: Platform, title: string, location: string, isInternship: bool, limit: int,
                            driverFails: bool, engine: string -> JobPage): Result<seq<Listing>>
  {
    if driverFails then Err("WebDriverException")
    else match engine(p.Query(title, location, isInternship))
      case JobPageFault => Ok([])
      case Blocks(blocks) => Ok(Collect(p, SlicePrefix(blocks, p.Window(limit))))
  }

  method SearchPlatform(p: Platform, title: string, location: string, isInternship: bool, limit: int,
                        driverFails: bool, engine: string -> JobPage)
    returns (r: Result<seq<Listing>>)
    ensures r == PlatformListings(p, title, location, isInternship, limit, driverFails, engine)
  {
    if driverFails {
      return Err("WebDriverException");
    }
    var page := engine(p.Query(title, location, isInternship));
    var results: seq<Listing> := [];
    if page.Blocks? {
      results := ReadResults(p, SlicePrefix(page.blocks, p.Window(limit)));
    }
    r := Ok(results);
  }

  /** The loop over the result blocks in the window. */
  method ReadResults(p: Platform, searchResults: seq<Block>) returns (results: seq<Listing>)
    ensures results == Collect(p, searchResults)
  {
    results := [];
    var i := 0;
    while i < |searchResults|
      invariant 0 <= i <= |searchResults|
      invariant Collect(p, searchResults) == results + Collect(p, searchResults[i..])
    {
      CollectStep(p, searchResults, i);
      ghost var before := results;
      var listing := ReadResult(p, searchResults[i]);
      results := results + listing;
      AppendAssoc(before, Yield(p, searchResults[i]), Collect(p, searchResults[i + 1..]));
      i := i + 1;
    }
    assert Collect(p, searchResults[i..]) == [];
    assert results + [] == results;
  }

  /** The body of the loop over result blocks: the block's listing, if any;
      a block whose heading or link cannot be read yields none. */
  method ReadResult(p: Platform, block: Block) returns (listing: seq<Listing>)
    ensures listing == Yield(p, block)
  {
    listing := [];
    if block.heading.Some? && block.heading.value.href.Some? {
      var title := block.heading.value.text;
      var link := block.heading.value.href.value;
      var description := "";
      if block.snippet.Some? {
        description := block.snippet.value;
      }
      if Contains(link, p.Marker()) {
        listing := [Listing(title, link, description, p.SourceName())];
      }
    }
  }

  // ---------------------------------------------------------------------
  // Properties of one platform's search
  // ---------------------------------------------------------------------

  lemma CollectStep(p: Platform, blocks: seq<Block>, i: nat)
    requires i < |blocks|
    ensures Collect(p, blocks[i..]) == Yield(p, blocks[i]) + Collect(p, blocks[i + 1..])
  {
    assert blocks[i..][1..] == blocks[i + 1..];
  }

  lemma AppendAssoc(a: seq<Listing>, b: seq<Listing>, c: seq<Listing>)
    ensures a + (b + c) == a + b + c
  {
  }

  /** A listing is returned exactly when some block yields it. */
  lemma {:induction false} CollectMembers(p: Platform, blocks: seq<Block>, l: Listing)
    ensures l in Collect(p, blocks) <==> exists b :: b in blocks && ListingOf(p, b) == Some(l)
    decreases |blocks|
  {
    if blocks != [] {
      CollectMembers(p, blocks[1..], l);
      assert l in Yield(p, blocks[0]) <==> ListingOf(p, blocks[0]) == Some(l);
      assert forall b :: b in blocks <==> b == blocks[0] || b in blocks[1..];
    }
  }

  /** Blocks are read in order: the listings of two runs of blocks are the
      listings of the first run followed by those of the second. */
  lemma {:induction false} CollectAppend(p: Platform, a: seq<Block>, b: seq<Block>)
    ensures Collect(p, a + b) == Collect(p, a) + Collect(p, b)
    decreases |a|
  {
    if a == [] {
      assert a + b == b;
    } else {
      assert (a + b)[0] == a[0] && (a + b)[1..] == a[1..] + b;
      CollectAppend(p, a[1..], b);
      var y := Yield(p, a[0]);
      assert Collect(p, a + b) == y + (Collect(p, a[1..]) + Collect(p, b));
      assert y + (Collect(p, a[1..]) + Collect(p, b)) == (y + Collect(p, a[1..])) + Collect(p, b);
    }
  }

  lemma {:induction false} CollectAtMostOnePerBlock(p: Platform, blocks: seq<Block>)
    ensures |Collect(p, blocks)| <= |blocks|
    decreases |blocks|
  {
    if blocks != [] {
      CollectAtMostOnePerBlock(p, blocks[1..]);
    }
  }

  /** Every listing of a platform carries the platform's name and a link on
      the platform; there are never more than the platform reads: `limit`
      for a non-negative limit, ten for Internshala. */
  lemma PlatformListingsShape(p: Platform, title: string, location: string, isInternship: bool, limit: int,
                              driverFails: bool, engine: string -> JobPage)
    ensures var r := PlatformListings(p, title, location, isInternship, limit, driverFails, engine);
      r.Ok? ==>
        (forall l :: l in r.value ==> l.source == p.SourceName() && Contains(l.link, p.Marker()))
        && (0 <= p.Window(limit) ==> |r.value| <= p.Window(limit))
        && (p == Internshala ==> |r.value| <= 10)
  {
    var r := PlatformListings(p, title, location, isInternship, limit, driverFails, engine);
    if r.Ok? && !driverFails && engine(p.Query(title, location, isInternship)).Blocks? {
      var read := SlicePrefix(engine(p.Query(title, location, isInternship)).blocks, p.Window(limit));
      CollectAtMostOnePerBlock(p, read);
      forall l | l in r.value
        ensures l.source == p.SourceName() && Contains(l.link, p.Marker())
      {
        CollectMembers(p, read, l);
      }
    }
  }

  /** Every query holds the platform's site filter, the title, the location
      and the keyword: "internship" for an internship search and always on
      Internshala, "job" otherwise. */
  lemma QueryMentions(p: Platform, title: string, location: string, isInternship: bool)
    ensures var q := p.Query(title, location, isInternship);
      Contains(q, p.SiteFilter()) && Contains(q, title) && Contains(q, location)
      && Contains(q, if isInternship || p == Internshala then "internship" else "job")
  {
    var jobType := if isInternship then "internship" else "job";
    match p
    case LinkedIn => QuotedQuery(p.SiteFilter(), jobType, title, location);
    case Indeed => QuotedQuery(p.SiteFilter(), jobType, title, location);
    case Glassdoor => PlainQuery(title, jobType, location, p.SiteFilter());
    case Internshala => PlainQuery(title, "internship", location, p.SiteFilter());
  }

  /** Internshala's query is the only one the internship flag leaves
      unchanged. */
  lemma OnlyInternshalaIgnoresFlag(p: Platform, title: string, location: string)
    ensures p.Query(title, location, true) == p.Query(title, location, false) <==> p == Internshala
  {
    match p
    case LinkedIn =>
      QuotedQuery(p.SiteFilter(), "internship", title, location);
      QuotedQuery(p.SiteFilter(), "job", title, location);
    case Indeed =>
      QuotedQuery(p.SiteFilter(), "internship", title, location);
      QuotedQuery(p.SiteFilter(), "job", title, location);
    case Glassdoor =>
      PlainQuery(title, "internship", location, p.SiteFilter());
      PlainQuery(title, "job", location, p.SiteFilter());
    case Internshala =>
  }

  /** The LinkedIn and Indeed query shape: it holds its four parts, and the
      keyword comes right after the site filter, so "internship" and "job"
      give two different queries. */
  lemma QuotedQuery(site: string, keyword: string, title: string, location: string)
    requires keyword != ""
    ensures var q := site + " \"" + keyword + "\" \"" + title + "\" \"" + location + "\"";
      Contains(q, site) && Contains(q, keyword) && Contains(q, title) && Contains(q, location)
      && q[|site| + 2] == keyword[0]
  {
    GluedMentionsFour(site, " \"", keyword, "\" \"", title, "\" \"", location, "\"");
  }

  /** The Internshala and Glassdoor query shape: it holds its four parts, and
      the keyword comes right after the title and a space. */
  lemma PlainQuery(title: string, keyword: string, location: string, site: string)
    requires keyword != ""
    ensures var q := title + " " + keyword + " " + location + " " + site;
      Contains(q, site) && Contains(q, keyword) && Contains(q, title) && Contains(q, location)
      && q[|title| + 1] == keyword[0]
  {
    var q := title + " " + keyword + " " + location + " " + site;
    GluedMentionsFour(title, " ", keyword, " ", location, " ", site, "");
    assert q + "" == q;
  }

  // ---------------------------------------------------------------------
  // The cache: file names, entries and the cached call
  // ---------------------------------------------------------------------

  /** A positional argument of a cached call, as Python's `repr` writes it
      inside a tuple. */
  datatype Arg = Str(s: string) | Flag(b: bool) | Num(i: int)

  /** The character of a decimal digit. */
  function DigitChar(d: nat): (c: char)
    requires d < 10
    ensures '0' <= c <= '9' && c as int - '0' as int == d
  {
    (d + '0' as int) as char
  }

  /** The number a string of decimal digits spells. */
  function DigitsValue(s: string): int {
    if s == [] then 0 else 10 * DigitsValue(s[..|s| - 1]) + (s[|s| - 1] as int - '0' as int)
  }

  /** The decimal digits of `n`, as `str(n)` writes them: digits only, no
      leading zero, spelling `n`. */
  function NatDigits(n: nat): (s: string)
    ensures 1 <= |s| && (n != 0 ==> s[0] != '0')
    ensures forall i :: 0 <= i < |s| ==> '0' <= s[i] <= '9'
    ensures DigitsValue(s) == n
    decreases n
  {
    if n < 10 then [DigitChar(n)]
    else
      var high := NatDigits(n / 10);
      assert (high + [DigitChar(n % 10)])[..|high|] == high;
      high + [DigitChar(n % 10)]
  }

  function Repr(a: Arg): string {
    match a
    case Str(s) => "'" + s + "'"
    case Flag(b) => if b then "True" else "False"
    case Num(i) => if i < 0 then "-" + NatDigits(-i) else NatDigits(i)
  }

  function Reprs(args: seq<Arg>): (r: seq<string>)
    ensures |r| == |args| && forall i :: 0 <= i < |args| ==> r[i] == Repr(args[i])
  {
    if args == [] then [] else [Repr(args[0])] + Reprs(args[1..])
  }

  /** Python's `repr` of a tuple: a one-element tuple keeps its comma. */
  function TupleRepr(args: seq<Arg>): string {
    "(" + Join(", ", Reprs(args)) + (if |args| == 1 then "," else "") + ")"
  }

  /** The text `get_cache_key` hashes: the function's name, an underscore and
      the tuple of positional arguments. Keyword arguments are not part of
      it, so two calls that differ only in them share one entry. */
  function KeyText(funcName: string, args: seq<Arg>): (k: string)
    ensures funcName + "_(" <= k
  {
    funcName + "_" + TupleRepr(args)
  }

  /** The positional arguments of a platform search as the aggregator passes
      them. */
  function SearchArgs(title: string, location: string, isInternship: bool, limit: int): seq<Arg> {
    [Str(title), Str(location), Flag(isInternship), Num(limit)]
  }

  const LinkedInFunc: string := "search_linkedin_jobs"
  const IndeedFunc: string := "search_indeed_jobs"

  /** 24 hours, in microseconds. */
  const TimeToLive: int := 86_400_000_000

  /** A cache file: its modification time and, when it can be read back as
      JSON, what it holds. */
  datatype Entry = Entry(mtime: int, contents: Option<seq<Listing>>)

  /** What a cached call finds in the directory `files` at time `now`: the
      stored listings when the file exists, is less than a day old (a file
      from the future counts as fresh) and reads back. */
  function Lookup(files: map<string, Entry>, key: string, now: int): (hit: Option<seq<Listing>>)
    ensures hit.Some? <==> key in files && now - files[key].mtime < TimeToLive && files[key].contents.Some?
    ensures hit.Some? ==> hit.value == files[key].contents.value
  {
    if key in files && now - files[key].mtime < TimeToLive then files[key].contents else None
  }

  /** The directory after a computed result is written: unchanged when the
      call raised or opening the file failed. */
  function Written(files: map<string, Entry>, key: string, now: int, r: Result<seq<Listing>>, writeOk: bool)
    : (after: map<string, Entry>)
    ensures after.Keys == if r.Ok? && writeOk then files.Keys + {key} else files.Keys
    ensures forall k :: k in files && k != key ==> after[k] == files[k]
    ensures r.Ok? && writeOk ==> after[key] == Entry(now, Some(r.value))
  {
    if r.Ok? && writeOk then files[key := Entry(now, Some(r.value))] else files
  }

  /** One call through `cache_results`: the stored result on a hit, with the
      directory untouched; otherwise the computed result `compute`, written
      back when it is a value. */
  function CachedCall(files: map<string, Entry>, key: string, now: int, compute: Result<seq<Listing>>,
                      writeOk: bool): (Result<seq<Listing>>, map<string, Entry>)
  {
    match Lookup(files, key, now)
    case Some(stored) => (Ok(stored), files)
    case None => (compute, Written(files, key, now, compute, writeOk))
  }

  /** The cache directory, a set of files the cached calls read and write. */
  class CacheDir {
    var files: map<string, Entry>

    constructor (files0: map<string, Entry>)
      ensures files == files0
    {
      files := files0;
    }

    /** Writing one result file; when opening it fails nothing changes. */
    method Store(key: string, now: int, r: Result<seq<Listing>>, writeOk: bool)
      modifies this
      ensures files == Written(old(files), key, now, r, writeOk)
    {
      if r.Ok? && writeOk {
        files := files[key := Entry(now, Some(r.value))];
      }
    }
  }

  /** A platform search through `cache_results`: the search runs only on a
      miss. `args` are the arguments the caller passed by position, a prefix
      of (title, location, flag, limit); only they make up the key, while
      the search itself sees every argument. */
  method CachedSearch(cache: CacheDir, funcName: string, p: Platform, args: seq<Arg>,
                      title: string, location: string, isInternship: bool, limit: int, now: int, writeOk: bool,
                      driverFails: bool, engine: string -> JobPage)
    returns (r: Result<seq<Listing>>)
    requires args <= SearchArgs(title, location, isInternship, limit)
    modifies cache
    ensures (r, cache.files)
         == CachedCall(old(cache.files), KeyText(funcName, args), now,
                       PlatformListings(p, title, location, isInternship, limit, driverFails, engine), writeOk)
  {
    var key := KeyText(funcName, args);
    var hit := Lookup(cache.files, key, now);
    if hit.Some? {
      return Ok(hit.value);
    }
    r := SearchPlatform(p, title, location, isInternship, limit, driverFails, engine);
    cache.Store(key, now, r, writeOk);
  }

  // ---------------------------------------------------------------------
  // Properties of the cache
  // ---------------------------------------------------------------------

  /** A fresh, readable entry is served whatever the search would now
      return, and the directory is left as it was. */
  lemma FreshEntryServed(files: map<string, Entry>, key: string, now: int, compute: Result<seq<Listing>>,
                         writeOk: bool)
    requires key in files && files[key].contents.Some? && now - files[key].mtime < TimeToLive
    ensures CachedCall(files, key, now, compute, writeOk) == (Ok(files[key].contents.value), files)
  {
  }

  /** A result written at `t` is served to every call with the same key
      before `t` plus 24 hours, whatever the search would then return. */
  lemma {:induction false} WrittenResultServedForADay(files: map<string, Entry>, key: string, t: int,
                                                      first: Result<seq<Listing>>, later: Result<seq<Listing>>,
                                                      t2: int, writeOk: bool, writeOk2: bool)
    requires first.Ok? && writeOk && t2 < t + TimeToLive
    requires Lookup(files, key, t).None?
    ensures var (r1, after) := CachedCall(files, key, t, first, writeOk);
      r1 == first && CachedCall(after, key, t2, later, writeOk2) == (first, after)
  {
    var after := Written(files, key, t, first, writeOk);
    assert after[key] == Entry(t, Some(first.value));
  }

  /** A stale or unreadable entry is recomputed, and the fresh result replaces
      it when it can be written. */
  lemma ExpiredEntryRecomputed(files: map<string, Entry>, key: string, now: int, compute: Result<seq<Listing>>,
                               writeOk: bool)
    requires key in files && (files[key].contents.None? || TimeToLive <= now - files[key].mtime)
    ensures CachedCall(files, key, now, compute, writeOk).0 == compute
    ensures compute.Ok? && writeOk ==>
      CachedCall(files, key, now, compute, writeOk).1[key] == Entry(now, Some(compute.value))
  {
  }

  /** An exception from the search is passed on and nothing is written. */
  lemma FailureNotCached(files: map<string, Entry>, key: string, now: int, e: string, writeOk: bool)
    requires Lookup(files, key, now).None?
    ensures CachedCall(files, key, now, Err(e), writeOk) == (Err(e), files)
  {
  }

  /** The `repr` of a four-element tuple: its items' own `repr`s between
      parentheses, separated by ", ". */
  lemma TupleReprFour(a: Arg, b: Arg, c: Arg, d: Arg)
    ensures TupleRepr([a, b, c, d]) == "(" + Repr(a) + ", " + Repr(b) + ", " + Repr(c) + ", " + Repr(d) + ")"
    ensures |TupleRepr([a, b, c, d])| == 8 + |Repr(a)| + |Repr(b)| + |Repr(c)| + |Repr(d)|
  {
    var r := Reprs([a, b, c, d]);
    ReprsFour(a, b, c, d);
    JoinFour(", ", Repr(a), Repr(b), Repr(c), Repr(d));
    var j := Join(", ", r);
    assert TupleRepr([a, b, c, d]) == "(" + j + ")" by {
      assert j + "" == j;
    }
    Bracketed("(", ", ", ")", Repr(a), Repr(b), Repr(c), Repr(d));
  }

  lemma ReprsFour(a: Arg, b: Arg, c: Arg, d: Arg)
    ensures Reprs([a, b, c, d]) == [Repr(a), Repr(b), Repr(c), Repr(d)]
  {
    var r := Reprs([a, b, c, d]);
    assert r[0] == Repr(a) && r[1] == Repr(b) && r[2] == Repr(c) && r[3] == Repr(d);
  }

  /** An internship search and a job search never share a cache entry. */
  lemma InternshipFlagSeparatesEntries(funcName: string, title: string, location: string, limit: int)
    ensures KeyText(funcName, SearchArgs(title, location, true, limit))
         != KeyText(funcName, SearchArgs(title, location, false, limit))
  {
    TupleReprFour(Str(title), Str(location), Flag(true), Num(limit));
    TupleReprFour(Str(title), Str(location), Flag(false), Num(limit));
    assert |KeyText(funcName, SearchArgs(title, location, true, limit))| + 1
        == |KeyText(funcName, SearchArgs(title, location, false, limit))|;
  }

  /** Keyword arguments are not part of the key. An internship search that
      passes its flag by keyword, `search_linkedin_jobs(t, l,
      is_internship=True)`, is keyed on `(t, l)` like the job search
      `search_linkedin_jobs(t, l)`; less than a day after the job search
      wrote its result, it is served the job listings. */
  lemma KeywordCallSharesEntry(files: map<string, Entry>, funcName: string, p: Platform, title: string,
                               location: string, limit: int, t: int, t2: int, engine: string -> JobPage,
                               writeOk2: bool)
    requires Lookup(files, KeyText(funcName, [Str(title), Str(location)]), t).None?
    requires t2 < t + TimeToLive
    ensures var args := [Str(title), Str(location)];
      args <= SearchArgs(title, location, false, limit) && args <= SearchArgs(title, location, true, limit)
    ensures var key := KeyText(funcName, [Str(title), Str(location)]);
      var jobs := PlatformListings(p, title, location, false, limit, false, engine);
      var internships := PlatformListings(p, title, location, true, limit, false, engine);
      var (r1, after) := CachedCall(files, key, t, jobs, true);
      r1 == jobs && CachedCall(after, key, t2, internships, writeOk2) == (jobs, after)
  {
    var key := KeyText(funcName, [Str(title), Str(location)]);
    WrittenResultServedForADay(files, key, t, PlatformListings(p, title, location, false, limit, false, engine),
                               PlatformListings(p, title, location, true, limit, false, engine), t2, true, writeOk2);
  }

  /** The LinkedIn and the Indeed searches never share a cache entry. */
  lemma PlatformsSeparateEntries(a: seq<Arg>, b: seq<Arg>)
    ensures KeyText(LinkedInFunc, a) != KeyText(IndeedFunc, b)
  {
    assert KeyText(LinkedInFunc, a)[7] == 'l';
    assert KeyText(IndeedFunc, b)[7] == 'i';
  }

  // ---------------------------------------------------------------------
  // search_all_platforms
  // ---------------------------------------------------------------------

  /** What `search_all_platforms` returns, and the cache directory after it.
      The LinkedIn, Indeed and Glassdoor searches all run (the thread pool
      waits for every submitted task); their results are taken in that
      order and the first exception among them escapes. Internshala is
      searched last, for internships only, once the other three succeeded.
      `driverFails` says, per platform, that starting its browser raises;
      `writeOk` says, per cached platform, that writing its file succeeds. */
  function AllPlatforms(files: map<string, Entry>, title: string, location: string, isInternship: bool,
                        limit: int, now: int, writeOk: Platform -> bool, driverFails: Platform -> bool,
                        engine: string -> JobPage): (Result<seq<Listing>>, map<string, Entry>)
  {
    var args := SearchArgs(title, location, isInternship, limit);
    var (linkedIn, files1) := CachedCall(files, KeyText(LinkedInFunc, args), now,
      PlatformListings(LinkedIn, title, location, isInternship, limit, driverFails(LinkedIn), engine), writeOk(LinkedIn));
    var (indeed, files2) := CachedCall(files1, KeyText(IndeedFunc, args), now,
      PlatformListings(Indeed, title, location, isInternship, limit, driverFails(Indeed), engine), writeOk(Indeed));
    var glassdoor := PlatformListings(Glassdoor, title, location, isInternship, limit, driverFails(Glassdoor), engine);
    var internshala := PlatformListings(Internshala, title, location, true, limit, driverFails(Internshala), engine);
    (Combine(linkedIn, indeed, glassdoor, internshala, isInternship), files2)
  }

  /** The results taken in order: the first exception escapes; the
      Internshala result is looked at only for internships. */
  function Combine(linkedIn: Result<seq<Listing>>, indeed: Result<seq<Listing>>, glassdoor: Result<seq<Listing>>,
                   internshala: Result<seq<Listing>>, isInternship: bool): Result<seq<Listing>>
  {
    if linkedIn.Err? then linkedIn
    else if indeed.Err? then indeed
    else if glassdoor.Err? then glassdoor
    else if !isInternship then Ok(linkedIn.value + indeed.value + glassdoor.value)
    else if internshala.Err? then internshala
    else Ok(linkedIn.value + indeed.value + glassdoor.value + internshala.value)
  }

  method SearchAllPlatforms(cache: CacheDir, title: string, location: string, isInternship: bool, limit: int,
                            now: int, writeOk: Platform -> bool, driverFails: Platform -> bool,
                            engine: string -> JobPage)
    returns (r: Result<seq<Listing>>)
    modifies cache
    ensures (r, cache.files)
         == AllPlatforms(old(cache.files), title, location, isInternship, limit, now, writeOk, driverFails, engine)
  {
    var args := SearchArgs(title, location, isInternship, limit);
    var linkedIn := CachedSearch(cache, LinkedInFunc, LinkedIn, args, title, location, isInternship, limit, now,
                                 writeOk(LinkedIn), driverFails(LinkedIn), engine);
    var indeed := CachedSearch(cache, IndeedFunc, Indeed, args, title, location, isInternship, limit, now,
                               writeOk(Indeed), driverFails(Indeed), engine);
    var glassdoor := SearchPlatform(Glassdoor, title, location, isInternship, limit, driverFails(Glassdoor), engine);
    if linkedIn.Err? {
      return linkedIn;
    }
    var allResults := linkedIn.value;
    if indeed.Err? {
      return indeed;
    }
    allResults := allResults + indeed.value;
    if glassdoor.Err? {
      return glassdoor;
    }
    allResults := allResults + glassdoor.value;
    if isInternship {
      var internshala := SearchPlatform(Internshala, title, location, true, limit, driverFails(Internshala), engine);
      if internshala.Err? {
        return internshala;
      }
      allResults := allResults + internshala.value;
    }
    r := Ok(allResults);
  }

  // ---------------------------------------------------------------------
  // Properties of search_all_platforms
  // ---------------------------------------------------------------------

  /** The position of a platform's listings in the combined result. */
  function Rank(source: string): nat {
    if source == "LinkedIn" then 0
    else if source == "Indeed" then 1
    else if source == "Glassdoor" then 2
    else if source == "Internshala" then 3
    else 4
  }

  ghost predicate RankSorted(xs: seq<Listing>) {
    forall i, j :: 0 <= i < j < |xs| ==> Rank(xs[i].source) <= Rank(xs[j].source)
  }

  ghost predicate AllFrom(xs: seq<Listing>, p: Platform) {
    forall l :: l in xs ==> l.source == p.SourceName()
  }

  /** Every readable file under a LinkedIn key holds LinkedIn listings only,
      and likewise for Indeed. */
  ghost predicate WellSourced(files: map<string, Entry>) {
    forall key :: key in files && files[key].contents.Some? ==>
      (LinkedInFunc + "_(" <= key ==> AllFrom(files[key].contents.value, LinkedIn))
      && (IndeedFunc + "_(" <= key ==> AllFrom(files[key].contents.value, Indeed))
  }

  lemma SortedAppend(a: seq<Listing>, b: seq<Listing>, pa: Platform, pb: Platform)
    requires RankSorted(a) && AllFrom(b, pb)
    requires forall l :: l in a ==> Rank(l.source) <= Rank(pb.SourceName())
    ensures RankSorted(a + b)
  {
    forall i, j | 0 <= i < j < |a + b|
      ensures Rank((a + b)[i].source) <= Rank((a + b)[j].source)
    {
      if j >= |a| {
        assert (a + b)[j] in b;
        if i >= |a| {
          assert (a + b)[i] in b;
        } else {
          assert (a + b)[i] in a;
        }
      }
    }
  }

  /** A cached platform search yields that platform's listings only, and
      keeps the directory well sourced. */
  lemma CachedCallSourced(files: map<string, Entry>, funcName: string, p: Platform, args: seq<Arg>, now: int,
                          compute: Result<seq<Listing>>, writeOk: bool)
    requires WellSourced(files)
    requires (funcName == LinkedInFunc && p == LinkedIn) || (funcName == IndeedFunc && p == Indeed)
    requires compute.Ok? ==> AllFrom(compute.value, p)
    ensures var (r, after) := CachedCall(files, KeyText(funcName, args), now, compute, writeOk);
      WellSourced(after) && (r.Ok? ==> AllFrom(r.value, p))
  {
    var key := KeyText(funcName, args);
    var after := CachedCall(files, key, now, compute, writeOk).1;
    KeysOwnedByOnePlatform(args);
    forall k | k in after && after[k].contents.Some?
      ensures (LinkedInFunc + "_(" <= k ==> AllFrom(after[k].contents.value, LinkedIn))
           && (IndeedFunc + "_(" <= k ==> AllFrom(after[k].contents.value, Indeed))
    {
      if k != key || Lookup(files, key, now).Some? || !(compute.Ok? && writeOk) {
        assert k in files && after[k] == files[k];
      }
    }
  }

  /** A LinkedIn key never looks like an Indeed key, nor the reverse. */
  lemma KeysOwnedByOnePlatform(args: seq<Arg>)
    ensures !(IndeedFunc + "_(" <= KeyText(LinkedInFunc, args))
    ensures !(LinkedInFunc + "_(" <= KeyText(IndeedFunc, args))
  {
    var l, i := LinkedInFunc + "_(", IndeedFunc + "_(";
    assert l[7] == 'l' && i[7] == 'i';
    PrefixesExclude(KeyText(LinkedInFunc, args), l, i, 7);
    PrefixesExclude(KeyText(IndeedFunc, args), i, l, 7);
  }

  /** A string that starts with `p` does not start with a `q` that differs
      from `p` at a position both share. */
  lemma PrefixesExclude(k: string, p: string, q: string, at: nat)
    requires p <= k && at < |p| && at < |q| && p[at] != q[at]
    ensures !(q <= k)
  {
  }

  lemma PlatformListingsSourced(p: Platform, title: string, location: string, isInternship: bool, limit: int,
                                driverFails: bool, engine: string -> JobPage)
    ensures var r := PlatformListings(p, title, location, isInternship, limit, driverFails, engine);
      r.Ok? ==> AllFrom(r.value, p) && RankSorted(r.value)
  {
    PlatformListingsShape(p, title, location, isInternship, limit, driverFails, engine);
  }

  /** Combining per-platform results keeps the platforms grouped in order. */
  lemma CombineOrdered(linkedIn: Result<seq<Listing>>, indeed: Result<seq<Listing>>,
                       glassdoor: Result<seq<Listing>>, internshala: Result<seq<Listing>>, isInternship: bool)
    requires linkedIn.Ok? ==> AllFrom(linkedIn.value, LinkedIn)
    requires indeed.Ok? ==> AllFrom(indeed.value, Indeed)
    requires glassdoor.Ok? ==> AllFrom(glassdoor.value, Glassdoor)
    requires internshala.Ok? ==> AllFrom(internshala.value, Internshala)
    ensures var r := Combine(linkedIn, indeed, glassdoor, internshala, isInternship);
      r.Ok? ==> RankSorted(r.value) && (!isInternship ==> forall l :: l in r.value ==> l.source != "Internshala")
  {
    if linkedIn.Ok? && indeed.Ok? && glassdoor.Ok? {
      var li := linkedIn.value;
      assert RankSorted(li);
      SortedAppend(li, indeed.value, LinkedIn, Indeed);
      SortedAppend(li + indeed.value, glassdoor.value, Indeed, Glassdoor);
      if isInternship && internshala.Ok? {
        SortedAppend(li + indeed.value + glassdoor.value, internshala.value, Glassdoor, Internshala);
      }
    }
  }

  /** Listings come grouped by platform: LinkedIn first, then Indeed, then
      Glassdoor, then Internshala, which appears only in an internship
      search. The cache stays well sourced. */
  lemma AllPlatformsOrdered(files: map<string, Entry>, title: string, location: string, isInternship: bool,
                            limit: int, now: int, writeOk: Platform -> bool, driverFails: Platform -> bool,
                            engine: string -> JobPage)
    requires WellSourced(files)
    ensures var (r, after) := AllPlatforms(files, title, location, isInternship, limit, now, writeOk, driverFails, engine);
      WellSourced(after)
      && (r.Ok? ==> RankSorted(r.value) && (!isInternship ==> forall l :: l in r.value ==> l.source != "Internshala"))
  {
    var args := SearchArgs(title, location, isInternship, limit);
    var cl := PlatformListings(LinkedIn, title, location, isInternship, limit, driverFails(LinkedIn), engine);
    var ci := PlatformListings(Indeed, title, location, isInternship, limit, driverFails(Indeed), engine);
    var g := PlatformListings(Glassdoor, title, location, isInternship, limit, driverFails(Glassdoor), engine);
    var n := PlatformListings(Internshala, title, location, true, limit, driverFails(Internshala), engine);
    PlatformListingsSourced(LinkedIn, title, location, isInternship, limit, driverFails(LinkedIn), engine);
    PlatformListingsSourced(Indeed, title, location, isInternship, limit, driverFails(Indeed), engine);
    PlatformListingsSourced(Glassdoor, title, location, isInternship, limit, driverFails(Glassdoor), engine);
    PlatformListingsSourced(Internshala, title, location, true, limit, driverFails(Internshala), engine);
    var (linkedIn, files1) := CachedCall(files, KeyText(LinkedInFunc, args), now, cl, writeOk(LinkedIn));
    CachedCallSourced(files, LinkedInFunc, LinkedIn, args, now, cl, writeOk(LinkedIn));
    var (indeed, files2) := CachedCall(files1, KeyText(IndeedFunc, args), now, ci, writeOk(Indeed));
    CachedCallSourced(files1, IndeedFunc, Indeed, args, now, ci, writeOk(Indeed));
    CombineOrdered(linkedIn, indeed, g, n, isInternship);
  }

  /** An ordinary job search neither starts Internshala's browser nor looks at
      its result page: whatever they would do, the outcome is the same. */
  lemma InternshalaIgnoredForJobs(files: map<string, Entry>, title: string, location: string, limit: int,
                                  now: int, writeOk: Platform -> bool, driverFails: Platform -> bool,
                                  engine: string -> JobPage,
                                  driverFails2: Platform -> bool, engine2: string -> JobPage)
    requires forall p :: p != Internshala ==> driverFails2(p) == driverFails(p)
    requires forall p :: p != Internshala ==>
      engine2(p.Query(title, location, false)) == engine(p.Query(title, location, false))
    ensures AllPlatforms(files, title, location, false, limit, now, writeOk, driverFails, engine)
         == AllPlatforms(files, title, location, false, limit, now, writeOk, driverFails2, engine2)
  {
    SameInputsSameListings(LinkedIn, title, location, false, limit, driverFails, engine, driverFails2, engine2);
    SameInputsSameListings(Indeed, title, location, false, limit, driverFails, engine, driverFails2, engine2);
    SameInputsSameListings(Glassdoor, title, location, false, limit, driverFails, engine, driverFails2, engine2);
  }

  /** A platform's search depends only on its own browser and its own
      result page. */
  lemma SameInputsSameListings(p: Platform, title: string, location: string, isInternship: bool, limit: int,
                               driverFails: Platform -> bool, engine: string -> JobPage,
                               driverFails2: Platform -> bool, engine2: string -> JobPage)
    requires driverFails2(p) == driverFails(p)
    requires engine2(p.Query(title, location, isInternship)) == engine(p.Query(title, location, isInternship))
    ensures PlatformListings(p, title, location, isInternship, limit, driverFails2(p), engine2)
         == PlatformListings(p, title, location, isInternship, limit, driverFails(p), engine)
  {
  }

  /** When LinkedIn's browser cannot start the whole search raises, yet the
      Indeed search still ran and its result was written to the cache. */
  lemma LinkedInFailureStillCachesIndeed(files: map<string, Entry>, title: string, location: string,
                                         isInternship: bool, limit: int, now: int, writeOk: Platform -> bool,
                                         driverFails: Platform -> bool, engine: string -> JobPage)
    requires driverFails(LinkedIn) && !driverFails(Indeed) && writeOk(Indeed)
    requires Lookup(files, KeyText(LinkedInFunc, SearchArgs(title, location, isInternship, limit)), now).None?
    requires Lookup(files, KeyText(IndeedFunc, SearchArgs(title, location, isInternship, limit)), now).None?
    ensures var (r, after) := AllPlatforms(files, title, location, isInternship, limit, now, writeOk, driverFails, engine);
      var key := KeyText(IndeedFunc, SearchArgs(title, location, isInternship, limit));
      r.Err? && key in after
      && after[key] == Entry(now, Some(PlatformListings(Indeed, title, location, isInternship, limit, false, engine).value))
  {
  }
}
