/** Person names from profile URLs, domain guesses from company URLs, and the
    six candidate work addresses built from a name and a domain
    (companies_details_extraction/email_predictor.py). */
module EmailPredictor {
  import opened Common
  import opened Text

  const ProfileMarker: string := "/in/"
  const CompanyMarker: string := "/company/"

  predicate EndsWith(s: string, t: string) { |t| <= |s| && s[|s| - |t|..] == t }

  // ---------------------------------------------------------------------
  // extract_name_from_linkedin_url
  // ---------------------------------------------------------------------

  /** The display name of a profile, from the path of its URL: the segment
      after the first "/in/", split on '-', each part capitalized, the parts
      joined by single spaces; "" when the path has no "/in/". */
  function ExtractName(path: string): (name: string)
    ensures !Contains(path, ProfileMarker) ==> name == ""
  {
    match SegmentAfter(path, ProfileMarker)
    case None => ""
    case Some(seg) => Join(" ", CapitalizeAll(SplitChar(seg, '-')))
  }

  /** The same conversion read one character at a time: '-' becomes a space,
      the first character of each part goes to upper case and the others to
      lower case. `atStart` says whether `s` begins a part. */
  function SpellName(s: string, atStart: bool): (r: string)
    ensures |r| == |s|
  {
    if s == [] then []
    else if s[0] == '-' then [' '] + SpellName(s[1..], true)
    else [if atStart then Upper(s[0]) else Lower(s[0])] + SpellName(s[1..], false)
  }

  lemma CapitalizeAllCons(p: string, ps: seq<string>)
    ensures CapitalizeAll([p] + ps) == [Capitalize(p)] + CapitalizeAll(ps)
  {
    assert ([p] + ps)[1..] == ps;
  }

  /** The two facts of `SplitCapitalizeJoin` for `s` follow from those for
      `s[1..]` when `s` starts with '-'. */
  lemma SplitCapitalizeJoinDash(s: string)
    requires s != [] && s[0] == '-'
    requires Join(" ", CapitalizeAll(SplitChar(s[1..], '-'))) == SpellName(s[1..], true)
    ensures Join(" ", CapitalizeAll(SplitChar(s, '-'))) == SpellName(s, true)
    ensures LowerAll(SplitChar(s, '-')[0]) + JoinTail(" ", CapitalizeAll(SplitChar(s, '-')[1..]))
         == SpellName(s, false)
  {
    var t := s[1..];
    var parts := SplitChar(t, '-');
    var p0, ps := parts[0], parts[1..];
    assert parts == [p0] + ps;
    var c0, tailJoin := Capitalize(p0), JoinTail(" ", CapitalizeAll(ps));
    calc {
      JoinTail(" ", CapitalizeAll(parts));
      == { CapitalizeAllCons(p0, ps); }
      JoinTail(" ", [c0] + CapitalizeAll(ps));
      == { JoinTailCons(" ", c0, CapitalizeAll(ps)); }
      " " + c0 + tailJoin;
      == " " + (c0 + tailJoin);
      == { CapitalizeAllCons(p0, ps); JoinCons(" ", c0, CapitalizeAll(ps)); }
      " " + Join(" ", CapitalizeAll(parts));
    }
    assert SplitChar(s, '-') == [[]] + parts;
    CapitalizeAllCons([], parts);
    assert CapitalizeAll(SplitChar(s, '-')) == [[]] + CapitalizeAll(parts);
    JoinCons(" ", [], CapitalizeAll(parts));
    assert SplitChar(s, '-')[1..] == parts;
  }

  /** A part that starts with `c` is capitalized when it opens the name... */
  lemma CapitalizedPartCons(c: char, p0: string, ps: seq<string>)
    ensures Join(" ", CapitalizeAll([[c] + p0] + ps))
         == [Upper(c)] + (LowerAll(p0) + JoinTail(" ", CapitalizeAll(ps)))
  {
    var q := [c] + p0;
    assert q[0] == c && q[1..] == p0;
    CapitalizeAllCons(q, ps);
    JoinCons(" ", Capitalize(q), CapitalizeAll(ps));
  }

  lemma SplitCapitalizeJoinOther(s: string)
    requires s != [] && s[0] != '-'
    requires LowerAll(SplitChar(s[1..], '-')[0]) + JoinTail(" ", CapitalizeAll(SplitChar(s[1..], '-')[1..]))
          == SpellName(s[1..], false)
    ensures Join(" ", CapitalizeAll(SplitChar(s, '-'))) == SpellName(s, true)
  {
    var parts := SplitChar(s[1..], '-');
    CapitalizedPartCons(s[0], parts[0], parts[1..]);
  }

  /** ... and lower-cased when it continues an earlier part. */
  lemma SplitCapitalizeJoinOtherLower(s: string)
    requires s != [] && s[0] != '-'
    requires LowerAll(SplitChar(s[1..], '-')[0]) + JoinTail(" ", CapitalizeAll(SplitChar(s[1..], '-')[1..]))
          == SpellName(s[1..], false)
    ensures LowerAll(SplitChar(s, '-')[0]) + JoinTail(" ", CapitalizeAll(SplitChar(s, '-')[1..]))
         == SpellName(s, false)
  {
    var parts := SplitChar(s[1..], '-');
    var q, ps := [s[0]] + parts[0], parts[1..];
    assert SplitChar(s, '-') == [q] + ps;
    assert q[1..] == parts[0];
  }

  lemma {:induction false} SplitCapitalizeJoin(s: string)
    ensures Join(" ", CapitalizeAll(SplitChar(s, '-'))) == SpellName(s, true)
    ensures LowerAll(SplitChar(s, '-')[0]) + JoinTail(" ", CapitalizeAll(SplitChar(s, '-')[1..]))
         == SpellName(s, false)
  {
    if s != [] {
      SplitCapitalizeJoin(s[1..]);
      if s[0] == '-' {
        SplitCapitalizeJoinDash(s);
      } else {
        SplitCapitalizeJoinOther(s);
        SplitCapitalizeJoinOtherLower(s);
      }
    }
  }

  lemma {:induction false} SpellNameAt(s: string, atStart: bool, i: nat)
    requires i < |s|
    ensures SpellName(s, atStart)[i]
         == if s[i] == '-' then ' '
            else if (if i == 0 then atStart else s[i - 1] == '-') then Upper(s[i])
            else Lower(s[i])
    decreases i
  {
    if i > 0 {
      SpellNameAt(s[1..], s[0] == '-', i - 1);
    }
  }

  /** Character by character, the name is the URL segment with '-' turned
      into a space, each part's first character upper case and every other
      character lower case: "jane-doe-123" gives "Jane Doe 123". */
  lemma ExtractNameAt(path: string, seg: string, i: nat)
    requires SegmentAfter(path, ProfileMarker) == Some(seg)
    requires i < |seg|
    ensures |ExtractName(path)| == |seg|
    ensures ExtractName(path)[i]
         == if seg[i] == '-' then ' '
            else if i == 0 || seg[i - 1] == '-' then Upper(seg[i])
            else Lower(seg[i])
  {
    SplitCapitalizeJoin(seg);
    SpellNameAt(seg, true, i);
  }

  // ---------------------------------------------------------------------
  // extract_company_domain
  // ---------------------------------------------------------------------

  /** The guessed mail domain of a company: the segment after the first
      "/company/" with ".com" appended; "" when the URL has no "/company/". */
  function ExtractCompanyDomain(url: string): (domain: string)
    ensures domain == "" <==> !Contains(url, CompanyMarker)
    ensures domain != "" ==>
      var seg := SegmentAfter(url, CompanyMarker).value;
      domain == seg + ".com" && '/' !in seg
  {
    match SegmentAfter(url, CompanyMarker)
    case None => ""
    case Some(seg) => seg + ".com"
  }

  // ---------------------------------------------------------------------
  // predict_email_formats
  // ---------------------------------------------------------------------

  /** The first name: the first whitespace-separated word. */
  function FirstName(name: string): string
    requires Words(name) != []
  {
    Words(name)[0]
  }

  /** The last name: the remaining words joined by single spaces. */
  function LastName(name: string): string
    requires Words(name) != []
  {
    Join(" ", Words(name)[1..])
  }

  /** Joining words that are all non-empty gives "" only for no words. */
  lemma {:induction false} JoinOfWordsEmpty(ws: seq<string>)
    requires forall w :: w in ws ==> w != []
    ensures Join(" ", ws) == [] <==> ws == []
  {
    if ws != [] {
      assert ws[0] in ws;
    }
  }

  /** The six candidate addresses, in this order: initial+last, first.last,
      first_last, first+last initial, first, initial.last. The source raises
      `ValueError` when `name` is non-empty but has no word, since it unpacks
      the first word of an empty list. */
  function PredictFormats(name: string, domain: string): (r: Result<seq<string>>)
    ensures r.Err? <==> name != "" && domain != "" && forall i :: 0 <= i < |name| ==> IsSpace(name[i])
    ensures r.Ok? ==> |r.value| == 0 || |r.value| == 6
    ensures r.Ok? ==> (|r.value| == 6 <==> domain != "" && |Words(name)| >= 2)
    ensures r.Ok? ==> forall i :: 0 <= i < |r.value| ==> EndsWith(r.value[i], "@" + domain)
  {
    WordsShape(name);
    if name == "" || domain == "" then Ok([])
    else if Words(name) == [] then Err("ValueError")
    else
      var first := FirstName(name);
      var last := LastName(name);
      assert Words(name)[0] in Words(name);
      assert forall w :: w in Words(name)[1..] ==> w in Words(name);
      JoinOfWordsEmpty(Words(name)[1..]);
      var at := "@" + domain;
      if first != "" && last != "" then
        Ok([ [first[0]] + last + at,
             first + "." + last + at,
             first + "_" + last + at,
             first + [last[0]] + at,
             first + at,
             [first[0]] + "." + last + at ])
      else Ok([])
  }

  /** First and last name are non-empty, the first has no space, and together
      they give back the name's words separated by single spaces. */
  lemma NameParts(name: string)
    requires |Words(name)| >= 2
    ensures FirstName(name) != "" && NoSpace(FirstName(name)) && LastName(name) != ""
    ensures FirstName(name) + " " + LastName(name) == Join(" ", Words(name))
  {
    var ws := Words(name);
    WordsShape(name);
    assert ws[0] in ws;
    assert forall w :: w in ws[1..] ==> w in ws;
    JoinOfWordsEmpty(ws[1..]);
    JoinFirstRest(" ", ws);
  }

  /** With two or more words and a domain, the six addresses are exactly the
      listed formats over the first and last name. */
  lemma FormatsInOrder(name: string, domain: string)
    requires |Words(name)| >= 2 && domain != ""
    ensures
      var f, l, at := FirstName(name), LastName(name), "@" + domain;
      f != "" && l != "" &&
      PredictFormats(name, domain) == Ok([ [f[0]] + l + at, f + "." + l + at, f + "_" + l + at,
                                          f + [l[0]] + at, f + at, [f[0]] + "." + l + at ])
  {
    NameParts(name);
  }

  /** A name of exactly one word yields no address: its last name is "". */
  lemma SingleWordYieldsNothing(name: string, domain: string)
    requires |Words(name)| == 1
    ensures PredictFormats(name, domain) == Ok([])
  {
    WordsShape(name);
    assert Words(name)[0] in Words(name);
  }

  // ---------------------------------------------------------------------
  // predict_emails_from_profiles
  // ---------------------------------------------------------------------

  /** One row of the result table. */
  datatype Row = Row(profileUrl: string, name: string, email: string, companyDomain: string)

  function RowsOf(url: string, name: string, emails: seq<string>, domain: string): (rows: seq<Row>)
    ensures |rows| == |emails|
    ensures forall i :: 0 <= i < |rows| ==> rows[i] == Row(url, name, emails[i], domain)
  {
    if emails == [] then [] else [Row(url, name, emails[0], domain)] + RowsOf(url, name, emails[1..], domain)
  }

  /** The rows one profile contributes as the source computes them. */
  function ProfileRowsOf(url: string, domain: string): Result<seq<Row>> {
    var name := ExtractName(url);
    if name == "" then Ok([])
    else match PredictFormats(name, domain)
      case Err(e) => Err(e)
      case Ok(emails) => Ok(RowsOf(url, name, emails, domain))
  }

  /** `ProfileRowsOf` for one domain, as a function of the profile. */
  function RowsFor(domain: string): string -> Result<seq<Row>> {
    url => ProfileRowsOf(url, domain)
  }

  /** The table the source builds: profiles in input order, each profile's
      addresses in format order; an exception in any profile aborts the
      whole call. */
  function ProfileRows(urls: seq<string>, domain: string): Result<seq<Row>> {
    ConcatAll(RowsFor(domain), urls)
  }

  method PredictEmailsFromProfiles(urls: seq<string>, domain: string) returns (r: Result<seq<Row>>)
    ensures r == ProfileRows(urls, domain)
  {
    var rows: seq<Row> := [];
    var k := 0;
    while k < |urls|
      invariant 0 <= k <= |urls|
      invariant ProfileRows(urls[..k], domain) == Ok(rows)
    {
      var more := PredictProfileRows(urls[k], domain);
      assert RowsFor(domain)(urls[k]) == more;
      if more.Err? {
        ConcatAllStepErr(RowsFor(domain), urls, k);
        ConcatAllAbortsOnPrefix(RowsFor(domain), urls, k + 1);
        return Err(more.error);
      }
      ConcatAllStep(RowsFor(domain), urls, k, rows, more.value);
      rows := rows + more.value;
      k := k + 1;
    }
    assert urls[..k] == urls;
    r := Ok(rows);
  }

  /** The body of the loop over profiles: the rows of one profile, one per
      address in format order; an exception from `predict_email_formats`
      escapes. */
  method PredictProfileRows(url: string, domain: string) returns (r: Result<seq<Row>>)
    ensures r == ProfileRowsOf(url, domain)
  {
    var name := ExtractName(url);
    if name == "" {
      return Ok([]);
    }
    var emails := PredictFormats(name, domain);
    if emails.Err? {
      return Err(emails.error);
    }
    var formats := emails.value;
    var rows: seq<Row> := [];
    var i := 0;
    while i < |formats|
      invariant 0 <= i <= |formats|
      invariant rows == RowsOf(url, name, formats[..i], domain)
    {
      TakeOneMore(formats, i);
      RowsOfAppend(url, name, formats[..i], [formats[i]], domain);
      rows := rows + [Row(url, name, formats[i], domain)];
      i := i + 1;
    }
    assert formats[..i] == formats;
    r := Ok(rows);
  }

  lemma {:induction false} RowsOfAppend(url: string, name: string, a: seq<string>, b: seq<string>, domain: string)
    ensures RowsOf(url, name, a + b, domain) == RowsOf(url, name, a, domain) + RowsOf(url, name, b, domain)
  {
    var l, r := RowsOf(url, name, a + b, domain), RowsOf(url, name, a, domain) + RowsOf(url, name, b, domain);
    assert |l| == |r|;
    forall i | 0 <= i < |l| ensures l[i] == r[i] {
      if i >= |a| {
        assert (a + b)[i] == b[i - |a|];
      }
    }
  }

  // ---------------------------------------------------------------------
  // Finding: a blank name aborts the whole table
  // ---------------------------------------------------------------------

  /** A name that is not "" but holds no word. */
  predicate BlankName(name: string) { name != "" && Words(name) == [] }

  /** The profile path "/in/-/" (from "https://www.linkedin.com/in/-/") names
      the person " ", and `predict_email_formats` then raises, which aborts
      the whole table for every other profile as well. */
  lemma BlankProfileAbortsTable()
    ensures ExtractName("/in/-/") == " "
    ensures ProfileRows(["/in/-/", "/in/jane-doe/"], "acme.com").Err?
  {
    var path := "/in/-/";
    assert ProfileMarker <= path;
    assert Find(path, ProfileMarker) == Some(0);
    assert path[4..] == "-/";
    assert TakeUntil("-/", '/') == "-";
    assert SplitChar("-", '-') == ["", ""];
    assert CapitalizeAll(["", ""]) == ["", ""];
    assert ExtractName(path) == " ";
    assert Words(" ") == [];
    var urls := ["/in/-/", "/in/jane-doe/"];
    assert urls[..1] == [path];
    assert urls[..1][..0] == urls[..0];
    ConcatAllAbortsOnPrefix(RowsFor("acme.com"), urls, 1);
  }

  /** One profile raises exactly when a domain is given and its name is
      blank. */
  lemma ProfileRowsOfErrIff(url: string, domain: string)
    ensures ProfileRowsOf(url, domain).Err? <==> domain != "" && BlankName(ExtractName(url))
  {
    WordsShape(ExtractName(url));
  }

  /** The source raises exactly when the domain is non-empty and some
      profile's name is blank. */
  lemma ProfileRowsErrIff(urls: seq<string>, domain: string)
    ensures ProfileRows(urls, domain).Err?
        <==> domain != "" && exists k :: 0 <= k < |urls| && BlankName(ExtractName(urls[k]))
  {
    ConcatAllErrIff(RowsFor(domain), urls);
    forall k | 0 <= k < |urls|
      ensures RowsFor(domain)(urls[k]).Err? <==> domain != "" && BlankName(ExtractName(urls[k]))
    {
      ProfileRowsOfErrIff(urls[k], domain);
    }
  }

  /** The evidently intended rows of one profile: a name with no word is
      skipped like an empty one. */
  function SafeProfileRowsOf(url: string, domain: string): (rows: seq<Row>)
    ensures |rows| == 0 || |rows| == 6
  {
    var name := ExtractName(url);
    if name == "" || Words(name) == [] then []
    else
      var emails := PredictFormats(name, domain);
      assert emails.Ok?;
      RowsOf(url, name, emails.value, domain)
  }

  /** `SafeProfileRowsOf` for one domain, as a function of the profile. */
  function SafeRowsFor(domain: string): string -> seq<Row> {
    url => SafeProfileRowsOf(url, domain)
  }

  /** The evidently intended table: it never raises. */
  function SafeProfileRows(urls: seq<string>, domain: string): seq<Row> {
    ConcatMap(SafeRowsFor(domain), urls)
  }

  /** The table keeps the input order of the profiles. */
  lemma SafeProfileRowsAppend(a: seq<string>, b: seq<string>, domain: string)
    ensures SafeProfileRows(a + b, domain) == SafeProfileRows(a, domain) + SafeProfileRows(b, domain)
  {
    ConcatMapAppend(SafeRowsFor(domain), a, b);
  }

  /** Where one profile's rows can be computed, they are the intended ones. */
  lemma ProfileRowsOfAgrees(url: string, domain: string)
    requires ProfileRowsOf(url, domain).Ok?
    ensures ProfileRowsOf(url, domain).value == SafeProfileRowsOf(url, domain)
  {
    ProfileRowsOfErrIff(url, domain);
  }

  /** Whenever the source returns a table, it is the intended one. */
  lemma ProfileRowsAgree(urls: seq<string>, domain: string)
    requires ProfileRows(urls, domain).Ok?
    ensures ProfileRows(urls, domain).value == SafeProfileRows(urls, domain)
  {
    forall url | RowsFor(domain)(url).Ok?
      ensures RowsFor(domain)(url).value == SafeRowsFor(domain)(url)
    {
      ProfileRowsOfAgrees(url, domain);
    }
    ConcatAllAgrees(RowsFor(domain), SafeRowsFor(domain), urls);
  }

  /** Every row carries a profile from the input, that profile's non-empty
      name, an address at the given domain, and the given domain; a profile
      whose name cannot be read contributes no row. */
  lemma {:induction false} SafeRowsShape(urls: seq<string>, domain: string)
    ensures forall row :: row in SafeProfileRows(urls, domain) ==>
      row.profileUrl in urls && row.name == ExtractName(row.profileUrl) && row.name != ""
      && row.companyDomain == domain && EndsWith(row.email, "@" + domain)
    ensures forall u :: u in urls && ExtractName(u) == "" ==>
      forall row :: row in SafeProfileRows(urls, domain) ==> row.profileUrl != u
  {
    if urls != [] {
      SafeRowsShape(urls[1..], domain);
      var name := ExtractName(urls[0]);
      if name != "" && Words(name) != [] {
        var emails := PredictFormats(name, domain).value;
        forall row | row in SafeProfileRowsOf(urls[0], domain)
          ensures row.profileUrl == urls[0] && row.name == name && row.companyDomain == domain
          ensures EndsWith(row.email, "@" + domain)
        {
          var i :| 0 <= i < |emails| && RowsOf(urls[0], name, emails, domain)[i] == row;
        }
      }
    }
  }

  /** A profile whose name has at least two words contributes exactly six
      rows when the domain is non-empty. */
  lemma SixRowsPerNamedProfile(url: string, domain: string)
    requires |Words(ExtractName(url))| >= 2 && domain != ""
    ensures |SafeProfileRowsOf(url, domain)| == 6
  {
    WordsShape(ExtractName(url));
  }
}
