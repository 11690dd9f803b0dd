# LinkedIn profile scraper: a Dafny model of the company-details core

This project models the `companies_details_extraction` package of the
LinkedIn profile scraper. The package has four parts:

- **Email prediction** (`email_predictor.py`):
  - the display name is read from a profile URL;
  - a mail domain is guessed from a company URL;
  - six candidate work addresses are built from a name and a domain;
  - all of this is assembled into a table of rows, one per profile and address.
- **Company discovery** (`company_scraper.py`):
  - up to four phrasings of one search are tried in order;
  - each phrasing gets up to three rounds of reading result anchors;
  - the company-page links are kept without repeats, cut to the number asked for;
  - any browser failure empties the result;
  - the display name of a company page comes from its URL.
- **Recruiter discovery** (`hr_scraper.py`):
  - one search per company keeps the first distinct profile links;
  - it stops at the target count;
  - a failure anywhere gives no links;
  - a batch maps every company to its result.
- **Job search** (`job_search.py`):
  - four job boards are searched, each through a query, a window of result blocks and a link filter;
  - the LinkedIn and Indeed searches sit behind a 24-hour cache of result files, keyed by the function name and the `repr` of its positional arguments;
  - an aggregator concatenates the boards in a fixed order and adds Internshala only for internships.

The browser is not modelled as a program. A search engine is a function from
the query text to what the browser would find, and every exception is a
constructor of its own. Those constructors are the datatypes of module
`Browser`:

- `Visit` and `Round` for company search pages;
- `Page` for profile search pages;
- `JobPage` and `Block` for job result pages.

Starting the browser is a boolean parameter.

Python's behaviour is written out explicitly where the code relies on it:

- `str.split()` on whitespace;
- `str.capitalize` and `str.title` (ASCII letters);
- `s.split(m)[1].split('/')[0]`, with its `IndexError` when `m` is missing;
- slicing `xs[:n]`, including a negative `n`;
- `repr` of a tuple of strings, booleans and integers.

Modules:

- `Common`: Option/Result, slicing, and first-occurrence lists.
- `Text`: Python string operations.
- `Browser`: what the browser sees.
- `EmailPredictor`, `CompanyScraper`, `HrScraper` and `JobSearch`: one module per source file.

Every loop of the source is a method proved equal to a specification
function. The properties are lemmas about those functions.

## Model

| member | source | states |
|---|---|---|
| EmailPredictor.ExtractName | companies_details_extraction/email_predictor.py:7-14 | A path without "/in/" gives the empty name; splitting past the end raises `IndexError` and is caught |
| EmailPredictor.ExtractNameAt | companies_details_extraction/email_predictor.py:10-12 | The name has the length of the segment after "/in/". Each '-' becomes a space; the first character of each part is upper case and every other character lower case |
| EmailPredictor.ExtractCompanyDomain | companies_details_extraction/email_predictor.py:68-74 | The domain is "" exactly when the URL has no "/company/". Otherwise it is the slash-free segment after it, followed by ".com" |
| EmailPredictor.PredictFormats | companies_details_extraction/email_predictor.py:17-41 | Raises exactly when the name is non-empty, the domain is non-empty and the name is all whitespace. Otherwise it gives 0 or 6 addresses, 6 exactly when there is a domain and at least two words, each address ending in "@" + domain |
| EmailPredictor.NameParts | companies_details_extraction/email_predictor.py:25-26 | With two or more words, the first name is one non-empty word and the last name is non-empty. Joined by a space they give the name's words again |
| EmailPredictor.FormatsInOrder | companies_details_extraction/email_predictor.py:31-39 | With two or more words and a domain, the result is exactly the six formats, in source order |
| EmailPredictor.SingleWordYieldsNothing | companies_details_extraction/email_predictor.py:25-31 | A one-word name gives no address: its last name is empty |
| EmailPredictor.RowsOf | companies_details_extraction/email_predictor.py:57-63 | One row per address, in order, each holding the profile URL, the name, the address and the domain |
| EmailPredictor.PredictEmailsFromProfiles | companies_details_extraction/email_predictor.py:44-65 | The loop builds exactly `ProfileRows`: profiles in input order, each profile's rows in format order, and the first exception aborts the call |
| EmailPredictor.PredictProfileRows | companies_details_extraction/email_predictor.py:52-63 | The rows of one profile: none for an empty name, the exception of the format prediction, or one row per address |
| EmailPredictor.ProfileRowsOfErrIff | companies_details_extraction/email_predictor.py:52-56 | One profile raises exactly when the domain is non-empty and the extracted name is non-empty but has no word |
| EmailPredictor.ProfileRowsErrIff | companies_details_extraction/email_predictor.py:51-63 | The whole table call raises exactly when some profile's name is blank (with a non-empty domain) |
| EmailPredictor.BlankProfileAbortsTable | companies_details_extraction/email_predictor.py:51-56 | The path "/in/-/" gives the name " ". A list that starts with it makes the table call raise, and the valid profile after it is lost |
| EmailPredictor.SafeProfileRowsOf | companies_details_extraction/email_predictor.py:52-63 | The corrected rows of one profile (a blank name is skipped like an empty one): 0 or 6 rows |
| EmailPredictor.SafeProfileRowsAppend | companies_details_extraction/email_predictor.py:51-63 | The corrected table of a concatenation of lists is the concatenation of their tables |
| EmailPredictor.ProfileRowsOfAgrees | companies_details_extraction/email_predictor.py:52-63 | Wherever one profile does not raise, the source's rows equal the corrected rows |
| EmailPredictor.ProfileRowsAgree | companies_details_extraction/email_predictor.py:51-65 | Wherever the source's table call does not raise, it equals the corrected table |
| EmailPredictor.SafeRowsShape | companies_details_extraction/email_predictor.py:51-63 | Every row of the corrected table comes from an input profile with a non-empty name, carries the domain, and its address ends in "@" + domain. A profile with no name contributes no row |
| EmailPredictor.SixRowsPerNamedProfile | companies_details_extraction/email_predictor.py:31-39 | A profile whose name has two or more words contributes exactly six rows under a non-empty domain |
| CompanyScraper.ExtractCompanyNameFromUrl | companies_details_extraction/company_scraper.py:81-89 | A URL without "/company/" comes back unchanged |
| CompanyScraper.CompanyNameAt | companies_details_extraction/company_scraper.py:86-87 | The name has the length of the segment. Each '-' becomes a space; a letter after a letter is lower case and every other character upper case |
| CompanyScraper.NameAgreesWithDomain | companies_details_extraction/company_scraper.py:81-87 | Lower-cased with spaces as hyphens, the display name followed by ".com" equals the guessed mail domain (`extract_company_domain`) |
| CompanyScraper.Phrasings | companies_details_extraction/company_scraper.py:19-24 | There are four phrasings |
| CompanyScraper.PhrasingsMentionBoth | companies_details_extraction/company_scraper.py:19-24 | Every phrasing starts with the company-page site filter and mentions both the domain and the location |
| CompanyScraper.GetLinkedinCompanyLinks | companies_details_extraction/company_scraper.py:9-78 | The nested loops return exactly `CompanyLinks`: the phrasings tried in order while fewer than `num_companies` links are known, and the result cut to `num_companies`; any browser exception gives [] |
| CompanyScraper.SearchPage | companies_details_extraction/company_scraper.py:44-69 | The rounds of one phrasing match `RunRounds`. Three rounds at most; stop at the target or after a round with no anchor; a browser exception aborts |
| CompanyScraper.ProcessElement | companies_details_extraction/company_scraper.py:48-54 | One anchor: a company link other than the jobs page, not seen before, is appended and marked seen; anything else changes nothing |
| CompanyScraper.HarvestTakesFirstOccurrences | companies_details_extraction/company_scraper.py:48-65 | A round appends, in order, the first occurrence of each wanted target that is not yet known |
| CompanyScraper.HarvestProperties | companies_details_extraction/company_scraper.py:48-65 | A round keeps the known links as a prefix and keeps them repeat-free and wanted. A link is in the result iff it was known or is a wanted target of the round |
| CompanyScraper.RunRoundsProperties | companies_details_extraction/company_scraper.py:56-69 | The rounds of a phrasing only extend the list and keep it repeat-free and wanted |
| CompanyScraper.RunPhrasingsProperties | companies_details_extraction/company_scraper.py:40-69 | The phrasings only extend the list and keep it repeat-free and wanted |
| CompanyScraper.CompanyLinksWellFormed | companies_details_extraction/company_scraper.py:9-78 | The result has at most max(num_companies, 0) links and each one is a company page other than the jobs page. No link appears twice when anchors are processed one after another |
| CompanyScraper.LaterPhrasingsUntried | companies_details_extraction/company_scraper.py:40-42 | Once the target is reached, later phrasings are never searched, whatever they would return |
| CompanyScraper.AtMostThreeRounds | companies_details_extraction/company_scraper.py:56 | Rounds past the third are never consulted |
| CompanyScraper.EmptyRoundEndsPhrasing | companies_details_extraction/company_scraper.py:67-69 | A round that finds no anchor ends the phrasing |
| CompanyScraper.FailureDiscardsEverything | companies_details_extraction/company_scraper.py:74-78 | A browser exception in the second round discards the links found in the first |
| HrScraper.HrQueryMentionsBoth | companies_details_extraction/hr_scraper.py:9 | The query starts with the profile-page site filter and mentions the company and the designation |
| HrScraper.GetHrProfiles | companies_details_extraction/hr_scraper.py:7-47 | The loop returns exactly `HrProfiles`: distinct profile links in result order, a break at `num_profiles`, and [] on any exception |
| HrScraper.BatchProcessCompanies | companies_details_extraction/hr_scraper.py:49-55 | The keys are exactly the companies listed, each bound to its own search result |
| HrScraper.ScanKeepsFirstDistinct | companies_details_extraction/hr_scraper.py:32-38 | With no failing anchor, the scan keeps the first max(num_profiles, 1) distinct profile links, in order |
| HrScraper.HrProfilesWellFormed | companies_details_extraction/hr_scraper.py:7-47 | At most max(num_profiles, 1) links, no repeat, each a profile link |
| HrScraper.ScanStopsAtTarget | companies_details_extraction/hr_scraper.py:37-38 | After the target is reached, later results (even failing ones) make no difference |
| HrScraper.StaleAnchorEmptiesResult | companies_details_extraction/hr_scraper.py:43-47 | An anchor whose `href` cannot be read, met before the target, empties the result even when links were already kept |
| JobSearch.ListingOf | companies_details_extraction/job_search.py:92-112 | A block gives a listing exactly when it has a heading link whose `href` contains the platform's marker. The listing holds the heading text, the link, the first paragraph or "", and the platform name |
| JobSearch.SearchPlatform | companies_details_extraction/job_search.py:74-120 | The loop returns exactly `PlatformListings`: a browser start failure escapes, a page failure gives [], and otherwise the listings of the blocks inside the window, in order |
| JobSearch.ReadResults | companies_details_extraction/job_search.py:91-112 | The loop over the blocks in the window returns exactly their listings, in block order |
| JobSearch.ReadResult | companies_details_extraction/job_search.py:92-112 | One block gives its listing, or nothing |
| JobSearch.CollectMembers | companies_details_extraction/job_search.py:91-112 | A listing is collected iff some block yields it |
| JobSearch.CollectAppend | companies_details_extraction/job_search.py:91-112 | Collecting is compositional over concatenated blocks |
| JobSearch.CollectAtMostOnePerBlock | companies_details_extraction/job_search.py:91-112 | There are no more listings than blocks |
| JobSearch.PlatformListingsShape | companies_details_extraction/job_search.py:74-285 | At most `limit` listings when `limit` is non-negative, and at most 10 for Internshala. Every listing is sourced from its platform and links to it |
| JobSearch.QueryMentions | companies_details_extraction/job_search.py:76-242 | Each platform's query holds its site filter, the title, the location and the keyword: "internship" for an internship search and always on Internshala, "job" otherwise |
| JobSearch.OnlyInternshalaIgnoresFlag | companies_details_extraction/job_search.py:76-242 | The internship flag changes the LinkedIn, Indeed and Glassdoor queries, and leaves only Internshala's query unchanged |
| JobSearch.NatDigits | companies_details_extraction/job_search.py:24 | The `repr` of a non-negative integer: at least one character, decimal digits only, no leading zero, and the digits spell the number |
| JobSearch.Reprs | companies_details_extraction/job_search.py:24 | Each argument is written with its own `repr`, in order |
| JobSearch.KeyText | companies_details_extraction/job_search.py:22-25 | The key starts with the function name, "_" and "(" |
| JobSearch.TupleReprFour | companies_details_extraction/job_search.py:24 | The `repr` of a four-tuple is "(" followed by the four items' own `repr`s separated by ", " and then ")"; its length follows from that |
| JobSearch.InternshipFlagSeparatesEntries | companies_details_extraction/job_search.py:22-25 | A job search and an internship search never share a cache entry |
| JobSearch.PlatformsSeparateEntries | companies_details_extraction/job_search.py:22-25 | The LinkedIn and Indeed searches never share a cache entry |
| JobSearch.Lookup | companies_details_extraction/job_search.py:36-43 | A hit happens iff the file exists, is less than 24 hours old and reads back; the hit holds the stored listings |
| JobSearch.Written | companies_details_extraction/job_search.py:46-51 | After a computed result, only its own file changes, stamped with the current time. Nothing changes when the call raised or the write failed |
| JobSearch.CacheDir.constructor | companies_details_extraction/job_search.py:18-20 | The directory starts with the given files |
| JobSearch.CacheDir.Store | companies_details_extraction/job_search.py:47-51 | Writing a result file changes the directory exactly as `Written` says |
| JobSearch.CachedSearch | companies_details_extraction/job_search.py:27-54 | The decorated search returns, and leaves the directory as, `CachedCall`. The key is built from the arguments passed by position only, a prefix of the search's inputs. On a hit it returns the stored result; otherwise it runs the search on all its inputs and writes the result back |
| JobSearch.KeywordCallSharesEntry | companies_details_extraction/job_search.py:22-32 | A call passing `is_internship=True` by keyword has the same key as the positional job search with the same title and location. Within a day of that search writing its result, the call is served the job listings |
| JobSearch.FreshEntryServed | companies_details_extraction/job_search.py:36-41 | A fresh, readable entry is served and nothing is written, whatever the search would return now |
| JobSearch.WrittenResultServedForADay | companies_details_extraction/job_search.py:36-51 | A result written at time t is served unchanged by any later call before t + 24 hours |
| JobSearch.ExpiredEntryRecomputed | companies_details_extraction/job_search.py:36-51 | An expired or unreadable entry is recomputed and overwritten |
| JobSearch.FailureNotCached | companies_details_extraction/job_search.py:46-53 | On a miss, a search that raises leaves the directory unchanged |
| JobSearch.SearchAllPlatforms | companies_details_extraction/job_search.py:287-318 | The aggregator returns, and leaves the cache as, `AllPlatforms`: LinkedIn, then Indeed, then Glassdoor, then Internshala for internships only; the first exception in that order escapes. Each cached platform's file write succeeds or fails on its own |
| JobSearch.AllPlatformsOrdered | companies_details_extraction/job_search.py:299-312 | The combined result is grouped by platform in that order and holds no Internshala listing for a job search. The cache keeps every stored entry sourced from its own platform |
| JobSearch.CombineOrdered | companies_details_extraction/job_search.py:304-312 | Concatenating platform results in the order taken gives platform-sorted listings |
| JobSearch.InternshalaIgnoredForJobs | companies_details_extraction/job_search.py:309-312 | For a job search, what the Internshala board would do makes no difference to the result or the cache |
| JobSearch.LinkedInFailureStillCachesIndeed | companies_details_extraction/job_search.py:299-305 | When LinkedIn's browser cannot start, the call raises. Yet the Indeed search still ran, and its result was written to the cache when its own write succeeds |
| Text.WordsShape | companies_details_extraction/email_predictor.py:25 | The words of `str.split()` are non-empty and hold no whitespace. There are none exactly when the string is all whitespace |
| Text.TitleAt | companies_details_extraction/company_scraper.py:87 | `str.title`, character by character: a letter after a letter is lower case and every other letter upper case |
| Common.SlicePrefix | companies_details_extraction/company_scraper.py:72 | Python's `xs[:n]`: the first n items, or all but the last -n for negative n |

## Left out

- URL parsing: `urlparse(url).path` is not modelled. `ExtractName` receives the path and `ProfileRows` the list of paths, so a profile URL with a query string or fragment is not distinguished from its path.
- URL encoding: `quote()` and the search-engine URLs are not modelled. A search engine is a function of the query text.
- The browser: Selenium, CSS selectors, sleeps, scrolling and `driver.quit()` are not modelled. What a selector would match is part of the page the engine function returns, and failures of `driver.quit()` are not modelled.
- Concurrency, company discovery: the four threads of `process_element` are modelled as processing anchors one after another in page order. The order in which concurrent threads append links is not captured. Nor is the unsynchronised check-then-add on `seen_links`: two threads holding anchors with the same `href` can both pass the `href not in seen_links` test and both append it. The source can therefore return a link twice, so the "no repeat" part of `CompanyLinksWellFormed` holds for the one-after-another reading only.
- Concurrency, job aggregation: the three platform searches of `search_all_platforms` are modelled in the order their results are taken, with one shared clock value `now`. The cache-file write outcome is a separate parameter per platform.
- Default arguments: `num_companies=10`, `designation="HR OR Recruiter"`, `is_internship=False` and `limit=10` are not modelled as defaults. Every model operation takes these as explicit parameters, which covers the default values as one case.
- Console output (`print`) is left out.
- MD5 hashing: the cache file name is the key text itself rather than its MD5 digest. Hash collisions are not modelled.
- Cache encoding: JSON encoding and decoding are not modelled. An unreadable cache file is an entry without contents. Partial writes are not modelled.
- Cache directory: the creation of the directory at import time is not modelled.
- Case mapping: only ASCII letters are upper- or lower-cased. Python's Unicode case tables for `capitalize` and `title` are not modelled.
- String escaping: `repr` of a string is modelled as the string between single quotes, without Python's escaping of quotes and control characters.
- DataFrames: `pandas.DataFrame` is modelled as the list of its rows. The empty frame with named columns is the empty list.
- BatchProcessCompanies: a company that appears twice in the list is searched twice in the source. The model states only the final map, in which the later result wins; both results are equal because the engine is a function.
- CompanyScraper.FailureDiscardsEverything: states one failing scenario (a failure in the second round of the first phrasing). The general statement is `CompanyLinks` itself, which maps every `None` to [].
- `company_insights.py` and the user interface are not part of this model.

Where the documentation and the code differ, the model follows the code:

- HR search: there is no pagination and no location clause.
- HR target: `num_profiles` of 0 or less still returns up to one link, because the break is tested after the append.
- Company discovery: a browser failure returns [], not the links found so far.
- Job search: starting the browser happens outside the `try`, so that exception escapes `search_all_platforms`. Only the LinkedIn and Indeed searches are cached.
- Company link filter: an anchor whose `href` cannot be read is skipped in company discovery, because the thread pool's results are never collected. The same failure in the HR search aborts it to [].

## Findings

| source | as written | input that shows it | evidently intended | confidence | as-written member | corrected member |
|---|---|---|---|---|---|---|
| companies_details_extraction/email_predictor.py:25 | `first_name, *last_name_parts = name.split()` unpacks the words of any non-empty name. A name made only of spaces has no word, so this raises `ValueError`. The exception is not caught in `predict_emails_from_profiles`, so the whole table is lost | the profile path "/in/-/": the name is " " (two empty parts joined by a space), which passes `if not name` | a profile whose name has no word is skipped, like one with an empty name | not executed | EmailPredictor.BlankProfileAbortsTable | EmailPredictor.ProfileRowsAgree |
