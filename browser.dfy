/** What the scrapers see of a search engine through the headless browser.
    Navigation, waiting, scrolling and CSS selection are not modelled: a
    search engine is a function from the query text to what the browser
    would find on the result page, and every failure the browser can raise
    is a constructor of its own. */
module Browser {
  import opened Common

  /** A result anchor: its `href` attribute (`None` when the attribute is
      missing), or `Stale` when reading the attribute raises. */
  datatype Anchor = Anchor(href: Option<string>) | Stale

  /** One re-query of the anchors on the company search page, after waiting
      and scrolling; `RoundFault` when the browser raises meanwhile. */
  datatype Round = Elements(anchors: seq<Anchor>) | RoundFault

  /** The company search page of one query: `NavFault` when navigating to it
      raises, otherwise the successive rounds it yields. Rounds beyond the
      end of `rounds` find no anchor. */
  datatype Visit = NavFault | Visited(rounds: seq<Round>)

  /** The profile search page of one query: the anchors of its result
      headings, or `PageFault` when navigating or querying raises. */
  datatype Page = PageFault | Results(anchors: seq<Anchor>)

  /** The heading link of a job result block: its text and its `href`. */
  datatype Heading = Heading(text: string, href: Option<string>)

  /** A job result block: its heading link (`None` when the block has none,
      so reading it raises) and its first paragraph, if any. */
  datatype Block = Block(heading: Option<Heading>, snippet: Option<string>)

  /** The job search page of one query. */
  datatype JobPage = JobPageFault | Blocks(blocks: seq<Block>)
}
