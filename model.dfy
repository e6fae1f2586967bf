/** The entities the article campaign reads and writes: links in the link
    store, search results, fetched pages, readable articles, and the
    persistent state one campaign run may change. */
module Model {
  import opened Wrappers

  /** WordPress post id of the campaign. */
  type CampaignId = int
  /** Store-assigned id of a cached link. */
  type LinkId = nat
  type Keyword = string
  type Url = string
  type Html = string

  datatype Status = Pending | Failed | Success

  /** A row of the links table. */
  datatype Link = Link(
    id: LinkId,
    url: Url,
    title: string,
    keyword: Keyword,        // the `for` column
    campaign: CampaignId,    // the `camp_id` column
    status: Status,
    meta: string)

  /** An entry of the batch handed to the store for insertion. */
  datatype LinkRow = LinkRow(url: Url, title: string, keyword: Keyword, campaign: CampaignId)

  /** One element of the search response's `items` list. */
  datatype SearchItem = SearchItem(link: string, title: string)

  /** The query arguments of the custom-search request. */
  datatype SearchArgs = SearchArgs(
    key: string, cx: string, q: string, gl: string, googlehost: string, start: int)

  /** What the search request produced: a transport error, or a decoded
      body whose `items` list may be missing (`None`). An empty body is
      a body without `items`. */
  datatype SearchResponse = TransportError | Answer(items: Option<seq<SearchItem>>)

  /** The HTTP client after `get`: whether it reports an error, and the
      response body it holds either way. */
  datatype Fetched = Fetched(isError: bool, response: Html)

  /** What the readability engine makes of a page. */
  datatype Readable =
    | ParseError
    | Parsed(title: string, author: string, image: string, excerpt: string,
             language: string, content: string)

  datatype Article = Article(
    title: string, author: string, imageUrl: string, excerpt: string,
    language: string, content: string, sourceUrl: Url)

  /** Why a run returned a `WP_Error`. */
  datatype Reason = NoKeywords | NoApiKey | NoArticle

  /** What `get_post` returns: an article, or a `WP_Error` with its code. */
  datatype PostResult = Post(article: Article) | WpError(code: string, reason: Reason)

  /** What `discover_links` returns. */
  datatype DiscoverOutcome =
    | TransportFailed
    | NoLinksFound
    | Discovered(found: nat, inserted: nat)

  /** The collaborators the pipeline calls but whose code is not part of
      the model: settings, HTTP, readability, hooks, formatting helpers and
      the store's own queries. Each is a fixed function of its inputs. */
  datatype Env = Env(
    apiKey: string,                                   // setting `api_key`
    bannedHosts: string,                              // setting `banned_hosts`
    cleanTitleMeta: string,                           // campaign meta `_clean_title`, default "off"
    search: SearchArgs -> SearchResponse,             // filter hook, URL building and HTTP GET
    fetch: Url -> Fetched,                            // HTTP GET of a cached link
    parse: (Html, Url) -> Readable,                   // WPCP_Readability::parse
    isDuplicateUrl: Url -> bool,                      // wpcp_is_duplicate_url
    skipTitle: (string, CampaignId) -> bool,          // `wpcp_skip_duplicate_title` filter
    cleanTitle: string -> string,                     // wpcp_clean_title
    decodeEntities: string -> string,                 // html_entity_decode(..., ENT_QUOTES)
    escUrl: string -> string,                         // esc_url
    uniqueKey: Keyword -> string,                     // get_unique_key
    lookup: (map<LinkId, Link>, CampaignId, Keyword) -> seq<Link>,  // get_links
    admits: (map<LinkId, Link>, LinkRow) -> bool)     // whether inset_links stores a row
  {
    // The collaborators applied to their inputs. Everything that calls a
    // collaborator goes through these, so that a method and the function
    // specifying it name the same value.
    function CallSearch(args: SearchArgs): SearchResponse { search(args) }
    function CallFetch(url: Url): Fetched { fetch(url) }
    function CallParse(html: Html, url: Url): Readable { parse(html, url) }
    function CallIsDuplicateUrl(link: Url): bool { isDuplicateUrl(link) }
    function CallSkipTitle(title: string, c: CampaignId): bool { skipTitle(title, c) }
    function CallUniqueKey(k: Keyword): string { uniqueKey(k) }
    function CallLookup(links: map<LinkId, Link>, c: CampaignId, k: Keyword): seq<Link> { lookup(links, c, k) }
    function CallAdmits(links: map<LinkId, Link>, row: LinkRow): bool { admits(links, row) }
    function CallCleanTitle(t: string): string { cleanTitle(t) }
    function CallDecodeEntities(t: string): string { decodeEntities(t) }
    function CallEscUrl(link: string): string { escUrl(link) }
  }

  /** The persistent state a run may change. */
  datatype State = State(
    links: map<LinkId, Link>,                  // the links table
    nextId: LinkId,                            // the table's next auto-increment id
    cursor: map<(CampaignId, string), int>,    // page number meta, by campaign and page key
    deactivated: set<(CampaignId, Keyword)>,   // keywords switched off by deactivate_key
    disabled: set<CampaignId>)                 // campaigns switched off by wpcp_disable_campaign

  /** The links table is keyed by each row's own id, and every id is below
      the next id the table will hand out. */
  ghost predicate WellFormed(s: State) {
    forall id :: id in s.links ==> s.links[id].id == id && id < s.nextId
  }

  /** An observable call to a collaborator, in the order made. */
  datatype Call =
    | Lookup(keyword: Keyword)
    | Search(args: SearchArgs)
    | Insert(rows: seq<LinkRow>)
    | SetStatus(id: LinkId, status: Status)
    | Fetch(id: LinkId, url: Url)   // the fetch of link `id` at `url`
    | Parse(id: LinkId, url: Url)   // the parse of what that fetch returned

  /** The result of a step, the state after it and the calls it made. */
  datatype Run<R> = Run(result: R, state: State, calls: seq<Call>)

  function Prepend<R>(calls: seq<Call>, r: Run<R>): Run<R> {
    Run(r.result, r.state, calls + r.calls)
  }

  /** PHP `empty()` on a string: the empty string and "0". */
  predicate EmptyString(s: string) {
    s == "" || s == "0"
  }
}
