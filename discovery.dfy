/** The discovery pass (`WPCP_Article::discover_links`) as a function of
    the state before it: query one result page for a keyword, unwrap and
    filter the result links, hand the survivors to the store, and move the
    page cursor on. */
module Discovery {
  import opened Wrappers
  import opened Text
  import opened Model
  import opened LinkStore

  /** The custom-search engine id, region and host the request names. */
  const CustomSearchId: string := "359394892d6b9fe2c"
  const Region: string := "us"
  const SearchHost: string := "google.com"
  /** Results per page of the search API. */
  const PageSize: int := 10

  /** Hosts appended to the configured banned-host list. */
  const BuiltinBannedHosts: seq<string> :=
    ["youtube.com", "wikipedia", "dictionary", "youtube", "wikihow", "yahoo", "bing"]

  /** The redirect markers a result link may hide its target behind. */
  const RedirectMarker: string := "&r="
  const UrlMarker: string := "&url="

  /** The query arguments for one page of results for a keyword. */
  function SearchArgsFor(apiKey: string, keyword: Keyword, page: int): (a: SearchArgs)
    ensures a.start == page * PageSize
  {
    SearchArgs(apiKey, CustomSearchId, keyword, Region, SearchHost, page * PageSize)
  }

  /** The candidate URL inside a result link: the text after the first
      `&r=` (up to any next one), or failing that after the first `&url=`,
      or else the whole link; percent-decoded in every case. */
  function UnwrapLink(link: string): string {
    var byR := Explode(link, RedirectMarker);
    var pieces := if |byR| == 1 then Explode(link, UrlMarker) else byR;
    UrlDecode(if |pieces| > 1 then pieces[1] else pieces[0])
  }

  /** The words a candidate is dropped for, in the order they are checked. */
  const RejectedWords: seq<string> := ["tripadvisor", "bing", "wikipedia"]

  /** The word list spelled out as the three `stristr` checks. */
  lemma RejectedWordsSpelled(link: string)
    ensures ContainsAnyFolded(link, RejectedWords)
        <==> ContainsFolded(link, "tripadvisor") || ContainsFolded(link, "bing") || ContainsFolded(link, "wikipedia")
  {
    var ws := RejectedWords;
    assert ws[0] == "tripadvisor" && ws[1..][0] == "bing" && ws[1..][1..][0] == "wikipedia";
    assert ws[1..][1..][1..] == [];
    assert !ContainsAnyFolded(link, ws[1..][1..][1..]);
    assert ContainsAnyFolded(link, ws[1..][1..]) <==> ContainsFolded(link, "wikipedia");
    assert ContainsAnyFolded(link, ws[1..]) <==> ContainsFolded(link, "bing") || ContainsFolded(link, "wikipedia");
  }

  /** The words checked have no upper-case letter, so folding the link
      alone is `stristr`. */
  lemma RejectedWordIsStristr(link: string, word: string)
    requires word in RejectedWords
    ensures ContainsFolded(link, word) <==> ContainsCI(link, word)
  {
    ContainsFoldedIsCI(link, word);
  }

  /** The checks that drop a candidate. The configured and built-in banned
      hosts are not among them: their loop only continues itself. */
  predicate Rejected(link: Url, title: string, c: CampaignId, e: Env) {
    ContainsAnyFolded(link, RejectedWords)
    || e.CallIsDuplicateUrl(link)
    || e.CallSkipTitle(title, c)
  }

  predicate Accepted(item: SearchItem, c: CampaignId, e: Env) {
    !Rejected(UnwrapLink(item.link), item.title, c, e)
  }

  /** The batch entry an accepted result becomes. */
  function RowFor(item: SearchItem, c: CampaignId, k: Keyword, e: Env): LinkRow {
    LinkRow(e.CallEscUrl(UnwrapLink(item.link)), item.title, k, c)
  }

  /** The entries a loop over `items` appends: `toRow(item)` for each item
      that `keep` lets through, in order. */
  function FilterRows(items: seq<SearchItem>, keep: SearchItem -> bool,
                      toRow: SearchItem -> LinkRow): (rows: seq<LinkRow>)
    ensures |rows| <= |items|
  {
    if items == [] then []
    else
      var last := items[|items| - 1];
      FilterRows(items[..|items| - 1], keep, toRow) + (if keep(last) then [toRow(last)] else [])
  }

  /** The batch built from a page of results, in result order. */
  function AcceptedRows(items: seq<SearchItem>, c: CampaignId, k: Keyword, e: Env): (rows: seq<LinkRow>)
    ensures |rows| <= |items|
  {
    FilterRows(items, item => Accepted(item, c, e), item => RowFor(item, c, k, e))
  }

  /** One discovery pass for keyword `k` of campaign `c`. */
  function Discover(s: State, c: CampaignId, k: Keyword, e: Env): Run<DiscoverOutcome> {
    var key := e.CallUniqueKey(k);
    var page := PageNumber(s, c, key);
    var args := SearchArgsFor(e.apiKey, k, page);
    var response := e.CallSearch(args);
    if response.TransportError? then
      Run(TransportFailed, s.(deactivated := s.deactivated + {(c, k)}), [Search(args)])
    else if response.items.None? || response.items.value == [] then
      Run(NoLinksFound, s.(deactivated := s.deactivated + {(c, k)}), [Search(args)])
    else
      Store(s, c, key, page, args, AcceptedRows(response.items.value, c, k, e), e.admits)
  }

  /** The end of a pass that got results: insert the batch, then move the
      cursor on to the next page. */
  function Store(s: State, c: CampaignId, key: string, page: int, args: SearchArgs, rows: seq<LinkRow>,
                 admits: (map<LinkId, Link>, LinkRow) -> bool): Run<DiscoverOutcome> {
    var stored := InsertAll(s.links, s.nextId, rows, admits);
    Run(Discovered(|rows|, stored.1 - s.nextId),
        s.(links := stored.0, nextId := stored.1, cursor := s.cursor[(c, key) := page + 1]),
        [Search(args), Insert(rows)])
  }

  /** The outcome of a pass whose search failed or found nothing. */
  lemma DiscoverGivesUp(s: State, c: CampaignId, k: Keyword, e: Env, args: SearchArgs)
    requires args == SearchArgsFor(e.apiKey, k, PageNumber(s, c, e.CallUniqueKey(k)))
    requires e.CallSearch(args).TransportError? || e.CallSearch(args).items.None? || e.CallSearch(args).items.value == []
    ensures Discover(s, c, k, e)
         == Run(if e.CallSearch(args).TransportError? then TransportFailed else NoLinksFound,
                s.(deactivated := s.deactivated + {(c, k)}), [Search(args)])
  {
  }

  /** The outcome of a pass that reaches insertion. */
  lemma DiscoverInserts(s: State, c: CampaignId, k: Keyword, e: Env, args: SearchArgs)
    requires args == SearchArgsFor(e.apiKey, k, PageNumber(s, c, e.CallUniqueKey(k)))
    requires e.CallSearch(args).Answer? && e.CallSearch(args).items.Some? && e.CallSearch(args).items.value != []
    ensures Discover(s, c, k, e)
         == Store(s, c, e.CallUniqueKey(k), PageNumber(s, c, e.CallUniqueKey(k)), args,
                  AcceptedRows(e.CallSearch(args).items.value, c, k, e), e.admits)
  {
  }

  // ---------------------------------------------------------------------
  // Unwrapping result links

  /** A link without either marker is only percent-decoded. */
  lemma UnwrapPlain(link: string)
    requires !Contains(link, RedirectMarker) && !Contains(link, UrlMarker)
    ensures UnwrapLink(link) == UrlDecode(link)
  {
    ExplodeFree(link, RedirectMarker);
    ExplodeFree(link, UrlMarker);
  }

  /** A link `a&r=b` yields the decoded text of `b` up to its first `&r=`
      (all of `b` when it has none), whatever `&url=` it contains. */
  lemma UnwrapFirstRedirect(a: string, b: string)
    requires !Contains(a, RedirectMarker)
    ensures UnwrapLink(a + RedirectMarker + b) == UrlDecode(Explode(b, RedirectMarker)[0])
  {
    var link := a + RedirectMarker + b;
    FirstOccurrence(a, RedirectMarker, b);
    assert link[|a| + |RedirectMarker|..] == b;
    assert link[..|a|] == a;
    assert Explode(link, RedirectMarker) == [a] + Explode(b, RedirectMarker);
  }

  /** ... so `a&r=b` with no other `&r=` yields the decoded `b`. */
  lemma UnwrapRedirect(a: string, b: string)
    requires !Contains(a, RedirectMarker) && !Contains(b, RedirectMarker)
    ensures UnwrapLink(a + RedirectMarker + b) == UrlDecode(b)
  {
    UnwrapFirstRedirect(a, b);
    ExplodeFree(b, RedirectMarker);
  }

  /** A link `a&url=b` with no `&r=` anywhere and no other `&url=` yields
      the decoded `b`. */
  lemma UnwrapUrlParameter(a: string, b: string)
    requires !Contains(a + UrlMarker + b, RedirectMarker)
    requires !Contains(a, UrlMarker) && !Contains(b, UrlMarker)
    ensures UnwrapLink(a + UrlMarker + b) == UrlDecode(b)
  {
    var link := a + UrlMarker + b;
    ExplodeFree(link, RedirectMarker);
    FirstOccurrence(a, UrlMarker, b);
    ExplodeFree(b, UrlMarker);
    assert link[|a| + |UrlMarker|..] == b;
    assert link[..|a|] == a;
    assert Explode(link, UrlMarker) == [a, b];
  }

  /** In `a + d + b`, no occurrence of `d` starts inside `a` when `a` has
      none and `d` does not restart inside itself. */
  lemma NoEarlyOccurrence(a: string, d: string, b: string, j: nat)
    requires d != [] && !Contains(a, d) && j < |a|
    requires forall i :: 1 <= i < |d| ==> d[i] != d[0]
    ensures !OccursAt(a + d + b, d, j)
  {
    var s := a + d + b;
    FindFromFirst(a, d, 0);
    if j + |d| <= |a| {
      assert s[j..j + |d|] == a[j..j + |d|];
      assert !OccursAt(a, d, j);
    } else if j + |d| <= |s| {
      var i := |a| - j;
      assert s[j..j + |d|][i] == d[0];
      assert d[i] != d[0];
    }
  }

  /** ... so the first occurrence is the one right after `a`. */
  lemma FirstOccurrence(a: string, d: string, b: string)
    requires d != [] && !Contains(a, d)
    requires forall i :: 1 <= i < |d| ==> d[i] != d[0]
    ensures FindFrom(a + d + b, d, 0) == Some(|a|)
  {
    var s := a + d + b;
    FindFromFirst(s, d, 0);
    assert OccursAt(s, d, |a|);
    var r := FindFrom(s, d, 0);
    if r.Some? && r.value < |a| {
      NoEarlyOccurrence(a, d, b, r.value);
    }
  }

  predicate NoAmpersand(s: string) {
    forall i :: 0 <= i < |s| ==> s[i] != '&'
  }

  /** Text without `&` holds neither marker. */
  lemma NoAmpersandNoMarker(s: string)
    requires NoAmpersand(s)
    ensures !Contains(s, RedirectMarker) && !Contains(s, UrlMarker)
  {
    FindFromFirst(s, RedirectMarker, 0);
    FindFromFirst(s, UrlMarker, 0);
    forall j | 0 <= j ensures !OccursAt(s, RedirectMarker, j) && !OccursAt(s, UrlMarker, j) {
      if j + |RedirectMarker| <= |s| {
        assert s[j..j + |RedirectMarker|][0] == s[j] != '&';
      }
      if j + |UrlMarker| <= |s| {
        assert s[j..j + |UrlMarker|][0] == s[j] != '&';
      }
    }
  }

  /** `a&url=b` holds no `&r=` when `a` and `b` hold no `&`. */
  lemma UrlWrapperHasNoRedirectMarker(a: string, b: string)
    requires NoAmpersand(a) && NoAmpersand(b)
    ensures !Contains(a + UrlMarker + b, RedirectMarker)
  {
    var s := a + UrlMarker + b;
    FindFromFirst(s, RedirectMarker, 0);
    forall j | 0 <= j ensures !OccursAt(s, RedirectMarker, j) {
      if j + |RedirectMarker| <= |s| {
        if j == |a| {
          assert s[j + 1] == UrlMarker[1] == 'u';
          assert s[j..j + 3][1] == s[j + 1];
        } else {
          if j < |a| {
            assert s[j] == a[j];
          } else if j < |a| + |UrlMarker| {
            assert s[j] == UrlMarker[j - |a|];
          } else {
            assert s[j] == b[j - |a| - |UrlMarker|];
          }
          assert s[j..j + 3][0] == s[j];
        }
      }
    }
  }

  /** A target behind `?url=` rather than `&url=` is not unwrapped: the
      whole link is only decoded, so the wrapper stays in front of it. */
  lemma UnwrapQueryStartKeepsWrapper(a: string, b: string)
    requires NoAmpersand(a) && NoAmpersand(b) && PlainText(a)
    ensures UnwrapLink(a + "?url=" + b) == a + "?url=" + UrlDecode(b)
  {
    var link := a + "?url=" + b;
    assert NoAmpersand(link);
    NoAmpersandNoMarker(link);
    UnwrapPlain(link);
    UrlDecodePlainPrefix(a + "?url=", b);
  }

  // ---------------------------------------------------------------------
  // Filtering

  /** The word checks ignore case: a link holding `bing`, `tripadvisor` or
      `wikipedia` in any mix of cases is rejected. */
  lemma RejectedAnyCase(a: string, m: string, b: string, word: string, title: string, c: CampaignId, e: Env)
    requires word in RejectedWords
    requires Lower(m) == word
    ensures Rejected(a + m + b, title, c, e)
  {
    ContainsFoldedAnyCase(a, m, b, word);
    FoldedWordRejected(a + m + b, word, title, c, e);
  }

  /** A link whose folded text holds one of the words is rejected. */
  lemma FoldedWordRejected(link: string, word: string, title: string, c: CampaignId, e: Env)
    requires word in RejectedWords && ContainsFolded(link, word)
    ensures Rejected(link, title, c, e)
  {
    ContainsAnyFoldedIff(link, RejectedWords);
  }

  /** Filtering a concatenation concatenates the filtered parts. */
  lemma {:induction false} FilterRowsAppend(xs: seq<SearchItem>, ys: seq<SearchItem>,
                                            keep: SearchItem -> bool, toRow: SearchItem -> LinkRow)
    ensures FilterRows(xs + ys, keep, toRow) == FilterRows(xs, keep, toRow) + FilterRows(ys, keep, toRow)
    decreases |ys|
  {
    if ys == [] {
      assert xs + ys == xs;
    } else {
      var init := ys[..|ys| - 1];
      assert (xs + ys)[..|xs + ys| - 1] == xs + init;
      FilterRowsAppend(xs, init, keep, toRow);
    }
  }

  /** Some item that `keep` lets through is turned into `row`. */
  ghost predicate Produces(items: seq<SearchItem>, keep: SearchItem -> bool,
                           toRow: SearchItem -> LinkRow, row: LinkRow) {
    exists i :: 0 <= i < |items| && keep(items[i]) && row == toRow(items[i])
  }

  lemma {:induction false} FilterRowsMembership(items: seq<SearchItem>, keep: SearchItem -> bool,
                                                toRow: SearchItem -> LinkRow, row: LinkRow)
    ensures row in FilterRows(items, keep, toRow) <==> Produces(items, keep, toRow, row)
    decreases |items|
  {
    if items != [] {
      var init, last := items[..|items| - 1], items[|items| - 1];
      FilterRowsMembership(init, keep, toRow, row);
      if Produces(init, keep, toRow, row) {
        var i :| 0 <= i < |init| && keep(init[i]) && row == toRow(init[i]);
        assert items[i] == init[i];
      }
      if Produces(items, keep, toRow, row) {
        var i :| 0 <= i < |items| && keep(items[i]) && row == toRow(items[i]);
        if i < |init| {
          assert init[i] == items[i];
        }
      }
    }
  }

  /** The batch keeps the order of the results: the batch of a
      concatenation is the concatenation of the batches. */
  lemma AcceptedRowsAppend(xs: seq<SearchItem>, ys: seq<SearchItem>, c: CampaignId, k: Keyword, e: Env)
    ensures AcceptedRows(xs + ys, c, k, e) == AcceptedRows(xs, c, k, e) + AcceptedRows(ys, c, k, e)
  {
    FilterRowsAppend(xs, ys, item => Accepted(item, c, e), item => RowFor(item, c, k, e));
  }

  /** A row is in the batch exactly when some result that passes the
      filter produces it. */
  lemma AcceptedRowsMembership(items: seq<SearchItem>, c: CampaignId, k: Keyword, e: Env, row: LinkRow)
    ensures row in AcceptedRows(items, c, k, e)
        <==> exists i :: 0 <= i < |items| && Accepted(items[i], c, e) && row == RowFor(items[i], c, k, e)
  {
    FilterRowsMembership(items, item => Accepted(item, c, e), item => RowFor(item, c, k, e), row);
  }

  /** Every batch entry is for the keyword and campaign being searched. */
  lemma AcceptedRowsAreForKeyword(items: seq<SearchItem>, c: CampaignId, k: Keyword, e: Env)
    ensures forall row :: row in AcceptedRows(items, c, k, e) ==> row.keyword == k && row.campaign == c
  {
    forall row | row in AcceptedRows(items, c, k, e) ensures row.keyword == k && row.campaign == c {
      AcceptedRowsMembership(items, c, k, e, row);
    }
  }

  /** Filtering with functions that agree on every item gives the same batch. */
  lemma {:induction false} FilterRowsAgree(items: seq<SearchItem>,
                                           keep: SearchItem -> bool, toRow: SearchItem -> LinkRow,
                                           keep': SearchItem -> bool, toRow': SearchItem -> LinkRow)
    requires forall item :: keep(item) == keep'(item) && toRow(item) == toRow'(item)
    ensures FilterRows(items, keep, toRow) == FilterRows(items, keep', toRow')
    decreases |items|
  {
    if items != [] {
      FilterRowsAgree(items[..|items| - 1], keep, toRow, keep', toRow');
    }
  }

  /** The banned-host list never rejects anything: a pass run with any
      other `banned_hosts` setting stores the same rows, reports the same
      outcome and makes the same calls. */
  lemma BannedHostsNeverReject(s: State, c: CampaignId, k: Keyword, e: Env, hosts: string)
    ensures Discover(s, c, k, e.(bannedHosts := hosts)) == Discover(s, c, k, e)
  {
    var e' := e.(bannedHosts := hosts);
    var r := e.CallSearch(SearchArgsFor(e.apiKey, k, PageNumber(s, c, e.CallUniqueKey(k))));
    if r.Answer? && r.items.Some? {
      FilterRowsAgree(r.items.value, item => Accepted(item, c, e'), item => RowFor(item, c, k, e'),
                      item => Accepted(item, c, e), item => RowFor(item, c, k, e));
    }
  }

  /** The banned-host quirk on a result: a link holding a built-in banned
      host such as `youtube.com` is still stored when none of the three
      words, the duplicate check and the title filter drop it. The host
      premises play no part in the proof, since `Accepted` never looks at
      a host; that is the quirk. The source's empty inner loop itself is
      kept in `WpcpArticle.AcceptItems`, whose ensures is this batch. */
  lemma BannedHostLinkKept(items: seq<SearchItem>, i: nat, c: CampaignId, k: Keyword, e: Env, host: string)
    requires i < |items|
    requires host in BuiltinBannedHosts && host != []
    requires ContainsCI(UnwrapLink(items[i].link), host)
    requires !ContainsAnyFolded(UnwrapLink(items[i].link), RejectedWords)
    requires !e.CallIsDuplicateUrl(UnwrapLink(items[i].link)) && !e.CallSkipTitle(items[i].title, c)
    ensures RowFor(items[i], c, k, e) in AcceptedRows(items, c, k, e)
  {
    AcceptedRowsMembership(items, c, k, e, RowFor(items[i], c, k, e));
  }

  // ---------------------------------------------------------------------
  // Paging and keyword deactivation

  /** A pass asks for the page the cursor names: its only search uses
      `start = page * 10`, and it is the pass's first call. */
  lemma DiscoverQueriesCursorPage(s: State, c: CampaignId, k: Keyword, e: Env)
    ensures var d := Discover(s, c, k, e);
      |d.calls| >= 1 && d.calls[0].Search?
      && d.calls[0].args.start == PageNumber(s, c, e.CallUniqueKey(k)) * PageSize
      && d.calls[0].args.q == k
      && forall i :: 1 <= i < |d.calls| ==> !d.calls[i].Search?
  {
  }

  /** A transport error, or a response without items, deactivates the
      keyword and changes nothing else: the cursor stays where it was. */
  lemma DiscoverFailureDeactivates(s: State, c: CampaignId, k: Keyword, e: Env)
    requires var r := e.CallSearch(SearchArgsFor(e.apiKey, k, PageNumber(s, c, e.CallUniqueKey(k))));
      r.TransportError? || r.items.None? || r.items.value == []
    ensures var d := Discover(s, c, k, e);
      && d.state == s.(deactivated := s.deactivated + {(c, k)})
      && (d.result == TransportFailed || d.result == NoLinksFound)
  {
  }

  /** A pass that gets items inserts the filtered batch, moves the cursor
      of exactly this keyword on by one and deactivates nothing. It reports
      as found the rows that passed the filter and as inserted those the
      store admitted, so no more stored rows than it found. */
  lemma DiscoverSuccessAdvancesCursor(s: State, c: CampaignId, k: Keyword, e: Env)
    requires var r := e.CallSearch(SearchArgsFor(e.apiKey, k, PageNumber(s, c, e.CallUniqueKey(k))));
      r.Answer? && r.items.Some? && r.items.value != []
    ensures var d := Discover(s, c, k, e);
      var rows := AcceptedRows(e.CallSearch(SearchArgsFor(e.apiKey, k, PageNumber(s, c, e.CallUniqueKey(k)))).items.value, c, k, e);
      && d.result == Discovered(|rows|, |Admitted(s.links, s.nextId, rows, e.admits)|)
      && d.result.inserted <= d.result.found
      && PageNumber(d.state, c, e.CallUniqueKey(k)) == PageNumber(s, c, e.CallUniqueKey(k)) + 1
      && (forall c', key' :: (c', key') != (c, e.CallUniqueKey(k)) ==> PageNumber(d.state, c', key') == PageNumber(s, c', key'))
      && d.state.deactivated == s.deactivated
      && d.state.disabled == s.disabled
  {
    var args := SearchArgsFor(e.apiKey, k, PageNumber(s, c, e.CallUniqueKey(k)));
    var rows := AcceptedRows(e.CallSearch(args).items.value, c, k, e);
    DiscoverInserts(s, c, k, e, args);
    InsertAllStores(s.links, s.nextId, rows, e.admits);
  }

  /** Consecutive passes that both reach insertion ask for consecutive
      pages: the second offset is the first plus 10. */
  lemma ConsecutivePassesPage(s: State, c: CampaignId, k: Keyword, e: Env)
    requires var r := e.CallSearch(SearchArgsFor(e.apiKey, k, PageNumber(s, c, e.CallUniqueKey(k))));
      r.Answer? && r.items.Some? && r.items.value != []
    ensures var d1 := Discover(s, c, k, e);
      var d2 := Discover(d1.state, c, k, e);
      d2.calls[0].args.start == d1.calls[0].args.start + PageSize
  {
    DiscoverSuccessAdvancesCursor(s, c, k, e);
    DiscoverQueriesCursorPage(s, c, k, e);
    DiscoverQueriesCursorPage(Discover(s, c, k, e).state, c, k, e);
  }

  /** The search of the pass run from `s` gets at least one item, so the
      pass reaches insertion. */
  predicate ReachesInsertion(s: State, c: CampaignId, k: Keyword, e: Env) {
    var r := e.CallSearch(SearchArgsFor(e.apiKey, k, PageNumber(s, c, e.CallUniqueKey(k))));
    r.Answer? && r.items.Some? && r.items.value != []
  }

  lemma DiscoverNextPage(s: State, c: CampaignId, k: Keyword, e: Env)
    requires ReachesInsertion(s, c, k, e)
    ensures PageNumber(Discover(s, c, k, e).state, c, e.CallUniqueKey(k)) == PageNumber(s, c, e.CallUniqueKey(k)) + 1
  {
    DiscoverSuccessAdvancesCursor(s, c, k, e);
  }

  /** `n` applications of `step`, starting from `s`. */
  function Iterate(step: State -> State, s: State, n: nat): State
    decreases n
  {
    if n == 0 then s else Iterate(step, step(s), n - 1)
  }

  /** `ok` holds before each of the first `n` steps from `s`. */
  predicate AllSteps(ok: State -> bool, step: State -> State, s: State, n: nat)
    decreases n
  {
    n == 0 || (ok(s) && AllSteps(ok, step, step(s), n - 1))
  }

  /** A quantity that every allowed step raises by one is raised by `n`
      after `n` allowed steps. */
  lemma {:induction false} IterateCounts(step: State -> State, ok: State -> bool, measure: State -> int, s: State, n: nat)
    requires forall x :: ok(x) ==> measure(step(x)) == measure(x) + 1
    requires AllSteps(ok, step, s, n)
    ensures measure(Iterate(step, s, n)) == measure(s) + n
    decreases n
  {
    if n > 0 {
      IterateCounts(step, ok, measure, step(s), n - 1);
    }
  }

  /** The state after `n` consecutive passes for the same keyword. */
  function AfterPasses(s: State, c: CampaignId, k: Keyword, e: Env, n: nat): State {
    Iterate(x => Discover(x, c, k, e).state, s, n)
  }

  /** Each of `n` consecutive passes from `s` reaches insertion. */
  predicate AllReachInsertion(s: State, c: CampaignId, k: Keyword, e: Env, n: nat) {
    AllSteps(x => ReachesInsertion(x, c, k, e), x => Discover(x, c, k, e).state, s, n)
  }

  /** Pagination: after `n` consecutive passes that each reach insertion,
      the cursor stands `n` pages past where it started. */
  lemma PassesAdvanceCursor(s: State, c: CampaignId, k: Keyword, e: Env, n: nat)
    requires AllReachInsertion(s, c, k, e, n)
    ensures PageNumber(AfterPasses(s, c, k, e, n), c, e.CallUniqueKey(k)) == PageNumber(s, c, e.CallUniqueKey(k)) + n
  {
    var step := x => Discover(x, c, k, e).state;
    var ok := x => ReachesInsertion(x, c, k, e);
    var measure := x => PageNumber(x, c, e.CallUniqueKey(k));
    forall x | ok(x) ensures measure(step(x)) == measure(x) + 1 {
      DiscoverNextPage(x, c, k, e);
    }
    IterateCounts(step, ok, measure, s, n);
  }

  /** ... so the next pass asks for the page `n` past the first one's:
      from a fresh cursor the passes ask for pages 0, 1, 2, ... */
  lemma PassesWalkPages(s: State, c: CampaignId, k: Keyword, e: Env, n: nat)
    requires AllReachInsertion(s, c, k, e, n)
    ensures Discover(AfterPasses(s, c, k, e, n), c, k, e).calls[0].args.start
         == (PageNumber(s, c, e.CallUniqueKey(k)) + n) * PageSize
  {
    PassesAdvanceCursor(s, c, k, e, n);
    DiscoverQueriesCursorPage(AfterPasses(s, c, k, e, n), c, k, e);
  }

  /** A pass calls only the search and the store: it fetches nothing. */
  lemma DiscoverFetchesNothing(s: State, c: CampaignId, k: Keyword, e: Env)
    ensures var d := Discover(s, c, k, e);
      forall i :: 0 <= i < |d.calls| ==> d.calls[i].Search? || d.calls[i].Insert?
  {
  }

  /** A pass that gets items stores the batch: the rows the store admits,
      in batch order, each under the next id as a new `pending` link with
      the url, title, keyword and campaign of its batch entry; the rows
      already stored stay as they were, and no other id appears. */
  lemma DiscoverStoresBatch(s: State, c: CampaignId, k: Keyword, e: Env)
    requires WellFormed(s) && ReachesInsertion(s, c, k, e)
    ensures var t := Discover(s, c, k, e).state;
      var rows := AcceptedRows(e.CallSearch(SearchArgsFor(e.apiKey, k, PageNumber(s, c, e.CallUniqueKey(k)))).items.value, c, k, e);
      var stored := Admitted(s.links, s.nextId, rows, e.admits);
      && IsSubsequence(stored, rows)
      && t.nextId == s.nextId + |stored|
      && (forall id :: s.nextId <= id < t.nextId ==> id in t.links && t.links[id] == NewLink(id, stored[id - s.nextId]))
      && (forall id :: id in s.links ==> id in t.links && t.links[id] == s.links[id])
      && (forall id :: id in t.links ==> id in s.links || s.nextId <= id < t.nextId)
  {
    var args := SearchArgsFor(e.apiKey, k, PageNumber(s, c, e.CallUniqueKey(k)));
    var rows := AcceptedRows(e.CallSearch(args).items.value, c, k, e);
    DiscoverInserts(s, c, k, e, args);
    StoreStoresBatch(s, c, e.CallUniqueKey(k), PageNumber(s, c, e.CallUniqueKey(k)), args, rows, e.admits);
  }

  /** What the end of a pass does to the links table. */
  lemma StoreStoresBatch(s: State, c: CampaignId, key: string, page: int, args: SearchArgs, rows: seq<LinkRow>,
                         admits: (map<LinkId, Link>, LinkRow) -> bool)
    requires WellFormed(s)
    ensures var t := Store(s, c, key, page, args, rows, admits).state;
      var stored := Admitted(s.links, s.nextId, rows, admits);
      && IsSubsequence(stored, rows)
      && t.nextId == s.nextId + |stored|
      && (forall id :: s.nextId <= id < t.nextId ==> id in t.links && t.links[id] == NewLink(id, stored[id - s.nextId]))
      && (forall id :: id in s.links ==> id in t.links && t.links[id] == s.links[id])
      && (forall id :: id in t.links ==> id in s.links || s.nextId <= id < t.nextId)
  {
    AdmittedSubsequence(s.links, s.nextId, rows, admits);
    InsertAllKeeps(s.links, s.nextId, rows, admits);
    InsertAllStores(s.links, s.nextId, rows, admits);
  }

  /** ... so every link a pass stores comes from a result that passed the
      filter: its url is that result's unwrapped, escaped link. */
  lemma DiscoverStoresAccepted(s: State, c: CampaignId, k: Keyword, e: Env, id: LinkId)
    requires WellFormed(s) && ReachesInsertion(s, c, k, e)
    requires s.nextId <= id < Discover(s, c, k, e).state.nextId
    ensures var items := e.CallSearch(SearchArgsFor(e.apiKey, k, PageNumber(s, c, e.CallUniqueKey(k)))).items.value;
      var t := Discover(s, c, k, e).state;
      && id in t.links
      && exists i :: 0 <= i < |items| && Accepted(items[i], c, e) && t.links[id] == NewLink(id, RowFor(items[i], c, k, e))
  {
    var items := e.CallSearch(SearchArgsFor(e.apiKey, k, PageNumber(s, c, e.CallUniqueKey(k)))).items.value;
    var rows := AcceptedRows(items, c, k, e);
    var stored := Admitted(s.links, s.nextId, rows, e.admits);
    DiscoverStoresBatch(s, c, k, e);
    SubsequenceMembers(stored, rows);
    assert stored[id - s.nextId] in rows;
    AcceptedRowsMembership(items, c, k, e, stored[id - s.nextId]);
  }

  /** A pass keeps the links table well formed. */
  lemma DiscoverWellFormed(s: State, c: CampaignId, k: Keyword, e: Env)
    requires WellFormed(s)
    ensures WellFormed(Discover(s, c, k, e).state)
  {
    var r := e.CallSearch(SearchArgsFor(e.apiKey, k, PageNumber(s, c, e.CallUniqueKey(k))));
    if r.Answer? && r.items.Some? && r.items.value != [] {
      InsertAllWellFormed(s, AcceptedRows(r.items.value, c, k, e), e.admits);
    }
  }
}
