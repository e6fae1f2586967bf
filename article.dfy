/** `WPCP_Article` as an object: the store, cursor and backoff state it
    changes in place are its fields, and `GetPost` and `DiscoverLinks` are
    the source's loops, each proved to do what the functions of the
    `Orchestrator` and `Discovery` modules say. */
module Campaign {
  import opened Wrappers
  import opened Text
  import opened Model
  import opened LinkStore
  import opened Discovery
  import opened Orchestrator

  class WpcpArticle {
    /** Who started the run (`cron` or another caller). */
    const initiator: string
    var links: map<LinkId, Link>
    var nextId: LinkId
    var cursor: map<(CampaignId, string), int>
    var deactivated: set<(CampaignId, Keyword)>
    var disabled: set<CampaignId>
    /** The collaborator calls made so far, in order. */
    ghost var calls: seq<Call>

    /** The persistent state the object holds. */
    function Snapshot(): State
      reads this
    {
      State(links, nextId, cursor, deactivated, disabled)
    }

    constructor (initiator: string, s: State)
      ensures this.initiator == initiator && Snapshot() == s && calls == []
    {
      this.initiator := initiator;
      links := s.links;
      nextId := s.nextId;
      cursor := s.cursor;
      deactivated := s.deactivated;
      disabled := s.disabled;
      calls := [];
    }

    // -------------------------------------------------------------------
    // Store and meta operations of the parent module

    /** `update_link($id, ['status' => 'failed'])`. */
    method MarkFailed(id: LinkId)
      modifies this
      ensures Snapshot() == old(Snapshot()).(links := WithStatus(old(links), id, Failed))
      ensures calls == old(calls) + [SetStatus(id, Failed)]
    {
      links := WithStatus(links, id, Failed);
      calls := calls + [SetStatus(id, Failed)];
    }

    /** `update_link($id, ['status' => 'success', 'meta' => ''])`. */
    method MarkSuccess(id: LinkId)
      modifies this
      ensures Snapshot() == old(Snapshot()).(links := WithSuccess(old(links), id))
      ensures calls == old(calls) + [SetStatus(id, Success)]
    {
      links := WithSuccess(links, id);
      calls := calls + [SetStatus(id, Success)];
    }

    predicate IsDeactivatedKey(c: CampaignId, k: Keyword)
      reads this
    {
      (c, k) in deactivated
    }

    method DeactivateKey(c: CampaignId, k: Keyword)
      modifies this
      ensures Snapshot() == old(Snapshot()).(deactivated := old(deactivated) + {(c, k)})
      ensures calls == old(calls)
    {
      deactivated := deactivated + {(c, k)};
    }

    /** `wpcp_disable_campaign($campaign_id)`. */
    method DisableCampaign(c: CampaignId)
      modifies this
      ensures Snapshot() == old(Snapshot()).(disabled := old(disabled) + {c})
      ensures calls == old(calls)
    {
      disabled := disabled + {c};
    }

    /** `get_links($keyword, $campaign_id)`. */
    method GetLinks(k: Keyword, c: CampaignId, e: Env) returns (found: seq<Link>)
      modifies this
      ensures found == e.CallLookup(links, c, k)
      ensures Snapshot() == old(Snapshot()) && calls == old(calls) + [Lookup(k)]
    {
      found := e.CallLookup(links, c, k);
      calls := calls + [Lookup(k)];
    }

    /** `inset_links($links)`: stores each admitted row under the next id
        and returns how many it stored. */
    method InsetLinks(rows: seq<LinkRow>, e: Env) returns (inserted: nat)
      modifies this
      ensures (links, nextId) == InsertAll(old(links), old(nextId), rows, e.admits)
      ensures inserted == nextId - old(nextId)
      ensures Snapshot() == old(Snapshot()).(links := links, nextId := nextId)
      ensures calls == old(calls) + [Insert(rows)]
    {
      inserted := 0;
      for i := 0 to |rows|
        invariant InsertAll(links, nextId, rows[i..], e.admits) == InsertAll(old(links), old(nextId), rows, e.admits)
        invariant nextId == old(nextId) + inserted
        invariant Snapshot() == old(Snapshot()).(links := links, nextId := nextId)
        invariant calls == old(calls)
      {
        assert rows[i..][1..] == rows[i + 1..];
        if e.CallAdmits(links, rows[i]) {
          links := links[nextId := NewLink(nextId, rows[i])];
          nextId := nextId + 1;
          inserted := inserted + 1;
        }
      }
      calls := calls + [Insert(rows)];
    }

    /** `wpcp_update_post_meta($campaign_id, $page_key, $page)`. */
    method UpdatePageNumber(c: CampaignId, key: string, page: int)
      modifies this
      ensures Snapshot() == old(Snapshot()).(cursor := old(cursor)[(c, key) := page])
      ensures calls == old(calls)
    {
      cursor := cursor[(c, key) := page];
    }

    // -------------------------------------------------------------------
    // HTTP and readability

    method SearchPage(args: SearchArgs, e: Env) returns (response: SearchResponse)
      modifies this
      ensures response == e.CallSearch(args)
      ensures Snapshot() == old(Snapshot()) && calls == old(calls) + [Search(args)]
    {
      response := e.CallSearch(args);
      calls := calls + [Search(args)];
    }

    /** `$curl->get($link->url)`. */
    method FetchPage(l: Link, e: Env) returns (f: Fetched)
      modifies this
      ensures f == e.CallFetch(l.url)
      ensures Snapshot() == old(Snapshot()) && calls == old(calls) + [Fetch(l.id, l.url)]
    {
      f := e.CallFetch(l.url);
      calls := calls + [Fetch(l.id, l.url)];
    }

    /** `$readability->parse($html, $link->url)`. */
    method ParsePage(html: Html, l: Link, e: Env) returns (p: Readable)
      modifies this
      ensures p == e.CallParse(html, l.url)
      ensures Snapshot() == old(Snapshot()) && calls == old(calls) + [Parse(l.id, l.url)]
    {
      p := e.CallParse(html, l.url);
      calls := calls + [Parse(l.id, l.url)];
    }

    // -------------------------------------------------------------------
    // discover_links

    /** The loop over the result items of `discover_links`: unwrap each
        link, run the rejection checks in order, and append the survivors
        to the batch. */
    method AcceptItems(items: seq<SearchItem>, c: CampaignId, k: Keyword, e: Env) returns (rows: seq<LinkRow>)
      ensures rows == AcceptedRows(items, c, k, e)
    {
      var bannedHosts := Explode(e.bannedHosts, "\n") + BuiltinBannedHosts;
      rows := [];
      for i := 0 to |items|
        invariant rows == AcceptedRows(items[..i], c, k, e)
      {
        assert items[..i + 1][..i] == items[..i];
        var item := items[i];
        var link := UnwrapLink(item.link);
        // The `continue` here only moves on to the next banned host.
        for j := 0 to |bannedHosts| {
          if bannedHosts[j] != [] && ContainsCI(link, bannedHosts[j]) {
            continue;
          }
        }
        // `stristr` with needles already in lower case.
        RejectedWordsSpelled(link);
        if ContainsFolded(link, "tripadvisor") || ContainsFolded(link, "bing") {
          continue;
        }
        if ContainsFolded(link, "wikipedia") {
          continue;
        }
        if e.CallIsDuplicateUrl(link) {
          continue;
        }
        if e.CallSkipTitle(item.title, c) {
          continue;
        }
        rows := rows + [RowFor(item, c, k, e)];
      }
      assert items[..|items|] == items;
    }

    /** One discovery pass for keyword `k` of campaign `c`. */
    method DiscoverLinks(c: CampaignId, k: Keyword, e: Env) returns (outcome: DiscoverOutcome)
      modifies this
      ensures var d := Discover(old(Snapshot()), c, k, e);
        outcome == d.result && Snapshot() == d.state && calls == old(calls) + d.calls
    {
      ghost var s0 := Snapshot();
      var key := e.CallUniqueKey(k);
      var page := PageNumber(Snapshot(), c, key);
      var args := SearchArgsFor(e.apiKey, k, page);
      var response := SearchPage(args, e);
      if response.TransportError? {
        DiscoverGivesUp(s0, c, k, e, args);
        DeactivateKey(c, k);
        return TransportFailed;
      }
      if response.items.None? || response.items.value == [] {
        DiscoverGivesUp(s0, c, k, e, args);
        DeactivateKey(c, k);
        return NoLinksFound;
      }
      var items := response.items.value;
      var rows := AcceptItems(items, c, k, e);
      var inserted := InsetLinks(rows, e);
      DiscoverInserts(s0, c, k, e, args);
      UpdatePageNumber(c, key, page + 1);
      outcome := Discovered(|rows|, inserted);
    }

    // -------------------------------------------------------------------
    // get_post

    /** One pass of the inner loop of `get_post` over link `l`. */
    method TryLink(l: Link, e: Env) returns (found: Option<Article>)
      modifies this
      ensures var r := Attempt(old(Snapshot()), l, initiator, e);
        found == r.result && Snapshot() == r.state && calls == old(calls) + r.calls
    {
      MarkFailed(l.id);
      var f := FetchPage(l, e);
      if f.isError && initiator != Cron {
        return None;
      }
      var p := ParsePage(f.response, l, e);
      if p.ParseError? {
        return None;
      }
      var title := ArticleTitle(p.title, e);
      var article := Article(title, p.author, p.image, p.excerpt, p.language, p.content, l.url);
      MarkSuccess(l.id);
      return Some(article);
    }

    /** The inner loop of `get_post`: try the links in order and stop at
        the first that yields an article. */
    method TryLinks(candidates: seq<Link>, e: Env) returns (found: Option<Article>)
      modifies this
      ensures var r := ProcessLinks(old(Snapshot()), initiator, e, candidates);
        found == r.result && Snapshot() == r.state && calls == old(calls) + r.calls
    {
      found := None;
      ghost var done: seq<Call> := [];
      for j := 0 to |candidates|
        invariant found == None
        invariant calls == old(calls) + done
        invariant ProcessLinks(old(Snapshot()), initiator, e, candidates)
               == Prepend(done, ProcessLinks(Snapshot(), initiator, e, candidates[j..]))
      {
        ghost var before := Snapshot();
        ghost var rest := candidates[j..];
        assert rest != [] && rest[0] == candidates[j] && rest[1..] == candidates[j + 1..];
        ghost var a := Attempt(before, candidates[j], initiator, e);
        ProcessLinksStep(before, initiator, e, rest);
        ghost var mark := calls;
        found := TryLink(candidates[j], e);
        PrependCalls(old(calls), done, mark, a.calls, calls);
        if found.Some? {
          return;
        }
        PrependTwice(done, a.calls, ProcessLinks(Snapshot(), initiator, e, candidates[j + 1..]));
        done := done + a.calls;
      }
      assert candidates[|candidates|..] == [];
      assert done + [] == done;
    }

    /** The body of the keyword loop of `get_post` for an active keyword:
        read the cached links, discover and read again if there are none,
        then try them. */
    method ProcessKeyword(c: CampaignId, k: Keyword, e: Env) returns (found: Option<Article>)
      requires (c, k) !in deactivated
      modifies this
      ensures var r := KeywordStep(old(Snapshot()), c, k, initiator, e);
        found == r.result && Snapshot() == r.state && calls == old(calls) + r.calls
    {
      ghost var s0 := Snapshot();
      ghost var pre: seq<Call> := [Lookup(k)];
      var candidates := GetLinks(k, c, e);
      if candidates == [] {
        ghost var d := Discover(s0, c, k, e);
        candidates := DiscoverAndReread(c, k, e);
        pre := [Lookup(k)] + d.calls + [Lookup(k)];
      }
      ghost var s1 := Snapshot();
      ghost var mid := calls;
      KeywordStepSplits(s0, c, k, initiator, e, pre, s1, candidates);
      found := TryLinks(candidates, e);
      PrependCalls(old(calls), pre, mid, ProcessLinks(s1, initiator, e, candidates).calls, calls);
    }

    /** No cached links: run a discovery pass and read the links again. */
    method DiscoverAndReread(c: CampaignId, k: Keyword, e: Env) returns (candidates: seq<Link>)
      modifies this
      ensures var d := Discover(old(Snapshot()), c, k, e);
        && candidates == e.CallLookup(d.state.links, c, k)
        && Snapshot() == d.state && calls == old(calls) + d.calls + [Lookup(k)]
    {
      var _ := DiscoverLinks(c, k, e);
      candidates := GetLinks(k, c, e);
    }

    /** `get_post($campaign_id)` for a campaign whose keyword list is `keywords`. */
    method GetPost(c: CampaignId, keywords: seq<Keyword>, e: Env) returns (result: PostResult)
      modifies this
      ensures var r := GetPostSpec(old(Snapshot()), c, keywords, initiator, e);
        result == r.result && Snapshot() == r.state && calls == old(calls) + r.calls
    {
      if keywords == [] {
        return WpError("missing-data", NoKeywords);
      }
      if EmptyString(e.apiKey) {
        DisableCampaign(c);
        return WpError("missing-data", NoApiKey);
      }
      ghost var done: seq<Call> := [];
      for i := 0 to |keywords|
        invariant calls == old(calls) + done
        invariant RunKeywords(old(Snapshot()), c, keywords, initiator, e)
               == Prepend(done, RunKeywords(Snapshot(), c, keywords[i..], initiator, e))
      {
        var k := keywords[i];
        ghost var before := Snapshot();
        ghost var mark := calls;
        ghost var rest := keywords[i..];
        assert rest != [] && rest[0] == k && rest[1..] == keywords[i + 1..];
        ghost var step := KeywordStep(before, c, k, initiator, e);
        RunKeywordsStep(before, c, rest, initiator, e);
        if IsDeactivatedKey(c, k) {
          assert step == Run(None, before, []);
          assert [] + RunKeywords(Snapshot(), c, keywords[i + 1..], initiator, e).calls
              == RunKeywords(Snapshot(), c, keywords[i + 1..], initiator, e).calls;
          continue;
        }
        var found := ProcessKeyword(c, k, e);
        PrependCalls(old(calls), done, mark, step.calls, calls);
        if found.Some? {
          return Post(found.value);
        }
        PrependTwice(done, step.calls, RunKeywords(Snapshot(), c, keywords[i + 1..], initiator, e));
        done := done + step.calls;
      }
      assert keywords[|keywords|..] == [];
      assert done + [] == done;
      return WpError("campaign-error", NoArticle);
    }
  }
}
