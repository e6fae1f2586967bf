/** The orchestrator (`WPCP_Article::get_post`) as a function of the state
    before it: fail fast on missing configuration, then walk the keywords
    in order, read (and if need be discover) each keyword's cached links,
    and try them one by one until one yields an article. */
module Orchestrator {
  import opened Wrappers
  import opened Model
  import opened LinkStore
  import opened Discovery

  /** The initiator under which a fetch error does not skip the link. */
  const Cron: string := "cron"

  /** The title the article carries: cleaned when the campaign's
      `_clean_title` meta is "on", otherwise only entity-decoded. */
  function ArticleTitle(t: string, e: Env): string {
    if e.cleanTitleMeta == "on" then e.CallCleanTitle(t) else e.CallDecodeEntities(t)
  }

  /** The article built from a successful parse of link `l`. */
  function ArticleFrom(p: Readable, l: Link, e: Env): Article
    requires p.Parsed?
  {
    Article(ArticleTitle(p.title, e), p.author, p.image, p.excerpt, p.language, p.content, l.url)
  }

  /** The fetch of `l` is not abandoned: either it succeeded, or the run was
      started by cron, which parses whatever came back. */
  predicate ReachesParse(l: Link, initiator: string, e: Env) {
    !(e.CallFetch(l.url).isError && initiator != Cron)
  }

  /** Trying a link at `url` yields an article; this depends on nothing
      else about the link. */
  predicate UrlYields(url: Url, initiator: string, e: Env) {
    !(e.CallFetch(url).isError && initiator != Cron) && e.CallParse(e.CallFetch(url).response, url).Parsed?
  }

  /** Trying `l` yields an article. */
  predicate Yields(l: Link, initiator: string, e: Env) {
    UrlYields(l.url, initiator, e)
  }

  /** The calls made while trying `l`, when it does not yield. */
  function FailedAttemptCalls(l: Link, initiator: string, e: Env): seq<Call> {
    [SetStatus(l.id, Failed), Fetch(l.id, l.url)] + (if ReachesParse(l, initiator, e) then [Parse(l.id, l.url)] else [])
  }

  /** One pass of the inner loop: mark `l` failed, fetch it, and (unless a
      non-cron fetch error skips it) parse it; a successful parse gives the
      article and marks `l` success. */
  function Attempt(s: State, l: Link, initiator: string, e: Env): Run<Option<Article>> {
    var marked := s.(links := WithStatus(s.links, l.id, Failed));
    if Yields(l, initiator, e) then
      Run(Some(ArticleFrom(e.CallParse(e.CallFetch(l.url).response, l.url), l, e)),
          marked.(links := WithSuccess(marked.links, l.id)),
          [SetStatus(l.id, Failed), Fetch(l.id, l.url), Parse(l.id, l.url), SetStatus(l.id, Success)])
    else
      Run(None, marked, FailedAttemptCalls(l, initiator, e))
  }

  /** The inner loop over a keyword's cached links: stop at the first that
      yields. */
  function ProcessLinks(s: State, initiator: string, e: Env, links: seq<Link>): Run<Option<Article>>
    decreases |links|
  {
    if links == [] then Run(None, s, [])
    else
      var a := Attempt(s, links[0], initiator, e);
      if a.result.Some? then a
      else Prepend(a.calls, ProcessLinks(a.state, initiator, e, links[1..]))
  }

  /** The inner loop takes one attempt, then stops or goes on. */
  lemma ProcessLinksStep(s: State, initiator: string, e: Env, links: seq<Link>)
    requires links != []
    ensures var a := Attempt(s, links[0], initiator, e);
      ProcessLinks(s, initiator, e, links)
      == if a.result.Some? then a else Prepend(a.calls, ProcessLinks(a.state, initiator, e, links[1..]))
  {
  }

  /** One iteration of the keyword loop. */
  function KeywordStep(s: State, c: CampaignId, k: Keyword, initiator: string, e: Env): Run<Option<Article>> {
    if (c, k) in s.deactivated then Run(None, s, [])
    else
      var cached := e.CallLookup(s.links, c, k);
      if cached == [] then
        var d := Discover(s, c, k, e);
        var reread := e.CallLookup(d.state.links, c, k);
        Prepend([Lookup(k)] + d.calls + [Lookup(k)], ProcessLinks(d.state, initiator, e, reread))
      else
        Prepend([Lookup(k)], ProcessLinks(s, initiator, e, cached))
  }

  /** The keyword loop: stop at the first keyword that yields an article. */
  function RunKeywords(s: State, c: CampaignId, keywords: seq<Keyword>, initiator: string, e: Env): Run<Option<Article>>
    decreases |keywords|
  {
    if keywords == [] then Run(None, s, [])
    else
      var r := KeywordStep(s, c, keywords[0], initiator, e);
      if r.result.Some? then r
      else Prepend(r.calls, RunKeywords(r.state, c, keywords[1..], initiator, e))
  }

  /** The keyword loop takes one step, then stops or goes on. */
  lemma RunKeywordsStep(s: State, c: CampaignId, keywords: seq<Keyword>, initiator: string, e: Env)
    requires keywords != []
    ensures var r := KeywordStep(s, c, keywords[0], initiator, e);
      RunKeywords(s, c, keywords, initiator, e)
      == if r.result.Some? then r else Prepend(r.calls, RunKeywords(r.state, c, keywords[1..], initiator, e))
  {
  }

  /** A whole `get_post` run for campaign `c`. */
  function GetPostSpec(s: State, c: CampaignId, keywords: seq<Keyword>, initiator: string, e: Env): Run<PostResult> {
    if keywords == [] then Run(WpError("missing-data", NoKeywords), s, [])
    else if EmptyString(e.apiKey) then
      Run(WpError("missing-data", NoApiKey), s.(disabled := s.disabled + {c}), [])
    else
      var r := RunKeywords(s, c, keywords, initiator, e);
      Run(if r.result.Some? then Post(r.result.value) else WpError("campaign-error", NoArticle),
          r.state, r.calls)
  }

  /** Calls recorded in two steps are the calls of both, in order. */
  lemma PrependTwice<R>(first: seq<Call>, second: seq<Call>, r: Run<R>)
    ensures Prepend(first, Prepend(second, r)) == Prepend(first + second, r)
  {
    assert first + (second + r.calls) == (first + second) + r.calls;
  }

  /** The two ways an active keyword's step goes: straight to its cached
      links, or through a discovery pass and a second lookup. */
  lemma KeywordStepSplits(s: State, c: CampaignId, k: Keyword, initiator: string, e: Env,
                          pre: seq<Call>, mid: State, links: seq<Link>)
    requires (c, k) !in s.deactivated
    requires e.CallLookup(s.links, c, k) != [] ==>
      pre == [Lookup(k)] && mid == s && links == e.CallLookup(s.links, c, k)
    requires e.CallLookup(s.links, c, k) == [] ==>
      var d := Discover(s, c, k, e);
      pre == [Lookup(k)] + d.calls + [Lookup(k)] && mid == d.state && links == e.CallLookup(d.state.links, c, k)
    ensures KeywordStep(s, c, k, initiator, e) == Prepend(pre, ProcessLinks(mid, initiator, e, links))
  {
  }

  lemma PrependCalls(start: seq<Call>, pre: seq<Call>, mid: seq<Call>, rest: seq<Call>, now: seq<Call>)
    requires mid == start + pre && now == mid + rest
    ensures now == start + (pre + rest)
  {
  }

  // ---------------------------------------------------------------------
  // Fail-fast checks

  /** No keywords: a `missing-data` error; nothing is disabled, looked up
      or written. */
  lemma NoKeywordsFailsFast(s: State, c: CampaignId, initiator: string, e: Env)
    ensures var r := GetPostSpec(s, c, [], initiator, e);
      r.result == WpError("missing-data", NoKeywords) && r.state == s && r.calls == []
  {
  }

  /** No API key ("" or "0"): the campaign is disabled and a `missing-data`
      error returned before any keyword is looked at. */
  lemma NoApiKeyDisables(s: State, c: CampaignId, keywords: seq<Keyword>, initiator: string, e: Env)
    requires keywords != [] && EmptyString(e.apiKey)
    ensures var r := GetPostSpec(s, c, keywords, initiator, e);
      && r.result == WpError("missing-data", NoApiKey)
      && r.state == s.(disabled := s.disabled + {c})
      && c in r.state.disabled
      && r.calls == []
  {
  }

  // ---------------------------------------------------------------------
  // The link loop

  /** The ids of a list of links. */
  function IdsOf(links: seq<Link>): set<LinkId> {
    set i | 0 <= i < |links| :: links[i].id
  }

  lemma IdsOfCons(links: seq<Link>)
    requires links != []
    ensures IdsOf(links) == {links[0].id} + IdsOf(links[1..])
  {
    forall i | 0 <= i < |links| - 1 ensures links[1..][i].id in IdsOf(links) {
      assert links[1..][i] == links[i + 1];
    }
    forall id | id in IdsOf(links) ensures id in {links[0].id} + IdsOf(links[1..]) {
      var i :| 0 <= i < |links| && links[i].id == id;
      if i > 0 {
        assert links[1..][i - 1] == links[i];
      }
    }
  }

  /** Every link of the list was tried and none yielded: each tried row is
      left `failed`, the rest of the store and state are untouched, and
      the calls are the attempts in order. */
  lemma {:induction false} ProcessLinksExhausted(s: State, initiator: string, e: Env, links: seq<Link>)
    requires forall i :: 0 <= i < |links| ==> !Yields(links[i], initiator, e)
    ensures var r := ProcessLinks(s, initiator, e, links);
      && r.result == None
      && r.state.links.Keys == s.links.Keys
      && (forall id :: id in s.links ==>
            r.state.links[id] == if id in IdsOf(links) then s.links[id].(status := Failed) else s.links[id])
      && r.state == s.(links := r.state.links)
    decreases |links|
  {
    if links != [] {
      var l := links[0];
      var marked := s.(links := WithStatus(s.links, l.id, Failed));
      ProcessLinksExhausted(marked, initiator, e, links[1..]);
      var r := ProcessLinks(s, initiator, e, links);
      assert r.state == ProcessLinks(marked, initiator, e, links[1..]).state;
      IdsOfCons(links);
    }
  }

  /** First success wins: when link `w` is the first that yields, the
      article parsed from it is returned; it is marked `success` with empty
      meta, the links tried before it are left `failed`, and the links
      after it are not touched. */
  lemma {:induction false} ProcessLinksFirstSuccess(s: State, initiator: string, e: Env, links: seq<Link>, w: nat)
    requires w < |links| && Yields(links[w], initiator, e)
    requires forall i :: 0 <= i < w ==> !Yields(links[i], initiator, e)
    ensures var r := ProcessLinks(s, initiator, e, links);
      var lw := links[w];
      var pw := e.CallParse(e.CallFetch(lw.url).response, lw.url);
      && r.result == Some(ArticleFrom(pw, lw, e))
      && r.state.links.Keys == s.links.Keys
      && (forall id :: id in s.links ==>
            r.state.links[id] ==
              if id == lw.id then s.links[id].(status := Success, meta := "")
              else if id in IdsOf(links[..w]) then s.links[id].(status := Failed)
              else s.links[id])
      && r.state == s.(links := r.state.links)
    decreases w
  {
    var l := links[0];
    var marked := s.(links := WithStatus(s.links, l.id, Failed));
    if w > 0 {
      ProcessLinksFirstSuccess(marked, initiator, e, links[1..], w - 1);
      assert links[1..][w - 1] == links[w];
      IdsOfCons(links[..w]);
      assert links[..w][1..] == links[1..][..w - 1];
    }
  }

  /** The article the first yielding link gives carries that link's url as
      `source_url`, and its title is cleaned when the campaign's
      `_clean_title` meta is "on" and only entity-decoded otherwise. */
  lemma FirstSuccessArticle(s: State, initiator: string, e: Env, links: seq<Link>, w: nat)
    requires w < |links| && Yields(links[w], initiator, e)
    requires forall i :: 0 <= i < w ==> !Yields(links[i], initiator, e)
    ensures var r := ProcessLinks(s, initiator, e, links);
      var pw := e.CallParse(e.CallFetch(links[w].url).response, links[w].url);
      && r.result.Some?
      && r.result.value.sourceUrl == links[w].url
      && r.result.value.title
         == (if e.cleanTitleMeta == "on" then e.CallCleanTitle(pw.title) else e.CallDecodeEntities(pw.title))
      && r.result.value.content == pw.content
  {
    ProcessLinksFirstSuccess(s, initiator, e, links, w);
  }

  /** A link is tried only after all earlier ones failed: the result is an
      article exactly when some link yields. */
  lemma ProcessLinksSucceedsIff(s: State, initiator: string, e: Env, links: seq<Link>)
    ensures ProcessLinks(s, initiator, e, links).result.Some?
        <==> exists i :: 0 <= i < |links| && Yields(links[i], initiator, e)
  {
    if exists i :: 0 <= i < |links| && Yields(links[i], initiator, e) {
      var w := FirstYielding(links, initiator, e);
      ProcessLinksFirstSuccess(s, initiator, e, links, w);
    } else {
      ProcessLinksExhausted(s, initiator, e, links);
    }
  }

  /** The position of the first link that yields. */
  lemma FirstYielding(links: seq<Link>, initiator: string, e: Env) returns (w: nat)
    requires exists i :: 0 <= i < |links| && Yields(links[i], initiator, e)
    ensures w < |links| && Yields(links[w], initiator, e)
    ensures forall i :: 0 <= i < w ==> !Yields(links[i], initiator, e)
  {
    w := 0;
    while !Yields(links[w], initiator, e)
      invariant w < |links|
      invariant forall i :: 0 <= i < w ==> !Yields(links[i], initiator, e)
      invariant exists i :: w <= i < |links| && Yields(links[i], initiator, e)
      decreases |links| - w
    {
      w := w + 1;
    }
  }

  /** A fetch error skips the link only when the run was not started by
      cron. Under cron the error response is parsed, and the link yields
      exactly when that response parses; otherwise the attempt ends after
      the fetch, with nothing parsed. */
  lemma FetchErrorUnderCron(s: State, l: Link, initiator: string, e: Env)
    requires e.CallFetch(l.url).isError
    ensures var a := Attempt(s, l, initiator, e);
      && (initiator == Cron ==>
            && |a.calls| >= 3 && a.calls[2] == Parse(l.id, l.url)
            && (a.result.Some? <==> e.CallParse(e.CallFetch(l.url).response, l.url).Parsed?))
      && (initiator != Cron ==>
            a.result == None && a.calls == [SetStatus(l.id, Failed), Fetch(l.id, l.url)])
  {
  }

  // ---------------------------------------------------------------------
  // The order of calls

  /** Every fetch of a link comes right after that link is marked `failed`. */
  predicate MarkedBeforeFetch(calls: seq<Call>) {
    forall i :: 0 <= i < |calls| && calls[i].Fetch? ==>
      0 < i && calls[i - 1] == SetStatus(calls[i].id, Failed)
  }

  predicate MarksSuccess(call: Call) {
    call.SetStatus? && call.status == Success
  }

  predicate NoSuccessMark(calls: seq<Call>) {
    forall i :: 0 <= i < |calls| ==> !MarksSuccess(calls[i])
  }

  predicate NoSearch(calls: seq<Call>) {
    forall i :: 0 <= i < |calls| ==> !calls[i].Search?
  }

  /** The calls end with the winning attempt on the link `a` came from:
      mark failed, fetch, parse, mark success; and nothing before the last
      call marks success. */
  predicate EndsWithWin(calls: seq<Call>, a: Article) {
    var n := |calls|;
    && n >= 4
    && MarksSuccess(calls[n - 1])
    && calls[n - 2] == Parse(calls[n - 1].id, a.sourceUrl)
    && calls[n - 3] == Fetch(calls[n - 1].id, a.sourceUrl)
    && calls[n - 4] == SetStatus(calls[n - 1].id, Failed)
    && NoSuccessMark(calls[..n - 1])
  }

  /** The call discipline of the link loop, and of everything built on it. */
  predicate Disciplined(r: Run<Option<Article>>) {
    && MarkedBeforeFetch(r.calls)
    && (r.result.None? ==> NoSuccessMark(r.calls))
    && (r.result.Some? ==> EndsWithWin(r.calls, r.result.value))
  }

  lemma MarkedBeforeFetchAppend(a: seq<Call>, b: seq<Call>)
    requires MarkedBeforeFetch(a) && MarkedBeforeFetch(b)
    ensures MarkedBeforeFetch(a + b)
  {
    var calls := a + b;
    forall i | 0 <= i < |calls| && calls[i].Fetch?
      ensures 0 < i && calls[i - 1] == SetStatus(calls[i].id, Failed)
    {
      if i < |a| {
        assert calls[i] == a[i];
        assert 0 < i;
        assert calls[i - 1] == a[i - 1];
      } else {
        assert calls[i] == b[i - |a|];
        assert calls[i - 1] == b[i - |a| - 1];
      }
    }
  }

  lemma NoSuccessMarkAppend(a: seq<Call>, b: seq<Call>)
    requires NoSuccessMark(a) && NoSuccessMark(b)
    ensures NoSuccessMark(a + b)
  {
    forall i | 0 <= i < |a + b| ensures !MarksSuccess((a + b)[i]) {
      if i >= |a| {
        assert (a + b)[i] == b[i - |a|];
      }
    }
  }

  lemma NoSearchAppend(a: seq<Call>, b: seq<Call>)
    requires NoSearch(a) && NoSearch(b)
    ensures NoSearch(a + b)
  {
    forall i | 0 <= i < |a + b| ensures !(a + b)[i].Search? {
      if i >= |a| {
        assert (a + b)[i] == b[i - |a|];
      }
    }
  }

  /** Calls that keep the discipline and mark nothing `success` keep it
      when they come first. */
  lemma PrependDisciplined(pre: seq<Call>, r: Run<Option<Article>>)
    requires Disciplined(r) && MarkedBeforeFetch(pre) && NoSuccessMark(pre)
    ensures Disciplined(Prepend(pre, r))
  {
    MarkedBeforeFetchAppend(pre, r.calls);
    if r.result.None? {
      NoSuccessMarkAppend(pre, r.calls);
    } else {
      var n := |r.calls|;
      var calls := pre + r.calls;
      assert calls[..|calls| - 1] == pre + r.calls[..n - 1];
      NoSuccessMarkAppend(pre, r.calls[..n - 1]);
      assert calls[|calls| - 1] == r.calls[n - 1];
      assert calls[|calls| - 2] == r.calls[n - 2];
      assert calls[|calls| - 3] == r.calls[n - 3];
      assert calls[|calls| - 4] == r.calls[n - 4];
    }
  }

  /** One attempt keeps the call discipline and searches nothing. */
  lemma AttemptDisciplined(s: State, l: Link, initiator: string, e: Env)
    ensures Disciplined(Attempt(s, l, initiator, e))
    ensures NoSearch(Attempt(s, l, initiator, e).calls)
  {
  }

  /** The link loop keeps the call discipline and never searches. */
  lemma {:induction false} ProcessLinksDisciplined(s: State, initiator: string, e: Env, links: seq<Link>)
    ensures Disciplined(ProcessLinks(s, initiator, e, links))
    ensures NoSearch(ProcessLinks(s, initiator, e, links).calls)
    decreases |links|
  {
    if links != [] {
      var a := Attempt(s, links[0], initiator, e);
      AttemptDisciplined(s, links[0], initiator, e);
      if a.result.None? {
        var rest := ProcessLinks(a.state, initiator, e, links[1..]);
        ProcessLinksDisciplined(a.state, initiator, e, links[1..]);
        PrependDisciplined(a.calls, rest);
        NoSearchAppend(a.calls, rest.calls);
      }
    }
  }

  /** One keyword step keeps the call discipline. */
  lemma KeywordStepDisciplined(s: State, c: CampaignId, k: Keyword, initiator: string, e: Env)
    ensures Disciplined(KeywordStep(s, c, k, initiator, e))
  {
    if (c, k) !in s.deactivated {
      var cached := e.CallLookup(s.links, c, k);
      if cached == [] {
        var d := Discover(s, c, k, e);
        var reread := e.CallLookup(d.state.links, c, k);
        ProcessLinksDisciplined(d.state, initiator, e, reread);
        PrependDisciplined([Lookup(k)] + d.calls + [Lookup(k)], ProcessLinks(d.state, initiator, e, reread));
      } else {
        ProcessLinksDisciplined(s, initiator, e, cached);
        PrependDisciplined([Lookup(k)], ProcessLinks(s, initiator, e, cached));
      }
    }
  }

  lemma {:induction false} RunKeywordsDisciplined(s: State, c: CampaignId, keywords: seq<Keyword>, initiator: string, e: Env)
    ensures Disciplined(RunKeywords(s, c, keywords, initiator, e))
    decreases |keywords|
  {
    if keywords != [] {
      var r := KeywordStep(s, c, keywords[0], initiator, e);
      KeywordStepDisciplined(s, c, keywords[0], initiator, e);
      if r.result.None? {
        RunKeywordsDisciplined(r.state, c, keywords[1..], initiator, e);
        PrependDisciplined(r.calls, RunKeywords(r.state, c, keywords[1..], initiator, e));
      }
    }
  }

  /** The order of a whole run: every fetch of a link comes right after
      that link is marked `failed`; the result is an article exactly when the run's last call marks
      a link `success`, that link's fetch and parse (of the article's
      source url) come right before it, and no other call marks success. */
  lemma GetPostCallOrder(s: State, c: CampaignId, keywords: seq<Keyword>, initiator: string, e: Env)
    ensures var r := GetPostSpec(s, c, keywords, initiator, e);
      && MarkedBeforeFetch(r.calls)
      && (r.result.Post? <==> |r.calls| > 0 && MarksSuccess(r.calls[|r.calls| - 1]))
      && (r.result.Post? ==> EndsWithWin(r.calls, r.result.article))
      && (!r.result.Post? ==> NoSuccessMark(r.calls))
  {
    if keywords != [] && !EmptyString(e.apiKey) {
      RunKeywordsDisciplined(s, c, keywords, initiator, e);
    }
  }

  // ---------------------------------------------------------------------
  // The keyword loop

  /** A deactivated keyword is skipped: it makes no call and changes
      nothing, so the run goes on as if it were not in the list. */
  lemma DeactivatedSkipped(s: State, c: CampaignId, k: Keyword, rest: seq<Keyword>, initiator: string, e: Env)
    requires (c, k) in s.deactivated
    ensures RunKeywords(s, c, [k] + rest, initiator, e) == RunKeywords(s, c, rest, initiator, e)
  {
    assert ([k] + rest)[1..] == rest;
    var r := RunKeywords(s, c, rest, initiator, e);
    assert [] + r.calls == r.calls;
  }

  /** An active keyword is first looked up; discovery runs for it exactly
      when that lookup finds nothing, and then the lookup is repeated right
      after the discovery pass. */
  lemma DiscoversOnlyWhenEmpty(s: State, c: CampaignId, k: Keyword, initiator: string, e: Env)
    requires (c, k) !in s.deactivated
    ensures var r := KeywordStep(s, c, k, initiator, e);
      && |r.calls| >= 1 && r.calls[0] == Lookup(k)
      && ((exists i :: 0 <= i < |r.calls| && r.calls[i].Search?) <==> e.CallLookup(s.links, c, k) == [])
      && (e.CallLookup(s.links, c, k) == [] ==>
            var d := Discover(s, c, k, e);
            |r.calls| >= |d.calls| + 2 && r.calls[1..|d.calls| + 1] == d.calls
            && r.calls[|d.calls| + 1] == Lookup(k))
  {
    var r := KeywordStep(s, c, k, initiator, e);
    var cached := e.CallLookup(s.links, c, k);
    if cached == [] {
      var d := Discover(s, c, k, e);
      DiscoverQueriesCursorPage(s, c, k, e);
      var pre := [Lookup(k)] + d.calls + [Lookup(k)];
      assert r.calls == pre + ProcessLinks(d.state, initiator, e, e.CallLookup(d.state.links, c, k)).calls;
      assert r.calls[1] == d.calls[0];
    } else {
      var rest := ProcessLinks(s, initiator, e, cached);
      ProcessLinksDisciplined(s, initiator, e, cached);
      assert r.calls == [Lookup(k)] + rest.calls;
      forall i | 0 <= i < |r.calls| ensures !r.calls[i].Search? {
        if i > 0 {
          assert r.calls[i] == rest.calls[i - 1];
        }
      }
    }
  }

  /** One keyword whose store is empty and whose search fails: the run ends
      with `campaign-error`, and the only change is that the keyword is
      deactivated. */
  lemma SingleKeywordExhausted(s: State, c: CampaignId, k: Keyword, initiator: string, e: Env)
    requires !EmptyString(e.apiKey) && (c, k) !in s.deactivated && e.CallLookup(s.links, c, k) == []
    requires var r := e.CallSearch(SearchArgsFor(e.apiKey, k, PageNumber(s, c, e.CallUniqueKey(k))));
      r.TransportError? || r.items.None? || r.items.value == []
    ensures var r := GetPostSpec(s, c, [k], initiator, e);
      && r.result == WpError("campaign-error", NoArticle)
      && r.state == s.(deactivated := s.deactivated + {(c, k)})
      && (c, k) in r.state.deactivated
  {
    DiscoverFailureDeactivates(s, c, k, e);
    var step := KeywordStep(s, c, k, initiator, e);
    assert step.result == None && step.state == s.(deactivated := s.deactivated + {(c, k)});
    assert [k][1..] == [];
    assert RunKeywords(step.state, c, [k][1..], initiator, e) == Run(None, step.state, []);
    assert RunKeywords(s, c, [k], initiator, e).state == step.state;
    assert RunKeywords(s, c, [k], initiator, e).result == None;
  }

  // ---------------------------------------------------------------------
  // Which links were tried

  /** No link fetched in `calls` yields an article. */
  predicate FetchedFail(calls: seq<Call>, initiator: string, e: Env) {
    forall i :: 0 <= i < |calls| && calls[i].Fetch? ==> !UrlYields(calls[i].url, initiator, e)
  }

  /** Every link fetched failed, except, when there is an article, the
      winning link, whose fetch is the third call from the end. */
  predicate LosersFail(r: Run<Option<Article>>, initiator: string, e: Env) {
    if r.result.None? then FetchedFail(r.calls, initiator, e)
    else
      var n := |r.calls|;
      && n >= 3
      && FetchedFail(r.calls[..n - 3], initiator, e)
      && r.calls[n - 3].Fetch? && UrlYields(r.calls[n - 3].url, initiator, e)
  }

  lemma FetchedFailAppend(a: seq<Call>, b: seq<Call>, initiator: string, e: Env)
    requires FetchedFail(a, initiator, e) && FetchedFail(b, initiator, e)
    ensures FetchedFail(a + b, initiator, e)
  {
    forall i | 0 <= i < |a + b| && (a + b)[i].Fetch? ensures !UrlYields((a + b)[i].url, initiator, e) {
      if i >= |a| {
        assert (a + b)[i] == b[i - |a|];
      }
    }
  }

  /** Calls whose fetches all failed keep `LosersFail` when they come first. */
  lemma PrependLosersFail(pre: seq<Call>, r: Run<Option<Article>>, initiator: string, e: Env)
    requires LosersFail(r, initiator, e) && FetchedFail(pre, initiator, e)
    ensures LosersFail(Prepend(pre, r), initiator, e)
  {
    if r.result.None? {
      FetchedFailAppend(pre, r.calls, initiator, e);
    } else {
      var n := |r.calls|;
      var calls := pre + r.calls;
      assert calls[..|calls| - 3] == pre + r.calls[..n - 3];
      FetchedFailAppend(pre, r.calls[..n - 3], initiator, e);
      assert calls[|calls| - 3] == r.calls[n - 3];
    }
  }

  lemma AttemptLosersFail(s: State, l: Link, initiator: string, e: Env)
    ensures LosersFail(Attempt(s, l, initiator, e), initiator, e)
  {
    var a := Attempt(s, l, initiator, e);
    if a.result.Some? {
      assert a.calls[..|a.calls| - 3] == [SetStatus(l.id, Failed)];
    }
  }

  lemma {:induction false} ProcessLinksLosersFail(s: State, initiator: string, e: Env, links: seq<Link>)
    ensures LosersFail(ProcessLinks(s, initiator, e, links), initiator, e)
    decreases |links|
  {
    if links != [] {
      var a := Attempt(s, links[0], initiator, e);
      AttemptLosersFail(s, links[0], initiator, e);
      if a.result.None? {
        ProcessLinksLosersFail(a.state, initiator, e, links[1..]);
        PrependLosersFail(a.calls, ProcessLinks(a.state, initiator, e, links[1..]), initiator, e);
      }
    }
  }

  lemma KeywordStepLosersFail(s: State, c: CampaignId, k: Keyword, initiator: string, e: Env)
    ensures LosersFail(KeywordStep(s, c, k, initiator, e), initiator, e)
  {
    if (c, k) !in s.deactivated {
      var cached := e.CallLookup(s.links, c, k);
      if cached == [] {
        var d := Discover(s, c, k, e);
        var reread := e.CallLookup(d.state.links, c, k);
        var pre := [Lookup(k)] + d.calls + [Lookup(k)];
        DiscoverFetchesNothing(s, c, k, e);
        forall i | 0 <= i < |pre| ensures !pre[i].Fetch? {
          if 0 < i < |pre| - 1 {
            assert pre[i] == d.calls[i - 1];
          }
        }
        ProcessLinksLosersFail(d.state, initiator, e, reread);
        PrependLosersFail(pre, ProcessLinks(d.state, initiator, e, reread), initiator, e);
      } else {
        ProcessLinksLosersFail(s, initiator, e, cached);
        PrependLosersFail([Lookup(k)], ProcessLinks(s, initiator, e, cached), initiator, e);
      }
    }
  }

  lemma {:induction false} RunKeywordsLosersFail(s: State, c: CampaignId, keywords: seq<Keyword>, initiator: string, e: Env)
    ensures LosersFail(RunKeywords(s, c, keywords, initiator, e), initiator, e)
    decreases |keywords|
  {
    if keywords != [] {
      var r := KeywordStep(s, c, keywords[0], initiator, e);
      KeywordStepLosersFail(s, c, keywords[0], initiator, e);
      if r.result.None? {
        RunKeywordsLosersFail(r.state, c, keywords[1..], initiator, e);
        PrependLosersFail(r.calls, RunKeywords(r.state, c, keywords[1..], initiator, e), initiator, e);
      }
    }
  }

  /** A run that passes the fail-fast checks ends with `campaign-error`
      exactly when every link it fetched failed to yield an article, and
      exactly when it marked no link `success`. */
  lemma CampaignErrorIffTriedLinksFail(s: State, c: CampaignId, keywords: seq<Keyword>, initiator: string, e: Env)
    requires keywords != [] && !EmptyString(e.apiKey)
    ensures var r := GetPostSpec(s, c, keywords, initiator, e);
      && (r.result == WpError("campaign-error", NoArticle) <==> FetchedFail(r.calls, initiator, e))
      && (r.result == WpError("campaign-error", NoArticle) <==> NoSuccessMark(r.calls))
  {
    var r := GetPostSpec(s, c, keywords, initiator, e);
    RunKeywordsLosersFail(s, c, keywords, initiator, e);
    GetPostCallOrder(s, c, keywords, initiator, e);
    if r.result.Post? {
      var n := |r.calls|;
      assert r.calls[n - 3].Fetch? && UrlYields(r.calls[n - 3].url, initiator, e);
      assert MarksSuccess(r.calls[n - 1]);
    }
  }

  // ---------------------------------------------------------------------
  // What a run may change

  /** `t` is reachable from `s` by the run's own writes: links keep their
      ids, no link disappears, ids only grow, deactivated keywords stay
      deactivated, and no page cursor moves back. */
  ghost predicate Progressed(s: State, t: State) {
    && s.links.Keys <= t.links.Keys
    && s.nextId <= t.nextId
    && s.deactivated <= t.deactivated
    && (forall key :: key in s.cursor ==> key in t.cursor && s.cursor[key] <= t.cursor[key])
  }

  lemma DiscoverProgresses(s: State, c: CampaignId, k: Keyword, e: Env)
    requires WellFormed(s)
    ensures var t := Discover(s, c, k, e).state;
      WellFormed(t) && Progressed(s, t) && t.disabled == s.disabled
  {
    DiscoverWellFormed(s, c, k, e);
    var r := e.CallSearch(SearchArgsFor(e.apiKey, k, PageNumber(s, c, e.CallUniqueKey(k))));
    if r.Answer? && r.items.Some? && r.items.value != [] {
      InsertAllKeeps(s.links, s.nextId, AcceptedRows(r.items.value, c, k, e), e.admits);
    }
  }

  lemma {:induction false} ProcessLinksProgresses(s: State, initiator: string, e: Env, links: seq<Link>)
    requires WellFormed(s)
    ensures var t := ProcessLinks(s, initiator, e, links).state;
      WellFormed(t) && Progressed(s, t) && t.disabled == s.disabled
    decreases |links|
  {
    if links != [] {
      var a := Attempt(s, links[0], initiator, e);
      assert WellFormed(a.state) && Progressed(s, a.state);
      if a.result.None? {
        ProcessLinksProgresses(a.state, initiator, e, links[1..]);
      }
    }
  }

  lemma KeywordStepProgresses(s: State, c: CampaignId, k: Keyword, initiator: string, e: Env)
    requires WellFormed(s)
    ensures var t := KeywordStep(s, c, k, initiator, e).state;
      WellFormed(t) && Progressed(s, t) && t.disabled == s.disabled
  {
    if (c, k) !in s.deactivated {
      var cached := e.CallLookup(s.links, c, k);
      if cached == [] {
        var d := Discover(s, c, k, e);
        DiscoverProgresses(s, c, k, e);
        ProcessLinksProgresses(d.state, initiator, e, e.CallLookup(d.state.links, c, k));
      } else {
        ProcessLinksProgresses(s, initiator, e, cached);
      }
    }
  }

  lemma {:induction false} RunKeywordsProgresses(s: State, c: CampaignId, keywords: seq<Keyword>, initiator: string, e: Env)
    requires WellFormed(s)
    ensures var t := RunKeywords(s, c, keywords, initiator, e).state;
      WellFormed(t) && Progressed(s, t) && t.disabled == s.disabled
    decreases |keywords|
  {
    if keywords != [] {
      var r := KeywordStep(s, c, keywords[0], initiator, e);
      KeywordStepProgresses(s, c, keywords[0], initiator, e);
      if r.result.None? {
        RunKeywordsProgresses(r.state, c, keywords[1..], initiator, e);
      }
    }
  }

  /** A run keeps the links table well formed and only moves the state
      forward; it disables the campaign only when the API key is missing. */
  lemma GetPostProgresses(s: State, c: CampaignId, keywords: seq<Keyword>, initiator: string, e: Env)
    requires WellFormed(s)
    ensures var t := GetPostSpec(s, c, keywords, initiator, e).state;
      && WellFormed(t) && Progressed(s, t)
      && (t.disabled == s.disabled || (keywords != [] && EmptyString(e.apiKey) && t.disabled == s.disabled + {c}))
  {
    if keywords != [] && !EmptyString(e.apiKey) {
      RunKeywordsProgresses(s, c, keywords, initiator, e);
    }
  }
}
