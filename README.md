# wp-content-pilot article pipeline in Dafny

This project models the article module of the WordPress plugin
wp-content-pilot (`WPCP_Article`). The module turns a campaign's keywords into
one article. It has two parts:

- `get_post` is the orchestrator. It fails fast when the keyword list or the
  API key is missing. Then it walks the keywords in order, skips deactivated
  ones, and reads each keyword's cached links. When a keyword has none, it
  runs a discovery pass and reads again. It tries each link in turn: mark it
  `failed`, fetch it, parse it. The first link that parses becomes the
  article and is marked `success`.
- `discover_links` is the discovery pass. It asks the search API for the
  page the keyword's cursor names. On a transport error or an empty result
  it deactivates the keyword. Otherwise it unwraps each result link
  (`&r=`, then `&url=`, then `urldecode`). It drops links that name
  tripadvisor, bing or wikipedia, duplicate URLs and titles a filter skips.
  The rest go to the store as one batch, and the cursor moves on one page.

Modules:

- `Wrappers`: `Option`.
- `Model`: the entities and the persistent state.
  - The entities are links, result items, articles and outcomes.
  - The state is the links table, the page cursors, the deactivated keywords
    and the disabled campaigns.
  - The collaborators the module calls are the fields of `Env`, each a fixed
    function of its inputs.
  - `Call` is the trace of observable calls.
- `Text`: the PHP string functions the pass relies on: `explode`,
  `stristr` (ASCII case folding), `urldecode`, and `urlencode` as its
  inverse.
- `LinkStore`: the store and meta operations as functions on the state.
- `Discovery`: `discover_links` as a function `Discover` from the state
  before the pass to result, new state and calls. Lemmas about it follow.
- `Orchestrator`: `get_post` as `GetPostSpec`, built from `Attempt` (one
  link), `ProcessLinks` (the link loop), `KeywordStep` and `RunKeywords`
  (the keyword loop). Lemmas about it follow.
- `Campaign`: class `WpcpArticle`.
  - The state `get_post` and `discover_links` update in place is its fields,
    plus a ghost trace of calls.
  - `GetPost`, `DiscoverLinks` and their helpers are methods with the
    source's loops.
  - Each method is proved to produce exactly the result, new state and calls
    of its specification function.

## Model

| member | source | states |
|---|---|---|
| Campaign.WpcpArticle.GetPost | includes/modules/class-wpcp-article.php:177-277 | The run returns, leaves and records exactly what `GetPostSpec` says: the fail-fast errors, then the keyword loop that stops at the first article, else `campaign-error` |
| Campaign.WpcpArticle.ProcessKeyword | includes/modules/class-wpcp-article.php:213-271 | One active keyword: look up cached links, discover and look up again when there are none, then try them, as `KeywordStep` says |
| Campaign.WpcpArticle.DiscoverAndReread | includes/modules/class-wpcp-article.php:216-220 | With no cached links, a discovery pass runs and its links are read again from the state it leaves |
| Campaign.WpcpArticle.TryLinks | includes/modules/class-wpcp-article.php:223-271 | The link loop tries candidates in order and stops at the first that yields, as `ProcessLinks` says |
| Campaign.WpcpArticle.TryLink | includes/modules/class-wpcp-article.php:226-270 | One link: marked `failed`, fetched, abandoned on a non-cron fetch error, parsed, abandoned on a parse error, else built into the article and marked `success`, as `Attempt` says |
| Campaign.WpcpArticle.DiscoverLinks | includes/modules/class-wpcp-article.php:288-404 | The pass returns, leaves and records exactly what `Discover` says |
| Campaign.WpcpArticle.AcceptItems | includes/modules/class-wpcp-article.php:354-396 | The item loop builds exactly `AcceptedRows`: banned hosts have no effect, then the word, duplicate-URL and skip-title checks drop items |
| Campaign.WpcpArticle.InsetLinks | includes/modules/class-wpcp-article.php:398 | Each admitted row is stored under the next id, as `InsertAll` says, and the count returned is the number stored |
| Campaign.WpcpArticle.MarkFailed | includes/modules/class-wpcp-article.php:226 | Only that row's status changes, to `failed` |
| Campaign.WpcpArticle.MarkSuccess | includes/modules/class-wpcp-article.php:268 | Only that row changes: status `success`, meta emptied |
| Campaign.WpcpArticle.DeactivateKey | includes/modules/class-wpcp-article.php:317 | The keyword joins the deactivated set; nothing else changes |
| Campaign.WpcpArticle.DisableCampaign | includes/modules/class-wpcp-article.php:188 | The campaign joins the disabled set; nothing else changes |
| Campaign.WpcpArticle.UpdatePageNumber | includes/modules/class-wpcp-article.php:400 | Only the cursor of that campaign and page key changes |
| Campaign.WpcpArticle.GetLinks | includes/modules/class-wpcp-article.php:215 | Returns the store's links for the keyword and changes nothing |
| Campaign.WpcpArticle.constructor | includes/modules/class-wpcp-article.php:177 | The object starts from a given state with an empty trace |
| Orchestrator.NoKeywordsFailsFast | includes/modules/class-wpcp-article.php:180-183 | No keywords gives `missing-data` with no state change and no call |
| Orchestrator.NoApiKeyDisables | includes/modules/class-wpcp-article.php:185-194 | An API key that PHP `empty()` rejects ("" or "0") disables the campaign and gives `missing-data` before any keyword is looked at |
| Orchestrator.ProcessLinksExhausted | includes/modules/class-wpcp-article.php:223-244 | When no link yields, every tried row is left `failed`, nothing else changes and the result is none |
| Orchestrator.ProcessLinksFirstSuccess | includes/modules/class-wpcp-article.php:223-271 | The first yielding link wins with the article parsed from it. It is marked `success` with empty meta, the earlier links are left `failed` and later links are untouched |
| Orchestrator.FirstSuccessArticle | includes/modules/class-wpcp-article.php:246-265 | The winning article carries the link's url as `source_url`, the parsed content, and the cleaned or entity-decoded title, chosen by `_clean_title` |
| Orchestrator.ProcessLinksSucceedsIff | includes/modules/class-wpcp-article.php:223-271 | The link loop gives an article if and only if some link yields |
| Orchestrator.FirstYielding | includes/modules/class-wpcp-article.php:223-271 | When some link yields, there is a first one, and no earlier link yields |
| Orchestrator.GetPostCallOrder | includes/modules/class-wpcp-article.php:199-276 | Every fetch of a link comes right after that same link is marked `failed`. The run gives an article if and only if its last call marks `success`. That call is preceded by the fetch and parse of the article's source url, and nothing else marks `success` |
| Orchestrator.DeactivatedSkipped | includes/modules/class-wpcp-article.php:202-211 | A deactivated keyword makes no call and changes nothing; the run goes on as if it were absent |
| Orchestrator.DiscoversOnlyWhenEmpty | includes/modules/class-wpcp-article.php:215-220 | An active keyword is looked up first. A search happens if and only if the lookup is empty, and the second lookup follows the pass right away |
| Orchestrator.SingleKeywordExhausted | includes/modules/class-wpcp-article.php:215-220 | One keyword with no cached links and a failing search ends in `campaign-error`, and the only change is that the keyword is deactivated |
| Orchestrator.FetchErrorUnderCron | includes/modules/class-wpcp-article.php:229-244 | On a fetch error, a run started by cron parses the error response, and the link yields if and only if that response parses. Any other initiator ends the attempt after the fetch, with no parse and no article |
| Orchestrator.CampaignErrorIffTriedLinksFail | includes/modules/class-wpcp-article.php:199-276 | A run past the fail-fast checks ends in `campaign-error` if and only if every link it fetched failed to yield an article, and if and only if it marked no link `success` |
| Orchestrator.GetPostProgresses | includes/modules/class-wpcp-article.php:177-277 | A run keeps the links table well formed. No link disappears, ids only grow, deactivated keywords stay deactivated and cursors never move back. The campaign is disabled only for a missing API key |
| Discovery.DiscoverQueriesCursorPage | includes/modules/class-wpcp-article.php:289-313 | A pass makes one search, as its first call, for the keyword at offset cursor page × 10 |
| Discovery.DiscoverGivesUp | includes/modules/class-wpcp-article.php:315-337 | A transport error or a response without items gives the matching outcome, deactivates the keyword, and records only the search |
| Discovery.DiscoverFailureDeactivates | includes/modules/class-wpcp-article.php:315-337 | Under the same conditions, only the deactivated set changes; the cursor stays put |
| Discovery.DiscoverSuccessAdvancesCursor | includes/modules/class-wpcp-article.php:398-401 | A pass with items moves only this keyword's cursor, by one, and deactivates and disables nothing. It reports as found the number of rows that passed the filter and as inserted the number the store admitted, so inserted never exceeds found |
| Discovery.ConsecutivePassesPage | includes/modules/class-wpcp-article.php:290-303 | Two consecutive passes that both get items ask for offsets 10 apart |
| Discovery.PassesAdvanceCursor | includes/modules/class-wpcp-article.php:400 | After n passes that each get items, the cursor stands n pages further |
| Discovery.PassesWalkPages | includes/modules/class-wpcp-article.php:290-303 | ... so the next pass asks for offset (start page + n) × 10 |
| Discovery.DiscoverFetchesNothing | includes/modules/class-wpcp-article.php:288-404 | A pass calls only the search and the store |
| Discovery.DiscoverStoresBatch | includes/modules/class-wpcp-article.php:390-398 | A pass with items stores the admitted batch rows, in batch order, under consecutive new ids. Each is a new `pending` link with its entry's url, title, keyword and campaign. Rows already stored are unchanged and no other id appears |
| Discovery.StoreStoresBatch | includes/modules/class-wpcp-article.php:398 | The same facts for the insertion step of a pass, for any batch |
| Discovery.DiscoverStoresAccepted | includes/modules/class-wpcp-article.php:357-398 | Every link a pass stores comes from a result that passed the filter, with that result's unwrapped, escaped link as its url |
| Discovery.DiscoverWellFormed | includes/modules/class-wpcp-article.php:398 | A pass keeps the links table well formed |
| Discovery.UnwrapPlain | includes/modules/class-wpcp-article.php:358-365 | A link with neither marker is only percent-decoded |
| Discovery.UnwrapFirstRedirect | includes/modules/class-wpcp-article.php:360-365 | In `a&r=b` with no `&r=` in `a`, the candidate is the decoded text of `b` up to its first `&r=`, whatever `&url=` it holds |
| Discovery.UnwrapRedirect | includes/modules/class-wpcp-article.php:360-365 | `a&r=b` with one `&r=` gives the decoded `b`, whatever `&url=` it holds |
| Discovery.UnwrapUrlParameter | includes/modules/class-wpcp-article.php:360-365 | `a&url=b` with no `&r=` and one `&url=` gives the decoded `b` |
| Discovery.UrlWrapperHasNoRedirectMarker | includes/modules/class-wpcp-article.php:360-362 | `a&url=b` with no `&` in `a` or `b` holds no `&r=`, so the `&url=` split applies |
| Discovery.UnwrapQueryStartKeepsWrapper | includes/modules/class-wpcp-article.php:360-365 | A target behind `?url=` is not unwrapped: the link is only decoded |
| Discovery.RejectedWordsSpelled | includes/modules/class-wpcp-article.php:373-379 | The rejected-word list is exactly the three `stristr` checks |
| Discovery.RejectedWordIsStristr | includes/modules/class-wpcp-article.php:373-379 | For the lower-case words checked, folding only the link agrees with case-insensitive search |
| Discovery.RejectedAnyCase | includes/modules/class-wpcp-article.php:373-379 | A link holding tripadvisor, bing or wikipedia in any mix of cases is rejected |
| Discovery.FoldedWordRejected | includes/modules/class-wpcp-article.php:373-379 | A link whose case-folded text holds any of the three words is rejected |
| Discovery.BannedHostLinkKept | includes/modules/class-wpcp-article.php:342-396 | A result whose link holds a built-in banned host (`youtube.com`, `yahoo`, ...) is still in the batch when the word checks, the duplicate check and the title filter let it through |
| Discovery.BannedHostsNeverReject | includes/modules/class-wpcp-article.php:342-371 | Any `banned_hosts` setting gives the same pass: outcome, state and calls |
| Discovery.AcceptedRowsAppend | includes/modules/class-wpcp-article.php:357-396 | The batch of concatenated results is the concatenation of the batches, so it keeps result order |
| Discovery.AcceptedRowsMembership | includes/modules/class-wpcp-article.php:357-396 | A row is in the batch if and only if some accepted result produces it |
| Discovery.AcceptedRowsAreForKeyword | includes/modules/class-wpcp-article.php:390-395 | Every batch entry names the keyword and campaign being searched |
| LinkStore.InsertAllKeeps | includes/modules/class-wpcp-article.php:398 | Inserting keeps old rows, puts each new id on a new `pending` row, and adds no other id |
| LinkStore.InsertAllStores | includes/modules/class-wpcp-article.php:398 | The new ids hold the admitted rows, in batch order, one per id: each is `NewLink(id, row)` with the row's url, title, keyword and campaign. The next id grows by the number admitted |
| LinkStore.AdmittedSubsequence | includes/modules/class-wpcp-article.php:398 | The admitted rows are the batch with some rows left out, the rest in order |
| LinkStore.AdmittedAll | includes/modules/class-wpcp-article.php:398 | When the store admits every row, the whole batch is stored |
| LinkStore.InsertAllWellFormed | includes/modules/class-wpcp-article.php:398 | Inserting keeps the links table well formed |
| Text.FindFromFirst | includes/modules/class-wpcp-article.php:360-362 | The search finds the first occurrence at or after the start, or reports none when there is none |
| Text.JoinExplode | includes/modules/class-wpcp-article.php:360-362 | Joining `explode`'s pieces with the delimiter gives back the string |
| Text.ExplodeSplitsIffContains | includes/modules/class-wpcp-article.php:361 | `explode` gives one piece if and only if the delimiter does not occur |
| Text.ExplodePiecesFree | includes/modules/class-wpcp-article.php:360-364 | No piece of `explode` holds the delimiter |
| Text.ExplodeFree | includes/modules/class-wpcp-article.php:360-364 | A string without the delimiter explodes to itself |
| Text.ContainsFoldedIsCI | includes/modules/class-wpcp-article.php:373-378 | For a needle without capitals, folding only the haystack is `stristr` |
| Text.ContainsAnyFoldedIff | includes/modules/class-wpcp-article.php:373-378 | Holding any word of a list is holding some one of them |
| Text.ContainsCIAnyCase | includes/modules/class-wpcp-article.php:373-378 | Case-insensitive search finds the needle in any mix of cases |
| Text.UrlDecodeEncode | includes/modules/class-wpcp-article.php:365 | `urldecode` inverts `urlencode` on byte strings |
| Text.UrlDecodePlain | includes/modules/class-wpcp-article.php:365 | Text with no `+` and no `%` decodes to itself |

## Left out

- Collaborators are parameters of `Env`, each a fixed function of its inputs. This covers:
  - the HTTP client (`setup_curl`, `get`, `isError`);
  - `WPCP_Readability`;
  - the `wpcp_article_search_args` and `wpcp_skip_duplicate_title` filters;
  - `wpcp_is_duplicate_url`, `esc_url`, `html_entity_decode` and `wpcp_clean_title`;
  - `get_unique_key`;
  - the settings and the campaign meta.
- Their code is not part of this model. A collaborator that answers differently on a second call with the same inputs is not captured.
- The store operations of the parent module `WPCP_Module` are not part of this model: `get_links`, `inset_links`, `update_link`, `is_deactivated_key` and `deactivate_key`.
  - `get_links` is modelled as a query of the links table. The model does not assume it returns only pending rows.
  - `inset_links` stores each row that a store-supplied test admits. The model does not assume it skips duplicates.
- The one-hour clock of keyword deactivation, and reactivation, are left out. A deactivated keyword stays deactivated for the whole run.
- The logger calls, the admin URL in the `campaign-error` message, and the message texts are left out. A `WP_Error` is modelled by its code and a reason.
- The `json_encode`/`json_decode` round trip of the response is left out. The response is taken as already decoded.
- `add_query_arg`, `urlencode` and `trim` of the query arguments are left out. `SearchArgs` holds the raw values.
- The `wpcp_article_search_args` filter receives the campaign id, but `Env.search` takes only the arguments. A filter that rewrites the arguments per campaign is not captured.
- The `Search(args)` call in the trace records the arguments as built, before that filter runs.
- `discover_links` returns `true`, the raw response or a `WP_Error` in the source. It is modelled as `DiscoverOutcome`, which carries the found and inserted counts the log line reports (`Discovery.DiscoverSuccessAdvancesCursor` states both; the rejected count is their difference). `get_post` ignores this value.
- `stristr` and `urldecode` follow PHP 8 on ASCII text: case folding covers `A`-`Z` only, and strings are sequences of characters, not bytes.
- Hooks registered in the constructor, the admin settings UI, `get_module_config`, the campaign-type tables and the tracker are not part of the behaviour modelled.

Where the code and its apparent design differ, the model follows the code:

- The banned-host loop only continues itself, so no configured or built-in banned host (youtube, yahoo, ...) ever drops a link. `Campaign.WpcpArticle.AcceptItems` keeps the empty loop and is proved to build `AcceptedRows`, which never looks at a host (`Discovery.BannedHostLinkKept`, `Discovery.BannedHostsNeverReject`).
- The page cursor moves only when a pass reaches insertion. Passes that hit an error leave it unchanged (`Discovery.DiscoverFailureDeactivates`).
- Only `&url=` is unwrapped. A target behind `?url=` stays wrapped (`Discovery.UnwrapQueryStartKeepsWrapper`).
- Under `cron`, a fetch error does not skip the link: the error body is parsed (`Orchestrator.FetchErrorUnderCron`).
