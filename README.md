# TrendScript core, modelled in Dafny

TrendScript shows creators a dashboard of trending topics and generates content
scripts from them with a language model. This project models the logic inside that
system and proves properties of it:

- **Backend.**
  - The trend service: a fixed table of eight topics, filtered by category and
    platform, enriched by an AI analysis with a fallback, scored, sorted by score
    and cut to a limit. It also covers the deterministic hashtag generator, the
    substring search and the lookup by id.
  - The AI service's post-processing: the session id, the system message, the
    extraction of a JSON payload from a fenced or bare reply, field defaults, and
    the fallback script.
  - The HTTP handlers' response shaping: the search-or-list dispatch, echoed
    paging, 404 before generation, the catalogues and the platform statistics.
  - The record types and their defaults.
- **Frontend.**
  - The API client: the ordered conditional query string, and unwrapping the
    `{success, data, message}` envelope with a default message per operation.
  - Three screens as classes whose methods are the event handlers: the
    dashboard, the script generator and the application shell.
  - The trend card's classifiers.

Functions the backend cannot see are parameters:

- The AI analysis of a topic and the identifiers and instants of each trend
  (`TrendService.Environment`).
- `json.loads`, a partial parser returning `None` on a decode or shape error.
- The model's reply to a generation request (`Result<string>`).
- The generated id and instant of a script (`AiService.Stamp`).

On the frontend, every request is two events: the method that issues it and the
method that delivers its outcome. Timers are events as well.

Where the system's specification and its code differ, the model follows the
code:

- A fenced reply without a closing fence loses its last character: `find` returns
  -1 and the slice stops one before the end (`AiService.UnclosedFencePayload`).
- An analysis without `contentScore` raises `KeyError` before the `.get` default is
  reached, so the listing fails rather than defaulting. The fallback analysis
  always carries a score (`TrendService.CreateTrend`, `TrendService.FallbackAlwaysBuilds`).
- The progress bar can pass 100 while waiting: 85 plus a step of 19 is 104
  (`ScriptGenerator.ProgressCanPassHundred`).
- A failed generation never clears its progress interval, which keeps firing
  (`ScriptGenerator.FailedGenerationShowsFullError`).
- The dashboard applies every listing answer, including an answer to an earlier
  request that arrives after a later request began. No answer is discarded as stale.
- Choosing another sort order does not re-order the shown list: the sort key is not
  a dependency of any effect. Each answer is sorted by the key of the render whose
  `loadTrends` issued the request, so a sort change during a load does not affect
  that load (`TrendDashboard.Dashboard.SetSortBy`, `TrendDashboard.SortChangeDuringLoad`).
- Going back from the generator unmounts the dashboard, so a new dashboard starts
  with cleared filters.
- The keyword groups are substring tests. "Sustainable" contains "ai", so a
  fashion topic gets the AI tags (`HashtagGen.SubstringTriggerExample`).

## Model

| member | source | states |
|---|---|---|
| Models.NewPlatformEngagement | backend/models.py:21-30 | every counter of a default engagement is 0 and both rates are 0.0 |
| Models.NewTrendEngagement | backend/models.py:32-36 | the four platforms each default to the all-zero engagement |
| Models.NewTrend | backend/models.py:38-51 | hashtags, insights and angles default to empty; engagement defaults to all zeros; id, topic, platform, score, velocity, timeframe, category and both instants are the given ones |
| Models.NewRequest | backend/models.py:77-82 | custom prompt and session id default to None; the three required fields are kept |
| Models.NewApiResponse | backend/models.py:115-119 | data and error default to None and message to the empty string |
| TrendService.FallbackEnhancement | backend/services/trend_service.py:111-128 | the fallback analysis scores the topic with its base score, "Steady Growth", three insights and three angles, and keeps its category |
| TrendService.CreateTrend | backend/services/trend_service.py:130-155 | a trend is built exactly when the analysis succeeded with a score; topic and platform come from the table; hashtags come from the generator; the other fields come from the analysis, or the defaults when absent |
| TrendService.FallbackAlwaysBuilds | backend/services/trend_service.py:111-134 | when the analysis fails, the trend is built with the base score |
| TrendService.CollectOk | backend/services/trend_service.py:76-86 | collecting succeeds exactly when every kept topic yields a trend |
| TrendService.CollectShape | backend/services/trend_service.py:76-86 | a successful collection holds one trend per kept topic, in table order, with that topic's name and platform |
| TrendService.NoFilterKeepsAll | backend/services/trend_service.py:78-81 | a missing or empty category and platform keep every topic |
| TrendService.KeptMembers | backend/services/trend_service.py:78-81 | a topic is kept exactly when it is in the table and passes the filters: category equal ignoring case, platform equal exactly |
| TrendService.ListingProperties | backend/services/trend_service.py:74-90 | the listing is non-increasing in score and at most `limit` long; every trend comes from a kept topic; nothing is lost when the limit covers every kept topic |
| TrendService.PrefixSorted | backend/services/trend_service.py:89-90 | a prefix of a sorted list is sorted |
| TrendService.CollectTrends | backend/services/trend_service.py:74-86 | the filtering loop, with early exit on failure, computes the collection |
| TrendService.SortAndTake | backend/services/trend_service.py:89-90 | the in-place sort and the slice give the stable descending sort cut to `limit` |
| TrendService.GetTrendingTopics | backend/services/trend_service.py:66-90 | the method computes the listing of the fixed topic table |
| TrendService.MatchingMembers | backend/services/trend_service.py:282-289 | a trend matches exactly when its lower-cased topic, a hashtag or an insight contains the lower-cased query |
| TrendService.MatchingSorted | backend/services/trend_service.py:285-289 | filtering a score-sorted list keeps it sorted |
| TrendService.TakeMatching | backend/services/trend_service.py:285-292 | the first `limit` matches of a sorted list are a sorted prefix of all matches, each matching and listed, of length `limit` clamped to the match count, and all matches when `limit` covers them |
| TrendService.SearchResultProperties | backend/services/trend_service.py:268-295 | every result matches the query and is in the 100-trend listing; results are score-sorted and at most `limit` long; they are a prefix of the listing's matches, exactly `min(limit, matches)` of them, and every match when `limit` covers them; a failed listing gives the empty list |
| TrendService.SearchTrends | backend/services/trend_service.py:277-295 | the method computes the search result |
| TrendService.FilterMatching | backend/services/trend_service.py:283-289 | the matching loop computes the matching trends in order |
| TrendService.FindById | backend/services/trend_service.py:260-263 | the result is None exactly when no trend has the id; otherwise it is a trend of the list with that id |
| TrendService.GetTrendById | backend/services/trend_service.py:253-266 | the lookup loop over the 50-trend listing returns the first trend with the id, and None when none matches or the listing fails |
| HashtagGen.Dedup | backend/services/trend_service.py:239 | the result has no duplicates, holds exactly the input's elements, and keeps first-occurrence order |
| HashtagGen.FirstIndexPrefix | backend/services/trend_service.py:239 | appending leaves the first occurrence of an element unchanged |
| HashtagGen.Hashtags | backend/services/trend_service.py:207-241 | the first five of the de-duplicated candidates (all of them when fewer): a prefix of exactly `min(5, distinct candidates)` tags, without duplicates, each a candidate |
| HashtagGen.HashtagsInCandidateOrder | backend/services/trend_service.py:240-241 | the hashtags appear in the order in which the candidates first occur |
| HashtagGen.WordTagsExactly | backend/services/trend_service.py:211-218 | the word tags are exactly `#` plus the capitalised word, for the words longer than three characters |
| HashtagGen.WordTagsFirst | backend/services/trend_service.py:213-239 | a surviving word tag comes before a surviving group tag that is not also a word tag |
| HashtagGen.CandidateSplit | backend/services/trend_service.py:213-236 | the candidates are the word tags followed by the group tags, groups in fixed order |
| HashtagGen.NoWordTagIsAiTag | backend/services/trend_service.py:216-218 | no word produces "#AI" |
| HashtagGen.AiGroupTrigger | backend/services/trend_service.py:221-224 | "#AI" is a candidate exactly when the lower-cased topic contains "ai" or "artificial intelligence" |
| HashtagGen.SubstringTriggerExample | backend/services/trend_service.py:223 | "Sustainable Fashion Trends 2025" triggers the AI group |
| HashtagGen.CollectWordTags | backend/services/trend_service.py:216-218 | the word loop computes the word tags |
| HashtagGen.GenerateHashtags | backend/services/trend_service.py:207-241 | the generator's loop, five group tests, de-duplication and cut compute the hashtags |
| AiService.SessionId | backend/services/ai_service.py:25 | a non-empty session id in the request is used; otherwise "content_gen_" + trend id + "_" + template id |
| SystemPrompt.BaseInstruction | backend/services/ai_service.py:59-77 | a known template's instruction, otherwise the youtube-explainer one; always an instruction of the table |
| SystemPrompt.ToneInstruction | backend/services/ai_service.py:68-77 | a known tone's instruction, otherwise the professional one; always an instruction of the table |
| SystemPrompt.SystemMessageLayout | backend/services/ai_service.py:79-93 | the message opens with the template instruction and carries the tone instruction after "Tone: " |
| SystemPrompt.SystemMessageDefaults | backend/services/ai_service.py:76-77 | an unknown template or tone gives the same message as the default one |
| AiService.PayloadOf | backend/services/ai_service.py:160-171 | there is no payload exactly when the text has no "```json" and does not start with "{"; a bare object is the whole text |
| AiService.FindAfter | backend/services/ai_service.py:165 | `find` of the closing fence lands on the first backtick after the body |
| AiService.ClosedFencePayload | backend/services/ai_service.py:162-166 | a fenced reply yields the stripped text between the fences |
| AiService.UnclosedFencePayload | backend/services/ai_service.py:162-166 | a fence without a closing fence yields the body without its last character |
| AiService.SectionOf | backend/services/ai_service.py:177-183 | a section's missing name and duration default to "" and its missing content to [] |
| AiService.SectionsOf | backend/services/ai_service.py:177-183 | one section per parsed item, in order |
| AiService.ContentOf | backend/services/ai_service.py:186-200 | parsed fields are copied, with the defaults "Generated Content", "", "1K - 5K", "Intermediate" and [] |
| AiService.FallbackOutline | backend/services/ai_service.py:222-250 | the fallback outline has three sections of three lines each |
| AiService.FallbackKeywords | backend/services/ai_service.py:268 | the first four hashtags, or all of them followed by "trending" and "content"; two to five keywords |
| AiService.FallbackContent | backend/services/ai_service.py:213-271 | title "Content Script: " + topic; three sections; four key points; the keywords above; the first five hashtags; "2K - 8K"; "Beginner-friendly" |
| AiService.ParseResponse | backend/services/ai_service.py:146-211 | the inputs are always copied; no payload or an unparseable payload gives the fallback script; a parsed payload gives the parsed fields |
| AiService.ProseReplyFallsBack | backend/services/ai_service.py:167-171 | a reply with neither fence nor leading brace gives the fallback script |
| AiService.BuildOutline | backend/services/ai_service.py:177-183 | the outline loop computes the sections |
| AiService.ExtractJson | backend/services/ai_service.py:160-171 | the index arithmetic on `find` computes the payload |
| AiService.ParseAiResponse | backend/services/ai_service.py:146-211 | the method computes the parsed script |
| AiService.GenerateContentScript | backend/services/ai_service.py:15-54 | a script exactly when the model answered; the failure message is "Failed to generate content: " + the cause; the script copies the request and the chosen session |
| Server.Success | backend/server.py:132-141 | a success envelope carries its data and no error |
| Server.GetTrends | backend/server.py:105-147 | 500 with "Error retrieving trends: " + cause exactly when the selection fails; otherwise the trends with total equal to their count and page and limit echoed |
| Server.PageNeverFilters | backend/server.py:115 | two pages give the same outcome and the same trends |
| Server.TrendsDispatch | backend/server.py:117-129 | a truthy search uses the search, never fails, and passes category, platform and limit; otherwise the listing with the same arguments |
| Server.GetTrend | backend/server.py:149-168 | 404 "Trend not found" exactly when the lookup finds nothing; otherwise the trend found |
| Server.GenerateContent | backend/server.py:170-205 | 404 when the trend is missing; 500 with the wrapped message when the model fails; otherwise the script |
| Server.GeneratedForRequestedTrend | backend/server.py:182-199 | the script is answered under its own id, for the requested trend, as the anonymous user, in the chosen session |
| Server.NotFoundBeforeGeneration | backend/server.py:178-180 | for a missing trend the reply does not depend on the model |
| Server.GetContentTemplates | backend/server.py:207-218 | the five templates |
| Server.GetToneOptions | backend/server.py:220-240 | the six tones |
| Server.GetUserContentHistory | backend/server.py:242-257 | an empty history of total 0, whatever the limit |
| Catalog.TemplateCatalogue | backend/server.py:50-91 | five templates with the five distinct ids, exactly the ids the system message knows |
| Catalog.ToneCatalogue | backend/server.py:224-231 | six tones with the six distinct ids, exactly the tones the system message knows |
| Server.RoundHalfEven | backend/server.py:274 | the nearest integer to the quotient, within one half; an exact half goes to the even neighbour |
| Server.HighPotential | backend/server.py:267 | exactly the trends scoring at least 85, each as many times as in the listing and in no other multiplicity |
| Server.PlatformStats | backend/server.py:264-276 | total is the count; high potential is the count scoring 85 or more and at most the total; platforms is the number of distinct platforms; the average is 0 for no trends, else within one half of the mean, and even when the mean lies exactly halfway |
| Server.PlatformsAtMostTrends | backend/server.py:269 | there are no more distinct platforms than trends |
| Server.SumBounds | backend/server.py:268 | the score sum lies between count times the least and count times the greatest bound |
| Server.RoundedWithin | backend/server.py:274 | rounding a quotient that lies in a range stays in the range |
| Server.AverageWithinScores | backend/server.py:268-274 | the average lies between the least and greatest score bounds |
| Server.GetPlatformStats | backend/server.py:259-286 | 500 exactly when the 100-trend listing fails; otherwise its statistics |
| ApiClient.QueryPairsMembers | frontend/src/services/api.js:57-71 | each key is present exactly when its condition holds: a filter when truthy and not 'all', search, limit and page when truthy |
| ApiClient.QueryPairsOrdered | frontend/src/services/api.js:57-71 | keys come in the order category, platform, search, limit, page |
| ApiClient.ZeroIsOmitted | frontend/src/services/api.js:66-71 | a limit or page of 0 is omitted like a missing one |
| ApiClient.BuildQuery | frontend/src/services/api.js:55-71 | the five conditional appends compute the query parameters |
| ApiClient.QueryString | frontend/src/services/api.js:73 | the query string is empty exactly when there are no parameters |
| ApiClient.TrendsUrl | frontend/src/services/api.js:73 | "/trends" without parameters, else "/trends?" + the query |
| ApiClient.BareTrendsUrl | frontend/src/services/api.js:57-73 | the path is bare exactly when no parameter qualifies |
| ApiClient.TrendUrl | frontend/src/services/api.js:88-90 | the id follows "/trends/" unchanged |
| ApiClient.TrendUrlInjective | frontend/src/services/api.js:88-90 | different ids give different paths, none of them the bare listing path |
| ApiClient.HistoryUrl | frontend/src/services/api.js:168-170 | "/user/content-history?limit=" + the limit, 20 by default |
| ApiClient.Unwrap | frontend/src/services/api.js:76-80 | a transport error passes through; a success gives `data`; a refusal gives the server's message, or the default when it is empty |
| ApiClient.TrendingTopicsResult | frontend/src/services/api.js:73-84 | the listing's `data`, or the refusal's message with default "Failed to fetch trends", or the transport error |
| ApiClient.TrendByIdResult | frontend/src/services/api.js:88-101 | the trend `data`, or the refusal's message with default "Failed to fetch trend", or the transport error |
| ApiClient.GenerateContentResult | frontend/src/services/api.js:104-117 | the generation `data`, or the refusal's message with default "Failed to generate content", or the transport error |
| ApiClient.StatsResult | frontend/src/services/api.js:152-165 | the stats `data`, or the refusal's message with default "Failed to fetch stats", or the transport error |
| ApiClient.HistoryResult | frontend/src/services/api.js:168-181 | the history `data`, or the refusal's message with default "Failed to fetch content history", or the transport error |
| ApiClient.DefaultMessagesDistinct | frontend/src/services/api.js:76-180 | the seven default messages are pairwise different |
| ApiClient.RefusalHasMessage | frontend/src/services/api.js:92-96 | a refusal always carries a non-empty message |
| ApiClient.ContentTemplatesResult | frontend/src/services/api.js:120-133 | a success gives `data.templates`; a failure gives the unwrapped message |
| ApiClient.ToneOptionsResult | frontend/src/services/api.js:136-149 | a success gives `data.tones`; a failure gives the unwrapped message |
| TrendDashboard.LoadQuery | frontend/src/components/TrendDashboard.jsx:47-60 | the request always has limit 20 and page 1; search exactly when the trimmed term is not empty; a filter exactly when it is neither 'all' nor empty |
| TrendDashboard.ClearedFiltersUrl | frontend/src/components/TrendDashboard.jsx:47-60 | with cleared filters the path is "/trends?limit=20&page=1" |
| TrendDashboard.ArrangedProperties | frontend/src/components/TrendDashboard.jsx:64-70 | the shown list is a permutation of the fetched one, non-increasing in score or in creation instant, stable; other keys leave it as fetched |
| TrendDashboard.ArrangeFetched | frontend/src/components/TrendDashboard.jsx:64-71 | the in-place sort computes the arranged list |
| TrendDashboard.Dashboard.constructor | frontend/src/components/TrendDashboard.jsx:13-40 | the initial state: no trends, loading, no error, no filters, sort by score, stats 0/0/0/4, a reload armed whose closure sorts by score |
| TrendDashboard.Dashboard.BeginLoad | frontend/src/components/TrendDashboard.jsx:42-62 | loading on and error cleared; the parameters are those of the current filters, and the answer's sort key is the one current now |
| TrendDashboard.Dashboard.CompleteLoad | frontend/src/components/TrendDashboard.jsx:62-79 | success replaces the list with the page arranged by the key its request captured, whatever the sort key is now; failure or null data sets the fixed message and keeps the list; loading ends |
| TrendDashboard.Dashboard.CompleteStats | frontend/src/components/TrendDashboard.jsx:82-90 | success replaces the stats; failure keeps them |
| TrendDashboard.Dashboard.SetSearchTerm | frontend/src/components/TrendDashboard.jsx:34-40 | a changed term arms the reload, with the current sort key captured; an unchanged one leaves the armed key alone |
| TrendDashboard.Dashboard.SetCategory | frontend/src/components/TrendDashboard.jsx:34-40 | a changed category arms the reload, with the current sort key captured; an unchanged one leaves the armed key alone |
| TrendDashboard.Dashboard.SetPlatform | frontend/src/components/TrendDashboard.jsx:34-40 | a changed platform arms the reload, with the current sort key captured; an unchanged one leaves the armed key alone |
| TrendDashboard.Dashboard.SetSortBy | frontend/src/components/TrendDashboard.jsx:40 | a new sort key neither re-sorts, nor arms a reload, nor changes the key an armed reload sorts by |
| TrendDashboard.Dashboard.DebounceElapsed | frontend/src/components/TrendDashboard.jsx:35-37 | the armed timer starts a load with the current filters and the sort key captured when it was armed, and disarms |
| TrendDashboard.Dashboard.Retry | frontend/src/components/TrendDashboard.jsx:247-254 | "Retry" starts a load with the current filters and the sort key current at the click |
| TrendDashboard.Dashboard.ClearFilters | frontend/src/components/TrendDashboard.jsx:286-290 | the filters become '', 'all', 'all', no filter is active, and a reload is armed, capturing the current sort key, when one was |
| TrendDashboard.Dashboard.View | frontend/src/components/TrendDashboard.jsx:229-310 | skeleton exactly while loading; the empty block exactly when loaded and empty, offering "Clear Filters" and the adjust-your-filters hint exactly when a filter is active and the no-trends hint otherwise; otherwise the grid; the banner is only ever the fixed load failure |
| TrendDashboard.FailedReloadKeepsList | frontend/src/components/TrendDashboard.jsx:42-79 | after a good load and a failed retry, the banner shows over the earlier list |
| TrendDashboard.SortChangeDuringLoad | frontend/src/components/TrendDashboard.jsx:28-70 | a sort change during the mount load leaves its answer sorted by score; the armed timer still sorts by score; a later retry sorts by the new key |
| ScriptGenerator.TickProperties | frontend/src/components/ScriptGenerator.jsx:86-91 | a tick never lowers the progress, leaves 90 or more unchanged and stays below 110 |
| ScriptGenerator.TicksBounded | frontend/src/components/ScriptGenerator.jsx:86-91 | any run of ticks is non-decreasing, stays below 110, and is frozen from 90 |
| ScriptGenerator.ProgressCanPassHundred | frontend/src/components/ScriptGenerator.jsx:86-91 | six ticks can reach 104 |
| ScriptGenerator.EnabledButtonPassesGate | frontend/src/components/ScriptGenerator.jsx:535 | an enabled button passes the early return of line 78; enabled exactly when both choices are made and nothing is generating |
| ScriptGenerator.RequestFor | frontend/src/components/ScriptGenerator.jsx:93-99 | the request names the trend, template and tone; the prompt is the trimmed text or None when empty; the session starts with "script_gen_" |
| ScriptGenerator.FailureMessage | frontend/src/components/ScriptGenerator.jsx:113 | the error's message when non-empty, else the default; never empty |
| ScriptGenerator.Generator.constructor | frontend/src/components/ScriptGenerator.jsx:30-39 | the initial state: empty lists and choices, not generating, no content, progress 0, no error, loading |
| ScriptGenerator.Generator.BeginLoadConfig | frontend/src/components/ScriptGenerator.jsx:46-49 | loading on and error cleared |
| ScriptGenerator.Generator.CompleteLoadConfig | frontend/src/components/ScriptGenerator.jsx:51-63 | both lists are set when both requests succeed; otherwise the fixed message is set and the lists are kept; loading ends |
| ScriptGenerator.Generator.SelectTemplate | frontend/src/components/ScriptGenerator.jsx:410 | the template is chosen |
| ScriptGenerator.Generator.SelectTone | frontend/src/components/ScriptGenerator.jsx:449 | the tone is chosen |
| ScriptGenerator.Generator.SetCustomPrompt | frontend/src/components/ScriptGenerator.jsx:473 | the prompt text is replaced |
| ScriptGenerator.Generator.GenerateClicked | frontend/src/components/ScriptGenerator.jsx:77-99 | nothing happens without both choices; otherwise generation starts at 0, the error clears, an interval starts and the request is issued |
| ScriptGenerator.Generator.Tick | frontend/src/components/ScriptGenerator.jsx:86-91 | a tick applies the tick rule |
| ScriptGenerator.Generator.CompleteGeneration | frontend/src/components/ScriptGenerator.jsx:101-116 | success clears this interval, shows 100 and arms the settle; failure sets the message, stops, resets to 0 and leaves the interval firing |
| ScriptGenerator.Generator.SettleElapsed | frontend/src/components/ScriptGenerator.jsx:106-109 | the content is stored and generation ends; with null data nothing else changes |
| ScriptGenerator.Generator.AnotherVersion | frontend/src/components/ScriptGenerator.jsx:334-339 | content, template, tone and prompt are cleared, and the button is disabled |
| ScriptGenerator.Generator.View | frontend/src/components/ScriptGenerator.jsx:129-175 | loading first; then the full error when an error is set without content; then the result; then the form with the button rule; the full error always shows a non-empty message |
| ScriptGenerator.InlineErrorUnreachable | frontend/src/components/ScriptGenerator.jsx:521 | whenever the form shows, no error is set |
| ScriptGenerator.FailedGenerationShowsFullError | frontend/src/components/ScriptGenerator.jsx:111-116 | a failed generation shows the full-page error with its message, with one interval still firing |
| TrendCard.ScoreBand | frontend/src/components/TrendCard.jsx:40-45 | 90 and up, 80 to 89, 70 to 79, below 70: each band exactly on its range |
| TrendCard.ScoreBandMonotone | frontend/src/components/TrendCard.jsx:40-45 | a higher score never gets a lower band |
| TrendCard.BandClassesDistinct | frontend/src/components/TrendCard.jsx:41-44 | the four bands have four different classes |
| TrendCard.PaceOf | frontend/src/components/TrendCard.jsx:47-55 | each of the four known labels, and only it, gets its own pace; every other label is unlabelled |
| TrendCard.PaceClassesDistinct | frontend/src/components/TrendCard.jsx:47-55 | the five colour classes are pairwise different |
| TrendCard.VelocityColor | frontend/src/components/TrendCard.jsx:47-55 | gray exactly for a label other than the four known ones |
| TrendCard.VelocityColoursDistinct | frontend/src/components/TrendCard.jsx:47-55 | two different known labels get different colour classes, none of them gray |
| TrendCard.VelocityIcon | frontend/src/components/TrendCard.jsx:20-28 | Zap, TrendingUp, Target, TrendingDown for the four labels; Minus exactly for any other |
| TrendCard.VelocityIconAndColourAgree | frontend/src/components/TrendCard.jsx:20-55 | icon and colour agree on which labels are known; the known labels get distinct icons |
| TrendCard.PlatformIcon | frontend/src/components/TrendCard.jsx:30-38 | Twitter, Youtube, MessageSquare, Music for the four platforms; Target exactly for any other |
| TrendCard.InsightsPreview | frontend/src/components/TrendCard.jsx:128 | the first two insights, or all when fewer, in order |
| App.AppState.constructor | frontend/src/App.js:8-9 | the dashboard with no trend selected |
| App.AppState.HandleTrendSelect | frontend/src/App.js:11-14 | the trend is selected and the generator shown; the invariant holds |
| App.AppState.HandleBack | frontend/src/App.js:16-19 | the dashboard with no trend; the invariant holds |
| App.AppState.Rendered | frontend/src/App.js:25-34 | the dashboard exactly when the view is the dashboard; otherwise the generator for the selected trend, which is present |
| App.SelectThenBack | frontend/src/App.js:11-34 | selecting and then going back renders the dashboard again |
| Sorting.SortDescCorrect | backend/services/trend_service.py:89 | the reference sort is non-increasing, a permutation, and keeps the order among equal keys |
| Sorting.SortedStableUnique | backend/services/trend_service.py:89 | two sorted, stable arrangements of the same list are equal |
| Sorting.SortDescInPlace | backend/services/trend_service.py:89 | the in-place sort is non-increasing, a permutation, and equal to the reference sort |
| Text.Find | backend/services/ai_service.py:164-165 | `str.find`: the first index at or after the start where the pattern occurs, or -1 when there is none |
| Text.ContainsIffFound | backend/services/ai_service.py:163-165 | `in` holds exactly when `find` is not -1 |
| Text.Strip | backend/services/ai_service.py:160 | no stripped character stays at either end, and only those characters are removed |
| Text.PySplit | backend/services/trend_service.py:211 | every word is non-empty and has no whitespace |
| Text.PySplitKeepsNonSpace | backend/services/trend_service.py:211 | the words run together are exactly the non-whitespace characters, in order |
| Text.PySplitFirstWord | backend/services/trend_service.py:211 | no words exactly for a blank string; otherwise the first word is the first maximal run of non-whitespace (only whitespace before it, whitespace or the end after it) and the rest are the split of what follows |
| Text.SplitJoinRoundTrip | backend/services/trend_service.py:211 | splitting words joined by single spaces gives the words back |
| Text.PySlice | backend/services/ai_service.py:166 | Python slicing with bounds clamped and negative bounds counted from the end |
| Text.PyTake | backend/services/trend_service.py:90 | `s[:limit]` is a prefix of length `limit` clamped to the list, counted from the end when negative |
| Text.NatToStringValue | frontend/src/services/api.js:66-71 | the digits read back as the number, and only zero's rendering starts with 0 |
| Text.IntToStringValue | frontend/src/services/api.js:66-71 | the rendering reads back as the integer, carries "-" exactly for negatives, and has no leading zero |

## Left out

- Database access (MongoDB through Motor) is not part of this model; history is
  always empty as the handler answers it.
- The language-model calls (`LlmChat`, `send_message`, `analyze_trend_potential`) and
  the user prompt built by `_create_content_prompt` are left out. The analysis and
  the reply are parameters.
- `json.loads` is an opaque parser parameter, not a JSON grammar.
- Engagement metrics (`random.uniform` and float multipliers) and the timeframe
  (`random.choice`) are left out. They are fields of the trend drawn from the
  environment.
- Identifiers and clocks (uuid4, `datetime.utcnow`, `Date.now()`) are inputs. Every
  listing draws fresh uuid4 ids (backend/models.py:39), and a lookup by id re-generates
  the listing, so `GET /trends/{id}` and `POST /generate-content` for an id shown on
  the dashboard answer 404 except with negligible probability. The model draws ids
  from each call's environment and does not assume they repeat.
- Timers (the 500 ms debounce, the 1 s progress interval, the 500 ms settle delay)
  are explicit events, not time.
- Transport details are left out: axios, interceptors, logging, timeouts, CORS,
  routing, startup and shutdown. A failed request is a `Transport` value with its
  message.
- The client trusts each envelope's shape; a mismatched `data` is not modelled.
- Rendering markup, styling other than the classifier outputs, clipboard access,
  the rounded progress percentage and `toFixed(1)` formatting are left out.
- URLSearchParams percent-encoding is left out: values are joined as given.
- Python and JavaScript string functions are modelled on ASCII only; non-ASCII case
  mapping and whitespace are not.
- Server.RoundHalfEven: rounds the exact rational mean; Python rounds a float mean,
  which agrees for the table sizes that occur.
- TrendDashboard.Dashboard.View: rendering the stats cards when a success carried a
  null `data` would throw; the model keeps the null and does not render the cards.
- ScriptGenerator.Generator.Tick: the progress is a real number and each step an
  argument in [0, 20), standing for `Math.random() * 20`.
