# SEO Sentinel — a verified model of its analysis rules and cache

SEO Sentinel is a browser extension that inspects the page in the current tab
and reports SEO signals. This project models the deterministic logic at its
centre:

- the page-signal rules of the content script's `SEOAnalyzer`: meta tags, the
  link partition, title, description and heading issues, the syllable, sentence
  and word counts, the main-content probe, tap targets, performance timing and
  the weighted overall score;
- the background page's analysis cache (a `Map` keyed by URL with
  insertion-order eviction at `MAX_CACHE_ITEMS` and lazy expiry after
  `CACHE_DURATION`), `analyzePage` (cache hit, or compute and store) and the
  `handleMessage` dispatcher;
- the popup's title and description length checkers and its H1 status line,
  each related to the content script's verdict on the same input.

Files:

- `wrappers.dfy`: `Option` and `Result`.
- `jsstring.dfy`: the JavaScript string operations the rules rely on.
  - `.length` counts UTF-16 code units.
  - `trim` uses the ECMAScript whitespace and line-terminator set.
  - `toLowerCase` covers ASCII only.
  - `split('|')` splits on one character.
  - `split(/[...]+/)` splits on runs of a character class.
  - Numbers are formatted in decimal.
- `content.dfy`: the `SEOAnalyzer` rules.
  - The DOM comes in as plain data. A meta node is its `name`, `property` and `content` attributes.
  - An anchor is its resolved `href`, text, `rel`, and the hostname `new URL(href)` gives (`None` when it throws).
  - Headings are their levels, and bounding boxes are their width and height.
- `background.dfy`: the cache, `analyzePage` and `handleMessage`.
  - The cache is a class holding the keys in insertion order (JavaScript `Map` iteration order) and a map of entries.
  - Each method is proved equal to a function on the value `CacheState`, and the cache's promises are lemmas about those functions.
- `popup.dfy`: the popup's length checkers and H1 status.

The loops of the source are loops here: `analyzeMetaTags`, `analyzeLinks`,
`analyzeHeaderIssues`, `getMainContent`, `checkTapTargets` and
`calculateOverallScore`. All but `getMainContent` are proved against a
specification function, and the lemmas state what the source promises about
those functions. The contract of `getMainContent` states the first match
directly.

Points where the code's behaviour is easy to misread:

- Lengths are UTF-16 code units, which is what `.length` returns, not code points.
- An empty title gets only the "too short" issue; no "missing title" issue exists in the code.
- Overwriting a cached URL keeps its place in the insertion order (`Map.set`); it is not moved to the end.
  - The one exception: when the cache is full and the URL is the oldest key, `cacheAnalysis` first deletes that key, so the `set` that follows re-inserts it last.

## Model

| member | source | states |
|---|---|---|
| JsString.Length | src/content/content.js:150 | `.length` lies between the number of characters and twice that, and is 0 only for the empty string |
| JsString.LengthOfBmp | src/popup/popup.js:139 | for text in the Basic Multilingual Plane `.length` is the number of characters |
| JsString.LeadingSpace | src/content/content.js:97 | the leading whitespace run: all whitespace, and the character after it is not |
| JsString.TrailingSpace | src/content/content.js:97 | the trailing whitespace run: all whitespace, and the character before it is not |
| JsString.Trim | src/content/content.js:97 | `trim` returns the infix that starts after the leading whitespace and is followed only by whitespace, and neither end of a non-empty result is whitespace |
| JsString.Includes | src/content/content.js:113 | `includes` holds exactly when the needle occurs at some position of the text |
| JsString.SplitCharCount | src/content/content.js:156 | `split('|')` has one more piece than there are separators |
| JsString.SplitRunsCount | src/content/content.js:286 | a split on maximal runs of a character class has one more piece than there are runs |
| JsString.ToLower | src/content/content.js:62 | lower-casing keeps the length |
| JsString.CountChar | src/content/content.js:156 | the number of occurrences is 0 exactly when the character does not occur |
| JsString.SplitChar | src/content/content.js:156 | `split` with a one-character separator gives at least one piece, and no piece contains the separator |
| JsString.SplitRuns | src/content/content.js:276-286 | a split on `/[class]+/` gives at least one piece, and no piece contains a class character |
| JsString.TokensAreRunsPlusOne | src/content/content.js:237 | non-empty text that starts and ends outside a class has one more maximal run outside the class (for whitespace: word) than runs inside it |
| JsString.NatToString | src/content/content.js:225 | `${n}` is a non-empty run of decimal digits without a leading zero |
| JsString.NatToStringRoundTrip | src/content/content.js:225 | the decimal form of a number in a template string reads back as that number |
| JsString.NatToStringInjective | src/popup/popup.js:145 | different numbers have different decimal forms |
| Content.TagName | src/content/content.js:58 | `name || property`: a truthy `name` is taken, and otherwise `property` is, so the result is truthy exactly when one of them is |
| Content.IsValidMetaTag | src/content/content.js:402-405 | valid exactly when the content is not empty |
| Content.CountedTagIsValid | src/content/content.js:61-64 | every tag that passes `if (name && content)` also passes `isValidMetaTag`, so the "Invalid content" branch is never reached |
| Content.AnalyzeMetaTags | src/content/content.js:44-83 | `total` is the number of meta nodes; `valid` is the number with a truthy name and content, so `valid <= total`; `issues` is empty; `missing` is the essential names not among the lower-cased found names, in list order |
| Content.AllValidIff | src/content/content.js:57-73 | `valid == total` exactly when every node has a truthy name and content |
| Content.FoundNamesIff | src/content/content.js:57-62 | a name is found exactly when some counted tag has it after lower-casing |
| Content.MissingFromMembers | src/content/content.js:76-80 | a name is listed missing exactly when it is essential and not found |
| Content.MissingFromIsSubsequence | src/content/content.js:76-80 | the missing names keep the order of `['description','viewport','robots']` |
| Content.EssentialMissingIff | src/content/content.js:54-80 | an essential name is reported missing exactly when no counted tag carries it in any letter case |
| Content.Classify | src/content/content.js:95-129 | a link with an empty href is broken with "Missing href attribute"; one whose URL does not parse is broken with "Invalid URL" and keeps its href; any other link is internal exactly when its hostname is the page's, keeps its href as `url`, and carries the trimmed text, and is `nofollow` exactly when "nofollow" occurs in `rel` |
| Content.PartitionSizes | src/content/content.js:88-131 | every anchor lands in exactly one of the three lists |
| Content.InternalsIff | src/content/content.js:109-114 | a fact is in `internal` exactly when some anchor is classified internal with it |
| Content.ExternalsIff | src/content/content.js:115-120 | a fact is in `external` exactly when some anchor is classified external with it |
| Content.BrokensIff | src/content/content.js:99-127 | an entry is in `broken` exactly when some anchor is classified broken with it |
| Content.ListsStep | src/content/content.js:95-129 | visiting one more anchor appends its item to its class's list and leaves the other two unchanged |
| Content.AnalyzeLinks | src/content/content.js:86-131 | `total` is the number of anchors; the three lists are the internal, external and broken items in document order; their lengths add up to `total` |
| Content.AnalyzeTitleIssues | src/content/content.js:147-161 | "too short" exactly when length < 30; "too long" exactly when length > 60, and never both; "Too many title separators" exactly when the title holds at least two '|'; no other issue; the list is the single length issue, if any, followed by the separator issue, if any |
| Content.EmptyTitleIssues | src/content/content.js:147-161 | an empty title gives exactly the "too short" issue |
| Content.AnalyzeDescriptionIssues | src/content/content.js:176-190 | an empty description gives exactly "Missing meta description"; any other gives at most one issue, and only a length issue: "too short" exactly when length < 120, "too long" exactly when length > 155, and none for a length in [120, 155] |
| Content.H1Count | src/content/content.js:213 | the level-1 headers number at most all of them |
| Content.H1Issues | src/content/content.js:215-219 | at most one H1 issue: "Missing H1 tag" exactly when the count is 0, "Multiple H1 tags found" exactly when it is above 1, and none exactly when it is 1 |
| Content.SkipMessage | src/content/content.js:225 | the message is "Skipped heading level: H" followed by the previous level, " to H" and the level |
| Content.SkipMessageInjective | src/content/content.js:225 | a skip message determines both levels it names |
| Content.PrevLevel | src/content/content.js:222-227 | `prevLevel` at each header is a heading level or the initial 0 |
| Content.SkipIssuesStep | src/content/content.js:223-228 | visiting one more header appends its skip issue, if it has one |
| Content.AnalyzeHeaderIssues | src/content/content.js:211-231 | the issues are the H1 issue, if any, followed by the skip issues in document order; "Missing H1 tag" exactly when no header is level 1; "Multiple H1 tags found" exactly when more than one is |
| Content.HeaderIssuesH1 | src/content/content.js:215-219 | the H1 issues are not confused with hierarchy issues: each appears exactly under its count condition |
| Content.PrefixSkips | src/content/content.js:222-228 | the previous level and the skip test at a header depend only on the headers before it |
| Content.SkipIssuesAreSkips | src/content/content.js:225 | every hierarchy issue begins with "Skipped heading level: H", so none is an H1 issue |
| Content.SkipReported | src/content/content.js:224-226 | a header whose level exceeds the previous one by more than 1 is reported with both levels |
| Content.SkipIssueHasCause | src/content/content.js:224-226 | every hierarchy issue names a header that skips, and its previous level |
| Content.NoSkipIssuesIff | src/content/content.js:222-228 | there are no hierarchy issues exactly when no header skips a level |
| Content.LeadingDeepHeading | src/content/content.js:222-226 | the previous level starts at 0, so a document opening with H2..H6 first reports "Skipped heading level: H0 to H<level>" |
| Content.CountSyllables | src/content/content.js:284-287 | the syllable count is the number of maximal runs of a/e/i/o/u in either case |
| Content.SyllableExamples | src/content/content.js:284-287 | "hello" has 2, "beautiful" 3 and "optimization" 5 |
| Content.SentenceCount | src/content/content.js:277 | the sentence count is at least 1, one more than the runs of '.', '!' and '?' |
| Content.WordCount | src/content/content.js:276 | the word count is at least 1, one more than the whitespace runs |
| Content.ContentWordCount | src/content/content.js:236-240 | the `wordCount` of the trimmed text is its number of maximal non-whitespace runs, and 1 for blank text |
| Content.GetMainContent | src/content/content.js:248-266 | the element of the first selector in list order that matches, or the body when none does |
| Content.SmallCount | src/content/content.js:332-337 | no more small targets than elements |
| Content.CheckTapTargets | src/content/content.js:327-343 | `total` is links plus buttons; `smallTargets` is the number of them narrower or shorter than 48, so never more than `total` |
| Content.SmallCountAppend | src/content/content.js:332 | the small targets of `[...links, ...buttons]` are the small links plus the small buttons |
| Content.TapTargetExamples | src/content/content.js:334 | a target at least 48 by 48 is not small; a 30 by 30 and a 48 by 48 target give 1 small target |
| Content.GetFirstPaintTime | src/content/content.js:369-373 | null exactly when no paint entry is named 'first-paint', otherwise the start time of the first one that is |
| Content.AnalyzePerformance | src/content/content.js:346-362 | no performance API gives score 0 and "Performance API not available"; otherwise score 85, `loadTime` is loadEventEnd − navigationStart, `domReady` is domContentLoadedEventEnd − navigationStart, and `firstPaint` is the first-paint time |
| Content.PerformanceOrder | src/content/content.js:358-359 | with the timing events in order, 0 <= `domReady` <= `loadTime`; while `loadEventEnd` is still 0, `loadTime` is negative |
| Content.RoundHundredths | src/content/content.js:398 | `Math.round` of a value in hundredths is the nearest integer, halves rounded up |
| Content.WeightSumStep | src/content/content.js:394-396 | one more weight adds that weight to the sum of weights |
| Content.WeightedSumStep | src/content/content.js:394-396 | one more `Object.entries` step adds that score times its weight |
| Content.WeightsSumToOne | src/content/content.js:377-383 | the weights 0.2, 0.3, 0.25, 0.15 and 0.1 sum to 1 |
| Content.WeightedSumClosedForm | src/content/content.js:393-396 | the loop weighs each category exactly once |
| Content.CalculateOverallScore | src/content/content.js:376-399 | the score is the rounded weighted sum, and sub-scores in [0,100] give a score in [0,100] |
| Content.OverallScoreExamples | src/content/content.js:385-411 | the placeholder sub-scores give 86; sub-scores 90/85/95/80/75 give 87 |
| Content.OverallScoreMonotone | src/content/content.js:376-399 | raising sub-scores never lowers the overall score |
| Background.EmptyCache | src/background/background.js:12 | the new cache is empty and well formed |
| Background.SizeIsKeyCount | src/background/background.js:164 | `analysisCache.size` is the number of keys in insertion order |
| Background.RemoveKey | src/background/background.js:166 | deleting a key removes just that key from the insertion order and keeps the order of the rest (the result is the keys before it followed by the keys after it), and does nothing when it is absent |
| Background.Delete | src/background/background.js:166 | `Map.delete` keeps the cache well formed |
| Background.SetEntry | src/background/background.js:169-172 | `Map.set` keeps the cache well formed |
| Background.EvictOldest | src/background/background.js:164-167 | the eviction step keeps the cache well formed |
| Background.Put | src/background/background.js:162-173 | `cacheAnalysis` keeps the cache well formed |
| Background.Lookup | src/background/background.js:175-186 | `getCachedAnalysis` keeps the cache well formed |
| Background.PutBound | src/background/background.js:162-173 | at most `MAX_CACHE_ITEMS` (100) entries before means at most 100 after; the url then holds `{data, timestamp: now}` |
| Background.PutWhenFull | src/background/background.js:164-167 | when full, exactly the first key in insertion order is removed, even if the url is already cached; every other entry is kept unchanged |
| Background.PutWhenNotFull | src/background/background.js:164-172 | below capacity no key is removed: a new url goes last, and every other entry is kept unchanged |
| Background.OverwriteKeepsOrder | src/background/background.js:169-172 | re-caching a cached url below capacity keeps the size and the key order; only that url's value and timestamp change |
| Background.OverwriteOldestWhenFull | src/background/background.js:164-172 | when full, re-caching the oldest url moves it to the end of the insertion order |
| Background.LookupRules | src/background/background.js:175-186 | a missing url returns null and changes nothing; an entry `CACHE_DURATION` (3600000) old or less is returned and changes nothing; an older one is deleted, with nothing else changed, and null is returned |
| Background.PutThenLookup | src/background/background.js:162-186 | caching at t and looking up at t' with t' − t <= 3600000 returns the data; later it returns null and deletes the entry |
| Background.PutKeepsOthers | src/background/background.js:162-173 | caching another url keeps an entry unless it is the one evicted |
| Background.PutAll | src/background/background.js:162-173 | repeated `cacheAnalysis` keeps the cache well formed |
| Background.PutFresh | src/background/background.js:164-172 | caching a new url appends it, after evicting the oldest key when full |
| Background.PutAllKeys | src/background/background.js:162-173 | caching fresh urls in turn gives the key order of repeated append-with-eviction |
| Background.AppendKeysKeepsLast | src/background/background.js:164-172 | append-with-eviction keeps exactly the last 100 keys ever appended |
| Background.PutAllFresh | src/background/background.js:162-173 | caching distinct fresh urls leaves the last 100 of all keys inserted, oldest first |
| Background.CacheBoundScenario | src/background/background.js:162-173 | 100 + k distinct urls in an empty cache leave exactly 100 entries, and the first k urls are gone |
| Background.AnalysisCache.constructor | src/background/background.js:12 | the module-level cache starts empty |
| Background.AnalysisCache.CacheAnalysis | src/background/background.js:162-173 | the new cache state is `Put` of the old one |
| Background.AnalysisCache.GetCachedAnalysis | src/background/background.js:175-186 | the result and the new cache state are those of `Lookup` on the old state |
| Background.AnalysisCache.ClearAnalysisCache | src/background/background.js:188-191 | the cache is empty afterwards and the result is true |
| Background.AnalyzePageSpec | src/background/background.js:120-159 | `analyzePage` keeps the cache well formed |
| Background.AnalyzePageHit | src/background/background.js:123-126 | on a fresh hit the stored result is returned and the cache is left as it was |
| Background.AnalyzePageMiss | src/background/background.js:128-154 | on a miss the result carries the url and the helpers' findings, is stored, and a lookup within `CACHE_DURATION` of storing returns it |
| Background.AnalyzePage | src/background/background.js:120-159 | the result and the new cache state are those of `AnalyzePageSpec` on the old state |
| Background.RouteAction | src/background/background.js:39-52 | a known action name routes to the action of that name; any other fails with "Unknown action: <action>" |
| Background.RouteActionName | src/background/background.js:39-49 | each of the five action names routes to its own case |
| Background.HandleMessage | src/background/background.js:38-53 | each action gives its handler's response and cache state; `getSettings` returns the stored settings; `updateSettings` stores the new ones and returns true; an unknown action is rejected with "Unknown action: <action>" and nothing changes |
| Popup.Advise | src/popup/popup.js:141-159 | a short text is told to add exactly the characters that reach the minimum; a long one to remove exactly those that reach the maximum; a length within the bounds is optimal |
| Popup.CheckLength | src/popup/popup.js:136-186 | `lengthOk` exactly when the length is within the inclusive bounds; status 'success' exactly when `lengthOk`, 'warning' otherwise, never 'error'; the message carries the advice |
| Popup.AdviceMessageInjective | src/popup/popup.js:145-158 | the message determines the advice, including the number of characters |
| Popup.MessageReachesBound | src/popup/popup.js:145-151 | adding the characters a "too short" message asks for reaches the minimum; removing those a "too long" message asks for reaches the maximum |
| Popup.ShortAdviceInjective | src/popup/popup.js:145 | a "too short" message determines the number in it: equal messages carry equal numbers |
| Popup.LongAdviceInjective | src/popup/popup.js:151 | a "too long" message determines the number in it: equal messages carry equal numbers |
| Popup.AdviceKindsDiffer | src/popup/popup.js:145-151 | a "too short" message is never a "too long" one |
| Popup.OptimalIsNotShort | src/popup/popup.js:145-158 | the "optimal" message is never a "too short" one |
| Popup.OptimalIsNotLong | src/popup/popup.js:151-158 | the "optimal" message is never a "too long" one |
| Popup.AnalyzeTitleTag | src/popup/popup.js:136-160 | `lengthOk` exactly when 30 <= length <= 60; 'success' exactly then; below 30 the message asks for 30 − length more characters, above 60 to remove length − 60 |
| Popup.TitleAgrees | src/popup/popup.js:136-160 | `lengthOk` exactly when `analyzeTitleIssues` raises neither length issue |
| Popup.AnalyzeMetaDescription | src/popup/popup.js:162-186 | `lengthOk` exactly when 120 <= length <= 155; below 120 the message asks for 120 − length more characters, above 155 to remove length − 155 |
| Popup.DescriptionAgrees | src/popup/popup.js:162-186 | for a non-empty description `lengthOk` exactly when `analyzeDescriptionIssues` is empty; for an empty one the popup asks for 120 characters where the content script reports the description missing |
| Popup.H1Status | src/popup/popup.js:192-194 | 'success' exactly when there is one level-1 header, 'error' otherwise |
| Popup.H1StatusAgrees | src/popup/popup.js:192-194 | the H1 line is 'success' exactly when `analyzeHeaderIssues` raises neither H1 issue |

## Left out

- Browser facilities become inputs, since they are I/O:
  - `document` queries;
  - `new URL` parsing, taken as the hostname option;
  - `getBoundingClientRect`;
  - `window.performance` and `getEntriesByType('paint')`;
  - `Date.now()`, taken as explicit clock readings.
- `toLowerCase` is modelled on ASCII letters only. Unicode case mapping has no counterpart here, and the essential meta names are ASCII.
- `getExtensionSettings` and `updateSettings` become a stored-settings value passed in and out of `HandleMessage`, because `chrome.storage.sync` is I/O.
  - Their storage failures are not modelled.
- `analyzePage`'s four analysis helpers and their `Promise.all` are replaced by a `findings` input. The helpers call functions the repository does not define, and `Promise.all` is concurrency.
  - As written, those undefined calls throw a `ReferenceError`, so every cache miss rejects inside `Promise.all`, before `cacheAnalysis` runs, and the source never stores an analysis. `AnalyzePageMiss` and the cache lemmas describe `analyzePage` with working helpers.
- `AnalyzePageSpec`: runs `analyzePage` without interleaving. The store sees exactly the state the lookup left. In the source, the `await` between the lookup and the store lets other messages run in that gap, such as `clearCache` or another `analyzeUrl`, and change the cache. The model does not capture those interleavings.
  - The re-thrown error of a failing helper is not modelled.
- `handleMessage`'s thrown error becomes the `Rejected` response, and the `onMessage` listener that awaits it is I/O glue.
- `calculateReadabilityScore`: only the integer word, sentence and syllable counts are modelled. The Flesch–Kincaid formula and its one-decimal rounding are floating point.
- `calculateKeywordDensity` is a stub that returns 0, so it is not modelled.
- `CalculateOverallScore` computes in exact integer hundredths.
  - Read with JavaScript's binary floating point, the source can differ by rounding, in the last place of the sum, for inputs whose weighted sum sits on a half.
  - The placeholder scorers are the constants 85, 90, 85, 80 and 85.
- `analyzeDescription`: `getAttribute('content')` can give `null` for a description tag without content, and then `.length` throws. The model takes the description as a string, so that error path is not modelled.
- `analyzeCurrentPage` is not modelled. It assembles the report, but its `technical` part calls `this.analyzePageSpeed()`, `this.analyzeSSL()` and `this.analyzeRobots()`, and `SEOAnalyzer` defines none of them. As written it therefore throws a `TypeError` before it returns any report. The rules it would combine are the modelled functions.
- `analyzeTitle`, `analyzeHeaders`, `analyzeParagraphs`, `analyzeContentImages` and `analyzeMobileFriendliness` only assemble report records from DOM reads. Their rules, where they have any, are the modelled functions.
- `Popup.H1Status` takes the header list that `generateHeadersAnalysis` filters. `updateOnPageSEO` passes it `pageData.onPage.headers`, which is the `{headers, issues}` record that `analyzeHeaders` returns, so as wired `headers.filter` throws on a record. The model does not capture that wiring.
- `checkTextSize`: the computed font size is a browser facility, and its `parseInt(...) >= 16` threshold is not modelled.
- The install and update hooks, tab and context-menu listeners, `migrateData`, `src/options/options.js` and the popup's HTML rendering are UI and storage glue, with no rule to state.
- Behaviour that only the test suite claims is not modelled, because the code does not implement it:
  - a "Missing title tag" issue;
  - an issue for empty meta content;
  - an `error` annotation on the report;
  - custom rules;
  - throttling.
