# Job tracker for Notion: a verified model of its core

The extension reads a job listing off the page the user is looking at, in
one of several page scripts. It then files the listing as a new page of a
Notion database, from its service worker. This project models both halves
in Dafny and proves what each one promises.

Three scripts extract a listing from a job page. Each one decides from the
URL whether it handles the page. On LinkedIn each of the five fields walks
an ordered list of CSS selectors, and the first element whose text is
non-empty wins. On Indeed, Glassdoor and Google Jobs the title, company and
location come from one selector each, and the field takes that element's
trimmed text even when it is blank. Indeed and Glassdoor read the salary
the same way. Google's salary is the last element that looks like one.

- **content.js** (modules `Dom`, `Normalizer`, `ContentExtractor`) handles
  LinkedIn, Indeed, Glassdoor and Google Jobs. It has:
  - a three-stage salary cascade on LinkedIn;
  - the last-match-wins salary loop on Google;
  - `cleanupDescription`, which turns description markup into a single line
    of text;
  - a length cap with an ellipsis.
- **src/contentScript.js** (`ContentScript`) handles LinkedIn only. Any
  exception is answered with `{error}`.
- **src/sidebarInjector.ts** (`SidebarExtractor`) is the sidebar's
  extractor. It resolves the non-standard `:contains('$')` selectors by hand
  and falls back to five empty fields when extraction throws.

Three versions of the service worker answer the `addJobToNotion` message:

- **src/background.ts** (`Background`, with `Notion`, `RecentJobs` and
  `Submission`). Its steps:
  - a duplicate guard: a bounded, insertion-ordered set of recently
    submitted URLs;
  - the single-flight flag `isSubmitting`;
  - an external-id pre-check against the database;
  - a one-hour schema cache. `addJobToNotion` re-stamps the entry once it
    has a schema. The pre-check's lookup does not re-stamp it, and neither
    does the duplicate reply;
  - `findPropertyName`, which makes property names case-tolerant;
  - a property builder that writes each property only when the schema gives
    it the expected type.
- **src/background.js** (`LegacyBackground`): the same handler, with no
  cache and no id check. Its property set and truncation differ.
- **background.js** at the repository root (`RootBackground`): fixed
  property names, with `null` for empty optional fields.

Other parts become parameters or abstract values:

- The page is a `Dom.Document`: for each selector it gives what
  `querySelector` and `querySelectorAll` return, and whether the selector
  throws.
- Notion's HTTP answers are `Notion.Fetched` values, or functions from the
  request body to such a value.
- The clock readings are parameters.
- The browser's HTML parser, its lazy block-tag rewrites and the salary
  regular expressions are supplied as functions in a `Dom.Engine`.

Mutable state is kept in classes with the source's own fields:

- `RecentJobs.RecentSubmissions` holds the URL set;
- `Submission.Gate` holds `isSubmitting` and that set;
- `Background.Worker` holds `schemaCache` and the gate.

Each method that changes state is proved against a function of the inputs
and the old state. The properties the source promises are lemmas about
those functions.

## Model

| member | source | states |
|---|---|---|
| JsString.TrimStart | src/contentScript.js:63-64 | `trim` removes exactly the leading whitespace: the result is a suffix, everything cut is whitespace, and the result does not start with whitespace |
| JsString.TrimEnd | src/contentScript.js:63-64 | the trailing half of `trim`: a prefix, everything cut is whitespace, and the result does not end with whitespace |
| JsString.TrimEmptyIff | src/contentScript.js:63 | a trimmed text is empty exactly when the text is all whitespace, so the `textContent.trim()` test rejects exactly the blank elements |
| JsString.TrimOfTrimmed | src/sidebarInjector.ts:318-319 | a text with no whitespace at either end is left unchanged by `trim` |
| JsString.IndexFrom | content.js:24-26 | the search behind `includes`: the first position from `from` where the needle occurs, no earlier one, and none at all when it fails |
| JsString.IncludesIff | content.js:24-38 | `url.includes(needle)` holds exactly when the needle occurs somewhere in the URL |
| JsString.BeforeFirst | src/sidebarInjector.ts:376-378 | `split(sep)[0]` is a prefix of the string |
| JsString.CollapseSpace | src/contentScript.js:101-103 | `replace(/\s+/g, " ")` leaves only plain spaces and never two in a row; it is empty only for empty input and keeps a non-space first and last character |
| JsString.CollapseKeepsText | src/contentScript.js:101-103 | the collapse changes only whitespace: the non-whitespace characters are kept, all of them, in order |
| JsString.CollapseSpaceFixed | content.js:253 | collapsing text that is already collapsed changes nothing |
| JsString.Take | src/contentScript.js:135-137 | `substring(0, n)` is a prefix of length `min(len, n)` |
| JsString.NatToString | src/background.ts:347 | the status in an error message is a non-empty run of decimal digits with no leading zero, and those digits spell the status |
| Dom.FirstNonEmpty | content.js:58-72 | a selector loop stops with non-empty text at some selector, stops at a throwing selector, or runs off the end |
| Dom.FirstNonEmptyChosen | src/contentScript.js:80-86 | the loop's outcome is the first selector with non-empty trimmed text, every earlier selector being missing or blank; it throws at the first invalid selector; an empty field means every selector was blank |
| Dom.ChosenUnique | src/contentScript.js:80-86 | exactly one outcome fits that priority order |
| Dom.ScanSelectors | content.js:75-90 | the `for…of` loop with `break` returns exactly the prioritised outcome |
| Dom.FirstFieldMeaning | content.js:93-108 | a field value is the viewed text of the first selector matching a non-blank element; it is empty iff every selector is blank; a failure names the first throwing selector |
| Normalizer.BreakTagLength | content.js:244 | a `<br>`, `<br/>` or `<br />` match at the start spans at least four characters and lies within the text |
| Normalizer.StripTags | content.js:248 | `replace(/<[^>]*>/g, '')` only deletes characters: the result is a subsequence of the input; afterwards no `<` is followed later by a `>` |
| Normalizer.StripTagsIdempotent | content.js:248 | stripping tags twice is the same as stripping them once |
| Normalizer.StripTagsFixed | content.js:248 | text with no `<…>` left is unchanged by the strip |
| Normalizer.CollapseBlankLines | content.js:252 | `replace(/\n{3,}/g, '\n\n')` changes nothing when there is no line feed, and keeps a first or last character that is not a line feed |
| Normalizer.DropIndentation | content.js:254 | `replace(/\n\s+/g, '\n')` changes nothing on text without a line feed |
| Normalizer.DropTrailingNewlines | content.js:255 | `replace(/\n+$/, '')` changes nothing on text without a line feed |
| Normalizer.TidyShape | content.js:251-255 | the whitespace stage holds no line feed, no whitespace run and no whitespace at either end; since `\s+` runs after `trim`, the three line-feed rules do nothing |
| Normalizer.TidyIdempotent | content.js:251-255 | running the whitespace stage on its own output changes nothing |
| Normalizer.TidyEmptyIff | content.js:251-255 | the stage yields `''` exactly for all-whitespace text |
| Normalizer.CleanupDescription | content.js:227-258 | `cleanupDescription('')` is `''`; any result is tidy, and the DOM step may throw |
| Normalizer.CapWithEllipsis | content.js:215-216 | a description within the cap is kept; a longer one becomes its first `n` characters plus `...`; the result never exceeds `n + 3` |
| Normalizer.CollapsedTrimIsTidy | content.js:207-209 | the catch fallback `textContent.trim().replace(/\s+/g, ' ')` is as tidy as a cleaned description |
| Normalizer.CapKeepsTidy | content.js:215-216 | cutting a tidy description and adding the ellipsis keeps it tidy |
| ContentExtractor.ExtractJobInfo | content.js:14-43 | the URL dispatch: LinkedIn, Indeed, Glassdoor, then Google (which needs the `.vNEEBe` marker), in that order |
| ContentExtractor.UnsupportedPageIsEmpty | content.js:16-22 | a URL that no site's test accepts yields five empty fields |
| ContentExtractor.GoogleWithoutMarkerIsEmpty | content.js:38-40 | a Google search page without the marker yields five empty fields |
| ContentExtractor.ExtractFromLinkedIn | content.js:46-224 | the LinkedIn loops assign title, company, location, salary and description as the specification function prescribes, stopping at the first exception |
| ContentExtractor.ScanLinkedInDescription | content.js:188-221 | the first container whose cleaned text is non-empty, cut to 20000 characters plus `...` |
| ContentExtractor.LinkedInDescriptionShape | content.js:197-216 | a LinkedIn description is always tidy and at most 20003 characters long |
| ContentExtractor.ScanLinkedInSalary | content.js:119-185 | a later salary stage runs only while the earlier ones left the salary empty |
| ContentExtractor.Sections | content.js:112-125 | the compensation-section loop settles on the first section whose lower-cased text mentions `salary`, with whitespace collapsed |
| ContentExtractor.SectionSalaryEmptyIff | content.js:112-125 | stage one is empty iff no section mentions `salary` and none throws; otherwise the salary is the collapsed text of a section that mentions it |
| ContentExtractor.FirstPayMention | content.js:140-147 | the chosen insight element mentions `salary`, `compensation`, `pay`, `$`, `€` or `£`; when none is chosen, no element does |
| ContentExtractor.Insights | content.js:128-150 | the nested insight loops return the first element, per selector, that mentions pay |
| ContentExtractor.PayMentionIsNonBlank | content.js:141-148 | an element that mentions pay has non-blank text, so the outer loop always stops there |
| ContentExtractor.InsightSalaryFound | content.js:128-150 | a non-empty stage-two salary is the trimmed text of a queried element that mentions pay |
| ContentExtractor.PatternsInDescription | content.js:153-185 | stage three: the first non-empty match of the first matching pattern, in the first description element that yields one |
| ContentExtractor.PatternSalaryFound | content.js:153-185 | a non-empty stage-three salary is what the first matching pattern gives for some description element, every earlier element yielding nothing; an exception names a selector that every earlier one passed over |
| ContentExtractor.PatternSalaryEmptyIff | content.js:153-185 | stage three stays empty exactly when no description selector throws and none yields a non-empty match |
| ContentExtractor.ExtractSingleSelectorSite | content.js:271-319 | Indeed's and Glassdoor's shape: a field is set whenever its element exists, even to `''`; the description is cut at 5000 characters plus `...` |
| ContentExtractor.SingleSelectorJobShape | content.js:271-319 | Indeed and Glassdoor fail exactly when one of their selectors throws; otherwise each of title, company, location and salary is the trimmed text of its one element, even when blank, or empty when there is none, and the description is the first non-empty cleaned description cut to 5000 characters plus `...`, at most 5003 characters |
| ContentExtractor.ExtractFromIndeed | content.js:261-322 | `extractFromIndeed` with its own selectors |
| ContentExtractor.ExtractFromGlassdoor | content.js:325-385 | `extractFromGlassdoor` with its own selectors |
| ContentExtractor.LastSalaryIsLast | content.js:415-422 | the `forEach` has no `break`, so Google's salary is the last salary-looking element, never an earlier one, and empty when there is none |
| ContentExtractor.ScanGoogleSalary | content.js:415-422 | the `forEach` loop computes exactly that last match |
| ContentExtractor.ExtractFromGoogleJobs | content.js:388-451 | `extractFromGoogleJobs`: single-selector fields, the last salary, and a description cut at 5000 characters plus `...` |
| ContentScript.ExtractFromLinkedIn | src/contentScript.js:45-143 | the five selector loops compute exactly that job |
| ContentScript.ExtractJobInfo | src/contentScript.js:19-42 | only the three LinkedIn URL tests trigger extraction |
| ContentScript.ReplyToOutcomes | src/contentScript.js:2-16 | only `extractJobInfo` is answered; off LinkedIn the answer is five empty fields; an `{error}` answer names a selector of a LinkedIn page that the browser refused |
| ContentScript.NotLinkedInIsEmpty | src/contentScript.js:29-41 | off LinkedIn the reply is five empty fields, whatever the page holds |
| ContentScript.LinkedInJobShape | src/contentScript.js:98-140 | the location is tidy, the description is at most 5000 characters, each comes from some matching element, and the description is a prefix of that element's trimmed text with no ellipsis |
| ContentScript.LocationShape | src/contentScript.js:98-106 | the collapsed location is tidy and is the collapsed trimmed text of a matching element |
| ContentScript.DescriptionShape | src/contentScript.js:132-140 | a non-empty description is a prefix of some matching element's trimmed text |
| SidebarExtractor.ClosingQuote | src/sidebarInjector.ts:375 | the lazy `(.*?)"` ends at the first `"`, with no line terminator before it |
| SidebarExtractor.Needle | src/sidebarInjector.ts:375 | the text a `:contains` selector searches for is never empty, since it defaults to `$` |
| SidebarExtractor.NoDoubleQuoteNoMatch | src/sidebarInjector.ts:375 | `/:"(.*?)"/` cannot match a selector without a double quote |
| SidebarExtractor.FirstContaining | src/sidebarInjector.ts:379-381 | `find` returns an element that contains the needle, and misses only when no element does |
| SidebarExtractor.ContainsSelectorsSearchForDollar | src/sidebarInjector.ts:367-378 | the two `:contains('$')` selectors query their base selector and search for `$`, because they quote with `'` |
| SidebarExtractor.InsightBaseIsPlain | src/sidebarInjector.ts:367 | the base of the first `:contains` selector holds no `:` and no `"` |
| SidebarExtractor.NestedInsightBaseIsPlain | src/sidebarInjector.ts:368 | the base of the nested `:contains` selector holds no `:` and no `"` |
| SidebarExtractor.ContainsLookupShowsNeedle | src/sidebarInjector.ts:379-381 | an element picked for a `:contains` selector contains its needle |
| SidebarExtractor.LookUpSalary | src/sidebarInjector.ts:372-384 | a plain selector is queried directly; a `:contains` selector queries its base and picks the first element containing the needle |
| SidebarExtractor.ScanSalary | src/sidebarInjector.ts:371-390 | the salary loop accepts the first candidate with non-empty trimmed text, and otherwise tries the next selector |
| SidebarExtractor.ExtractFromLinkedIn | src/sidebarInjector.ts:296-412 | the five selector loops compute exactly the specification's job |
| SidebarExtractor.ExtractJobInfo | src/sidebarInjector.ts:263-293 | LinkedIn URLs only; a throwing extraction is caught and leaves the defaults |
| SidebarExtractor.DefaultsTrimmed | src/sidebarInjector.ts:265-271 | the default fields are trimmed |
| SidebarExtractor.SidebarFieldsAreTrimmed | src/sidebarInjector.ts:263-293 | every field the sidebar receives is trimmed |
| SidebarExtractor.LinkedInJobIsTrimmed | src/sidebarInjector.ts:316-409 | every field of an extracted job is trimmed |
| SidebarExtractor.LinkedInJobFields | src/sidebarInjector.ts:308-409 | each field is the first non-blank trimmed text of its own selector list; the description has no cap |
| Notion.FirstCaseInsensitive | src/background.ts:374-379 | the `for…in` loop finds the first key, in enumeration order, whose lower case matches, and nothing earlier matches |
| Notion.FindPropertyName | src/background.ts:367-383 | `findPropertyName` computes the resolved name |
| Notion.ResolveNameCases | src/background.ts:367-383 | an exact key wins; otherwise the first case-insensitive key wins; otherwise the name itself is returned |
| Notion.ResolveNameIsKeyOrSelf | src/background.ts:228-244 | the resolved name is a property of the schema or the name itself |
| Notion.ResolveNameKeepsLower | src/background.js:120-136 | resolving never changes a name's lower case |
| Notion.ResolvedNamesDiffer | src/background.ts:367-383 | names that differ ignoring case resolve to different properties, so no two fields overwrite each other |
| Notion.FieldNamesDifferIgnoringCase | src/background.ts:389-502 | the ten field names differ from one another even ignoring case |
| Notion.SubsetDiffersIgnoringCase | src/background.js:142-259 | any selection of those names (the older builder's nine) differs ignoring case |
| Notion.DatePart | src/background.ts:298 | `split("T")[0]` is a prefix of the ISO timestamp |
| Notion.DatePartOfTimestamp | background.js:21 | the date part of a `toISOString()` result is its calendar date, the first ten characters |
| Notion.KeepAsWritten | src/background.ts:517-519 | `/[^\\d.-]/g`, read literally, keeps only backslash, `d`, `.` and `-` |
| Notion.FilteredSalaryNeverParses | src/background.ts:514-530 | no filtered salary parses as a number, so a `number` Salary property is never written |
| Notion.SparedTextNeverParses | src/background.ts:520 | text made of those four characters is NaN to `parseFloat` |
| Notion.SetIfType | src/background.ts:389-400 | one typed write: the value goes under the resolved name iff that property has the expected type |
| Notion.SetIfTypeWhen | src/background.ts:429-442 | a typed write that also needs a non-empty field |
| Notion.ApplyWrite | src/background.ts:386-532 | for writes to distinct keys, after all of them a key is present iff its write fired or it was there before, and then it holds its value |
| Notion.ApplyOnlyWrites | src/background.ts:386-532 | a key present afterwards was present before or was written by a write that fired |
| Notion.DescribeError | src/background.ts:344-349 | the schema fetch's error is the server message when there is one, else `Error fetching database: ` followed by decimal digits that spell the status; a network failure carries its own reason; never empty for an HTTP error |
| Notion.CreateError | src/background.ts:550-557 | the page creation's error is the server message when there is one, else `Error: ` followed by decimal digits that spell the status; a network failure carries its own reason |
| Notion.HandlerError | src/background.ts:135-141 | the reply's error is never empty: a non-empty thrown message is passed on, and an empty one becomes `Error adding job to Notion` |
| RecentJobs.InsertedKeepsBound | src/background.ts:164-176 | after `addToRecentlySubmitted(u)`, `u` is a member, the set holds at most 50 URLs and none twice |
| RecentJobs.ReinsertIsNoChange | src/background.ts:164-176 | adding a URL already present changes neither the contents nor the order |
| RecentJobs.FullSetEvictsOldest | src/background.ts:170-175 | adding a new URL to a full set drops exactly the oldest entry and keeps the rest in order |
| RecentJobs.RoomyInsertAppends | src/background.js:18-21 | below capacity, a new URL is appended |
| RecentJobs.Newest | src/constants.ts:18 | the newest entries of a history number at most `MAX_RECENT_JOBS` = 50 |
| RecentJobs.InsertedIsNewest | src/background.js:18-30 | adding a new URL keeps the newest 50 of the old set plus that URL |
| RecentJobs.NewestOfNewest | src/background.js:24-29 | trimming to the newest 50 earlier changes nothing about the newest 50 later |
| RecentJobs.KeepsLastInserted | src/background.ts:164-176 | any run of new URLs leaves exactly the 50 most recently inserted |
| RecentJobs.StillFresh | src/background.ts:164-176 | the URLs still to come stay distinct and absent after one insertion |
| RecentJobs.RecentSubmissions.constructor | src/background.ts:156 | the set starts empty |
| RecentJobs.RecentSubmissions.Add | src/background.ts:164-176 | the in-place add, copy, clear and refill yields the inserted set and keeps it within capacity |
| Submission.ConfirmationComesFirst | src/background.ts:78-97 | a recent URL without `forceSubmit` is asked to confirm, even while a submission is in progress |
| Submission.SingleFlight | src/background.ts:100-107 | while `isSubmitting` holds every request is rejected, with the in-progress error unless a confirmation is due; otherwise exactly the requests that are not unconfirmed repeats start |
| Submission.Reply | src/background.ts:123-142 | a resolved result is sent as it is; a rejection becomes `{success:false}` with a non-empty error |
| Submission.Gate.constructor | src/background.ts:151-156 | no submission is running and the set is empty |
| Submission.Gate.Start | src/background.ts:78-109 | the checks in order; the flag is set only when work starts; the set is untouched |
| Submission.Gate.Settle | src/background.ts:123-142 | the flag is cleared on both paths; the URL is recorded only for a created page with a non-empty URL |
| Background.FreshEntryIsUsed | src/background.ts:323-328 | an entry younger than an hour is used as it is, whatever the describe call would answer |
| Background.StaleEntryIsFetched | src/background.ts:329-358 | otherwise the fetched schema is stored with the current time; a failed fetch caches nothing |
| Background.LookupKeepsOthers | src/background.ts:194-225 | a lookup touches no other database's entry |
| Background.StampedEntryLastsAnHour | src/background.ts:28 | a stamped entry is fresh exactly while less than 3,600,000 ms have passed |
| Background.ExistsIffMatched | src/background.ts:179-289 | the pre-check finds the job iff the schema was obtained and the query succeeded with at least one result; any failure counts as not found |
| Background.TsPayloadShows | src/background.ts:386-532 | each of the ten writes shows in the built properties: present iff its condition held, with its value |
| Background.TsPayloadFields | src/background.ts:389-498 | Company is always written as a title; ExternalID, Position, Description and Notes need `rich_text`; Location also needs a value; URL needs `url`, Status `select`, Date Added `date`; Description and Notes are cut to 2000 characters |
| Background.TsPayloadSalary | src/background.ts:501-532 | Salary is written only when non-empty into a `rich_text` property, verbatim |
| Background.SalaryOnlyAsText | src/background.ts:514-531 | the `number` branch never adds a property |
| Background.TsPayloadOnlyFields | src/background.ts:386-532 | every property written is one of the ten fields under its resolved name |
| Background.TsWritesDistinct | src/background.ts:386-532 | the ten writes go to ten different properties |
| Background.AddSalary | src/background.ts:501-532 | the salary block computes the salary write |
| Background.BuildProperties | src/background.ts:386-532 | the successive assignments build exactly the specified properties |
| Background.DuplicateIdIsNotCreated | src/background.ts:302-316 | a job whose id is found gets the duplicate reply with its URL, and the schema fetch and page creation are not consulted |
| Background.NoIdSkipsCheck | src/background.ts:302 | without an id, no pre-check call is made |
| Background.CreatedPageAndRestamp | src/background.ts:360-364 | a page is reported created iff Notion created it from this submission's properties; the entry is then re-stamped and stays fresh for an hour from the stamp |
| Background.FailureMessages | src/background.ts:302-364 | a rejected submission passed the duplicate check; then either no schema was obtained and the error is the describe call's message, or the page built against the schema the submission obtained was refused and the error is the creation's message |
| Background.OtherDatabasesUntouched | src/background.ts:318-364 | a submission changes only the cache entry of its own database |
| Background.Worker.constructor | src/background.ts:27 | the cache starts empty and no submission is running |
| Background.Worker.LookupSchema | src/background.ts:318-358 | the in-place cache lookup follows the cache function |
| Background.Worker.CheckJobExists | src/background.ts:179-289 | `checkJobExistsInNotion` follows the pre-check function and updates the cache in place |
| Background.Worker.AddJobToNotion | src/background.ts:292-569 | `addJobToNotion` follows the submission function, cache included |
| Background.Worker.HandleAddJob | src/background.ts:76-146 | a rejected request changes nothing; an admitted one replies with the submission's outcome, clears the flag and records only a created page |
| LegacyBackground.JsFieldNamesDiffer | src/background.js:142-259 | the nine field names differ ignoring case |
| LegacyBackground.JsWritesDistinct | src/background.js:142-259 | the nine writes go to nine different properties |
| LegacyBackground.JsPayloadShows | src/background.js:142-259 | each of the nine writes shows in the properties: present iff its condition held |
| LegacyBackground.JsPayloadFields | src/background.js:142-259 | Company is always a title; Position needs `rich_text`, URL `url`, Date Added `date`, Status `select`; Location, Salary, Description and Notes need a value and `rich_text`; Description is cut to 1900 characters and Notes is not cut |
| LegacyBackground.JsPayloadOnlyFields | src/background.js:142-259 | every property written is one of the nine fields, so a `number` Salary never is |
| LegacyBackground.BuildProperties | src/background.js:138-259 | the successive assignments build exactly the specified properties |
| LegacyBackground.AddJobOutcomes | src/background.js:94-300 | a submission resolves only with a created page, exactly when the fetch, the model call and the creation succeed, and then with the created page's body; otherwise it is rejected with the fetch's message, else the model's, else the creation's message for the page built against the fetched schema |
| LegacyBackground.Worker.constructor | src/background.js:6-9 | no submission is running and the set is empty |
| LegacyBackground.Worker.AddJobToNotion | src/background.js:94-300 | `addJobToNotion` follows the submission function |
| LegacyBackground.Worker.HandleAddJob | src/background.js:32-91 | the same admission, reply and recording rules as src/background.ts |
| RootBackground.RootPayloadKeys | background.js:35-104 | the payload has exactly the nine fixed property names |
| RootBackground.RootPayloadFixedFields | background.js:38-77 | Company, Position, URL, Status and Date Added are always present; Date Added is the calendar date of the timestamp |
| RootBackground.RootPayloadNullableFields | background.js:56-103 | Location, Salary, Description and Notes are `null` iff empty, and verbatim otherwise |
| RootBackground.HandleOutcomes | background.js:2-14 | a created page resolves with its data; any failure is answered with the non-empty server or network message, and with `Error adding job to Notion` when that message is empty |
| RootBackground.StatusIsNotReported | background.js:108-112 | two error responses with the same message get the same reply, whatever their status |

## Left out

- I/O and platform: the `fetch` calls, the auth token, `chrome.runtime` messaging, `console` logging and the JSON encoding of request bodies. Notion's answers are parameters. Key order and `JSON.stringify` details are not modelled.
- Time: `Date.now()` and `new Date().toISOString()` are parameters, one per reading in src/background.ts. src/background.ts stores the entry fetched during the pre-check with the check's own reading.
- Concurrency: messages are handled as sequential method calls. The interleaving of `await`s between two messages is not modelled. The flag's effect is modelled as the state a second message sees.
- The 300 ms wait in src/sidebarInjector.ts:282 is left out, because it only delays.
- The `enhanceWithAi` branch of src/background.ts is left out, because it is an opaque language-model call. In src/background.js the LMStudio reply is a parameter, and only a failure of that call changes the outcome. src/ai.ts is not part of this model.
- UI: the popup, the sidebar page and `injectSidebar` (iframe, toggle button, MutationObserver, storage) are not part of this model.
- DOM and regular expressions: CSS matching, `textContent` and `innerHTML` are the `Document`'s lookups. The DOM half of `cleanupDescription` (parsing, and removing script and style elements) is the `Engine`'s `sanitize`. The lazy `<p>`/`<li>`/`<h1-6>` rewrites are `rewriteBlocks`. The salary patterns of content.js:153-185 are an ordered list of opaque matchers.
- In content.js the `.replace(/\n\s*\n/g, '\n\n')` after the `\s+` collapse can never match, so the fallback is modelled as the collapse alone.
- JsString.Lower: lowers ASCII letters only, while `toLowerCase` maps all of Unicode.
- Lengths count Dafny characters, not UTF-16 code units. `substring` and `.length` differ from the model on astral characters.
- Notion.ParsesAsNumber is reduced to `parseFloat`'s first-character test. The filtered salary contains no digit, so that test decides the matter.
- Missing JSON fields (an absent `id`, `location`, and so on) are the empty string. Any other non-string value is not modelled.
- The schema's property values are reduced to their `type`. A property counts as present when it is a key of the schema; a falsy property object never occurs in Notion's answers.
- Root background.js parses the response body before it checks `response.ok`. A body that is not JSON rejects with the parser's error; that case is not modelled.
- Root background.js writes `null` for an empty optional field. The fields a payload holds are modelled as `Option` values with `None` for `null`.
- src/content.js (the LLM-assisted script) is not part of this model.
- ContentScript.ReplyTo: the `{error}` reply carries the selector the browser refused, not the text of the exception's `message`, which the model does not have.
- SidebarExtractor.ExtractJobInfo: an exception inside extraction is caught and yields the defaults. No `error` field is ever set on the reply, and the model has none.
