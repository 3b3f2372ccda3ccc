# Weekly AI newsletter summary — a Dafny model

The system collects a week of AI newsletters from a Gmail label. It archives
each one as an HTML file in a weekly Drive folder, then asks a language model
for a Swedish Markdown summary of the archived newsletters together with a
list of YouTube videos. The summary is stored in a database and mailed out,
and finally every fetched message is marked as read. A separate one-off
script imports the video list from a spreadsheet.

The model covers the core of that flow:

- `prompt.dfy` (module `Prompt`, `services/claude_service.py`):
  - the analysis prompt, built by two appending loops: at most 30 newsletters, each in a five-line block with the snippet cut to 300 characters plus `...`, and every video in a five-line block;
  - the constant template the two sections are inserted into;
  - `analyze_week`, in which the generative call is a function parameter and the picks are always empty.
- `gmail.dfy` (module `Gmail`, `services/gmail_service.py`):
  - the "last Friday 08:00 to today 08:00" window on day numbers;
  - header lookup with its defaults;
  - the depth-first search for the HTML body over a part tree;
  - the per-message detail fetch;
  - the listing loop that keeps the messages whose details came back.
- `drive.dfy` (module `Drive`, `services/drive_service.py`): the archive file name. It filters the subject to alphanumerics, space, `-` and `_`, applies Python's `strip`, cuts to 50 characters and appends `.html`.
- `pipeline.dfy` (module `Pipeline`, `main.py`):
  - the weekly run as the ordered list of calls it makes to its collaborators, and how it ends: early, completed, or aborted by an exception;
  - the folder name `<year>-W<week, two digits>`;
  - the archive loop that skips failed saves;
  - analysis and storage of the archived newsletters only;
  - marking every fetched message as read.
- `migrate.dfy` (module `Migrate`, `migrate_youtube.py`): the import loop with its fixed column mapping, its skip rules and its two counters.
- Shared modules:
  - `wrappers.dfy`: `Option`, and `Outcome`, which stands for a call that returns or raises;
  - `decimal.dfy`: decimal rendering of naturals and `:02d` padding, with their parsers;
  - `seqs.dfy`: slicing, flattening, and the "append each success in order" filter `Successes`, with its characterisation by indices;
  - `records.dfy`: newsletter, archived newsletter and video records.

Calls to remote services are values the model is given:

- `Outcome`s, or functions from the call's argument or position to an `Outcome`;
- the mailbox's list and get calls;
- base64 and UTF-8 decoding;
- the generative call;
- `str.isalnum`;
- the clock.

A raised exception that the source catches becomes the source's fallback value. One that it lets escape ends the run as `Failed`.

The folder name pairs the calendar year with the ISO week number (`main.py:53-55`). Near New Year the two can belong to different years. The model takes both as separate inputs, so it keeps that behaviour.

Prompt building is deterministic by construction: every part of it is a function of its inputs.

The run's properties are proved about `Pipeline.RunWith` for every analysis outcome. `Pipeline.WeeklyRun` plugs in `Prompt.WeekAnalysis`, so the long prompt text is never unfolded in those proofs.

## Model

| member | source | states |
|---|---|---|
| Decimal.NatToString | main.py:55 | `str(n)` for a natural: at least one digit, all decimal digits, no leading zero unless it is the only digit, and one digit exactly when n < 10 |
| Decimal.PadTwo | main.py:55 | `:02d`: at least two decimal digits; one leading zero exactly when n < 10, otherwise the plain rendering |
| Decimal.NatToStringRoundTrip | main.py:55 | the decimal rendering of a number reads back as that number |
| Decimal.PadTwoRoundTrip | main.py:55 | the `:02d` rendering reads back as the number |
| Decimal.NatToStringInjective | main.py:55 | different numbers render differently |
| Seqs.SuccessesSelect | services/gmail_service.py:63-68 | appending each successful result in a loop keeps exactly the successes, in input order |
| Prompt.RenderNewsletters | services/claude_service.py:44-51 | the newsletter loop's five appends per item leave the numbered concatenation of the item blocks |
| Prompt.RenderVideos | services/claude_service.py:54-60 | the video loop leaves the numbered concatenation of every video's block, without a cap |
| Prompt.NewsletterBlock | services/claude_service.py:47-51 | one newsletter's five lines; specified by `NewsletterBlockSnippet` and `SnippetTailIgnored` |
| Prompt.VideoBlock | services/claude_service.py:56-60 | one video's five lines, numbered from 1; specified through `NumberedIsBlocks` and `PromptLayout` |
| Prompt.NumberedIsBlocks | services/claude_service.py:45-60 | a section is its blocks in order with nothing between them; item k is rendered with number k+1 |
| Prompt.PromptLayout | services/claude_service.py:44-121 | the prompt is the opening, the blocks of the first min(30, n) newsletters in order, the middle text, every video block and the closing; each section's list of blocks and each section's text is empty exactly when its input is |
| Prompt.EmptyInputsPrompt | services/claude_service.py:44-55 | with no newsletters and no videos the prompt is the fixed text alone |
| Prompt.AnalysisTemplateHeadings | services/claude_service.py:62-70 | the newsletter section follows the `# NEWSLETTERS FRÅN VECKAN` heading and the video section the `# TILLGÄNGLIGA YOUTUBE-VIDEOS` heading |
| Prompt.NewsletterBlockSnippet | services/claude_service.py:51 | a block ends with at most the first 300 snippet characters and then `...`, also when the snippet is shorter |
| Prompt.SnippetTailIgnored | services/claude_service.py:51 | what follows the 300th snippet character does not change the block |
| Prompt.NewslettersAfterThirtyIgnored | services/claude_service.py:45 | newsletters after the first 30 do not change the prompt |
| Prompt.AnalysisPrompt | services/claude_service.py:40-121 | the prompt `_build_analysis_prompt` returns; specified by `PromptLayout`, `AnalysisTemplateHeadings`, `NewslettersAfterThirtyIgnored` and `EmptyInputsPrompt` |
| Prompt.BuildAnalysisPrompt | services/claude_service.py:40-121 | the imperative prompt builder yields the prompt specified by the section functions |
| Prompt.ExtractYoutubePicks | services/claude_service.py:123-127 | the picks are always the empty list |
| Prompt.WeekAnalysis | services/claude_service.py:11-38 | a failing generative call propagates; otherwise its text is the markdown, unchanged, and the picks are empty |
| Prompt.AnalyzeWeek | services/claude_service.py:11-38 | the call sequence of `analyze_week` yields that outcome |
| Gmail.DaysSinceFriday | services/gmail_service.py:46 | the count is in 0..6 and lands on a Friday |
| Gmail.LastWeekWindow | services/gmail_service.py:46-51 | the start is a Friday 7 to 13 days back at 08:00:00.000000; the end is today at 08:00:00.000000, whatever today's weekday |
| Gmail.LastWeekWindowBounds | services/gmail_service.py:46-48 | the start is 7 days back exactly when today is a Friday, and it is the latest Friday at least 7 days back |
| Gmail.HeaderValue | services/gmail_service.py:99-101 | the value of the first header with exactly that name, else the default |
| Gmail.ScanParts | services/gmail_service.py:121-130 | the part loop from a given sub-part on; specified by `ScanStopsAtFirst` and `ScanExhausted` |
| Gmail.HtmlBody | services/gmail_service.py:119-136 | `_get_html_body`; specified by `HtmlBodyFirstMatch`, `HtmlBodyFallback` and `HtmlPartWithoutDataHidesSubparts` |
| Gmail.ScanStopsAtFirst | services/gmail_service.py:121-130 | the part scan returns at the first sub-part that is an HTML part with data or a nested search that yields a non-empty body |
| Gmail.ScanExhausted | services/gmail_service.py:121-130 | the scan runs out exactly when every sub-part is passed over: an HTML part without data, or a nested search yielding "" |
| Gmail.HtmlBodyFirstMatch | services/gmail_service.py:119-130 | the body is the verdict of the first sub-part not passed over, in depth-first order |
| Gmail.HtmlBodyFallback | services/gmail_service.py:132-136 | otherwise the body is the payload's own decoded data whatever its type, or "" |
| Gmail.HtmlPartWithoutDataHidesSubparts | services/gmail_service.py:123-126 | the sub-parts of an HTML part without data are never searched |
| Gmail.MessageDetails | services/gmail_service.py:89-117 | a record exists exactly when the fetch and the body decoding succeed; it carries the requested id and the found body; subject, sender and date are the first `Subject`, `From` and `Date` headers, defaulting to `Ingen titel`, `Okänd` and ""; the snippet is the message's, or "" without one |
| Gmail.LastWeekNewsletters | services/gmail_service.py:55-74 | the newsletters fetched for the week; specified by `LastWeekNewslettersSelect` |
| Gmail.LastWeekNewslettersSelect | services/gmail_service.py:55-74 | the result is exactly the listed messages whose details came back, in listing order, at most 100, and empty when listing raises |
| Gmail.NewslettersLastWeek | services/gmail_service.py:39-74 | the listing loop yields that result and at most 100 newsletters |
| Drive.KeepPermitted | services/drive_service.py:72 | every kept character is alphanumeric, space, `-` or `_`; every such character of the subject is kept |
| Drive.KeepPermittedDistributes | services/drive_service.py:72 | the filter works character by character, so kept characters keep their relative order |
| Drive.KeepPermittedKeepsAll | services/drive_service.py:72 | a subject of permitted characters passes whole |
| Drive.StripStart | services/drive_service.py:72 | the leading half of `strip`: a suffix of the input, everything removed is whitespace, and the result does not start with whitespace |
| Drive.StripEnd | services/drive_service.py:72 | the trailing half of `strip`: a prefix of the input, everything removed is whitespace, and the result does not end with whitespace |
| Drive.Strip | services/drive_service.py:72 | `str.strip()`; specified by `StripIsTrimmedSlice` and by the contracts of `StripStart` and `StripEnd` |
| Drive.StripIsTrimmedSlice | services/drive_service.py:72 | `strip` leaves a contiguous slice that neither starts nor ends with whitespace and removes only whitespace |
| Drive.SafeSubject | services/drive_service.py:72-73 | the safe subject is a prefix of the filtered and stripped subject, at most 50 characters, whole when shorter; only permitted characters; no leading whitespace |
| Drive.TrailingSpaceCanSurvive | services/drive_service.py:72-73 | the cut follows the strip, so a safe subject can end in a space |
| Drive.FileName | services/drive_service.py:72-74 | the name is the safe subject plus `.html`, 5 to 55 characters |
| Drive.NoPermittedCharacterGivesBareSuffix | services/drive_service.py:72-74 | a subject with no permitted non-space character gives `.html` |
| Drive.OnlySpacesStripToEmpty | services/drive_service.py:72 | filtering such a subject leaves only whitespace, which `strip` removes |
| Pipeline.FolderName | main.py:53-55 | `{year}-W{week:02d}`; specified by `FolderNameRoundTrip` and `FolderNameInjective` |
| Pipeline.FolderNameRoundTrip | main.py:53-55 | the folder name reads back as its year and week |
| Pipeline.FolderNameInjective | main.py:55 | different (year, week) pairs give different folder names |
| Pipeline.EmailSubject | main.py:98 | the subject with the unpadded week number; specified by `StoreThenMail` |
| Pipeline.Ids | main.py:105 | the ids of all fetched newsletters, in fetch order, one per newsletter |
| Pipeline.SavedNewsletters | main.py:61-72 | the archived list; specified by `SavedAreSuccessfulSaves` and `SavesAllOkOrAllFailed` |
| Pipeline.WeeklyRun | main.py:45-106 | the run with the analysis step plugged in; specified through `RunWith`'s lemmas, and the target of `RunWeekly` |
| Pipeline.RunWith | main.py:48-106 | the run for any analysis outcome; specified by `NothingFetchedNoCalls`, `ArchiveThenAnalyse`, `StoreThenMail`, `CompletionMarksAllFetched` and `MarkAsReadOnlyOnCompletion` |
| Pipeline.Conclusion | main.py:76-106 | steps 4 to 8; specified by `ConclusionSteps` |
| Pipeline.NothingFetchedNoCalls | main.py:48-57 | no call at all is made exactly when nothing was fetched; otherwise the first call creates the weekly folder and a failure there ends the run |
| Pipeline.ArchiveThenAnalyse | main.py:59-83 | every fetched newsletter is sent to the archive in order, failed saves included; then the video list is read and the analysis is given the archived list only |
| Pipeline.StoreThenMail | main.py:85-101 | a successful analysis is stored under the folder name with the archived list, then mailed with the unpadded week in the subject |
| Pipeline.ConclusionSteps | main.py:76-106 | each step after the archive loop is reached only when the one before succeeded, and the run completes exactly when all five calls are made |
| Pipeline.CompletionMarksAllFetched | main.py:103-113 | a run completes exactly when the folder, analysis, store and e-mail succeed, and it then marks the ids of all fetched messages as read, including those whose save failed |
| Pipeline.MarkAsReadOnlyOnCompletion | main.py:103-106 | marking as read happens only as the last call of a completed run |
| Pipeline.SavedAreSuccessfulSaves | main.py:61-72 | the archived list is the fetched newsletters whose save succeeded, in fetch order, each with its own save's link and id |
| Pipeline.SavesAllOkOrAllFailed | main.py:61-72 | with every save succeeding all newsletters are archived in order; with every save failing the list is empty |
| Pipeline.ArchiveAll | main.py:59-72 | the archive loop makes one save call per newsletter and yields the archived list |
| Pipeline.Conclude | main.py:76-106 | steps 4 to 8 make the calls and give the exit of the specified run |
| Pipeline.RunWeekly | main.py:21-113 | the whole run makes exactly the calls of the specified run, given the newsletters fetched for the week |
| Migrate.VideoFromRow | migrate_youtube.py:37-44 | the column mapping; specified by `VideoFromRowColumns` and `UnreadColumnsIgnored` |
| Migrate.VideoFromRowColumns | migrate_youtube.py:37-44 | title and url are cells 1 and 2; category, type and description are cells 3, 4 and 6 when present, else empty text; the record is active |
| Migrate.UnreadColumnsIgnored | migrate_youtube.py:37-44 | cells 0 and 5 and those after 6 never affect the record |
| Migrate.RowInsert | migrate_youtube.py:34-47 | a row leads to an insert exactly when it has at least three cells and a truthy title and url |
| Migrate.Inserts | migrate_youtube.py:33-50 | the insert calls made, in sheet order; specified by `InsertsAreQualifyingRows` |
| Migrate.InsertsAreQualifyingRows | migrate_youtube.py:33-50 | the inserts are exactly the qualifying rows, in sheet order, numbered from 2, all active |
| Migrate.CountedPartition | migrate_youtube.py:49-55 | every insert is counted exactly once, as added or as an error |
| Migrate.NoFailureNoErrors | migrate_youtube.py:49-55 | when no insert fails there are no errors and all are added |
| Migrate.Migration | migrate_youtube.py:10-57 | a credential that is missing or empty stops the migration before any insert; otherwise every insert is counted once, as added or as an error, and there are at most as many inserts as rows |
| Migrate.MigrateVideos | migrate_youtube.py:10-57 | a missing or empty URL or key reports nothing and inserts nothing; otherwise the loop makes the specified inserts and its counters add up to their number |

## Left out

- Network calls (Gmail list/get/modify, Drive list/create/permissions, the Anthropic messages call, the database client, the e-mail send): their results are inputs to the model.
- The Gmail query string and `strftime`: the window is modelled on day numbers, and the listing is a function of the window.
- `datetime.now()`, `weekday()` and `isocalendar()`: today is a day number whose weekday is `(day + 6) % 7`, as with proleptic Gregorian ordinals; year and ISO week are inputs.
- base64url and UTF-8 decoding: a function from part data to an outcome.
- Python's Unicode `str.isalnum`: a predicate parameter. `Drive.AsciiAlnum` serves only the trailing-space example.
- A payload without `headers`, or a part without `mimeType` or `body`: these `KeyError`s are not modelled; the Gmail API always sends those keys.
- Video fields that are not strings, and spreadsheet cells holding floats or dates: the model uses strings, integers and booleans.
- `mark_as_read` catches its own errors, and `get_videos` returns `[]` on failure: the model records the mark-as-read call and takes the video list as given.
- The service constructors in `main.py:27-40` can raise before anything is fetched: the model starts after them.
- The workbook loading in `migrate_youtube.py:22-26` is not modelled: the rows are an input, and the early return is modelled as reporting and inserting nothing.
- The printed and logged messages are not modelled.
- The command-line wrapper of `migrate_youtube.py` (argument and file checks) is not modelled.
- The code has no weighted video sampler and no short-summary prompt, so the model has neither.
- app.py (web routes and a status dict shared with a background thread), services/email_service.py, services/supabase_service.py, services/youtube_service.py and setup_google_auth.py are not part of this model.
- The `_authenticate` helpers, including the unset `creds` when no refresh token is present, are credential plumbing and are not modelled.
