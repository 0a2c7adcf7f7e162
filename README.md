# BillBuster core in Dafny

BillBuster is a mobile app. The user photographs a utility or service bill.
The app sends the photo to one of three AI providers (OpenRouter, OpenAI or
Anthropic), which return line items and findings such as overcharges and
hidden fees. The app files the result in a local SQLite database and in its
in-memory stores. It can then ask the same provider for a phone negotiation
script.

This project models that core and proves properties of it:

- **Providers.** Each provider checks for its key, calls the API with a
  timeout, checks the response, reads the reply text, extracts the JSON and
  parses it. Three modules cover this: `OpenRouterProvider`,
  `AnthropicProvider` and `OpenAIProvider`.
  - `Http` holds the shared decision on what a response means.
  - `ExtractJson` models the two `extractJSON` regexes by what they match.
- **Prompts.** `Prompts` holds the two prompt templates and the
  `String.prototype.replace` chain that fills in the script prompt.
  `PromptText` holds the templates' literal text. The providers send the
  script template as written, whose savings line is never filled in (see
  "## Findings").
  - The `replace` model includes `$`-pattern expansion from section
    22.1.3.18.1 (GetSubstitution) of ECMA-262.
- **Factory and key check.** `AiService` is the provider factory.
  `KeyValidator` is the key test shown in Settings.
- **Repository.** `BillRepository` is a `Database` class. It holds three
  tables as maps, plus the row converters, the `SUM`, `COUNT` and
  `ORDER BY createdAt DESC` queries, and `safeJsonParse`.
- **Stores.** The four zustand stores are classes whose methods update their
  fields: `BillStore`, `HistoryStore`, `SavingsStore` and `SettingsStore`.
  `UsageTracker` is the free-scan quota.
- **Orchestrator.** `UseAnalysis` is the `useAnalysis` hook. `Analyze` and
  `GenerateScript` run the stores and the repository in the source's order.
  Each returns the ordered trace of the effects it performed.
- **Display rules.** These are pure, except the step counter:
  - `ResultsScreen`: risk gauge, severity badge, flagged-only filter and
    screen branch;
  - `AnalysisSummary`: risk style and issue count;
  - `ScriptScreen`: the copied/shared script text;
  - `AnalyzingScreen`: the step counter, which is a class with a `Tick`
    method.

## How the outside world enters

Parts of the source are nondeterministic or foreign. The model takes them as
parameters:

- the outcome of every `fetch`, as a `FetchOutcome`;
- the parsed body along the reply path, as a `Reply`;
- `JSON.parse`, as a `parse` function;
- the JSON column encoders and decoders, as a `Codec`, assumed to round-trip
  where a lemma says so;
- whether each SQL statement completes, as a `DbRun`;
- the stored API key;
- the prepared image, and the providers' parsed answers as seen by the hook;
- the generated id, and the `new Date().toISOString()` timestamp.

## Model

| member | source | states |
|---|---|---|
| Http.FetchWithTimeout | src/services/ai/anthropic-provider.ts:21-33 | A response is returned as it is. An `AbortError` becomes "Request timed out. Please try again.". Any other rejection passes through unchanged. |
| Http.Receive | src/services/ai/openrouter-provider.ts:33-49 | Success exactly when the fetch resolved with an OK status and a non-empty reply text, and then the value is that text. Every failure is named: timeout; thrown error unchanged; "<vendor> API error (<status>): <body>"; a JSON error from parsing the body; "No response from <vendor>" for missing or falsy text. An unguarded missing `choices` gives the TypeError instead. |
| Http.ApiErrorMessageInjective | src/services/ai/openrouter-provider.ts:42 | The API error message determines both the status and the body text. |
| OpenRouterProvider.CallAPI | src/services/ai/openrouter-provider.ts:13-50 | Without a truthy key, nothing is sent and the call fails with the OpenRouter key message. With a key, the request is sent once and the result is the `Receive` decision for vendor "OpenRouter" with the guarded path. |
| OpenRouterProvider.AnalyzeBill | src/services/ai/openrouter-provider.ts:52-76 | Sends the bill prompt and the image. The result is `parse` applied to the extracted JSON of the delivered text. Otherwise it is the `CallAPI` error, including the same key message. |
| OpenRouterProvider.GenerateScript | src/services/ai/openrouter-provider.ts:78-96 | Sends the filled script prompt with no image. It parses the extracted JSON, or fails as `CallAPI` does. The prompt is the template as written filled by the `replace` chain (`ScriptPromptAsWritten`), so its savings line still reads `{totalSavings{'}'}`. |
| ExtractJson.ExtractOpenRouter | src/services/ai/openrouter-provider.ts:99-109 | The result is always a contiguous substring of the input. |
| ExtractJson.ExtractAnthropic | src/services/ai/anthropic-provider.ts:6-16 | A success is a contiguous substring of the input. The only failure is "Could not extract JSON from Anthropic response". |
| ExtractJson.FenceWins | src/services/ai/openrouter-provider.ts:101-102 | Given a fenced block, both extractors return the trimmed interior after the optional `json` tag. Braces elsewhere do not matter. |
| ExtractJson.BraceFallback | src/services/ai/openrouter-provider.ts:105-106 | With no fenced block, both extractors return the span from the first `{` to the last `}`. |
| ExtractJson.NothingFound | src/services/ai/anthropic-provider.ts:15 | With neither a fence nor a brace span, OpenRouter returns the input unchanged and Anthropic fails with its extraction error. |
| ExtractJson.ExtractorsAgree | src/services/ai/anthropic-provider.ts:8-13 | Whenever the Anthropic extractor succeeds, the OpenRouter extractor returns the same string. When it fails, OpenRouter returns the raw input. |
| ExtractJson.AgreeWithoutFence | src/services/ai/anthropic-provider.ts:12-13 | Without a fence, the two extractors agree in the same sense. |
| ExtractJson.FencedReplyExample | src/services/ai/openrouter-provider.ts:101-102 | "```json\n{\"a\":1}\n```" extracts to `{"a":1}` in both providers. |
| ExtractJson.ProseReplyExample | src/services/ai/openrouter-provider.ts:105-106 | "Sure! {\"a\":1} Hope that helps" extracts to `{"a":1}` in both providers. |
| AnthropicProvider.ParseReply | src/services/ai/anthropic-provider.ts:81 | `parse` is applied to the extracted JSON. When extraction fails, the extraction error is thrown and `parse` is never called. |
| AnthropicProvider.Exchange | src/services/ai/anthropic-provider.ts:21-33 | The fetch with timeout plus the status and `content?.[0]?.text` checks. This is exactly the `Receive` decision for "Anthropic" with the guarded path. |
| AnthropicProvider.AnalyzeBill | src/services/ai/anthropic-provider.ts:35-82 | Without a key: nothing is sent, and the error is "...Go to Settings to add it.". Otherwise it sends the bill prompt plus "Respond with only the JSON object", and the image. It then fails as `Receive` does or returns `ParseReply` of the text. |
| AnthropicProvider.GenerateScript | src/services/ai/anthropic-provider.ts:84-127 | Same as `AnalyzeBill`, with the filled script prompt and no image. The key message is the shorter "Anthropic API key not configured.". The prompt is the template as written filled by the `replace` chain (`ScriptPromptAsWritten`), so its savings line still reads `{totalSavings{'}'}`. |
| AnthropicProvider.RawTextNeverParsed | src/services/ai/anthropic-provider.ts:15 | Text with no fence and no brace span is never handed to `parse`. |
| OpenAIProvider.Exchange | src/services/ai/openai-provider.ts:9-21 | The fetch and checks are the `Receive` decision for "OpenAI" with the unguarded path, so a missing `choices` is a TypeError and not "No response from OpenAI". |
| OpenAIProvider.AnalyzeBill | src/services/ai/openai-provider.ts:23-65 | Key check with the long message. The delivered text goes straight to `parse`, with no extraction. |
| OpenAIProvider.GenerateScript | src/services/ai/openai-provider.ts:67-104 | Key check with the short message. The filled script prompt is sent, and the delivered text goes straight to `parse`. The prompt is the template as written filled by the `replace` chain (`ScriptPromptAsWritten`), so its savings line still reads `{totalSavings{'}'}`. |
| Prompts.BillAnalysisHasNoPlaceholder | src/services/ai/prompts.ts:1-41 | The bill prompt contains none of `{provider}`, `{findings}` or `{totalSavings}`. |
| Prompts.ProviderPosition | src/services/ai/prompts.ts:45 | `{provider}` occurs in the script template exactly once, at the end of its intro. |
| Prompts.FindingsPosition | src/services/ai/prompts.ts:46 | `{findings}` occurs exactly once, after `{provider}`. |
| Prompts.PlaceholdersOnceInOrder | src/services/ai/prompts.ts:45-47 | In the corrected template, each placeholder occurs exactly once, in the order provider, findings, totalSavings. |
| Prompts.SavingsPlaceholderMissing | src/services/ai/prompts.ts:47 | As written, the template holds `{provider}` and `{findings}` but no `{totalSavings}` at all. |
| Prompts.AsWrittenKeepsSavingsText | src/services/ai/openrouter-provider.ts:83-86 | As written, the `replace` chain fills the provider and the findings. The savings line stays the literal text `{totalSavings{'}'}` and the amount is never inserted. |
| Prompts.ScriptPromptSplices | src/services/ai/openrouter-provider.ts:83-86 | With the corrected template, the chain puts the provider, the findings JSON and the savings text exactly in place of the three placeholders. The rest of the prompt is unchanged. This needs replacements free of `$` patterns and no placeholder text inside earlier values. |
| Prompts.ScriptPromptAsWritten | src/services/ai/openrouter-provider.ts:83-86 | The chain the three providers run on the template as written. Whatever the provider name, findings and savings text hold, the prompt still opens with the template's introduction: no replacement reaches into it. |
| Prompts.ScriptPrompt | src/services/ai/prompts.ts:43-47 | The same chain on the corrected template. Again the introduction is never touched, whatever the values hold. |
| Prompts.SavingsTextIsLiteral | src/services/ai/openrouter-provider.ts:86 | A savings text of `$` followed by digits, `.` and `-` contains no `$` replacement pattern, so `replace` inserts it literally. |
| AiService.GetAIProvider | src/services/ai/ai-service.ts:13-15 | The factory is total and returns the class that serves the requested provider type. |
| AiService.NamesDistinguishProviders | src/services/ai/ai-service.ts:7-11 | Different provider types yield instances with different `name`s. |
| AiService.EveryClassReachable | src/services/ai/ai-service.ts:7-11 | Each of the three classes is what the factory returns for the type it serves. |
| KeyValidator.Classify | src/services/ai/key-validator.ts:35-62 | `ok` holds exactly for an OK response, whose message is "Key is valid". A non-OK status gives "Error <status>", except 401 gives "Invalid key" when that rule is on (Anthropic only). An abort gives "Timed out"; any other throw gives "Connection failed". |
| KeyValidator.TestOpenRouterKey | src/services/ai/key-validator.ts:1-16 | Every refused request, 401 included, reads "Error <status>". It classifies every outcome exactly as the OpenAI check does. |
| KeyValidator.TestOpenAIKey | src/services/ai/key-validator.ts:18-33 | Valid exactly for an OK response. Every refused request reads "Error <status>". |
| KeyValidator.TestAnthropicKey | src/services/ai/key-validator.ts:35-62 | A refused 401 reads "Invalid key". That is the only outcome it reports differently from the OpenRouter check. |
| KeyValidator.StatusMessageNamesStatus | src/services/ai/key-validator.ts:11 | "Error <status>" determines the status and is never one of the fixed messages. |
| KeyValidator.MessageTellsOutcome | src/services/ai/key-validator.ts:55-61 | Two outcomes with the same message have the same result, the same kind (thrown or responded), and the same OK flag. Abort versus other throw is the same too, and so is the status of a failed response. |
| BillRepository.SafeJsonParse | src/services/storage/bill-repository.ts:6-13 | Returns the decoded value when decoding succeeds and the fallback otherwise. |
| BillRepository.RowToBill | src/services/storage/bill-repository.ts:40-43 | A read row keeps its id and its timestamp. |
| BillRepository.RowsRoundTrip | src/services/storage/bill-repository.ts:17-44 | With round-tripping codecs, a bill, an analysis or a script written to a row reads back equal. |
| BillRepository.UnparsableColumnReadsEmpty | src/services/storage/bill-repository.ts:42 | A `lineItems` column that does not parse reads as an empty list. All other columns are kept. |
| BillRepository.Lookup | src/services/storage/bill-repository.ts:33-39 | A key lookup finds a row exactly when the key is stored, and otherwise gives null. |
| BillRepository.UpsertThenLookup | src/services/storage/bill-repository.ts:20 | After an `INSERT OR REPLACE`, the key reads the new row, and every other key reads what it did before. |
| BillRepository.SumSavings | src/services/storage/bill-repository.ts:124-130 | The sum over an empty table is 0. |
| BillRepository.SumSavingsRemove | src/services/storage/bill-repository.ts:127 | `SUM` splits as any one row plus the sum of the rest, whichever row is taken first. |
| BillRepository.SumSavingsUpsert | src/services/storage/bill-repository.ts:69 | Upserting an analysis replaces that row's contribution to the total. |
| BillRepository.LexTotal | src/services/storage/bill-repository.ts:49 | Binary string order compares any two timestamps. |
| BillRepository.LexTrans | src/services/storage/bill-repository.ts:49 | Binary string order is transitive. |
| BillRepository.InsertByDate | src/services/storage/bill-repository.ts:49 | Inserting a bill into a newest-first list keeps it newest-first. It puts the bill at one position and keeps every other entry in place. |
| BillRepository.InsertKeepsIds | src/services/storage/bill-repository.ts:49 | Inserting a bill with a new id adds exactly that id and keeps the ids distinct. |
| BillRepository.DistinctIdsCount | src/services/storage/bill-repository.ts:135 | A list with distinct ids has as many entries as ids. |
| BillRepository.Database.SaveBill | src/services/storage/bill-repository.ts:17-31 | On success, the bill is upserted by id and `getBill` returns it given a faithful codec. Other ids and tables are untouched. On failure, nothing changes. |
| BillRepository.Database.SaveAnalysis | src/services/storage/bill-repository.ts:66-78 | The same upsert and read-back, keyed by `billId`. |
| BillRepository.Database.SaveScript | src/services/storage/bill-repository.ts:95-106 | The same upsert and read-back for scripts. |
| BillRepository.Database.DeleteBill | src/services/storage/bill-repository.ts:57-62 | Deletes run in order: script, then analysis, then bill. A failing statement stops the rest. On success, none of the three reads find the id. |
| BillRepository.Database.GetBill | src/services/storage/bill-repository.ts:33-44 | Finds a bill exactly when the id is stored, and gives null otherwise. The bill is the row decoded, with `lineItems` through `safeJsonParse`, and it carries the id asked for. |
| BillRepository.Database.GetAnalysis | src/services/storage/bill-repository.ts:80-91 | The same for analyses keyed by `billId`, with `findings` decoded. |
| BillRepository.Database.GetScript | src/services/storage/bill-repository.ts:108-120 | The same for scripts keyed by `billId`, with `sections` and `keyPoints` decoded. |
| BillRepository.Database.GetAllBills | src/services/storage/bill-repository.ts:46-55 | Returns every stored bill exactly once, decoded from its row, newest first. The result has as many entries as the table has rows. A failing query fails with its error. |
| BillRepository.Database.GetTotalSavings | src/services/storage/bill-repository.ts:124-130 | The value is the sum of `totalIdentifiedSavings` over all analyses. |
| BillRepository.Database.GetBillCount | src/services/storage/bill-repository.ts:132-138 | The value is the number of stored bills. |
| BillStore.Store.constructor | src/stores/bill-store.ts:25-35 | The initial state has status idle and every other field null. |
| BillStore.Store.SetImageUri | src/stores/bill-store.ts:37 | Sets the image and status reviewing, and nothing else. |
| BillStore.Store.SetStatus | src/stores/bill-store.ts:38 | Changes only the status. |
| BillStore.Store.SetCurrentBill | src/stores/bill-store.ts:39 | Changes only the current bill. |
| BillStore.Store.SetCurrentAnalysis | src/stores/bill-store.ts:40 | Sets the analysis and status done. |
| BillStore.Store.SetCurrentScript | src/stores/bill-store.ts:41 | Changes only the current script. |
| BillStore.Store.SetError | src/stores/bill-store.ts:42 | Sets the error and status error. |
| BillStore.Store.Reset | src/stores/bill-store.ts:43 | Restores exactly the initial state, so it is idempotent. |
| HistoryStore.WithoutBill | src/stores/history-store.ts:34 | Keeps exactly the entries with another id. |
| HistoryStore.RemoveDropsDuplicates | src/stores/history-store.ts:34 | Every entry with the id goes, including duplicates. |
| HistoryStore.RemoveKeepsOrder | src/stores/history-store.ts:34 | Removal keeps the order of the remaining entries. |
| HistoryStore.Store.constructor | src/stores/history-store.ts:17-18 | Starts with an empty list, not loading. |
| HistoryStore.Store.LoadBills | src/stores/history-store.ts:20-24 | On success: the list is the repository's newest-first list, with its ids equal to the table's keys, and loading is cleared. On failure: loading stays set and the list is unchanged. |
| HistoryStore.Store.AddBill | src/stores/history-store.ts:26-30 | Saves the bill, then the analysis. Only when both complete is the bill prepended to the list, with no deduplication. If the bill save fails, the analysis is not saved. |
| HistoryStore.Store.RemoveBill | src/stores/history-store.ts:32-35 | The in-memory list drops the id only when all three deletes complete. |
| SavingsStore.Store.constructor | src/stores/savings-store.ts:14-16 | Starts at total 0, count 0, not loading. |
| SavingsStore.Store.LoadSavings | src/stores/savings-store.ts:18-25 | When both queries succeed: the total is the sum over the analyses table, the count is the size of the bills table, and loading ends. Otherwise nothing but loading changes. |
| SavingsStore.Store.AddSavings | src/stores/savings-store.ts:27-31 | The total grows by exactly the amount and the count by exactly one. Loading is unchanged. |
| SettingsStore.Store.constructor | src/stores/settings-store.ts:16 | Starts at the default settings: OpenRouter, Pro, 0 scans used, 3 free scans. |
| SettingsStore.Store.SetAIProvider | src/stores/settings-store.ts:18 | Changes only the provider. |
| SettingsStore.Store.IncrementScansUsed | src/stores/settings-store.ts:19 | Adds one to `scansUsed` and changes nothing else. |
| SettingsStore.Store.ResetScansUsed | src/stores/settings-store.ts:20 | Sets `scansUsed` to 0 and changes nothing else. |
| UsageTracker.CanScan | src/services/billing/usage-tracker.ts:3-6 | Pro can always scan. Otherwise a scan is allowed exactly below the default limit of 3. |
| UsageTracker.GetRemainingScans | src/services/billing/usage-tracker.ts:8-11 | Null exactly for Pro. Otherwise it is never negative and is `max(0, 3 - scansUsed)`. |
| UsageTracker.QuotaAgrees | src/services/billing/usage-tracker.ts:3-11 | For non-Pro users, a scan is allowed exactly when some scans remain. The remainder never exceeds 3 and never grows as `scansUsed` grows. |
| UsageTracker.ScanUsesOne | src/services/billing/usage-tracker.ts:8-10 | One more scan used lowers the remainder by one, down to 0. |
| UseAnalysis.MessageOf | src/hooks/useAnalysis.ts:98 | An `Error`'s own message, or the fallback text for a non-Error value. |
| UseAnalysis.NewRecordsAgree | src/hooks/useAnalysis.ts:66-87 | The bill and the analysis share the new id and the timestamp. Together they carry every field of the response. |
| UseAnalysis.Analyze | src/hooks/useAnalysis.ts:24-103 | With no photo or no key, nothing changes and nothing happens. Otherwise the status is set to analyzing before the image is prepared and the provider is asked. A failure before the bill is built sets only error and status. After the bill is shown, a failed save leaves history, savings and settings alone. On success the state is: status done; bill and analysis current; bill at the front of history; total up by the savings; count +1; `scansUsed` +1. |
| UseAnalysis.GenerateScript | src/hooks/useAnalysis.ts:105-137 | A no-op without a current bill and analysis. Otherwise it asks the selected provider with the bill's provider, the findings and the total. The script is built with the bill's id, phone format, and the response's sections and key points; it is shown, then saved. A thrown error or failed save sets the error: the error's message, or "Script generation failed". |
| ScriptScreen.OneSection | app/scan/script.tsx:29 | A section is its title, a blank line and its content. |
| ScriptScreen.SectionsInOrder | app/scan/script.tsx:28-30 | Sections appear in order, with one "\n\n---\n\n" rule between each two. |
| ScriptScreen.FullText | app/scan/script.tsx:28-32 | "\n\nKey Points:\n" is always in the text. With no key points the text ends with it. With no sections it starts with it. |
| ScriptScreen.OnePoint | app/scan/script.tsx:32 | A key point alone is rendered as "• " followed by the point. |
| ScriptScreen.PointsInOrder | app/scan/script.tsx:32 | Key points keep their order: two runs of points render as the first run's text, one newline, then the second run's text. |
| ScriptScreen.FullTextLength | app/scan/script.tsx:28-32 | The text's length is the parts, plus one separator between each two, plus the heading. |
| ResultsScreen.GaugeLabel | app/scan/results.tsx:27 | High Risk exactly at 70 and above, Medium Risk exactly from 40 to 69, Low Risk exactly below 40. |
| ResultsScreen.GaugeColor | app/scan/results.tsx:26 | The theme's danger shade 500 exactly for a High Risk score, its success shade 500 exactly for a Low Risk one, and the amber hex exactly for Medium Risk. |
| ResultsScreen.GaugeColorFollowsLabel | app/scan/results.tsx:26-27 | The gauge colour uses the same thresholds as the label: two scores get the same colour exactly when they get the same label. |
| ResultsScreen.GaugeMonotone | app/scan/results.tsx:27 | A higher score never shows a lower risk. |
| ResultsScreen.SeverityStyleOf | app/scan/results.tsx:70 | The table's entry for the severity, or the `low` entry when the table has none. |
| ResultsScreen.UnknownSeverityLooksLow | app/scan/results.tsx:70 | Any severity text outside the four is drawn like `low`. |
| ResultsScreen.KnownSeveritiesDistinct | app/scan/results.tsx:18-23 | The four severities have four distinct badge styles. |
| ResultsScreen.DisplayItems | app/scan/results.tsx:234 | With the toggle off, all items are shown. With it on, only flagged items are shown, and every flagged item is shown. |
| ResultsScreen.DisplayItemsKeepOrder | app/scan/results.tsx:234 | The view keeps the items' order. |
| ResultsScreen.AllFlaggedShowsAll | app/scan/results.tsx:234 | If every item is flagged, the flagged-only view is the whole list. |
| ResultsScreen.ShowsToggle | app/scan/results.tsx:307 | The toggle is shown exactly when the flagged-only view would not be empty. |
| ResultsScreen.Branch | app/scan/results.tsx:189-220 | The failure screen shows exactly when the status is error or an error text is set. Only after that check is data looked for: the no-data screen shows when the bill or analysis is missing, and otherwise the results show. |
| ResultsScreen.ErrorShowsFailure | app/scan/results.tsx:189 | After `setError`, the failure screen shows that message, whatever data remains. |
| ResultsScreen.FiledAnalysisShown | app/scan/results.tsx:189-212 | After an analysis is filed, the results show unless an older error text is still set, since neither action clears it. |
| AnalysisSummary.GetRiskColor | src/components/bill/AnalysisSummary.tsx:11-15 | For every score, the card's risk label equals the results gauge's label. The text is shade 600 of a theme colour family, and the background is that family's `bg-<family>-50` class. |
| AnalysisSummary.StyleFollowsLabel | src/components/bill/AnalysisSummary.tsx:11-15 | Background and text colour change exactly where the label does. |
| AnalysisSummary.IssueCountText | src/components/bill/AnalysisSummary.tsx:57 | "issue" is used exactly for a count of 1 and "issues" otherwise; results.tsx:284 renders the same line. |
| AnalysisSummary.IssueCountNamesCount | src/components/bill/AnalysisSummary.tsx:57 | The line determines the count. |
| AnalyzingScreen.Updater | app/scan/analyzing.tsx:160-166 | The updater never moves back and moves at most one. It stays put exactly at or past the last step. |
| AnalyzingScreen.AfterTicksSaturates | app/scan/analyzing.tsx:156-167 | After n ticks from 0, the active step is min(n, 4). |
| AnalyzingScreen.AfterTicksMonotone | app/scan/analyzing.tsx:156-167 | The active step stays in [0, 4] and never decreases. |
| AnalyzingScreen.StepCounter.constructor | app/scan/analyzing.tsx:156 | Mounts at step 0 with the interval running. |
| AnalyzingScreen.StepCounter.Tick | app/scan/analyzing.tsx:159-167 | Each tick applies the updater. The interval is cleared on the tick that finds the last step already active. |
| AnalyzingScreen.StepCounter.Unmount | app/scan/analyzing.tsx:168 | Unmounting clears the interval and keeps the step. |
| AnalyzingScreen.StepStateOf | app/scan/analyzing.tsx:104-105 | A step is complete exactly before the active step, active exactly at it, and pending exactly after it. |
| AnalyzingScreen.ExactlyOneActive | app/scan/analyzing.tsx:104-105 | Exactly the active step is active, and exactly the steps before it are complete. |

## Left out

- Network I/O is not modelled: URLs, headers, request bodies, model names, `max_tokens`, the 60 s and 10 s timers, and the abort controller's timing. A request is reduced to its prompt and optional image; a call's outcome is an input.
- `JSON.parse` and `JSON.stringify` are foreign. They are parameters (`parse`, `Codec`), and the savings text `$<amount>` is an input because `toFixed` on a float is not modelled.
- `formatCents` and every other float display is left out.
- The JavaScript engine's exact TypeError text for a missing `choices` array is not modelled. `Http.MISSING_LIST_ERROR` stands for it, and only its kind matters.
- A JSON body of `null`, and a reply "text" that is a non-string value, are not modelled. The reply is either absent or a string.
- `console.error` logging, `Alert.alert`, haptics, router navigation, Clipboard and Share are left out.
- The secure-storage key getters are not modelled; a key is an input.
- `prepareImageForAI` is not modelled; its result or error is an input.
- The SQLite connection singleton, the schema, and `persist`/AsyncStorage middleware are left out.
- `generateId` and the clock are left out; the id and timestamp are inputs.
- AiService.GetAIProvider: each call builds a fresh instance; the model returns the class, not a new object identity.
- UseAnalysis.Analyze: concurrency between overlapping calls is not modelled. The stores are read once at the start, as the source does with `getState()`.
- SavingsStore.Store.LoadSavings: `Promise.all` rejects with whichever query fails first in time; the model lets the total's error win when both fail.
- BillRepository.Database.GetAllBills: bills with equal `createdAt` come in an order the database does not specify; the model proves the order only up to ties.
- BillRepository.Database.GetBill, GetAnalysis and GetScript are modelled as reads that cannot fail, unlike the writes.
- Foreign keys in the schema are not enforced by the connection, so deleting a bill cascades only through the explicit deletes.
- `HistoryStore` `getAnalysis` is a direct pass-through to the repository read and has no model of its own.
- ResultsScreen.SeverityStyleOf: a severity text that names an `Object.prototype` member (such as `constructor`) finds that member instead of `undefined`; the model treats every text other than the four keys as absent.
- The render bodies, animations, `FadeIn`, the review screen and the tab screens are UI and left out.
- Theme colour values are not part of this model: a palette entry is named (`Palette("danger", 500)`), not resolved to its hex code.

## Findings

| source | as written | input that shows it | evidently intended | confidence | as-written member | corrected member |
|---|---|---|---|---|---|---|
| src/services/ai/prompts.ts:47 | The template literal runs `${'{'}` first, then the plain text `totalSavings{'}'}`. The line's text is therefore `{totalSavings{'}'}`, with no `{totalSavings}` placeholder, and the third `.replace('{totalSavings}', …)` in every provider changes nothing. The providers are modelled as written and send `ScriptPromptAsWritten`. | Any call to `generateScript`, e.g. total savings 1234: the prompt still reads `Total potential savings: {totalSavings{'}'}`, and "$12.34" appears nowhere in it. | The line meant `${'{'}totalSavings${'}'}`, which renders `{totalSavings}` so the amount is filled in. | not executed | Prompts.SavingsPlaceholderMissing, Prompts.AsWrittenKeepsSavingsText | Prompts.PlaceholdersOnceInOrder, Prompts.ScriptPromptSplices |
