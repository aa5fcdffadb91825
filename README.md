# AI Presentation Generator — a Dafny model of its core

The application is a browser page. The user uploads Word documents (.docx) and
spreadsheets (.xlsx) and gets back a PowerPoint deck. It works in three stages:

1. **Parse.** The files are read in order. Document text is concatenated under
   a header per file. Each non-empty sheet is stored as a list of rows under
   "file - sheet". A document that mentions "research" or "find information
   on" turns on web research.
2. **Generate.** A prompt is built from the text and the data, and the Gemini
   model is asked for a JSON array of slides that follows a response schema.
   The call goes through a retry policy: only rate-limit errors are retried,
   with exponential backoff plus jitter.
3. **Build.** Each slide becomes a deck slide. It gets a title and, when
   present, speaker notes. A slide without a chart gets a bulleted list; a
   slide with a chart gets the chart when the chart has data, and neither
   chart nor bullets when it has none.

The page component keeps the state cells (selected files, loading flag and
message, error, finished blob) and runs the three stages. The upload component
filters the selection by MIME type and lets files be removed by name.

The model has one module per source file:

| module | file | form |
|---|---|---|
| `JsRuntime` | (JavaScript built-ins) | values, thrown values, files, `includes`/`endsWith`/`toLowerCase`/`filter` |
| `Types` | types.ts | datatypes, the response schema, and a JSON encoding and decoding checked against the schema |
| `GeminiService` | services/geminiService.ts | `WithRetry` is a loop method proved against the recursive spec `Run`; the prompt, config and attempt are functions |
| `FileParser` | services/fileParser.ts | `ParseFiles` is a loop method proved against the fold `ParseResult` |
| `PresentationService` | services/presentationService.ts | a `Deck` class records the library calls; `LayOutSlides` is proved against `Layout` |
| `App` | App.tsx | the `AppState` class with the state cells; `HandleGenerate` is proved against `Generate` |
| `FileUpload` | components/FileUpload.tsx | the `Uploader` class, whose list filters are `Filter` |

Everything outside the program is a parameter:

- loading the library scripts;
- the `FileReader`, mammoth and the XLSX reader;
- `JSON.stringify` of the sheet map;
- the Gemini call and `JSON.parse` of its answer;
- `Math.random` for the backoff jitter;
- writing the deck to a blob.

## Model

| member | source | states |
|---|---|---|
| JsRuntime.OccursAt | services/geminiService.ts:57 | the independent definition of an occurrence of a substring at an index, against which `Includes` is proved (`IncludesIff`) |
| JsRuntime.Includes | services/geminiService.ts:57 | `String.prototype.includes`, defined by scanning; its meaning is stated by `IncludesIff` |
| JsRuntime.EndsWith | services/fileParser.ts:29 | `endsWith`: the last characters of the string are the suffix |
| JsRuntime.StartsWith | services/geminiService.ts:70 | the prefix test used to state the shape of the exhaustion message (`ExhaustedMessageShape`) |
| JsRuntime.IntToString | services/geminiService.ts:70 | how a template literal prints the attempt ceiling, with a minus sign before a negative one; the digits are stated by `NatToString` |
| JsRuntime.NatToString | services/geminiService.ts:70 | the decimal form of a non-negative integer is non-empty and made of digits |
| JsRuntime.NoOccurrenceWithoutFirstChar | services/geminiService.ts:57 | a string lacking the first character of a pattern does not include it |
| JsRuntime.IncludesIff | services/geminiService.ts:57 | `includes` holds exactly when the substring occurs at some index |
| JsRuntime.IncludesInContext | services/fileParser.ts:33 | a string found in a part is found in any string containing that part |
| JsRuntime.IncludesEmbedded | services/geminiService.ts:29 | a string embedded in a larger one is included in it |
| JsRuntime.Lower | services/fileParser.ts:33 | `toLowerCase` keeps the length and lowers each ASCII capital in place |
| JsRuntime.Filter | components/FileUpload.tsx:21 | `filter` keeps each accepted element as often as it occurs and drops every rejected one |
| JsRuntime.FilterAppend | components/FileUpload.tsx:60 | filtering preserves order: a filtered concatenation is the concatenation of the filtered parts |
| JsRuntime.FilterMembers | components/FileUpload.tsx:21 | the members of a filtered list are exactly the accepted members of the list |
| JsRuntime.FilterKeepsAll | components/FileUpload.tsx:60 | a list whose elements are all accepted comes back unchanged |
| JsRuntime.FilterIdempotent | components/FileUpload.tsx:21 | filtering twice with the same test equals filtering once |
| Types.Conforms | types.ts:25-60 | what it means for a JSON value to follow a schema: typed leaves, arrays whose items conform, objects with every required key and conforming properties; the schema constants `SlideSchema`, `ChartSchema`, `SeriesSchema` and `PresentationSchema` are its arguments |
| Types.DecodeStrings | types.ts:29-32 | reads a JSON array of strings; succeeds exactly on conformance (`StringsDecodeIffConform`) |
| Types.DecodeNumbers | types.ts:46 | reads a JSON array of numbers; succeeds exactly on conformance (`NumbersDecodeIffConform`) |
| Types.DecodeOptionalString | types.ts:33-38 | reads an optional string property: absent is fine, present must be a string |
| Types.DecodeSeries | types.ts:41-49 | reads a series object; succeeds exactly on conformance (`SeriesDecodesIffConforms`) |
| Types.DecodeSeriesArray | types.ts:39-50 | reads the chart's array of series |
| Types.DecodeChart | types.ts:34-52 | reads a chart object; succeeds exactly on conformance (`ChartDecodesIffConforms`) |
| Types.DecodeSlide | types.ts:14-19 | the typed reading of a slide object, standing for the cast to `Slide`; succeeds exactly on conformance (`SlideDecodesIffConforms`) |
| Types.DecodePresentation | types.ts:57-60 | reads an array of slides; succeeds exactly on conformance (`PresentationDecodesIffConforms`) |
| Types.EncodeSlide | types.ts:14-19 | writes a slide as a JSON object, leaving out absent optional properties; inverted by `DecodeSlide` (`SlideRoundTrip`) |
| Types.EncodePresentation | types.ts:57-60 | writes a slide list as a JSON array; inverted by `DecodePresentation` (`PresentationRoundTrip`) |
| Types.SlideSchemaRequires | types.ts:25-55 | the slide schema requires `title` and `content` only; `speakerNotes` and `chart` are optional properties |
| Types.SeriesSchemaRequires | types.ts:39-49 | a chart series requires `name`, `labels` and `values` |
| Types.StringsDecodeIffConform | types.ts:29-32 | a JSON value decodes as a string list exactly when it conforms to an array-of-strings schema |
| Types.NumbersDecodeIffConform | types.ts:46 | a JSON value decodes as a number list exactly when it conforms to an array-of-numbers schema |
| Types.SeriesDecodesIffConforms | types.ts:41-49 | an object decodes as a series exactly when it conforms to the series schema |
| Types.ChartDecodesIffConforms | types.ts:34-52 | an object decodes as a chart exactly when it conforms to the chart schema, whose `type` is any string |
| Types.SlideDecodesIffConforms | types.ts:14-19 | an object decodes as a `Slide` exactly when it conforms to the slide schema |
| Types.PresentationDecodesIffConforms | types.ts:57-60 | a value decodes as a slide list exactly when it is an array of schema-conforming slides |
| Types.StringsRoundTrip | types.ts:29-32 | encoding a string list gives a conforming value that decodes back to the list |
| Types.NumbersRoundTrip | types.ts:46 | encoding a number list gives a conforming value that decodes back to the list |
| Types.SeriesRoundTrip | types.ts:6-10 | encoding a series gives a conforming value that decodes back to it |
| Types.ChartRoundTrip | types.ts:4-12 | encoding a chart gives a conforming value that decodes back to it |
| Types.SlideRoundTrip | types.ts:14-19 | encoding a slide gives a conforming value that decodes back to it |
| Types.PresentationRoundTrip | types.ts:57-60 | encoding a slide list gives a value conforming to the presentation schema that decodes back to the list |
| GeminiService.IsRateLimited | services/geminiService.ts:57 | the retry test: a present, non-empty message that includes "429" or "RESOURCE_EXHAUSTED"; characterised by `RateLimitedIff` |
| GeminiService.RateLimitedIff | services/geminiService.ts:57 | an error is retried exactly when it has a message containing "429" or "RESOURCE_EXHAUSTED" |
| GeminiService.BackoffDelay | services/geminiService.ts:60 | the delay before retry n lies in [2^n·1500, 2^n·1500 + 1000) ms |
| GeminiService.LastErrorText | services/geminiService.ts:70 | `lastError?.message` in a template literal: the message, or "undefined" when there is no last error or it has no message |
| GeminiService.ExhaustedMessage | services/geminiService.ts:70 | the exhaustion error text: fixed prefix, the ceiling, the fixed middle, the last error's text; its shape is `ExhaustedMessageShape` |
| GeminiService.RunFrom | services/geminiService.ts:51-70 | the loop from a given attempt: success returns, a non-rate-limited failure is rethrown, a rate-limited one counts and sleeps only if another attempt follows, the ceiling throws the exhaustion error |
| GeminiService.Run | services/geminiService.ts:47-71 | `withRetry(fn, maxRetries)` from attempt 0 with no last error; its promises are the lemmas below |
| GeminiService.WithRetry | services/geminiService.ts:47-71 | the loop's result, number of calls and sleeps equal those of the recursive retry policy `Run` |
| GeminiService.ReturnsFirstSuccess | services/geminiService.ts:51-53 | from any attempt, rate-limited failures followed by a success return that success |
| GeminiService.SuccessAfterRateLimits | services/geminiService.ts:51-63 | k rate-limit failures then a success (k < maxRetries) return the success after exactly k+1 calls and k sleeps |
| GeminiService.RethrowsFrom | services/geminiService.ts:64-67 | from any attempt, a non-rate-limit failure after rate-limit failures is rethrown unchanged |
| GeminiService.NonRetryableRethrown | services/geminiService.ts:64-67 | a non-retryable failure at call k is rethrown as is after k+1 calls |
| GeminiService.ExhaustsFrom | services/geminiService.ts:55-70 | from any attempt, rate-limit failures up to maxRetries end in the exhaustion error naming the last failure |
| GeminiService.ExhaustsAfterMaxRetries | services/geminiService.ts:70 | maxRetries rate-limit failures throw the exhaustion error with the last message, after maxRetries calls and maxRetries−1 sleeps |
| GeminiService.NoCallsWithoutAttempts | services/geminiService.ts:51 | with maxRetries ≤ 0 `fn` is never called, nothing sleeps, and the exhaustion error names no original error ("undefined") |
| GeminiService.CallsBoundedFrom | services/geminiService.ts:51-69 | from attempt a, at most maxRetries calls are made and one sleep fewer than calls |
| GeminiService.CallsAndDelaysBounded | services/geminiService.ts:58-62 | calls ≤ maxRetries; no call iff maxRetries ≤ 0; no sleep after the last call; the n-th sleep lies in [2^(n+1)·1500, +1000) ms |
| GeminiService.ExhaustedMessageShape | services/geminiService.ts:70 | the exhaustion message starts with the attempt count and ends with the last error's message, so it is still a rate-limit message |
| GeminiService.DataSummary | services/geminiService.ts:13-21 | the "Data Provided" block framing the serialized sheets, or '' for an empty sheet map |
| GeminiService.GeneratePrompt | services/geminiService.ts:12-43 | the prompt template: introduction, the document text, the data block, the instructions; its contents are stated by `PromptEmbedsContent` and `PromptDataBlockIffSheets` |
| GeminiService.PromptEmbedsContent | services/geminiService.ts:23-42 | the prompt contains the document text verbatim, after the fixed introduction, and ends with the instructions |
| GeminiService.PromptDataBlockIffSheets | services/geminiService.ts:13-21 | the "Data Provided" block with the serialized sheets is present iff the sheet map has a key; otherwise the serializer is not used |
| GeminiService.BuildConfig | services/geminiService.ts:80-84 | the config asks for JSON in the presentation schema, and has the Google Search tool exactly when research was requested |
| GeminiService.Attempt | services/geminiService.ts:78-99 | one call of the action: ask the model with the prompt and config; a thrown call propagates; a missing or unparseable text becomes the parse-failure error |
| GeminiService.GeneratePresentationContent | services/geminiService.ts:73-100 | the result is the retry policy run with 5 attempts over the attempt that prompts the model and parses its answer |
| GeminiService.ParseFailureNotRateLimited | services/geminiService.ts:96-99 | the parse-failure message contains neither rate-limit marker |
| GeminiService.ParseFailureNotRetried | services/geminiService.ts:92-99 | an unparseable or missing response ends generation after one call with the parse-failure error |
| FileParser.MentionsResearch | services/fileParser.ts:33 | the lower-cased text includes "research" or "find information on" |
| FileParser.IsDocx | services/fileParser.ts:29 | a file is a document when its name ends with ".docx" |
| FileParser.IsXlsx | services/fileParser.ts:36 | a file is a workbook when it is not a document and its name ends with ".xlsx" |
| FileParser.DocxSection | services/fileParser.ts:32 | the header "--- Content from name ---" and the text a document adds |
| FileParser.SheetKey | services/fileParser.ts:42 | the key "file - sheet" |
| FileParser.AddSheets | services/fileParser.ts:38-44 | the sheet loop: each sheet with rows is stored under its key, later ones overwriting; stated by `SheetKeys`, `LaterSheetWins`, `OtherKeysUnchanged` |
| FileParser.ParseStep | services/fileParser.ts:27-45 | one file: read it (may fail), then a document adds its section and may set the flag, a workbook adds its sheets, anything else adds nothing |
| FileParser.ParseAll | services/fileParser.ts:22-48 | the file loop from empty accumulators, in order; the first failure ends it (`FailureIsFinal`) |
| FileParser.ParseResult | services/fileParser.ts:16-49 | `parseFiles`: a library-load failure first, else the file loop |
| FileParser.Section | services/fileParser.ts:32 | the text one file contributes: its section for a readable document, '' otherwise |
| FileParser.Concat | services/fileParser.ts:32 | the concatenation of the sections, in order |
| FileParser.FailureIsFinal | services/fileParser.ts:26-46 | once a file fails, parsing any longer list fails with the same error |
| FileParser.ParseFiles | services/fileParser.ts:16-49 | the loop computes the fold `ParseResult` over the files in order |
| FileParser.ParseNoFiles | services/fileParser.ts:22-24 | an empty list yields empty text, no sheets and no research |
| FileParser.ResearchIffSomeDocumentAsks | services/fileParser.ts:33-35 | research is requested iff some .docx file's lower-cased text mentions "research" or "find information on" |
| FileParser.ResearchFlagSticky | services/fileParser.ts:24 | once set, the research flag stays set whatever files follow |
| FileParser.TextIsConcatenationOfSections | services/fileParser.ts:32 | the text is the concatenation of "--- Content from name ---" sections of the .docx files, in order |
| FileParser.SheetsDoNotAffectText | services/fileParser.ts:36-45 | the spreadsheet reader affects neither the text nor the research flag |
| FileParser.OtherFilesIgnored | services/fileParser.ts:29-36 | a file with neither suffix contributes nothing |
| FileParser.SheetKeys | services/fileParser.ts:38-43 | a key is stored iff it was stored before or some sheet with rows produces it |
| FileParser.LaterSheetWins | services/fileParser.ts:42 | a later sheet with the same key overwrites the earlier rows |
| FileParser.OtherKeysUnchanged | services/fileParser.ts:41-43 | sheets without rows or with other keys leave a stored entry as it was |
| FileParser.KeysNameTheirWorkbook | services/fileParser.ts:42 | every stored key starts with "name - " for the name of some .xlsx file in the list |
| PresentationService.ToChartType | services/presentationService.ts:39-52 | 'pie' maps to pie and 'line' to line; everything else, 'bar' included, maps to bar |
| PresentationService.ProjectSeries | services/presentationService.ts:13-17 | the series are projected to name, labels and values, with their count and order kept |
| PresentationService.ChartCommands | services/presentationService.ts:7-55 | one chart when there is data and none without; its data is the projection; percentages are shown iff the type is pie |
| PresentationService.TitleCommand | services/presentationService.ts:82-92 | slide 0 gets a 44-point, centred, middle-aligned title; all others get 32-point, left, top |
| PresentationService.NotesCommands | services/presentationService.ts:94-96 | notes are added iff `speakerNotes` is present and non-empty |
| PresentationService.Bullets | services/presentationService.ts:103 | one bulleted run per content string, in order |
| PresentationService.SlideCommands | services/presentationService.ts:79-106 | the calls on one deck slide: the title, then the notes, then the chart calls or else the bullets; stated by `SlideContents` |
| PresentationService.Layout | services/presentationService.ts:79-107 | one deck slide per slide, in order |
| PresentationService.SlideContents | services/presentationService.ts:79-107 | the title comes first and only once; bullets appear iff there is no chart; a chart iff there is chart data; notes iff they are non-empty |
| PresentationService.LayoutContents | services/presentationService.ts:79-107 | each deck slide of a layout has its slide's title at its position's size, and bullets, chart and notes as above |
| PresentationService.Deck.AddSlide | services/presentationService.ts:80 | a new, empty slide is appended |
| PresentationService.Deck.Add | services/presentationService.ts:82 | a call is appended to the last slide, and the other slides are unchanged |
| PresentationService.AddChartsToSlide | services/presentationService.ts:7-55 | exactly `ChartCommands` is appended to the current slide |
| PresentationService.AddSlideFor | services/presentationService.ts:79-106 | one slide holding exactly its layout is appended |
| PresentationService.LayoutPrefix | services/presentationService.ts:79 | laying out one more slide appends that slide's commands |
| PresentationService.LayOutSlides | services/presentationService.ts:79-107 | the deck built by the loop equals `Layout` of the slides |
| PresentationService.Render | services/presentationService.ts:57-111 | what `createPresentation` resolves to: a script-load failure, or the writer's result on `Layout` of the slides |
| PresentationService.CreatePresentation | services/presentationService.ts:57-111 | the blob is the written layout, unless loading the scripts fails |
| App.StageMessage | App.tsx:35-41 | the loading message of each stage |
| App.AttemptFor | App.tsx:39 | the attempt the generation stage hands to the retry policy, for the parsed files |
| App.ErrorText | App.tsx:47 | the `catch` text: an `Error`'s message, or "An unknown error occurred. Please try again." for any other thrown value |
| App.Generate | App.tsx:24-53 | `handleGenerate` as a function of the files, the cells before and the services; stated by `NoFilesOnlySetsError`, `StagesInOrder`, `OutcomeCells`, `GenerateKeepsConsistent` |
| App.RunStages | App.tsx:34-43 | one to three stages run, always as a prefix of parse, generate, build; a success has run all three |
| App.Shown | App.tsx:35-51 | each stage's loading message is shown before it, and the last message is '' |
| App.StageMessages | App.tsx:35-41 | one loading message per stage, in order |
| App.StageMessagesSnoc | App.tsx:35-41 | one more stage adds its message at the end |
| App.NoFilesOnlySetsError | App.tsx:25-28 | with no files only `error` changes; no stage runs and no message is shown |
| App.StagesInOrder | App.tsx:30-52 | with files the stages run in order, each after its message, and nothing is loading at the end |
| App.OutcomeCells | App.tsx:31-48 | on success the blob is the renderer's and there is no error; on failure the error is the thrown value's text and there is no blob |
| App.GenerateKeepsConsistent | App.tsx:24-53 | `handleGenerate` never leaves both an error and a blob |
| App.ParseFailureStops | App.tsx:36 | a file-reading failure stops the run at the parse stage |
| App.QuotaExhaustedMessage | App.tsx:45-48 | when every model call is rate-limited, the user sees the exhaustion message ending with the last rate-limit message |
| App.UnparseableResponseReported | App.tsx:45-48 | an unparseable model response is shown as the parse-failure message after the generation stage |
| App.AppState.constructor | App.tsx:12-16 | initially there are no files, nothing is loading, and there is no error and no blob |
| App.AppState.HandleFileChange | App.tsx:18-22 | the files are replaced and both the blob and the error are cleared |
| App.AppState.SetLoadingMessage | App.tsx:35 | only the loading message changes |
| App.AppState.EnterStage | App.tsx:35-41 | the stage's message is shown and the stage is recorded |
| App.AppState.TryStages | App.tsx:34-43 | the stages and blob are those of `RunStages`, and a failing stage's thrown value is returned |
| App.AppState.HandleGenerate | App.tsx:24-53 | the new cells equal `Generate` of the old ones, and the invariant is kept |
| FileUpload.IsAllowedType | components/FileUpload.tsx:17-21 | the allow-list: the .docx or the .xlsx MIME type |
| FileUpload.AllowedFiles | components/FileUpload.tsx:21 | the `filter` of a selection by the allow-list; stated by `AllowedFilesExactly` and `AllowedFilesStable` |
| FileUpload.WithoutName | components/FileUpload.tsx:60 | the `filter` that drops files with a given name; stated by `WithoutNameExactly` and `RemoveAbsentName` |
| FileUpload.AllowedFilesExactly | components/FileUpload.tsx:17-21 | exactly the files with a .docx or .xlsx MIME type are kept, each as often as selected, in order |
| FileUpload.AllowedFilesStable | components/FileUpload.tsx:21 | a selection of allowed files only is kept as is, and filtering is idempotent |
| FileUpload.WithoutNameExactly | components/FileUpload.tsx:59-63 | removal drops every file with the name and keeps the rest, with their multiplicity and order |
| FileUpload.RemoveAbsentName | components/FileUpload.tsx:60 | removing a name no file has leaves the list unchanged |
| FileUpload.Uploader.constructor | components/FileUpload.tsx:11 | the component starts with no files |
| FileUpload.Uploader.HandleFiles | components/FileUpload.tsx:15-25 | a missing list changes nothing; otherwise the allowed files replace the list and the same list reaches `onFileChange` |
| FileUpload.Uploader.RemoveFile | components/FileUpload.tsx:59-63 | the list without the named files is stored and passed to `onFileChange` |

## Left out

- The script loader (services/scriptLoader.ts) is not part of this model. Loading the library scripts is one possible failure per service: the mammoth and XLSX loads of `parseFiles` are one outcome (`Readers.libraries`), and the JSZip and PptxGenJS loads of `createPresentation` are one outcome (`Renderer.scripts`).
- Thrown values that are `null` or `undefined`, or whose `message` is not a string, are not modelled. In `withRetry` reading `.message` or calling `.includes` on such a value throws a `TypeError` out of the `catch`; the model's `Thrown` covers only `Error` objects and objects whose `message` is a string or missing. The attempt of `generatePresentationContent` throws only such values.
- The module-load check for `API_KEY` and the network client are left out. The model call is a function of the model name, the prompt, the config and the attempt number.
- `JSON.stringify(xlsxData, null, 2)` is an opaque parameter. The sheet map is a Dafny `map`, so JavaScript's key insertion order is not modelled.
- `JSON.parse` with its unchecked cast is a parser oracle that returns slides or nothing. The model does not cover a model answer that parses but does not fit `Slide`. The `Types` decoder states what a conforming answer decodes to.
- `Math.random()` is an integer jitter below 1000 ms per attempt; fractional milliseconds are not modelled. `sleep` and the `console` logging are left out, and the delays are returned as a list.
- The concurrent `Promise.all` of the two library loads is one combined outcome. Other React renders interleaving with the awaits of `handleGenerate` are not modelled: the run is atomic.
- `toLowerCase` covers ASCII letters only; other Unicode case mappings are not modelled.
- The chart geometry, colours, fonts and master slide are not modelled. Only each call's kind, text, title styling, chart type, data, chart title and `showPercent` are kept. The unused `xlsxData` argument of `createPresentation` is dropped.
- The library's slide object is not modelled. Calls go to the deck's current (last) slide, which is the slide the loop just added.
- The JSX rendering, the drag-state handlers, `Loader.tsx` and `handleDownload` (object URLs and anchor clicks) are DOM work.
- The schema `description` strings and the `Type` enum values are dropped. The schema is modelled by its structure and required fields.
