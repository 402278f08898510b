# Job application assistant: processing, scraping, adding jobs

This project models the core of a small job-application assistant. The
assistant keeps a store of job records in `jobs.json` and a settings
document in `config.json`. Around that store it runs four pieces of logic:

- **The processing batch** (`server/process-jobs.js`). For every record
  that is `pending`, in array order, the batch does four things:
  - it marks the record `processing` and writes the array;
  - it renders and screenshots the job page, runs OCR and reads the resume;
  - it asks an LLM for a tailored resume, a cover letter and answers to
    application questions;
  - it puts the `completed` or `failed` record back at the same index and
    writes the array again.
- **The scraper** (`server/job-scraper.js`). It gathers candidates from
  Google Jobs (through SerpAPI) and from generated LinkedIn and Indeed
  listings. It drops repeated (title, company) pairs, case-insensitively,
  keeping the first. It then imports as `pending` records the candidates
  whose URL and `title-company` key the store does not know yet.
- **The server** (`server/index.js`). At start-up it creates the data
  files with their defaults. It also handles `POST /api/jobs`, which
  appends one `pending` record.
- **The add-job form** (`src/components/JobForm.tsx`). It validates the
  title, company and URL before handing them on.

Modules:

| module | file | form |
|---|---|---|
| `Common` | `common.dfy` | Option/Result; JavaScript `trim`, `toLowerCase`, `substring`, decimal text; filter positions |
| `Records` | `records.dfy` | job record, settings document; the `DataDir` class holding both files |
| `Processing` | `processing.dfy` | `processJob` as functions of the capabilities, and the `Host` class that performs the requests |
| `Batch` | `batch.dfy` | the `processJobs` loop, and what it writes |
| `Scraper` | `scraper.dfy` | sources, dedup, `scrapeJobs`, `autoAddScrapedJobs` |
| `Server` | `server.dfy` | start-up defaults and the add-job handler |
| `JobForm` | `job_form.dfy` | the error map and the `Form` class |

Outside calls are inputs to the model:

- **Processing.** The browser, the OCR engines, the resume file, the LLM
  services and `JSON.parse` form the `Capabilities` value. Each one answers
  a request with a value, or with `None` for a thrown error. The `Host`
  class performs the requests and keeps the list of requests made. The
  batch's writes of `jobs.json` go through the same `Host` and are logged
  in the same list, so the order of writes and calls can be stated.
- **Scraping.** The SerpAPI request, the clock and `Math.random` form the
  `ScrapeEnv` value.
- **Adding a job.** The clock gives the new record's id and date, which
  the add-job handler takes as parameters.
- **The form.** The URL check (`new URL(s)` not throwing, the URL parser
  of the WHATWG URL Standard, section 4.4) is a predicate parameter.

Some behaviour is modelled as written:

- `findIndex` picks the first record with a given id. With two records
  sharing an id, the batch therefore overwrites the first of them
  (`Batch.DuplicateIdOverwritesFirst`). The batch lemmas assume unique ids.
- The import key joins title and company with a dash. This makes
  ("a-b", "c") and ("a", "b-c") collide (`Scraper.DashKeyConflatesPairs`).

## Model

| member | source | states |
|---|---|---|
| Common.Trim | src/components/JobForm.tsx:22-34 | `s.trim()` is empty exactly when `s` consists of ECMAScript white space only |
| Common.TrimEnds | src/components/JobForm.tsx:22 | a non-empty trimmed string starts and ends with a non-space |
| Common.TrimPiece | server/job-scraper.js:46 | `trim` only cuts: the result is a contiguous piece of the input |
| Common.Lower | server/job-scraper.js:209-210 | `toLowerCase` keeps the length, leaves no ASCII capital, turns each capital into its small letter and keeps every other character |
| Common.Take | server/process-jobs.js:230 | `substring(0, n)` is a prefix of length `min(n, length)` |
| Common.DecimalRoundTrip | server/job-scraper.js:110 | the decimal text of a number reads back as that number |
| Common.PositionsOrdered | server/job-scraper.js:207-212 | the positions a `filter` keeps are strictly increasing |
| Common.PositionsMembers | server/job-scraper.js:207-212 | a position is kept exactly when it is in range and its element passes |
| Records.DataDir.ReadJobs | server/process-jobs.js:19-27 | the stored array, or `[]` when the file is missing or cannot be read |
| Records.DataDir.ReadConfig | server/process-jobs.js:37-45 | the stored settings exactly when the file holds them, `null` otherwise |
| Records.DataDir.WriteJobs | server/process-jobs.js:29-35 | `writeJobs` replaces the whole array, appends it to the write log and leaves the settings alone |
| Records.DataDir.WriteConfig | server/index.js:34-58 | writing the settings leaves the job file and its write log alone |
| Processing.BackendFor | server/process-jobs.js:179-188 | `groq`, `together` and `huggingface` each select their own backend, and nothing else selects any |
| Processing.OcrEngineFor | server/process-jobs.js:212-217 | Tesseract exactly for `tesseract`; Vision exactly for `google` with a truthy key, which it uses; no OCR in every other case |
| Processing.OcrStep | server/process-jobs.js:212-217 | without an engine the OCR text is "" and nothing is requested; otherwise exactly one OCR request is made, and the text is Tesseract's answer for the screenshot, or Vision's answer for it under the configured key |
| Processing.ResumeText | server/process-jobs.js:47-55 | an unreadable resume yields `Resume content not available`, a readable one its content |
| Processing.Prompts | server/process-jobs.js:225-272 | three prompts in the order resume, cover letter, questions; OCR capped to a 2000-character prefix in the first two; resume whole in the first and capped to 1000 in the last two; full OCR text in the questions prompt |
| Processing.LlmStep | server/process-jobs.js:176-189 | an unknown provider fails with `Unsupported LLM provider: <p>` and sends nothing; a known one sends exactly one request to its backend and succeeds exactly when the backend answers |
| Processing.FirstIndexOf | server/process-jobs.js:278 | the index of the first occurrence of a character, or none when it does not occur |
| Processing.LastIndexOf | server/process-jobs.js:278 | the index of the last occurrence of a character, or none when it does not occur |
| Processing.BracketSpan | server/process-jobs.js:278 | the greedy `/\[[\s\S]*\]/` match: from the first `[` to the last `]` after it, present exactly when some `[` precedes some `]` |
| Processing.ExtractQuestions | server/process-jobs.js:274-284 | no bracketed span gives []; otherwise the parse of the span, or [] when it does not parse |
| Processing.DocumentsRun | server/process-jobs.js:222-294 | the document step never launches or closes the browser, and a success carries the `/screenshots/<id>.png` reference |
| Processing.DocumentsOutcome | server/process-jobs.js:222-294 | from a given OCR text, artifacts exactly when the resume and cover-letter calls succeed, holding their replies and the questions extracted from the third reply, or none when that call fails |
| Processing.PipelineRun | server/process-jobs.js:198-294 | the `try` block never launches or closes the browser, and a success carries the screenshot reference |
| Processing.PipelineOutcome | server/process-jobs.js:196-306 | a run succeeds exactly when the page is captured, OCR does not throw and the resume and cover-letter calls succeed; it then holds their answers, and the questions are those extracted from the questions reply, or none when that call fails |
| Processing.ProcessRun | server/process-jobs.js:192-307 | the result is terminal; `failed` changes only the status; `completed` changes only the status and the result fields, with the screenshot reference; the browser is launched first and closed last, exactly when it started; the record completes exactly when the browser starts and the pipeline yields artifacts, and then holds those artifacts |
| Processing.ProcessOutcome | server/process-jobs.js:192-307 | a record completes exactly when the browser starts, the page is captured, OCR answers and the resume and cover-letter calls succeed, and then holds those two replies |
| Processing.LlmSent | server/process-jobs.js:176-189 | one LLM step sends at most its own prompt, and sends it when it succeeds |
| Processing.DocumentsPrompts | server/process-jobs.js:225-276 | the prompts the document step sends are a prefix of the three planned ones, and all three when it succeeds |
| Processing.PipelinePrompts | server/process-jobs.js:198-294 | the prompts the `try` block sends are a prefix of the planned ones, and all of them when it yields artifacts |
| Processing.DocumentsOrder | server/process-jobs.js:222-272 | the documents step reads the resume before any LLM call and makes no other kind of request |
| Processing.PipelineOrder | server/process-jobs.js:203-272 | the `try` block captures the page before OCR, and OCR before the documents step |
| Processing.ProcessOrder | server/process-jobs.js:192-307 | `processJob` makes its requests strictly in step order (launch, capture, OCR, resume, LLM calls, close) and writes no file |
| Processing.DocumentsStops | server/process-jobs.js:225-272 | with an unknown provider no prompt is sent; a failing resume call sends only its own prompt; a failing cover-letter call only the first two |
| Processing.PipelineStops | server/process-jobs.js:196-296 | a failed capture makes no other request; a throwing OCR step reads no resume and sends no prompt; a failing resume or cover-letter call ends the LLM calls |
| Processing.LlmCallsInOrder | server/process-jobs.js:225-276 | the LLM requests of a run are a prefix of resume, cover letter, questions; a completed run made all three |
| Processing.Host.constructor | server/process-jobs.js:192-195 | a host starts with no requests made |
| Processing.Host.LaunchBrowser | server/process-jobs.js:198 | records the launch and reports whether the browser started |
| Processing.Host.CloseBrowser | server/process-jobs.js:302-305 | records the close |
| Processing.Host.CapturePage | server/process-jobs.js:203-207 | records the capture and reports whether navigation and screenshot succeeded |
| Processing.Host.Recognize | server/process-jobs.js:213-216 | records one OCR request and returns that engine's answer |
| Processing.Host.SaveJobs | server/process-jobs.js:29-35 | writes the whole array, as `writeJobs` does, and logs the write after every request made so far |
| Processing.Host.ReadResumeFile | server/process-jobs.js:47-55 | records the read and returns the content or the placeholder |
| Processing.Host.Request | server/process-jobs.js:95-174 | records one request to the backend and returns its answer, or the provider failure |
| Processing.Host.CallLlm | server/process-jobs.js:176-189 | returns what `LlmStep` describes and makes exactly its requests |
| Processing.Host.RunPipeline | server/process-jobs.js:197-217 | returns the artifacts of `PipelineRun` and makes exactly its requests |
| Processing.Host.GenerateDocuments | server/process-jobs.js:222-294 | returns the artifacts of `DocumentsRun` and makes exactly its requests |
| Processing.Host.ProcessJob | server/process-jobs.js:192-307 | returns the record of `ProcessRun` and makes exactly its requests |
| Batch.PendingFlags | server/process-jobs.js:319 | one flag per record, set exactly for the pending ones |
| Batch.PendingPositions | server/process-jobs.js:319 | every listed position holds a pending record |
| Batch.PendingJobs | server/process-jobs.js:319 | the pending records, in array order, each with an id present in the array |
| Batch.FindIndex | server/process-jobs.js:325 | the first position carrying the id, or -1 exactly when there is none |
| Batch.Outcomes | server/process-jobs.js:330 | each pending record gets a terminal result with its own id |
| Batch.Batch | server/process-jobs.js:319-337 | the final array keeps the length of the array as read, there are two writes per pending record, and with nothing pending nothing is written |
| Batch.BatchFrom | server/process-jobs.js:323-337 | the loop keeps the array's length and writes it twice per pending record |
| Batch.ProcessJobs | server/process-jobs.js:309-340 | with no settings nothing is read, written or requested; otherwise the writes are those of `Batch` over the array as read, and writes and requests are logged turn by turn as `Log` gives them: each record's `processing` write, then its requests, then its result write; the file is untouched when nothing was pending |
| Batch.ProcessPending | server/process-jobs.js:324-334 | one turn: the array with the record marked `processing` is written before any request for the record, the record as read is processed, and the array with the result at the same index is written after all its requests |
| Batch.Snapshot | server/process-jobs.js:323-337 | the array after the first `k` pending records have been replaced keeps its length |
| Batch.SnapshotKeepsIds | server/process-jobs.js:333 | replacing records by their results keeps every id |
| Batch.Marked | server/process-jobs.js:326-327 | the array written before the `k`-th pending record is processed keeps its length |
| Batch.SnapshotPending | server/process-jobs.js:323-337 | a pending record holds its result after its turn and is as read before |
| Batch.SnapshotOther | server/process-jobs.js:319 | a record that was not pending is never changed |
| Batch.BatchStep | server/process-jobs.js:325 | with unique ids the lookup lands on the record's own position |
| Batch.BatchFromSnapshot | server/process-jobs.js:323-337 | with unique ids the loop from any turn ends in the final snapshot and writes the marked and the processed arrays alternately |
| Batch.BatchSnapshots | server/process-jobs.js:323-337 | the whole loop in terms of snapshots |
| Batch.BatchOutcome | server/process-jobs.js:312-337 | with unique ids the final array has the same length, each pending record is replaced by its processing result at its own index, and every other record is unchanged |
| Batch.MarkedTrail | server/process-jobs.js:326-327 | the first write of a turn: earlier pending records terminal, the current one `processing`, later ones pending, the rest as read |
| Batch.ResultTrail | server/process-jobs.js:333-334 | the second write of a turn: the current record holds its result, and the same picture otherwise |
| Batch.BatchWrites | server/process-jobs.js:327-334 | with unique ids, the two writes of the `k`-th turn are the marked array and the next snapshot |
| Batch.WritesTrail | server/process-jobs.js:323-334 | with unique ids, every write for any runs of the pending records has that picture |
| Batch.CrashTrail | server/process-jobs.js:323-334 | with unique ids, what a crash after any write leaves behind: earlier pending records terminal, the current one `processing` or processed, later ones pending, everything else as read |
| Batch.LogWrites | server/process-jobs.js:323-334 | the writes a turn-by-turn log records are the arrays it was built from, in order, when the runs write nothing themselves |
| Batch.BatchTraceWrites | server/process-jobs.js:309-340 | the writes in the batch's log of writes and requests are exactly the batch's writes, in order |
| Batch.DuplicateIdOverwritesFirst | server/process-jobs.js:325-333 | with a shared id, the pending record's result overwrites the first record carrying it, and the pending record stays `pending` |
| Scraper.GoogleCandidate | server/job-scraper.js:64-74 | a Google candidate names `Google Jobs` as its source and keeps a truthy title, company and share link, falling back to a truthy first related link |
| Scraper.GoogleDefaults | server/job-scraper.js:64-74 | each field of a Google result is kept when truthy and replaced by its default otherwise (`Unknown Title`, `Unknown Company`, the search location, share link then first related link then `#`, `No description available`, `Not specified`, the current time for the posting date, `Full-time`) |
| Scraper.ScrapeGoogle | server/job-scraper.js:42-79 | nothing for a missing or blank key or a failed request; otherwise one Google-sourced candidate per result, in order |
| Scraper.ScrapeLinkedIn | server/job-scraper.js:82-120 | exactly three LinkedIn candidates at the search location, each described by the `talented` pitch naming its own title in lower case |
| Scraper.LinkedInListingTitles | server/job-scraper.js:87-93 | the titles are `Senior q`, `q Specialist` and `Lead q` |
| Scraper.LinkedInListingCompanies | server/job-scraper.js:95-110 | the `i`-th listing has the `i`-th company of the list and the `i`-th salary band |
| Scraper.LinkedInSalaryBand | server/job-scraper.js:110 | the `i`-th band reads `$lo - $hi` with decimal `lo = 60000 + 20000i` and `hi = lo + 20000` |
| Scraper.RenderNamesSubject | server/job-scraper.js:107-143 | the text of a generated description contains its subject; with the description clauses of `ScrapeLinkedIn` and `ScrapeIndeed`, a listing's text names its lowered title (LinkedIn) or lowered query (Indeed) |
| Scraper.ScrapeIndeed | server/job-scraper.js:127-150 | exactly two Indeed candidates, the second one `Remote`; the first described by the `experienced` pitch and the second by the `remote` pitch, both naming the query in lower case |
| Scraper.ListingsNameSubject | server/job-scraper.js:107-143 | the text of each LinkedIn listing contains its title in lower case, and the text of each Indeed listing the query in lower case |
| Scraper.FirstWithKey | server/job-scraper.js:208-211 | a found position holds the pair |
| Scraper.NoEarlierKey | server/job-scraper.js:208-211 | no candidate before the found one has the pair, and none at all when none is found |
| Scraper.FirstFlags | server/job-scraper.js:207-212 | a candidate passes exactly when it is the first with its lowered (title, company) |
| Scraper.KeptMembers | server/job-scraper.js:207-212 | a position is kept exactly when it holds the first candidate with its pair |
| Scraper.Dedup | server/job-scraper.js:206-212 | the result is the input at the kept positions |
| Scraper.DedupSubsequence | server/job-scraper.js:206-212 | the result is an order-preserving subsequence of the input |
| Scraper.DedupKeepsFirst | server/job-scraper.js:206-212 | a candidate survives exactly when no earlier one has its pair, and every pair of the input appears in the result through its first candidate |
| Scraper.DedupDistinct | server/job-scraper.js:206-212 | no two results share a lowered (title, company) pair |
| Scraper.GatheredSources | server/job-scraper.js:167-204 | only selected sources contribute, LinkedIn three candidates and Indeed two, each candidate names a selected source |
| Scraper.ScrapeJobs | server/job-scraper.js:160-221 | nothing without settings; otherwise the google, linkedin and indeed candidates of the selected sources (all three by default), in that order, without repeated pairs |
| Scraper.NewRecords | server/job-scraper.js:229-242 | one `pending` record per candidate, in order, with its title, company and URL, its source, location, description and salary copied unchanged, `job_type` as `jobType`, `posted_date` as `postedDate`, and no result fields |
| Scraper.StoreKey | server/job-scraper.js:246-252 | the key is the lowered title, a dash, then the lowered company |
| Scraper.UniqueNew | server/job-scraper.js:250-253 | the filter never adds records |
| Scraper.UniqueNewMembers | server/job-scraper.js:245-253 | a record survives exactly when it is incoming and neither its URL nor its key is in the store |
| Scraper.UniqueNewAppend | server/job-scraper.js:250-253 | each record is judged on its own: filtering a concatenation concatenates the filters |
| Scraper.UniqueNewDistinct | server/job-scraper.js:250-253 | the filter keeps lowered (title, company) pairs distinct |
| Scraper.ImportedPairsDistinct | server/job-scraper.js:206-253 | no two records imported by one call share a lowered (title, company) pair |
| Scraper.RepeatsAmongNewKept | server/job-scraper.js:250-253 | two unknown records are both imported, even with the same URL |
| Scraper.DashKeyConflatesPairs | server/job-scraper.js:246-252 | a candidate with a different pair and URL is dropped when its dash-joined key matches a stored one |
| Scraper.AutoAddScrapedJobs | server/job-scraper.js:224-268 | returns the filtered new records; the store becomes the old array followed by them, written once, only when there are some; the settings are untouched; no two of them share a lowered (title, company) pair |
| Server.DefaultConfigBehaviour | server/index.js:31-58 | the default settings select Groq with `llama3-8b-8192`, Tesseract and `gmail`, have automatic scraping off every 24 hours, and never ask Google |
| Server.InitDataFiles | server/index.js:25-58 | a missing jobs file is created with `[]` and a missing settings file with the defaults; existing files are left alone |
| Server.AddJobOutcome | server/index.js:108-127 | a request lacking a truthy title, company or URL is rejected with `Missing required fields` and nothing is written; otherwise exactly the new `pending` record is appended at the end and returned |
| Server.AddJob | server/index.js:107-128 | the handler replies and writes as `AddJobOutcome` says, and never touches the settings |
| Server.BlankFieldsAccepted | server/index.js:110 | fields made of white space are accepted and stored as they are |
| Server.AddOnlyAppends | server/index.js:115-125 | existing records keep their places; the new record is `pending` with no scraped or result fields |
| JobForm.Update | src/components/JobForm.tsx:58 | only the named field changes |
| JobForm.RequiredErrors | src/components/JobForm.tsx:22-28 | title and company messages exactly for the blank fields |
| JobForm.FormErrors | src/components/JobForm.tsx:19-37 | `Job title is required` exactly for a blank title; likewise for the company; `Job URL is required` for a blank URL, otherwise `Please enter a valid URL` exactly when the URL does not parse |
| JobForm.PassesIff | src/components/JobForm.tsx:36-37 | the form passes exactly when no field is blank and the URL parses |
| JobForm.FormPassesServer | src/components/JobForm.tsx:49-54 | whatever the form submits, the add-job handler accepts |
| JobForm.ServerLaxerThanForm | src/components/JobForm.tsx:22-24 | a title of spaces is refused by the form but accepted by the server |
| JobForm.Cleared | src/components/JobForm.tsx:61-63 | the same fields keep messages; the changed field's message becomes "" and the others stay |
| JobForm.Form.constructor | src/components/JobForm.tsx:11-17 | the form starts empty, with no messages |
| JobForm.Form.ValidateForm | src/components/JobForm.tsx:19-38 | stores the messages for the current data and returns true exactly when there are none |
| JobForm.Form.HandleSubmit | src/components/JobForm.tsx:49-54 | hands on the current data exactly when validation passes |
| JobForm.Form.HandleChange | src/components/JobForm.tsx:56-64 | stores the typed value in the named field and clears only that field's message |

## Left out

- The browser, the Tesseract worker, the Google Vision call and the Groq, Together and HuggingFace calls are not modelled. They are foreign libraries and network I/O, so each is an answer of `Capabilities`. The LLM request parameters (`max_tokens`, `temperature`) go with them.
- File access is the `DataDir` class. `mkdir` is not modelled. A failed `writeJobs` is assumed not to happen; the code logs it and carries on.
- `Records.DataDir.ReadJobs`: a `jobs.json` that exists but does not parse reads as `[]`, as the code does. JSON text itself is not modelled.
- Clock and randomness are inputs. This covers `Date.now()`, `new Date()` and `Math.random()`, and so the record ids, dates and mock listing URLs.
- `Scraper.AutoAddScrapedJobs`: each new record's id is `recordId(i)`. The model does not state that ids are unique; the code's `Date.now()` plus random suffix does not guarantee it either.
- Concurrency is not modelled, including overlapping requests racing on `jobs.json`.
- Express routing, CORS and static files are not modelled. Neither are the other routes or the presentation components.
- Console logging is not modelled.
- `Common.Lower` maps ASCII letters only. Full Unicode `toLowerCase` is not modelled.
- `Processing.ExtractQuestions`: `JSON.parse` is the `parseJson` capability. The shape of the parsed elements is not checked, as in the code.
- `Server.AddJobOutcome`: body fields are strings or absent. Non-string JSON values (numbers, objects), which the handler would also take when truthy, are not modelled.
- `JobForm.Form.HandleChange`: the input's `name` is one of the three fields (`Field`). Arbitrary names, which would add keys to the form data, are not modelled.
- Listing descriptions are a `Description` value, and `Scraper.Render` gives their text. Beyond naming the subject (`Scraper.RenderNamesSubject`), the generated prose is not stated in any contract.
- `Processing.PromptText` gives the wording of the three prompts. No contract states that wording; the requests carry `Prompt` values.
- `Processing.Host.CloseBrowser` cannot fail. In the code a `browser.close()` that rejects in the `finally` block (server/process-jobs.js:302-305) escapes `processJob` and the loop of `processJobs`. The batch would then end with that record left `processing` and the later ones untouched.
- `Batch.ProcessJobs`: the capabilities are fixed for the whole batch. The browser either starts for every record or for none, and each outside answer is a function of the request. A real LLM answers at temperature 0.7 and may differ between identical prompts; other failures may come and go.
- `Batch.BatchOutcome` requires unique ids, which the code does not guarantee: ids are `Date.now()` strings (server/index.js:116) or `Date.now()` plus a random suffix. With a repeated id, `findIndex` lands on the first record carrying it, so the result overwrites that record and the pending one stays `pending`; every later batch processes it again (`Batch.DuplicateIdOverwritesFirst`).
- `Batch.CrashTrail` requires unique ids too; with a repeated id the picture of a crashed batch is the one `Batch.DuplicateIdOverwritesFirst` shows, not the one stated.
- `Batch.WritesTrail` requires unique ids too, for the same reason.
- `Batch.BatchWrites` requires unique ids too, for the same reason.
- `Common.Take` counts characters of the model's strings (Unicode scalar values). `substring` counts UTF-16 code units (server/process-jobs.js:230, 246, 248, 261), so the cut differs for text outside the Basic Multilingual Plane.
- `Processing.PipelineRun`'s own contract states only that it neither launches nor closes the browser, and the screenshot reference. The order of its requests is stated by `Processing.PipelineOrder`, where a failure stops them by `Processing.PipelineStops`, and what it yields by `Processing.PipelineOutcome`.
- `Processing.Host.RunPipeline` returns what `PipelineRun` describes; a capture or OCR step whose answer changes between calls is not covered (see `Batch.ProcessJobs`).
- `Processing.Host.GenerateDocuments` returns what `DocumentsRun` describes, whose outcome `Processing.DocumentsOutcome` states; LLM answers that change between identical prompts are not covered (see `Batch.ProcessJobs`).
- Settings are a typed document, so a settings file lacking `ocr`, `llm` or `resume` is not modelled. In the code the failing access (`config.ocr.provider` at server/process-jobs.js:213, `config.resume.path` at :222, `config.llm` at :177 through `callLLM`) runs inside `processJob`'s `try` block (:196-296). The error is caught there, so each pending record is written `failed` after its page capture (after the OCR request, or after the resume read, when only `resume` or `llm` is missing), and the batch goes on.
