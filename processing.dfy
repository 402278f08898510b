/**
  The per-job pipeline of `server/process-jobs.js`: render the application
  page and screenshot it, OCR the screenshot, read the resume, then three
  LLM calls in a fixed order (tailored resume, cover letter, application
  questions), with every error turned into a `failed` record and the
  browser closed on every path that launched it.

  The browser, the OCR engines, the file system, the LLM services and
  `JSON.parse` are the `Capabilities` parameter: each is a function of its
  request that answers with a value or with failure (a thrown error). The
  `Host` class performs the requests and keeps the list of requests made,
  so the order of the calls can be stated.
 */
module Processing {
  import opened Common
  import opened Records

  // ---------------------------------------------------------------------
  // External capabilities
  // ---------------------------------------------------------------------

  datatype LlmBackend = Groq | Together | HuggingFace

  datatype OcrEngine = Tesseract | GoogleVision(apiKey: string) | NoOcr

  /** Answers of the outside world. `None` stands for a thrown error. */
  datatype Capabilities = Capabilities(
    browserStarts: bool,                                  // puppeteer.launch
    capture: (string, string) -> bool,                    // goto(url) + screenshot(path)
    tesseract: string -> Option<string>,                  // image path -> text
    vision: (string, string) -> Option<string>,           // image path, key -> text ('' if none)
    readFile: string -> Option<string>,                   // the resume file
    generate: (LlmBackend, Prompt, string, string) -> Option<string>, // prompt, key, model
    parseJson: string -> Option<seq<Json>>)               // JSON.parse of a bracketed text

  /** The prompts the pipeline builds; `PromptText` gives their wording. */
  datatype Prompt =
    | ResumePrompt(title: string, company: string, jobDescription: string, resume: string)
    | CoverLetterPrompt(title: string, company: string, jobDescription: string, resume: string)
    | QuestionsPrompt(pageContent: string, resume: string)

  /** A request made to the outside world; `Persist` is a `writeJobs` of
      the batch, logged with the requests so that their order shows. */
  datatype Event =
    | Launch
    | Capture(url: string, path: string)
    | RunOcr(engine: OcrEngine, path: string)
    | ReadResume(path: string)
    | Generate(backend: LlmBackend, prompt: Prompt)
    | Close
    | Persist(jobs: seq<Job>)

  datatype LlmError = UnsupportedProvider(message: string) | ProviderFailed

  const ScreenshotsDir := "data/screenshots"
  const ResumePlaceholder := "Resume content not available"

  /** Where the screenshot of job `id` is saved. */
  function ScreenshotPath(id: string): string {
    ScreenshotsDir + "/" + id + ".png"
  }

  /** The screenshot reference stored in a completed record. */
  function ScreenshotRef(id: string): string {
    "/screenshots/" + id + ".png"
  }

  // ---------------------------------------------------------------------
  // Provider selection
  // ---------------------------------------------------------------------

  /** The `switch` of `callLLM`: exactly three provider names have a backend. */
  function BackendFor(provider: string): (b: Option<LlmBackend>)
    ensures b == Some(Groq) <==> provider == "groq"
    ensures b == Some(Together) <==> provider == "together"
    ensures b == Some(HuggingFace) <==> provider == "huggingface"
  {
    if provider == "groq" then Some(Groq)
    else if provider == "together" then Some(Together)
    else if provider == "huggingface" then Some(HuggingFace)
    else None
  }

  function UnsupportedMessage(provider: string): string {
    "Unsupported LLM provider: " + provider
  }

  /** The OCR branch of `processJob`: Tesseract by name, Google Vision only
      with a truthy key, and no OCR at all (and no error) otherwise. */
  function OcrEngineFor(ocr: OcrConfig): (e: OcrEngine)
    ensures e == Tesseract <==> ocr.provider == "tesseract"
    ensures e.GoogleVision? <==> ocr.provider == "google" && Truthy(ocr.apiKey)
    ensures e.GoogleVision? ==> e.apiKey == ocr.apiKey
    ensures e == NoOcr <==> ocr.provider != "tesseract" && !(ocr.provider == "google" && Truthy(ocr.apiKey))
  {
    if ocr.provider == "tesseract" then Tesseract
    else if ocr.provider == "google" && Truthy(ocr.apiKey) then GoogleVision(ocr.apiKey)
    else NoOcr
  }

  // ---------------------------------------------------------------------
  // The steps, as functions of the capabilities
  // ---------------------------------------------------------------------

  datatype OcrReply = OcrReply(text: Option<string>, trace: seq<Event>)

  function OcrStep(engine: OcrEngine, path: string, caps: Capabilities): (r: OcrReply)
    ensures engine == NoOcr ==> r == OcrReply(Some(""), [])
    ensures engine != NoOcr ==> r.trace == [RunOcr(engine, path)]
    ensures engine == Tesseract ==> r.text == caps.tesseract(path)
    ensures engine.GoogleVision? ==> r.text == caps.vision(path, engine.apiKey)
  {
    match engine
    case Tesseract => OcrReply(caps.tesseract(path), [RunOcr(engine, path)])
    case GoogleVision(key) => OcrReply(caps.vision(path, key), [RunOcr(engine, path)])
    case NoOcr => OcrReply(Some(""), [])
  }

  /** `readResume`: the file's text, or the placeholder when it cannot be read. */
  function ResumeText(read: Option<string>): (r: string)
    ensures read.None? ==> r == ResumePlaceholder
    ensures read.Some? ==> r == read.value
  {
    read.GetOr(ResumePlaceholder)
  }

  /** The three prompts, in the order they are sent. The OCR text is capped
      at 2000 characters in the first two, the resume at 1000 in the last
      two; the questions prompt gets the whole OCR text. */
  function Prompts(job: Job, ocrText: string, resume: string): (ps: seq<Prompt>)
    ensures |ps| == 3
    ensures ps[0].ResumePrompt? && ps[1].CoverLetterPrompt? && ps[2].QuestionsPrompt?
    ensures ps[0] == ResumePrompt(job.title, job.company, ps[0].jobDescription, resume)
    ensures ps[1] == CoverLetterPrompt(job.title, job.company, ps[0].jobDescription, ps[1].resume)
    ensures ps[2] == QuestionsPrompt(ocrText, ps[1].resume)
    ensures ps[0].jobDescription <= ocrText && |ps[0].jobDescription| == Min(2000, |ocrText|)
    ensures ps[1].resume <= resume && |ps[1].resume| == Min(1000, |resume|)
  {
    var description := Take(ocrText, 2000);
    var shortResume := Take(resume, 1000);
    [ ResumePrompt(job.title, job.company, description, resume),
      CoverLetterPrompt(job.title, job.company, description, shortResume),
      QuestionsPrompt(ocrText, shortResume) ]
  }

  /** The wording of each template literal. */
  function PromptText(p: Prompt): string {
    match p
    case ResumePrompt(title, company, description, resume) =>
      "\n    Based on this job posting and my current resume, create a tailored version that highlights relevant skills and experience.\n    \n    Job Title: "
      + title + "\n    Company: " + company + "\n    Job Description (from OCR): " + description
      + "\n    \n    My Current Resume:\n    " + resume
      + "\n    \n    Please provide a tailored resume that emphasizes the most relevant qualifications for this specific role.\n    "
    case CoverLetterPrompt(title, company, description, resume) =>
      "\n    Write a professional cover letter for this job application.\n    \n    Job Title: "
      + title + "\n    Company: " + company + "\n    Job Description (from OCR): " + description
      + "\n    \n    My Resume: " + resume
      + "\n    \n    Create a compelling cover letter that shows enthusiasm for the role and highlights how my experience matches their needs.\n    "
    case QuestionsPrompt(page, resume) =>
      "\n    Analyze this job application page content and identify any application questions that might need to be answered.\n    \n    Page Content: "
      + page
      + "\n    \n    For each question you identify, provide a professional answer based on this resume: " + resume
      + "\n    \n    Format your response as JSON with this structure:\n    [\n      {\n        \"question\": \"Question text here\",\n        \"answer\": \"Your answer here\"\n      }\n    ]\n    \n    If no questions are found, return an empty array.\n    "
  }

  datatype LlmReply = LlmReply(result: Result<string, LlmError>, trace: seq<Event>)

  /** `callLLM`: a supported provider sends exactly one request to its
      backend; any other name fails with the "Unsupported LLM provider"
      error before anything is sent. */
  function LlmStep(prompt: Prompt, llm: LlmConfig, caps: Capabilities): (r: LlmReply)
    ensures BackendFor(llm.provider).None? ==>
      r == LlmReply(Failure(UnsupportedProvider(UnsupportedMessage(llm.provider))), [])
    ensures BackendFor(llm.provider).Some? ==>
      var b := BackendFor(llm.provider).value;
      && r.trace == [Generate(b, prompt)]
      && (r.result.Success? <==> caps.generate(b, prompt, llm.apiKey, llm.model).Some?)
      && (r.result.Success? ==> r.result.value == caps.generate(b, prompt, llm.apiKey, llm.model).value)
      && (r.result.Failure? ==> r.result.error == ProviderFailed)
  {
    match BackendFor(llm.provider)
    case None => LlmReply(Failure(UnsupportedProvider(UnsupportedMessage(llm.provider))), [])
    case Some(b) =>
      var reply := caps.generate(b, prompt, llm.apiKey, llm.model);
      LlmReply(if reply.Some? then Success(reply.value) else Failure(ProviderFailed), [Generate(b, prompt)])
  }

  // ---------------------------------------------------------------------
  // Questions extraction: /\[[\s\S]*\]/ then JSON.parse, falling back to []
  // ---------------------------------------------------------------------

  /** The span the greedy pattern matches: from the first `[` to the last
      `]` after it. There is a match exactly when some `[` precedes some `]`. */
  function BracketSpan(s: string): (span: Option<(nat, nat)>)
    ensures span.Some? ==>
      var (i, j) := span.value;
      && i < j < |s| && s[i] == '[' && s[j] == ']'
      && (forall k :: 0 <= k < i ==> s[k] != '[')
      && (forall k :: j < k < |s| ==> s[k] != ']')
    ensures span.None? ==> forall i, j :: 0 <= i < j < |s| && s[i] == '[' ==> s[j] != ']'
  {
    match (FirstIndexOf(s, '['), LastIndexOf(s, ']'))
    case (Some(i), Some(j)) => if i < j then Some((i, j)) else None
    case _ => None
  }

  function FirstIndexOf(s: string, c: char): (r: Option<nat>)
    ensures r.Some? ==> r.value < |s| && s[r.value] == c && forall k :: 0 <= k < r.value ==> s[k] != c
    ensures r.None? ==> forall k :: 0 <= k < |s| ==> s[k] != c
  {
    if s == [] then None
    else if s[0] == c then Some(0)
    else match FirstIndexOf(s[1..], c)
      case None => None
      case Some(k) => Some(k + 1)
  }

  function LastIndexOf(s: string, c: char): (r: Option<nat>)
    ensures r.Some? ==> r.value < |s| && s[r.value] == c && forall k :: r.value < k < |s| ==> s[k] != c
    ensures r.None? ==> forall k :: 0 <= k < |s| ==> s[k] != c
  {
    if s == [] then None
    else if s[|s| - 1] == c then Some(|s| - 1)
    else LastIndexOf(s[..|s| - 1], c)
  }

  /** The questions of a questions-call reply: the parsed bracketed span,
      or [] when there is no span or it does not parse. */
  function ExtractQuestions(response: string, parse: string -> Option<seq<Json>>): (qs: seq<Json>)
    ensures (forall i, j :: 0 <= i < j < |response| && response[i] == '[' ==> response[j] != ']') ==> qs == []
    ensures BracketSpan(response).Some? ==>
      var (i, j) := BracketSpan(response).value;
      qs == if parse(response[i..j + 1]).Some? then parse(response[i..j + 1]).value else []
  {
    match BracketSpan(response)
    case None => []
    case Some((i, j)) => parse(response[i..j + 1]).GetOr([])
  }

  // ---------------------------------------------------------------------
  // processJob
  // ---------------------------------------------------------------------

  /** The prompts a run builds from what OCR and the resume read return. */
  function PlannedPrompts(job: Job, config: Config, caps: Capabilities): seq<Prompt> {
    var ocr := OcrStep(OcrEngineFor(config.ocr), ScreenshotPath(job.id), caps);
    Prompts(job, ocr.text.GetOr(""), ResumeText(caps.readFile(config.resume.path)))
  }

  datatype Attempt = Attempt(artifacts: Option<Artifacts>, trace: seq<Event>)

  /** The part of the `try` block after OCR: read the resume, then the three
      LLM calls. Only the first two can make it fail. */
  function DocumentsRun(job: Job, config: Config, caps: Capabilities, ocrText: string): (a: Attempt)
    ensures Launch !in a.trace && Close !in a.trace
    ensures a.artifacts.Some? ==> a.artifacts.value.screenshot == ScreenshotRef(job.id)
  {
    var ps := Prompts(job, ocrText, ResumeText(caps.readFile(config.resume.path)));
    var before := [ReadResume(config.resume.path)];
    var r1 := LlmStep(ps[0], config.llm, caps);
    if r1.result.Failure? then Attempt(None, before + r1.trace)
    else
      var r2 := LlmStep(ps[1], config.llm, caps);
      if r2.result.Failure? then Attempt(None, before + r1.trace + r2.trace)
      else
        var r3 := LlmStep(ps[2], config.llm, caps);
        var questions := if r3.result.Success? then ExtractQuestions(r3.result.value, caps.parseJson) else [];
        Attempt(Some(Artifacts(r1.result.value, r2.result.value, questions, ScreenshotRef(job.id))),
                before + r1.trace + r2.trace + r3.trace)
  }

  /** What the document step yields from a given OCR text: artifacts exactly
      when the resume and cover-letter calls succeed, holding their replies
      and the questions extracted from the third reply, or none when that
      call fails. */
  lemma DocumentsOutcome(job: Job, config: Config, caps: Capabilities, ocrText: string)
    ensures
      var ps := Prompts(job, ocrText, ResumeText(caps.readFile(config.resume.path)));
      var r1 := LlmStep(ps[0], config.llm, caps).result;
      var r2 := LlmStep(ps[1], config.llm, caps).result;
      var r3 := LlmStep(ps[2], config.llm, caps).result;
      var a := DocumentsRun(job, config, caps, ocrText).artifacts;
      && (a.Some? <==> r1.Success? && r2.Success?)
      && (a.Some? ==>
          && a.value.tailoredResume == r1.value
          && a.value.coverLetter == r2.value
          && a.value.questions == (if r3.Success? then ExtractQuestions(r3.value, caps.parseJson) else []))
  {
  }

  /** The `try` block of `processJob` once the browser is up. */
  function PipelineRun(job: Job, config: Config, caps: Capabilities): (a: Attempt)
    ensures Launch !in a.trace && Close !in a.trace
    ensures a.artifacts.Some? ==> a.artifacts.value.screenshot == ScreenshotRef(job.id)
  {
    var path := ScreenshotPath(job.id);
    var captured := [Capture(job.url, path)];
    if !caps.capture(job.url, path) then Attempt(None, captured)
    else
      var ocr := OcrStep(OcrEngineFor(config.ocr), path, caps);
      if ocr.text.None? then Attempt(None, captured + ocr.trace)
      else
        var d := DocumentsRun(job, config, caps, ocr.text.value);
        Attempt(d.artifacts, captured + ocr.trace + d.trace)
  }

  /** What a run's success depends on: the page is captured, OCR does not
      throw, and the resume and cover-letter calls succeed. An unreadable
      resume and a failing or unparsable questions call do not matter; a
      failing questions call leaves the questions empty. */
  lemma PipelineOutcome(job: Job, config: Config, caps: Capabilities)
    ensures
      var a := PipelineRun(job, config, caps);
      var ps := PlannedPrompts(job, config, caps);
      && (a.artifacts.Some? <==>
          && caps.capture(job.url, ScreenshotPath(job.id))
          && OcrStep(OcrEngineFor(config.ocr), ScreenshotPath(job.id), caps).text.Some?
          && LlmStep(ps[0], config.llm, caps).result.Success?
          && LlmStep(ps[1], config.llm, caps).result.Success?)
      && (a.artifacts.Some? ==>
          && a.artifacts.value.tailoredResume == LlmStep(ps[0], config.llm, caps).result.value
          && a.artifacts.value.coverLetter == LlmStep(ps[1], config.llm, caps).result.value
          && (LlmStep(ps[2], config.llm, caps).result.Failure? ==> a.artifacts.value.questions == [])
          && (LlmStep(ps[2], config.llm, caps).result.Success? ==>
                a.artifacts.value.questions ==
                ExtractQuestions(LlmStep(ps[2], config.llm, caps).result.value, caps.parseJson)))
  {
  }

  datatype Run = Run(result: Job, trace: seq<Event>)

  /** `processJob`: the record comes back `completed` with exactly the four
      result fields replaced, or `failed` with nothing but its status
      changed; the browser is closed, as the last request, exactly when it
      was launched. */
  function ProcessRun(job: Job, config: Config, caps: Capabilities): (run: Run)
    ensures Terminal(run.result.status)
    ensures run.result.status == Failed ==> run.result == job.(status := Failed)
    ensures run.result.status == Completed ==>
      && run.result.artifacts.Some?
      && run.result == job.(status := Completed, artifacts := run.result.artifacts)
      && run.result.artifacts.value.screenshot == ScreenshotRef(job.id)
    ensures |run.trace| > 0 && run.trace[0] == Launch
    ensures Close in run.trace <==> caps.browserStarts
    ensures caps.browserStarts ==> run.trace[|run.trace| - 1] == Close
    ensures run.result.status == Completed <==>
      caps.browserStarts && PipelineRun(job, config, caps).artifacts.Some?
    ensures run.result.status == Completed ==>
      run.result.artifacts == PipelineRun(job, config, caps).artifacts
  {
    if !caps.browserStarts then Run(job.(status := Failed), [Launch])
    else
      var a := PipelineRun(job, config, caps);
      var result := if a.artifacts.Some? then job.(status := Completed, artifacts := a.artifacts)
                    else job.(status := Failed);
      Run(result, [Launch] + a.trace + [Close])
  }

  /** When `processJob` completes a record, in terms of the capabilities
      alone: the browser starts, the page is captured, OCR answers, and the
      resume and cover-letter calls succeed; their replies are stored. */
  lemma ProcessOutcome(job: Job, config: Config, caps: Capabilities)
    ensures
      var run := ProcessRun(job, config, caps);
      var ps := PlannedPrompts(job, config, caps);
      && (run.result.status == Completed <==>
          && caps.browserStarts
          && caps.capture(job.url, ScreenshotPath(job.id))
          && OcrStep(OcrEngineFor(config.ocr), ScreenshotPath(job.id), caps).text.Some?
          && LlmStep(ps[0], config.llm, caps).result.Success?
          && LlmStep(ps[1], config.llm, caps).result.Success?)
      && (run.result.status == Completed ==>
          && run.result.artifacts.value.tailoredResume == LlmStep(ps[0], config.llm, caps).result.value
          && run.result.artifacts.value.coverLetter == LlmStep(ps[1], config.llm, caps).result.value)
  {
    PipelineOutcome(job, config, caps);
  }

  /** The prompts sent to an LLM backend, in request order. */
  function SentPrompts(trace: seq<Event>): seq<Prompt> {
    if trace == [] then []
    else (if trace[0].Generate? then [trace[0].prompt] else []) + SentPrompts(trace[1..])
  }

  lemma {:induction false} SentPromptsAppend(a: seq<Event>, b: seq<Event>)
    ensures SentPrompts(a + b) == SentPrompts(a) + SentPrompts(b)
  {
    if a == [] {
      assert a + b == b;
    } else {
      assert (a + b)[0] == a[0];
      assert (a + b)[1..] == a[1..] + b;
      SentPromptsAppend(a[1..], b);
    }
  }

  /** One LLM step sends at most its own prompt, and sends it when it succeeds. */
  lemma LlmSent(prompt: Prompt, llm: LlmConfig, caps: Capabilities)
    ensures SentPrompts(LlmStep(prompt, llm, caps).trace) <= [prompt]
    ensures LlmStep(prompt, llm, caps).result.Success? ==> SentPrompts(LlmStep(prompt, llm, caps).trace) == [prompt]
  {
    var r := LlmStep(prompt, llm, caps);
    if r.trace != [] {
      assert SentPrompts(r.trace[1..]) == [];
    }
  }

  /** The calls of the documents step, given the OCR text. */
  lemma {:induction false} DocumentsPrompts(job: Job, config: Config, caps: Capabilities, ocrText: string)
    ensures
      var ps := Prompts(job, ocrText, ResumeText(caps.readFile(config.resume.path)));
      var d := DocumentsRun(job, config, caps, ocrText);
      && SentPrompts(d.trace) <= ps
      && (d.artifacts.Some? ==> SentPrompts(d.trace) == ps)
  {
    var ps := Prompts(job, ocrText, ResumeText(caps.readFile(config.resume.path)));
    var before := [ReadResume(config.resume.path)];
    var d := DocumentsRun(job, config, caps, ocrText);
    var r1 := LlmStep(ps[0], config.llm, caps);
    assert SentPrompts(before) == [];
    SentPromptsAppend(before, r1.trace);
    LlmSent(ps[0], config.llm, caps);
    if r1.result.Failure? {
      assert d.trace == before + r1.trace;
    } else {
      var r2 := LlmStep(ps[1], config.llm, caps);
      SentPromptsAppend(before + r1.trace, r2.trace);
      LlmSent(ps[1], config.llm, caps);
      if r2.result.Failure? {
        assert d.trace == before + r1.trace + r2.trace;
      } else {
        var r3 := LlmStep(ps[2], config.llm, caps);
        SentPromptsAppend(before + r1.trace + r2.trace, r3.trace);
        LlmSent(ps[2], config.llm, caps);
        assert d.trace == before + r1.trace + r2.trace + r3.trace;
      }
    }
  }

  /** The calls of the `try` block: a prefix of the planned prompts, and all
      of them when it yields artifacts. */
  lemma {:induction false} PipelinePrompts(job: Job, config: Config, caps: Capabilities)
    ensures SentPrompts(PipelineRun(job, config, caps).trace) <= PlannedPrompts(job, config, caps)
    ensures PipelineRun(job, config, caps).artifacts.Some? ==>
      SentPrompts(PipelineRun(job, config, caps).trace) == PlannedPrompts(job, config, caps)
  {
    var path := ScreenshotPath(job.id);
    var captured := [Capture(job.url, path)];
    if caps.capture(job.url, path) {
      var ocr := OcrStep(OcrEngineFor(config.ocr), path, caps);
      SentPromptsAppend(captured, ocr.trace);
      assert SentPrompts(captured + ocr.trace) == [];
      if ocr.text.Some? {
        var d := DocumentsRun(job, config, caps, ocr.text.value);
        SentPromptsAppend(captured + ocr.trace, d.trace);
        DocumentsPrompts(job, config, caps, ocr.text.value);
      }
    } else {
      assert SentPrompts(captured) == [];
    }
  }

  /** The LLM requests of a run are a prefix of resume, cover letter,
      questions, and a completed run made all three. */
  lemma {:induction false} LlmCallsInOrder(job: Job, config: Config, caps: Capabilities)
    ensures SentPrompts(ProcessRun(job, config, caps).trace) <= PlannedPrompts(job, config, caps)
    ensures ProcessRun(job, config, caps).result.status == Completed ==>
      SentPrompts(ProcessRun(job, config, caps).trace) == PlannedPrompts(job, config, caps)
  {
    var run := ProcessRun(job, config, caps);
    if caps.browserStarts {
      var a := PipelineRun(job, config, caps);
      assert run.trace == [Launch] + a.trace + [Close];
      SentPromptsAppend([Launch] + a.trace, [Close]);
      SentPromptsAppend([Launch], a.trace);
      assert SentPrompts(run.trace) == SentPrompts(a.trace);
      PipelinePrompts(job, config, caps);
    } else {
      assert run.trace == [Launch];
    }
  }

  // ---------------------------------------------------------------------
  // The order of the steps and where a failure stops them
  // ---------------------------------------------------------------------

  /** The step of `processJob` an event belongs to, in the order the steps
      run: launch, capture, OCR, resume, LLM calls, close. */
  function Step(e: Event): nat {
    match e
    case Launch => 0
    case Capture(_, _) => 1
    case RunOcr(_, _) => 2
    case ReadResume(_) => 3
    case Generate(_, _) => 4
    case Close => 5
    case Persist(_) => 6
  }

  /** No event of `t` belongs to an earlier step than an event before it. */
  predicate InStepOrder(t: seq<Event>) {
    forall i, j :: 0 <= i < j < |t| ==> Step(t[i]) <= Step(t[j])
  }

  /** Every event of `t` belongs to a step from `lo` to `hi`. */
  predicate StepsWithin(t: seq<Event>, lo: nat, hi: nat) {
    forall i :: 0 <= i < |t| ==> lo <= Step(t[i]) <= hi
  }

  /** The arrays a log writes, in order. */
  function Persisted(t: seq<Event>): seq<seq<Job>> {
    if t == [] then []
    else (if t[0].Persist? then [t[0].jobs] else []) + Persisted(t[1..])
  }

  lemma {:induction false} PersistedAppend(a: seq<Event>, b: seq<Event>)
    ensures Persisted(a + b) == Persisted(a) + Persisted(b)
  {
    if a == [] {
      assert a + b == b;
    } else {
      assert (a + b)[0] == a[0];
      assert (a + b)[1..] == a[1..] + b;
      PersistedAppend(a[1..], b);
    }
  }

  /** The requests of `processJob` write nothing. */
  lemma {:induction false} PersistedNone(t: seq<Event>)
    requires StepsWithin(t, 0, 5)
    ensures Persisted(t) == []
  {
    if t != [] {
      assert Step(t[0]) <= 5;
      assert StepsWithin(t[1..], 0, 5) by {
        forall i | 0 <= i < |t[1..]| ensures 0 <= Step(t[1..][i]) <= 5 {
          assert t[1..][i] == t[i + 1];
        }
      }
      PersistedNone(t[1..]);
    }
  }

  lemma InStepOrderAppend(a: seq<Event>, b: seq<Event>, lo: nat, mid: nat, hi: nat)
    requires lo <= mid <= hi
    requires InStepOrder(a) && StepsWithin(a, lo, mid)
    requires InStepOrder(b) && StepsWithin(b, mid, hi)
    ensures InStepOrder(a + b) && StepsWithin(a + b, lo, hi)
  {
    var t := a + b;
    forall i, j | 0 <= i < j < |t| ensures Step(t[i]) <= Step(t[j]) {
      if j < |a| {
        assert t[i] == a[i] && t[j] == a[j];
      } else if i >= |a| {
        assert t[i] == b[i - |a|] && t[j] == b[j - |a|];
      } else {
        assert t[i] == a[i] && t[j] == b[j - |a|];
      }
    }
    forall i | 0 <= i < |t| ensures lo <= Step(t[i]) <= hi {
      if i < |a| {
        assert t[i] == a[i];
      } else {
        assert t[i] == b[i - |a|];
      }
    }
  }

  /** The documents step reads the resume before any LLM call. */
  lemma {:induction false} DocumentsOrder(job: Job, config: Config, caps: Capabilities, ocrText: string)
    ensures InStepOrder(DocumentsRun(job, config, caps, ocrText).trace)
    ensures StepsWithin(DocumentsRun(job, config, caps, ocrText).trace, 3, 4)
  {
    var ps := Prompts(job, ocrText, ResumeText(caps.readFile(config.resume.path)));
    var before := [ReadResume(config.resume.path)];
    var d := DocumentsRun(job, config, caps, ocrText);
    var r1 := LlmStep(ps[0], config.llm, caps);
    var r2 := LlmStep(ps[1], config.llm, caps);
    var r3 := LlmStep(ps[2], config.llm, caps);
    InStepOrderAppend(before, r1.trace, 3, 3, 4);
    if r1.result.Failure? {
      assert d.trace == before + r1.trace;
    } else {
      InStepOrderAppend(before + r1.trace, r2.trace, 3, 4, 4);
      if r2.result.Failure? {
        assert d.trace == before + r1.trace + r2.trace;
      } else {
        InStepOrderAppend(before + r1.trace + r2.trace, r3.trace, 3, 4, 4);
        assert d.trace == before + r1.trace + r2.trace + r3.trace;
      }
    }
  }

  /** The `try` block captures the page before OCR, and OCR before the
      documents step. */
  lemma {:induction false} PipelineOrder(job: Job, config: Config, caps: Capabilities)
    ensures InStepOrder(PipelineRun(job, config, caps).trace)
    ensures StepsWithin(PipelineRun(job, config, caps).trace, 1, 4)
  {
    var path := ScreenshotPath(job.id);
    var captured := [Capture(job.url, path)];
    if caps.capture(job.url, path) {
      var ocr := OcrStep(OcrEngineFor(config.ocr), path, caps);
      InStepOrderAppend(captured, ocr.trace, 1, 1, 2);
      if ocr.text.Some? {
        var d := DocumentsRun(job, config, caps, ocr.text.value);
        DocumentsOrder(job, config, caps, ocr.text.value);
        InStepOrderAppend(captured + ocr.trace, d.trace, 1, 3, 4);
      }
    }
  }

  /** `processJob` makes its requests strictly in step order: launch,
      capture, OCR, resume, LLM calls, close. */
  lemma {:induction false} ProcessOrder(job: Job, config: Config, caps: Capabilities)
    ensures InStepOrder(ProcessRun(job, config, caps).trace)
    ensures StepsWithin(ProcessRun(job, config, caps).trace, 0, 5)
  {
    var run := ProcessRun(job, config, caps);
    if caps.browserStarts {
      var a := PipelineRun(job, config, caps);
      PipelineOrder(job, config, caps);
      InStepOrderAppend([Launch], a.trace, 0, 1, 4);
      InStepOrderAppend([Launch] + a.trace, [Close], 0, 5, 5);
      assert run.trace == [Launch] + a.trace + [Close];
    } else {
      assert run.trace == [Launch];
    }
  }

  /** A failing LLM call ends the documents step: with an unknown provider
      nothing is sent, a failing resume call sends only its own prompt and
      a failing cover-letter call only the first two. */
  lemma {:induction false} DocumentsStops(job: Job, config: Config, caps: Capabilities, ocrText: string)
    ensures
      var ps := Prompts(job, ocrText, ResumeText(caps.readFile(config.resume.path)));
      var known := BackendFor(config.llm.provider).Some?;
      var r1 := LlmStep(ps[0], config.llm, caps).result;
      var r2 := LlmStep(ps[1], config.llm, caps).result;
      var sent := SentPrompts(DocumentsRun(job, config, caps, ocrText).trace);
      && (!known ==> sent == [])
      && (known && r1.Failure? ==> sent == [ps[0]])
      && (known && r1.Success? && r2.Failure? ==> sent == ps[..2])
  {
    var ps := Prompts(job, ocrText, ResumeText(caps.readFile(config.resume.path)));
    var before := [ReadResume(config.resume.path)];
    var d := DocumentsRun(job, config, caps, ocrText);
    var r1 := LlmStep(ps[0], config.llm, caps);
    assert SentPrompts(before) == [];
    SentPromptsAppend(before, r1.trace);
    LlmSent(ps[0], config.llm, caps);
    if r1.result.Failure? {
      assert d.trace == before + r1.trace;
      if BackendFor(config.llm.provider).Some? {
        assert SentPrompts(r1.trace) == [ps[0]] by {
          assert r1.trace == [Generate(BackendFor(config.llm.provider).value, ps[0])];
        }
      }
    } else {
      var r2 := LlmStep(ps[1], config.llm, caps);
      SentPromptsAppend(before + r1.trace, r2.trace);
      LlmSent(ps[1], config.llm, caps);
      if r2.result.Failure? {
        assert d.trace == before + r1.trace + r2.trace;
        assert SentPrompts(r2.trace) == [ps[1]] by {
          assert r2.trace == [Generate(BackendFor(config.llm.provider).value, ps[1])];
        }
        assert ps[..2] == [ps[0]] + [ps[1]];
      }
    }
  }

  /** Where a failure stops the `try` block: a failed capture makes no other
      request; a throwing OCR step reads no resume and sends no prompt; a
      failing resume or cover-letter call ends the LLM calls. */
  lemma {:induction false} PipelineStops(job: Job, config: Config, caps: Capabilities)
    ensures
      var path := ScreenshotPath(job.id);
      var ocr := OcrStep(OcrEngineFor(config.ocr), path, caps);
      var ps := PlannedPrompts(job, config, caps);
      var known := BackendFor(config.llm.provider).Some?;
      var r1 := LlmStep(ps[0], config.llm, caps).result;
      var r2 := LlmStep(ps[1], config.llm, caps).result;
      var t := PipelineRun(job, config, caps).trace;
      && (!caps.capture(job.url, path) ==> t == [Capture(job.url, path)])
      && (caps.capture(job.url, path) && ocr.text.None? ==>
            SentPrompts(t) == [] && ReadResume(config.resume.path) !in t)
      && (caps.capture(job.url, path) && ocr.text.Some? ==>
            && (!known ==> SentPrompts(t) == [])
            && (known && r1.Failure? ==> SentPrompts(t) == [ps[0]])
            && (known && r1.Success? && r2.Failure? ==> SentPrompts(t) == ps[..2]))
  {
    var path := ScreenshotPath(job.id);
    var captured := [Capture(job.url, path)];
    if caps.capture(job.url, path) {
      var ocr := OcrStep(OcrEngineFor(config.ocr), path, caps);
      SentPromptsAppend(captured, ocr.trace);
      assert SentPrompts(captured + ocr.trace) == [];
      if ocr.text.Some? {
        var d := DocumentsRun(job, config, caps, ocr.text.value);
        SentPromptsAppend(captured + ocr.trace, d.trace);
        DocumentsStops(job, config, caps, ocr.text.value);
      } else {
        assert PipelineRun(job, config, caps).trace == captured + ocr.trace;
      }
    }
  }

  // ---------------------------------------------------------------------
  // The host that performs the requests
  // ---------------------------------------------------------------------

  class Host {
    const caps: Capabilities
    var trace: seq<Event>

    constructor (caps: Capabilities)
      ensures this.caps == caps && trace == []
    {
      this.caps := caps;
      trace := [];
    }

    method LaunchBrowser() returns (ok: bool)
      modifies this
      ensures ok == caps.browserStarts && trace == old(trace) + [Launch]
    {
      trace := trace + [Launch];
      ok := caps.browserStarts;
    }

    method CloseBrowser()
      modifies this
      ensures trace == old(trace) + [Close]
    {
      trace := trace + [Close];
    }

    method CapturePage(url: string, path: string) returns (ok: bool)
      modifies this
      ensures ok == caps.capture(url, path) && trace == old(trace) + [Capture(url, path)]
    {
      trace := trace + [Capture(url, path)];
      ok := caps.capture(url, path);
    }

    /** `processWithTesseract` / `processWithGoogleVision`. */
    method Recognize(engine: OcrEngine, path: string) returns (text: Option<string>)
      modifies this
      ensures engine != NoOcr ==> text == OcrStep(engine, path, caps).text
      ensures trace == old(trace) + [RunOcr(engine, path)]
    {
      trace := trace + [RunOcr(engine, path)];
      match engine
      case Tesseract => text := caps.tesseract(path);
      case GoogleVision(key) => text := caps.vision(path, key);
      case NoOcr => text := Some("");
    }

    /** `readResume`. */
    method ReadResumeFile(path: string) returns (content: string)
      modifies this
      ensures content == ResumeText(caps.readFile(path))
      ensures trace == old(trace) + [ReadResume(path)]
    {
      trace := trace + [ReadResume(path)];
      var data := caps.readFile(path);
      if data.Some? {
        content := data.value;
      } else {
        content := ResumePlaceholder;
      }
    }

    /** One HTTP request to an LLM backend. */
    method Request(backend: LlmBackend, prompt: Prompt, llm: LlmConfig) returns (r: Result<string, LlmError>)
      modifies this
      ensures trace == old(trace) + [Generate(backend, prompt)]
      ensures r.Success? <==> caps.generate(backend, prompt, llm.apiKey, llm.model).Some?
      ensures r.Success? ==> r.value == caps.generate(backend, prompt, llm.apiKey, llm.model).value
      ensures r.Failure? ==> r.error == ProviderFailed
    {
      trace := trace + [Generate(backend, prompt)];
      var reply := caps.generate(backend, prompt, llm.apiKey, llm.model);
      if reply.Some? {
        r := Success(reply.value);
      } else {
        r := Failure(ProviderFailed);
      }
    }

    /** `callLLM`. */
    method CallLlm(prompt: Prompt, llm: LlmConfig) returns (r: Result<string, LlmError>)
      modifies this
      ensures r == LlmStep(prompt, llm, caps).result
      ensures trace == old(trace) + LlmStep(prompt, llm, caps).trace
    {
      if llm.provider == "groq" {
        r := Request(Groq, prompt, llm);
      } else if llm.provider == "together" {
        r := Request(Together, prompt, llm);
      } else if llm.provider == "huggingface" {
        r := Request(HuggingFace, prompt, llm);
      } else {
        r := Failure(UnsupportedProvider(UnsupportedMessage(llm.provider)));
      }
    }

    /** The `try` block of `processJob` once the browser is up; `None`
        stands for an error reaching the `catch`. */
    method RunPipeline(job: Job, config: Config) returns (artifacts: Option<Artifacts>)
      modifies this
      ensures artifacts == PipelineRun(job, config, caps).artifacts
      ensures trace == old(trace) + PipelineRun(job, config, caps).trace
    {
      var path := ScreenshotPath(job.id);
      var captured := CapturePage(job.url, path);
      if !captured {
        return None;
      }
      var engine := OcrEngineFor(config.ocr);
      var ocrText := "";
      if engine != NoOcr {
        var text := Recognize(engine, path);
        if text.None? {
          return None;
        }
        ocrText := text.value;
      }
      artifacts := GenerateDocuments(job, config, ocrText);
    }

    /** The rest of the `try` block: resume, then the three LLM calls. */
    method GenerateDocuments(job: Job, config: Config, ocrText: string) returns (artifacts: Option<Artifacts>)
      modifies this
      ensures artifacts == DocumentsRun(job, config, caps, ocrText).artifacts
      ensures trace == old(trace) + DocumentsRun(job, config, caps, ocrText).trace
    {
      var resumeContent := ReadResumeFile(config.resume.path);
      var ps := Prompts(job, ocrText, resumeContent);
      var tailoredResume := CallLlm(ps[0], config.llm);
      if tailoredResume.Failure? {
        return None;
      }
      var coverLetter := CallLlm(ps[1], config.llm);
      if coverLetter.Failure? {
        return None;
      }
      var questions: seq<Json> := [];
      var questionsResponse := CallLlm(ps[2], config.llm);
      if questionsResponse.Success? {
        questions := ExtractQuestions(questionsResponse.value, caps.parseJson);
      }
      artifacts := Some(Artifacts(tailoredResume.value, coverLetter.value, questions, ScreenshotRef(job.id)));
    }

    /** `writeJobs` on behalf of the batch, logged in the same trace as the
        requests. */
    method SaveJobs(dir: DataDir, jobs: seq<Job>)
      modifies this, dir
      ensures trace == old(trace) + [Persist(jobs)]
      ensures dir.jobsFile == Holds(jobs) && dir.configFile == old(dir.configFile)
      ensures dir.jobWrites == old(dir.jobWrites) + [jobs]
    {
      dir.WriteJobs(jobs);
      trace := trace + [Persist(jobs)];
    }

    /** `processJob`: try / catch / finally around the pipeline. */
    method ProcessJob(job: Job, config: Config) returns (processed: Job)
      modifies this
      ensures processed == ProcessRun(job, config, caps).result
      ensures trace == old(trace) + ProcessRun(job, config, caps).trace
    {
      var launched := LaunchBrowser();
      if !launched {
        return job.(status := Failed);
      }
      var artifacts := RunPipeline(job, config);
      CloseBrowser();
      if artifacts.Some? {
        processed := job.(status := Completed, artifacts := artifacts);
      } else {
        processed := job.(status := Failed);
      }
    }
  }
}
