/**
  `server/index.js`: the start-up initialisation of the data files, with
  the default settings document, and the request handler that adds a job
  (`POST /api/jobs`). The clock (`Date.now()`, `new Date()`) gives the new
  record's id and date, which are parameters here.
 */
module Server {
  import opened Common
  import opened Records
  import Processing
  import Scraper

  // ---------------------------------------------------------------------
  // Initial data files
  // ---------------------------------------------------------------------

  /** The settings written when `config.json` does not exist. The document
      has no OCR `apiKey`; an absent key is "" in this model. */
  const DefaultConfig: Config := Config(
    EmailConfig("gmail", "", ""),
    LlmConfig("groq", "", "llama3-8b-8192"),
    OcrConfig("tesseract", ""),
    ResumeConfig(""),
    Some(JobSearchConfig("", "software engineer", "San Francisco, CA", false, 24)))

  /** What the default settings mean to the rest of the system: documents
      are generated by Groq's `llama3-8b-8192` model from Tesseract's text,
      automatic scraping is off with a 24 hour interval, and, the SerpAPI
      key being blank, a scrape never asks Google. */
  lemma DefaultConfigBehaviour(query: string, location: string, env: Scraper.ScrapeEnv)
    ensures Processing.BackendFor(DefaultConfig.llm.provider) == Some(Processing.Groq)
    ensures DefaultConfig.llm.model == "llama3-8b-8192"
    ensures Processing.OcrEngineFor(DefaultConfig.ocr) == Processing.Tesseract
    ensures DefaultConfig.email.service == "gmail"
    ensures DefaultConfig.jobSearch.Some? && !DefaultConfig.jobSearch.value.autoScrape
    ensures DefaultConfig.jobSearch.value.scrapeInterval == 24
    ensures Scraper.ScrapeGoogle(query, location, Scraper.SerpApiKey(DefaultConfig), env) == []
  {
  }

  /** Start-up: an absent `jobs.json` is created holding `[]`, an absent
      `config.json` holding the default settings; a file that exists is
      left alone, whatever it holds. */
  method InitDataFiles(dir: DataDir)
    modifies dir
    ensures dir.jobsFile == (if old(dir.jobsFile).Missing? then Holds([]) else old(dir.jobsFile))
    ensures dir.jobWrites == old(dir.jobWrites) + (if old(dir.jobsFile).Missing? then [[]] else [])
    ensures dir.configFile == (if old(dir.configFile).Missing? then Holds(DefaultConfig) else old(dir.configFile))
  {
    if dir.jobsFile.Missing? {
      dir.WriteJobs([]);
    }
    if dir.configFile.Missing? {
      dir.WriteConfig(DefaultConfig);
    }
  }

  // ---------------------------------------------------------------------
  // POST /api/jobs
  // ---------------------------------------------------------------------

  /** The fields of the request body; `None` is a field the body leaves
      out. */
  datatype AddJobRequest = AddJobRequest(title: Option<string>, company: Option<string>, url: Option<string>)

  /** The reply: status 400 with an error message, or the stored record. */
  datatype Response = BadRequest(error: string) | Ok(record: Job)

  const MissingFields := "Missing required fields"

  /** A field is usable when it is present and truthy. */
  predicate Supplied(field: Option<string>) {
    field.Some? && Truthy(field.value)
  }

  predicate Complete(body: AddJobRequest) {
    Supplied(body.title) && Supplied(body.company) && Supplied(body.url)
  }

  /** The outcome of one request: the reply, and the array written to
      `jobs.json` if any. */
  datatype AddOutcome = AddOutcome(response: Response, written: Option<seq<Job>>)

  /** What adding a job does to the stored array `jobs`. */
  function AddJobOutcome(jobs: seq<Job>, body: AddJobRequest, id: string, now: string): (r: AddOutcome)
    ensures !Complete(body) <==> r.response == BadRequest(MissingFields)
    ensures !Complete(body) ==> r.written == None
    ensures Complete(body) ==>
      && r.response == Ok(Job(id, body.title.value, body.company.value, body.url.value, Pending, now, None, None))
      && r.written.Some?
      && |r.written.value| == |jobs| + 1
      && r.written.value[..|jobs|] == jobs
      && r.written.value[|jobs|] == r.response.record
  {
    if !Complete(body) then AddOutcome(BadRequest(MissingFields), None)
    else
      var record := Job(id, body.title.value, body.company.value, body.url.value, Pending, now, None, None);
      AddOutcome(Ok(record), Some(jobs + [record]))
  }

  /** The handler of `POST /api/jobs`. */
  method AddJob(dir: DataDir, body: AddJobRequest, id: string, now: string) returns (response: Response)
    modifies dir
    ensures response == AddJobOutcome(old(dir.ReadJobs()), body, id, now).response
    ensures AddJobOutcome(old(dir.ReadJobs()), body, id, now).written.None? ==>
      dir.jobsFile == old(dir.jobsFile) && dir.jobWrites == old(dir.jobWrites)
    ensures AddJobOutcome(old(dir.ReadJobs()), body, id, now).written.Some? ==>
      var jobs := AddJobOutcome(old(dir.ReadJobs()), body, id, now).written.value;
      dir.jobsFile == Holds(jobs) && dir.jobWrites == old(dir.jobWrites) + [jobs]
    ensures dir.configFile == old(dir.configFile)
  {
    if !(Supplied(body.title) && Supplied(body.company) && Supplied(body.url)) {
      return BadRequest(MissingFields);
    }
    var jobs := dir.ReadJobs();
    var newJob := Job(id, body.title.value, body.company.value, body.url.value, Pending, now, None, None);
    jobs := jobs + [newJob];
    dir.WriteJobs(jobs);
    response := Ok(newJob);
  }

  /** The handler does not trim: fields made only of white space are
      stored as they are. */
  lemma BlankFieldsAccepted(jobs: seq<Job>, id: string, now: string)
    ensures var body := AddJobRequest(Some(" "), Some("\t"), Some(" "));
      AddJobOutcome(jobs, body, id, now).response == Ok(Job(id, " ", "\t", " ", Pending, now, None, None))
  {
  }

  /** A rejected request leaves the store as it was; an accepted one only
      appends: every earlier record keeps its place and the new one is
      `pending`, with no scraped or generated fields. */
  lemma AddOnlyAppends(jobs: seq<Job>, body: AddJobRequest, id: string, now: string, i: nat)
    requires i < |jobs|
    ensures var r := AddJobOutcome(jobs, body, id, now);
      && (r.written.Some? ==> r.written.value[i] == jobs[i])
      && (r.response.Ok? ==>
            r.response.record.status == Pending
            && r.response.record.provenance.None? && r.response.record.artifacts.None?)
  {
    var r := AddJobOutcome(jobs, body, id, now);
    if r.written.Some? {
      assert r.written.value[i] == r.written.value[..|jobs|][i];
    }
  }
}
