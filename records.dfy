/**
  The job record, the configuration document and the data directory that
  holds `jobs.json` and `config.json`. The three server files each read and
  write these two documents; here they are one object whose fields the
  operations reassign.
 */
module Records {
  import opened Common

  /** Lifecycle of a job record: pending -> processing -> completed | failed. */
  datatype Status = Pending | Processing | Completed | Failed

  predicate Terminal(s: Status) {
    s == Completed || s == Failed
  }

  /** A JSON value as `JSON.parse` returns it (numbers kept integral). */
  datatype Json =
    | JNull
    | JBool(b: bool)
    | JNumber(n: int)
    | JString(s: string)
    | JArray(items: seq<Json>)
    | JObject(members: seq<(string, Json)>)

  /** The fixed sentences the generated listings wrap around a job name. */
  datatype Pitch = TalentedPitch | ExperiencedPitch | RemotePitch

  /** A listing's description: text taken from a search result, or one of
      the fixed pitches around the lowered job name (`Scraper.Render` gives
      its text). */
  datatype Description = Text(text: string) | Pitched(pitch: Pitch, subject: string)

  /** Informational fields a scraped record carries. */
  datatype Provenance = Provenance(
    source: string,
    location: string,
    description: Description,
    salary: string,
    jobType: string,
    postedDate: string)

  /** The fields a successful processing run adds. */
  datatype Artifacts = Artifacts(
    tailoredResume: string,
    coverLetter: string,
    questions: seq<Json>,
    screenshot: string)

  /** One element of `jobs.json`. */
  datatype Job = Job(
    id: string,
    title: string,
    company: string,
    url: string,
    status: Status,
    dateAdded: string,
    provenance: Option<Provenance>,
    artifacts: Option<Artifacts>)

  // An absent string setting (an `apiKey` left out of the document) is
  // represented by "", which JavaScript treats alike: both are falsy.
  datatype EmailConfig = EmailConfig(service: string, user: string, password: string)
  datatype LlmConfig = LlmConfig(provider: string, apiKey: string, model: string)
  datatype OcrConfig = OcrConfig(provider: string, apiKey: string)
  datatype ResumeConfig = ResumeConfig(path: string)
  datatype JobSearchConfig = JobSearchConfig(
    serpApiKey: string,
    defaultQuery: string,
    defaultLocation: string,
    autoScrape: bool,
    scrapeInterval: int)

  /** The settings document `config.json`. */
  datatype Config = Config(
    email: EmailConfig,
    llm: LlmConfig,
    ocr: OcrConfig,
    resume: ResumeConfig,
    jobSearch: Option<JobSearchConfig>)

  /** What the file system holds under one file name. */
  datatype FileState<T> = Missing | Unreadable | Holds(doc: T)

  /** The `data` directory shared by the server, the processor and the
      scraper. `jobWrites` records, in order, every array written to
      `jobs.json`, so that what a crash would leave behind can be stated. */
  class DataDir {
    var jobsFile: FileState<seq<Job>>
    var configFile: FileState<Config>
    ghost var jobWrites: seq<seq<Job>>

    constructor (jobs: FileState<seq<Job>>, config: FileState<Config>)
      ensures jobsFile == jobs && configFile == config && jobWrites == []
    {
      jobsFile := jobs;
      configFile := config;
      jobWrites := [];
    }

    /** `readJobs`: the stored array, or [] when the file cannot be read. */
    function ReadJobs(): (r: seq<Job>)
      reads this
      ensures jobsFile.Holds? ==> r == jobsFile.doc
      ensures jobsFile.Missing? || jobsFile.Unreadable? ==> r == []
    {
      if jobsFile.Holds? then jobsFile.doc else []
    }

    /** `readConfig`: the stored document, or null when it cannot be read. */
    function ReadConfig(): (r: Option<Config>)
      reads this
      ensures r.Some? <==> configFile.Holds?
      ensures r.Some? ==> r.value == configFile.doc
    {
      if configFile.Holds? then Some(configFile.doc) else None
    }

    /** `writeJobs`: replaces the whole array. */
    method WriteJobs(jobs: seq<Job>)
      modifies this
      ensures jobsFile == Holds(jobs) && configFile == old(configFile)
      ensures jobWrites == old(jobWrites) + [jobs]
    {
      jobsFile := Holds(jobs);
      jobWrites := jobWrites + [jobs];
    }

    /** `fs.writeFile(CONFIG_FILE, ...)`. */
    method WriteConfig(config: Config)
      modifies this
      ensures configFile == Holds(config)
      ensures jobsFile == old(jobsFile) && jobWrites == old(jobWrites)
    {
      configFile := Holds(config);
    }
  }
}
