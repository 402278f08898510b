/**
  `server/job-scraper.js`: collect job candidates from the selected
  sources (SerpAPI's Google Jobs, and generated LinkedIn and Indeed
  listings), drop repeated (title, company) pairs, and import the
  candidates that the store does not know yet as `pending` records.

  The SerpAPI request, the clock and `Math.random` are the parameters of
  `ScrapeEnv`.
 */
module Scraper {
  import opened Common
  import opened Records

  /** A job found by one of the sources. `postedDate` and `jobType` are the
      scraped objects' `posted_date` and `job_type`. */
  datatype Candidate = Candidate(
    title: string,
    company: string,
    location: string,
    description: Description,
    url: string,
    source: string,
    salary: string,
    postedDate: string,
    jobType: string)

  /** One element of SerpAPI's `jobs_results`; a field the response leaves
      out is "", which the code treats alike (both are falsy).
      `relatedLinks` holds the `link` of each of `related_links`. */
  datatype GoogleResult = GoogleResult(
    title: string,
    companyName: string,
    location: string,
    description: string,
    shareLink: string,
    relatedLinks: seq<string>,
    salary: string,
    postedAt: string,
    scheduleType: string)

  /** What the scraper takes from outside.
      `serp(query, location, apiKey)`: the `jobs_results` of the SerpAPI
      request (`Some([])` when the response has none), or `None` when the
      request throws. `now`: `new Date().toISOString()`. `daysAgo(d)`: the
      ISO time `d` days before now. `linkedInDraw(i)`:
      `Math.floor(Math.random() * 1000000)` for the `i`-th LinkedIn job.
      `indeedDraw(i)`: `Math.random().toString(36).substr(2, 9)` for the
      `i`-th Indeed job. `recordId(i)`: the id given to the `i`-th imported
      record. */
  datatype ScrapeEnv = ScrapeEnv(
    serp: (string, string, string) -> Option<seq<GoogleResult>>,
    now: string,
    daysAgo: nat -> string,
    linkedInDraw: nat -> nat,
    indeedDraw: nat -> string,
    recordId: nat -> string)

  /** The body of a scrape request; `sources: None` is a request without
      the field. */
  datatype SearchParams = SearchParams(query: string, location: string, sources: Option<seq<string>>)

  /** Every candidate of `cs` names `source` as its source. */
  predicate AllFrom(cs: seq<Candidate>, source: string) {
    forall i :: 0 <= i < |cs| ==> cs[i].source == source
  }

  // ---------------------------------------------------------------------
  // Google Jobs through SerpAPI
  // ---------------------------------------------------------------------

  /** `job.related_links?.[0]?.link`, "" when there is none. */
  function FirstLink(links: seq<string>): string {
    if links == [] then "" else links[0]
  }

  /** The object built for one Google result. */
  function GoogleCandidate(r: GoogleResult, location: string, now: string): (c: Candidate)
    ensures c.source == "Google Jobs"
    ensures Truthy(r.title) ==> c.title == r.title
    ensures Truthy(r.companyName) ==> c.company == r.companyName
    ensures Truthy(r.shareLink) ==> c.url == r.shareLink
    ensures !Truthy(r.shareLink) && r.relatedLinks != [] && Truthy(r.relatedLinks[0]) ==> c.url == r.relatedLinks[0]
  {
    Candidate(
      OrElse(r.title, "Unknown Title"),
      OrElse(r.companyName, "Unknown Company"),
      OrElse(r.location, location),
      Text(OrElse(r.description, "No description available")),
      OrElse(r.shareLink, OrElse(FirstLink(r.relatedLinks), "#")),
      "Google Jobs",
      OrElse(r.salary, "Not specified"),
      OrElse(r.postedAt, now),
      OrElse(r.scheduleType, "Full-time"))
  }

  /** Every field the result provides is kept and every missing one falls
      back to its default, so the candidate has a title, company,
      description, URL, salary and job type, and a location exactly when
      the result or the search has one. */
  lemma GoogleDefaults(r: GoogleResult, location: string, now: string)
    ensures var c := GoogleCandidate(r, location, now);
      && Truthy(c.title) && Truthy(c.company) && c.description.Text? && Truthy(c.description.text)
      && Truthy(c.url) && Truthy(c.salary) && Truthy(c.jobType)
      && (Truthy(c.location) <==> Truthy(r.location) || Truthy(location))
      && c.source == "Google Jobs"
      && c.title == (if Truthy(r.title) then r.title else "Unknown Title")
      && c.company == (if Truthy(r.companyName) then r.companyName else "Unknown Company")
      && c.location == (if Truthy(r.location) then r.location else location)
      && c.url == (if Truthy(r.shareLink) then r.shareLink
                   else if r.relatedLinks != [] && Truthy(r.relatedLinks[0]) then r.relatedLinks[0]
                   else "#")
      && c.salary == (if Truthy(r.salary) then r.salary else "Not specified")
      && c.jobType == (if Truthy(r.scheduleType) then r.scheduleType else "Full-time")
      && c.description == Text(if Truthy(r.description) then r.description else "No description available")
      && c.postedDate == (if Truthy(r.postedAt) then r.postedAt else now)
  {
  }

  /** `scrapeGoogleJobs`: nothing without a usable API key or when the
      request throws, otherwise one candidate per result, in order. */
  function ScrapeGoogle(query: string, location: string, apiKey: string, env: ScrapeEnv): (cs: seq<Candidate>)
    ensures AllFrom(cs, "Google Jobs")
    ensures IsBlank(apiKey) ==> cs == []
    ensures !IsBlank(apiKey) && env.serp(query, location, apiKey).None? ==> cs == []
    ensures !IsBlank(apiKey) && env.serp(query, location, apiKey).Some? ==>
      var results := env.serp(query, location, apiKey).value;
      && |cs| == |results|
      && forall i :: 0 <= i < |results| ==> cs[i] == GoogleCandidate(results[i], location, env.now)
  {
    if !Truthy(apiKey) || Trim(apiKey) == "" then []
    else
      match env.serp(query, location, apiKey)
      case None => []
      case Some(results) =>
        seq(|results|, i requires 0 <= i < |results| => GoogleCandidate(results[i], location, env.now))
  }

  // ---------------------------------------------------------------------
  // Generated LinkedIn and Indeed listings
  // ---------------------------------------------------------------------

  const LinkedInCompanies: seq<string> := [
    "Tech Innovations Inc",
    "Digital Solutions Corp",
    "Future Systems Ltd",
    "Advanced Technologies",
    "Global Tech Partners"
  ]

  function LinkedInTitles(query: string): seq<string> {
    ["Senior " + query, query + " Specialist", "Lead " + query, "Junior " + query, query + " Manager"]
  }

  /** The salary band of the `index`-th generated LinkedIn job. */
  function LinkedInSalary(index: nat): string {
    "$" + DecimalText(60000 + index * 20000) + " - $" + DecimalText(80000 + index * 20000)
  }

  function LinkedInJob(title: string, index: nat, location: string, env: ScrapeEnv): Candidate
    requires index < |LinkedInCompanies|
  {
    Candidate(
      title,
      LinkedInCompanies[index],
      location,
      Pitched(TalentedPitch, Lower(title)),
      "https://linkedin.com/jobs/view/" + DecimalText(env.linkedInDraw(index)),
      "LinkedIn",
      LinkedInSalary(index),
      env.daysAgo(index),
      "Full-time")
  }

  /** `scrapeLinkedInJobs`: the first three of the five titles, each
      with the company and salary band at the same index, all at the search
      location. */
  function ScrapeLinkedIn(query: string, location: string, env: ScrapeEnv): (cs: seq<Candidate>)
    ensures |cs| == 3
    ensures AllFrom(cs, "LinkedIn")
    ensures forall i :: 0 <= i < 3 ==> cs[i].location == location
    ensures forall i :: 0 <= i < 3 ==> cs[i].description == Pitched(TalentedPitch, Lower(cs[i].title))
  {
    var titles := LinkedInTitles(query);
    seq(3, i requires 0 <= i < 3 => LinkedInJob(titles[i], i, location, env))
  }

  /** The three LinkedIn titles are `Senior q`, `q Specialist` and `Lead q`. */
  lemma LinkedInListingTitles(query: string, location: string, env: ScrapeEnv)
    ensures var cs := ScrapeLinkedIn(query, location, env);
      && cs[0].title == "Senior " + query
      && cs[1].title == query + " Specialist"
      && cs[2].title == "Lead " + query
  {
    var titles := LinkedInTitles(query);
    var cs := ScrapeLinkedIn(query, location, env);
    assert cs[0] == LinkedInJob(titles[0], 0, location, env);
    assert cs[1] == LinkedInJob(titles[1], 1, location, env);
    assert cs[2] == LinkedInJob(titles[2], 2, location, env);
  }

  /** The `i`-th LinkedIn listing names the `i`-th company of the list and
      the `i`-th salary band. */
  lemma LinkedInListingCompanies(query: string, location: string, env: ScrapeEnv)
    ensures var cs := ScrapeLinkedIn(query, location, env);
      forall i :: 0 <= i < 3 ==> cs[i].company == LinkedInCompanies[i] && cs[i].salary == LinkedInSalary(i)
  {
  }

  /** The band of the `index`-th LinkedIn job reads as two decimal figures,
      `60000 + 20000 * index` and 20000 above it. */
  lemma LinkedInSalaryBand(index: nat)
    ensures exists lo: string, hi: string ::
      && (forall i :: 0 <= i < |lo| ==> '0' <= lo[i] <= '9')
      && (forall i :: 0 <= i < |hi| ==> '0' <= hi[i] <= '9')
      && LinkedInSalary(index) == "$" + lo + " - $" + hi
      && DecimalValue(lo) == 60000 + 20000 * index
      && DecimalValue(hi) == DecimalValue(lo) + 20000
  {
    var lo, hi := DecimalText(60000 + index * 20000), DecimalText(80000 + index * 20000);
    DecimalRoundTrip(60000 + index * 20000);
    DecimalRoundTrip(80000 + index * 20000);
    assert LinkedInSalary(index) == "$" + lo + " - $" + hi;
  }

  /** The wording before a generated listing's subject. */
  function PitchLead(p: Pitch): string {
    match p
    case TalentedPitch => "We are seeking a talented "
    case ExperiencedPitch => "We are seeking an experienced "
    case RemotePitch => "Remote opportunity for a skilled "
  }

  /** The wording after a generated listing's subject. */
  function PitchTail(p: Pitch): string {
    match p
    case TalentedPitch =>
      " to join our dynamic team. "
        + "This role involves working with cutting-edge technologies and collaborating "
        + "with cross-functional teams to deliver innovative solutions."
    case ExperiencedPitch =>
      " to join our growing team. "
        + "The ideal candidate will have strong problem-solving skills and experience "
        + "with modern technologies and methodologies."
    case RemotePitch =>
      ". Work from anywhere while "
        + "contributing to exciting projects and collaborating with a distributed team."
  }

  /** The text of a description as the listing stores it. */
  function Render(d: Description): string {
    match d
    case Text(text) => text
    case Pitched(p, name) => PitchLead(p) + name + PitchTail(p)
  }

  /** A generated listing's text names its subject. */
  lemma RenderNamesSubject(d: Description)
    ensures d.Pitched? ==> Includes(Render(d), d.subject)
  {
    if d.Pitched? {
      IncludesMiddle(PitchLead(d.pitch), d.subject, PitchTail(d.pitch));
    }
  }

  /** The text of every generated listing names its lowered title
      (LinkedIn) or lowered query (Indeed). */
  lemma ListingsNameSubject(query: string, location: string, env: ScrapeEnv)
    ensures var cs := ScrapeLinkedIn(query, location, env);
      forall i :: 0 <= i < 3 ==> Includes(Render(cs[i].description), Lower(cs[i].title))
    ensures var cs := ScrapeIndeed(query, location, env);
      Includes(Render(cs[0].description), Lower(query)) && Includes(Render(cs[1].description), Lower(query))
  {
    var ls := ScrapeLinkedIn(query, location, env);
    forall i | 0 <= i < 3 ensures Includes(Render(ls[i].description), Lower(ls[i].title)) {
      RenderNamesSubject(ls[i].description);
    }
    var ns := ScrapeIndeed(query, location, env);
    RenderNamesSubject(ns[0].description);
    RenderNamesSubject(ns[1].description);
  }

  /** `scrapeIndeedJobs`: two listings, the second one remote. */
  function ScrapeIndeed(query: string, location: string, env: ScrapeEnv): (cs: seq<Candidate>)
    ensures |cs| == 2
    ensures cs[0].title == query + " Professional" && cs[0].location == location
    ensures cs[1].title == "Remote " + query && cs[1].location == "Remote"
    ensures cs[0].description == Pitched(ExperiencedPitch, Lower(query))
    ensures cs[1].description == Pitched(RemotePitch, Lower(query))
    ensures AllFrom(cs, "Indeed")
  {
    [
      Candidate(
        query + " Professional",
        "Enterprise Solutions",
        location,
        Pitched(ExperiencedPitch, Lower(query)),
        "https://indeed.com/viewjob?jk=" + env.indeedDraw(0),
        "Indeed",
        "$70,000 - $100,000",
        env.daysAgo(2),
        "Full-time"),
      Candidate(
        "Remote " + query,
        "Digital Workspace",
        "Remote",
        Pitched(RemotePitch, Lower(query)),
        "https://indeed.com/viewjob?jk=" + env.indeedDraw(1),
        "Indeed",
        "$65,000 - $95,000",
        env.daysAgo(3),
        "Full-time")
    ]
  }

  // ---------------------------------------------------------------------
  // Repeated (title, company) pairs
  // ---------------------------------------------------------------------

  /** The case-insensitive (title, company) pair the scrape compares. */
  function Key(c: Candidate): (string, string) {
    (Lower(c.title), Lower(c.company))
  }

  /** `self.findIndex(j => <same lowered title and company as key>)`. */
  function FirstWithKey(cs: seq<Candidate>, key: (string, string)): (i: int)
    ensures -1 <= i < |cs|
    ensures i >= 0 ==> Key(cs[i]) == key
  {
    if cs == [] then -1
    else if Key(cs[0]) == key then 0
    else
      var i := FirstWithKey(cs[1..], key);
      if i == -1 then -1 else i + 1
  }

  /** No candidate before the one `FirstWithKey` finds has the pair, and
      none at all has it when it finds nothing. */
  lemma {:induction false} NoEarlierKey(cs: seq<Candidate>, key: (string, string), k: nat)
    requires k < |cs|
    requires FirstWithKey(cs, key) == -1 || k < FirstWithKey(cs, key)
    ensures Key(cs[k]) != key
  {
    if k > 0 {
      assert cs[k] == cs[1..][k - 1];
      NoEarlierKey(cs[1..], key, k - 1);
    }
  }

  /** Which candidates the filter keeps: those that are the first with
      their pair. */
  function FirstFlags(cs: seq<Candidate>): (flags: seq<bool>)
    ensures |flags| == |cs|
    ensures forall i :: 0 <= i < |cs| ==> (flags[i] <==> FirstWithKey(cs, Key(cs[i])) == i)
  {
    seq(|cs|, i requires 0 <= i < |cs| => FirstWithKey(cs, Key(cs[i])) == i)
  }

  /** The positions the filter keeps. */
  function Kept(cs: seq<Candidate>): seq<nat> {
    Positions(FirstFlags(cs), 0)
  }

  /** A position is kept exactly when it holds the first candidate with its
      pair. */
  lemma KeptMembers(cs: seq<Candidate>, i: nat)
    ensures i in Kept(cs) <==> i < |cs| && FirstWithKey(cs, Key(cs[i])) == i
  {
    PositionsMembers(FirstFlags(cs), 0, i);
  }

  /** `allJobs.filter((job, index, self) => index === self.findIndex(...))`. */
  function Dedup(cs: seq<Candidate>): (r: seq<Candidate>)
    ensures |r| == |Kept(cs)|
    ensures forall k :: 0 <= k < |r| ==> r[k] == cs[Kept(cs)[k]]
  {
    var ps := Kept(cs);
    seq(|ps|, k requires 0 <= k < |ps| => cs[ps[k]])
  }

  /** The result of `Dedup` is `cs` at increasing positions: an order
      preserving subsequence. */
  lemma DedupSubsequence(cs: seq<Candidate>)
    ensures var ps := Kept(cs);
      && Increasing(ps)
      && |Dedup(cs)| == |ps|
      && forall k :: 0 <= k < |ps| ==> ps[k] < |cs| && Dedup(cs)[k] == cs[ps[k]]
  {
    PositionsOrdered(FirstFlags(cs), 0);
  }

  /** Position `i` survives exactly when no earlier candidate has the same
      pair, and every pair of `cs` appears in the result, carried by its
      first candidate. */
  lemma DedupKeepsFirst(cs: seq<Candidate>, i: nat)
    requires i < |cs|
    ensures i in Kept(cs) <==> forall j :: 0 <= j < i ==> Key(cs[j]) != Key(cs[i])
    ensures exists j, k :: 0 <= j <= i && 0 <= k < |Dedup(cs)| && Key(cs[j]) == Key(cs[i]) && Dedup(cs)[k] == cs[j]
  {
    var first := FirstWithKey(cs, Key(cs[i]));
    assert 0 <= first <= i && Key(cs[first]) == Key(cs[i]) by {
      if first == -1 || i < first {
        NoEarlierKey(cs, Key(cs[i]), i);
      }
    }
    forall j | 0 <= j < first ensures Key(cs[j]) != Key(cs[i]) {
      NoEarlierKey(cs, Key(cs[i]), j);
    }
    KeptMembers(cs, first);
    KeptMembers(cs, i);
    var ps := Kept(cs);
    var k :| 0 <= k < |ps| && ps[k] == first;
    assert Dedup(cs)[k] == cs[first];
  }

  /** No two candidates of the result share a pair. */
  lemma DedupDistinct(cs: seq<Candidate>)
    ensures var r := Dedup(cs);
      forall k, l :: 0 <= k < l < |r| ==> Key(r[k]) != Key(r[l])
  {
    var ps := Kept(cs);
    PositionsOrdered(FirstFlags(cs), 0);
    var r := Dedup(cs);
    forall k, l | 0 <= k < l < |r| ensures Key(r[k]) != Key(r[l]) {
      assert r[k] == cs[ps[k]] && r[l] == cs[ps[l]];
      assert ps[k] < ps[l];
      KeptMembers(cs, ps[k]);
      KeptMembers(cs, ps[l]);
    }
  }

  // ---------------------------------------------------------------------
  // scrapeJobs
  // ---------------------------------------------------------------------

  const DefaultSources: seq<string> := ["google", "linkedin", "indeed"]

  /** `config.jobSearch?.serpApiKey`, "" when absent. */
  function SerpApiKey(config: Config): string {
    if config.jobSearch.Some? then config.jobSearch.value.serpApiKey else ""
  }

  /** The candidates of one source when it is selected, none otherwise. */
  function Selected(sources: seq<string>, name: string, cs: seq<Candidate>): seq<Candidate> {
    if name in sources then cs else []
  }

  /** The candidates of the selected sources, concatenated in the order
      google, linkedin, indeed. */
  function Gathered(params: SearchParams, apiKey: string, env: ScrapeEnv): seq<Candidate> {
    var sources := params.sources.GetOr(DefaultSources);
    var q, l := params.query, params.location;
    Selected(sources, "google", ScrapeGoogle(q, l, apiKey, env))
      + Selected(sources, "linkedin", ScrapeLinkedIn(q, l, env))
      + Selected(sources, "indeed", ScrapeIndeed(q, l, env))
  }

  /** Every gathered candidate comes from a selected source, and the
      generated sources add three and two candidates. */
  lemma GatheredSources(params: SearchParams, apiKey: string, env: ScrapeEnv)
    ensures var sources := params.sources.GetOr(DefaultSources);
      var cs := Gathered(params, apiKey, env);
      && |cs| == (if "google" in sources then |ScrapeGoogle(params.query, params.location, apiKey, env)| else 0)
                 + (if "linkedin" in sources then 3 else 0)
                 + (if "indeed" in sources then 2 else 0)
      && forall i :: 0 <= i < |cs| ==>
           || (cs[i].source == "Google Jobs" && "google" in sources)
           || (cs[i].source == "LinkedIn" && "linkedin" in sources)
           || (cs[i].source == "Indeed" && "indeed" in sources)
  {
    var sources := params.sources.GetOr(DefaultSources);
    var q, l := params.query, params.location;
    var g := Selected(sources, "google", ScrapeGoogle(q, l, apiKey, env));
    var li := Selected(sources, "linkedin", ScrapeLinkedIn(q, l, env));
    var ind := Selected(sources, "indeed", ScrapeIndeed(q, l, env));
    var cs := Gathered(params, apiKey, env);
    assert cs == g + li + ind;
    forall i | 0 <= i < |cs|
      ensures || (cs[i].source == "Google Jobs" && "google" in sources)
              || (cs[i].source == "LinkedIn" && "linkedin" in sources)
              || (cs[i].source == "Indeed" && "indeed" in sources)
    {
      if i < |g| {
        assert cs[i] == g[i];
      } else if i < |g| + |li| {
        assert cs[i] == li[i - |g|];
      } else {
        assert cs[i] == ind[i - |g| - |li|];
      }
    }
  }

  /** What `scrapeJobs` returns: nothing without a configuration, otherwise
      the gathered candidates without repeated pairs. */
  function ScrapeResult(config: Option<Config>, params: SearchParams, env: ScrapeEnv): seq<Candidate> {
    if config.None? then [] else Dedup(Gathered(params, SerpApiKey(config.value), env))
  }

  /** `scrapeJobs`. */
  method ScrapeJobs(dir: DataDir, params: SearchParams, env: ScrapeEnv) returns (jobs: seq<Candidate>)
    ensures dir.ReadConfig().None? ==> jobs == []
    ensures jobs == ScrapeResult(dir.ReadConfig(), params, env)
  {
    var config := dir.ReadConfig();
    if config.None? {
      return [];
    }
    var sources := params.sources.GetOr(DefaultSources);
    var q, l := params.query, params.location;
    var allJobs: seq<Candidate> := [];
    if "google" in sources {
      var googleJobs := ScrapeGoogle(q, l, SerpApiKey(config.value), env);
      Unit(googleJobs);
      allJobs := allJobs + googleJobs;
    }
    ghost var google := Selected(sources, "google", ScrapeGoogle(q, l, SerpApiKey(config.value), env));
    assert allJobs == google;
    if "linkedin" in sources {
      var linkedinJobs := ScrapeLinkedIn(q, l, env);
      allJobs := allJobs + linkedinJobs;
    } else {
      Unit(allJobs);
    }
    ghost var linkedin := Selected(sources, "linkedin", ScrapeLinkedIn(q, l, env));
    assert allJobs == google + linkedin;
    if "indeed" in sources {
      var indeedJobs := ScrapeIndeed(q, l, env);
      allJobs := allJobs + indeedJobs;
    } else {
      Unit(allJobs);
    }
    assert allJobs == google + linkedin + Selected(sources, "indeed", ScrapeIndeed(q, l, env));
    assert allJobs == Gathered(params, SerpApiKey(config.value), env);
    jobs := Dedup(allJobs);
  }

  // ---------------------------------------------------------------------
  // autoAddScrapedJobs
  // ---------------------------------------------------------------------

  /** The `pending` record built for a scraped candidate. */
  function NewRecord(c: Candidate, id: string, now: string): Job {
    Job(id, c.title, c.company, c.url, Pending, now,
      Some(Provenance(c.source, c.location, c.description, c.salary, c.jobType, c.postedDate)),
      None)
  }

  /** `scrapedJobs.map(...)`: one `pending` record per candidate, in order,
      carrying its title, company, URL and the informational fields, with
      `job_type` and `posted_date` as `jobType` and `postedDate`. */
  function NewRecords(cs: seq<Candidate>, env: ScrapeEnv): (js: seq<Job>)
    ensures |js| == |cs|
    ensures forall i :: 0 <= i < |cs| ==>
      && js[i].status == Pending
      && js[i].id == env.recordId(i)
      && js[i].dateAdded == env.now
      && js[i].title == cs[i].title && js[i].company == cs[i].company && js[i].url == cs[i].url
      && js[i].provenance == Some(Provenance(cs[i].source, cs[i].location, cs[i].description,
                                             cs[i].salary, cs[i].jobType, cs[i].postedDate))
      && js[i].artifacts.None?
  {
    var js := seq(|cs|, i requires 0 <= i < |cs| => NewRecord(cs[i], env.recordId(i), env.now));
    assert forall i :: 0 <= i < |cs| ==> js[i] == NewRecord(cs[i], env.recordId(i), env.now);
    js
  }

  /** The `title.toLowerCase() + '-' + company.toLowerCase()` key of the store. */
  function StoreKey(title: string, company: string): (r: string)
    ensures |r| == |title| + 1 + |company|
    ensures r[..|title|] == Lower(title) && r[|title|] == '-' && r[|title| + 1..] == Lower(company)
  {
    Lower(title) + "-" + Lower(company)
  }

  function Urls(js: seq<Job>): set<string> {
    set j | j in js :: j.url
  }

  function StoreKeys(js: seq<Job>): set<string> {
    set j | j in js :: StoreKey(j.title, j.company)
  }

  predicate Known(urls: set<string>, keys: set<string>, j: Job) {
    j.url in urls || StoreKey(j.title, j.company) in keys
  }

  /** `newJobs.filter(job => !existingUrls.has(job.url) && !existingTitleCompany.has(key))`. */
  function UniqueNew(urls: set<string>, keys: set<string>, incoming: seq<Job>): (r: seq<Job>)
    ensures |r| <= |incoming|
  {
    if incoming == [] then []
    else (if Known(urls, keys, incoming[0]) then [] else [incoming[0]]) + UniqueNew(urls, keys, incoming[1..])
  }

  /** A record survives the filter exactly when it is among the incoming
      ones and the store knows neither its URL nor its key. */
  lemma {:induction false} UniqueNewMembers(urls: set<string>, keys: set<string>, incoming: seq<Job>, j: Job)
    ensures j in UniqueNew(urls, keys, incoming) <==> j in incoming && !Known(urls, keys, j)
  {
    if incoming != [] {
      UniqueNewMembers(urls, keys, incoming[1..], j);
      assert j in incoming <==> j == incoming[0] || j in incoming[1..];
    }
  }

  /** Each candidate is judged on its own: the filter of a concatenation is
      the concatenation of the filters. */
  lemma {:induction false} UniqueNewAppend(urls: set<string>, keys: set<string>, a: seq<Job>, b: seq<Job>)
    ensures UniqueNew(urls, keys, a + b) == UniqueNew(urls, keys, a) + UniqueNew(urls, keys, b)
  {
    if a == [] {
      assert a + b == b;
    } else {
      var head := if Known(urls, keys, a[0]) then [] else [a[0]];
      assert (a + b)[0] == a[0];
      assert (a + b)[1..] == a[1..] + b;
      UniqueNewAppend(urls, keys, a[1..], b);
      assert UniqueNew(urls, keys, a + b) == head + (UniqueNew(urls, keys, a[1..]) + UniqueNew(urls, keys, b));
      assert UniqueNew(urls, keys, a) == head + UniqueNew(urls, keys, a[1..]);
    }
  }

  /** Candidates repeating one another are not filtered among themselves:
      two unknown records, even with the same URL, are both imported. */
  lemma RepeatsAmongNewKept(urls: set<string>, keys: set<string>, x: Job, y: Job)
    requires !Known(urls, keys, x) && !Known(urls, keys, y)
    ensures UniqueNew(urls, keys, [x, y]) == [x, y]
  {
    UniqueNewAppend(urls, keys, [x], [y]);
    assert [x, y][1..] == [y];
  }

  /** The dash-joined key conflates pairs: a candidate whose (title,
      company) pair and URL differ from the only stored record's is still
      dropped when the joined keys coincide. */
  lemma DashKeyConflatesPairs(stored: Job, c: Job)
    requires stored.title == "a-b" && stored.company == "c"
    requires c.title == "a" && c.company == "b-c" && c.url != stored.url
    ensures (c.title, c.company) != (stored.title, stored.company)
    ensures UniqueNew(Urls([stored]), StoreKeys([stored]), [c]) == []
  {
    assert Lower("a-b") == "a-b" && Lower("c") == "c" && Lower("a") == "a" && Lower("b-c") == "b-c";
    assert StoreKey(c.title, c.company) == StoreKey(stored.title, stored.company);
    assert Known(Urls([stored]), StoreKeys([stored]), c);
  }

  /** The case-insensitive (title, company) pair of a record. */
  function RecordPair(j: Job): (string, string) {
    (Lower(j.title), Lower(j.company))
  }

  /** No two records of `js` share a case-insensitive (title, company) pair. */
  predicate DistinctPairs(js: seq<Job>) {
    forall k, l :: 0 <= k < l < |js| ==> RecordPair(js[k]) != RecordPair(js[l])
  }

  /** The filter only drops records, so it keeps pairs distinct. */
  lemma {:induction false} UniqueNewDistinct(urls: set<string>, keys: set<string>, incoming: seq<Job>)
    requires DistinctPairs(incoming)
    ensures DistinctPairs(UniqueNew(urls, keys, incoming))
  {
    if incoming != [] {
      var rest := incoming[1..];
      assert DistinctPairs(rest) by {
        forall k, l | 0 <= k < l < |rest| ensures RecordPair(rest[k]) != RecordPair(rest[l]) {
          assert rest[k] == incoming[k + 1] && rest[l] == incoming[l + 1];
        }
      }
      UniqueNewDistinct(urls, keys, rest);
      var tail := UniqueNew(urls, keys, rest);
      if !Known(urls, keys, incoming[0]) {
        var r := [incoming[0]] + tail;
        assert UniqueNew(urls, keys, incoming) == r;
        forall k, l | 0 <= k < l < |r| ensures RecordPair(r[k]) != RecordPair(r[l]) {
          assert r[l] == tail[l - 1];
          if k == 0 {
            UniqueNewMembers(urls, keys, rest, tail[l - 1]);
            var m :| 0 <= m < |rest| && rest[m] == tail[l - 1];
            assert incoming[m + 1] == rest[m];
          } else {
            assert r[k] == tail[k - 1];
          }
        }
      }
    }
  }

  /** One import never brings in two records with the same case-insensitive
      (title, company) pair: the scrape already dropped repeated pairs, the
      records keep their candidates' titles and companies, and the filter
      only drops records. */
  lemma ImportedPairsDistinct(config: Option<Config>, params: SearchParams, env: ScrapeEnv,
                              urls: set<string>, keys: set<string>)
    ensures DistinctPairs(UniqueNew(urls, keys, NewRecords(ScrapeResult(config, params, env), env)))
  {
    var cs := ScrapeResult(config, params, env);
    var js := NewRecords(cs, env);
    if config.Some? {
      DedupDistinct(Gathered(params, SerpApiKey(config.value), env));
    }
    forall k, l | 0 <= k < l < |js| ensures RecordPair(js[k]) != RecordPair(js[l]) {
      assert RecordPair(js[k]) == Key(cs[k]) && RecordPair(js[l]) == Key(cs[l]);
    }
    UniqueNewDistinct(urls, keys, js);
  }

  /** `autoAddScrapedJobs`: import the scraped candidates the store does not
      know by URL or by key, appending them after the stored records; the
      store is written only when there is something to add. */
  method AutoAddScrapedJobs(dir: DataDir, params: SearchParams, env: ScrapeEnv) returns (added: seq<Job>)
    modifies dir
    ensures
      var existing := old(dir.ReadJobs());
      var incoming := NewRecords(ScrapeResult(old(dir.ReadConfig()), params, env), env);
      added == UniqueNew(Urls(existing), StoreKeys(existing), incoming)
    ensures added != [] ==>
      && dir.jobsFile == Holds(old(dir.ReadJobs()) + added)
      && dir.jobWrites == old(dir.jobWrites) + [old(dir.ReadJobs()) + added]
    ensures added == [] ==> dir.jobsFile == old(dir.jobsFile) && dir.jobWrites == old(dir.jobWrites)
    ensures dir.configFile == old(dir.configFile)
    ensures DistinctPairs(added)
  {
    ghost var config := dir.ReadConfig();
    var scrapedJobs := ScrapeJobs(dir, params, env);
    var existingJobs := dir.ReadJobs();
    var newJobs := NewRecords(scrapedJobs, env);
    var existingUrls := Urls(existingJobs);
    var existingTitleCompany := StoreKeys(existingJobs);
    added := UniqueNew(existingUrls, existingTitleCompany, newJobs);
    ImportedPairsDistinct(config, params, env, existingUrls, existingTitleCompany);
    if |added| > 0 {
      dir.WriteJobs(existingJobs + added);
    }
  }
}
