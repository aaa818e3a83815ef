/**
 * The GitLab side of the dashboard (gitlab.py): finding a branch's latest pipeline in the
 * paginated pipelines listing, flattening the pipeline's stage, group and job tree, and turning
 * the jobs of interest into `JobInfo`s whose diff counts are read from HTML reports and kept in a
 * cache keyed by report URL.
 */
module GitLab {
  import opened Wrappers
  import opened Common

  const PipelinesUrl := "https://gitlab.com/satoshilabs/trezor/trezor-firmware/-/pipelines/"
  /** The listing is searched on pages 1 to `PageCount` and no further. */
  const PageCount := 10
  /** The highlight of a table row that marks a screen differing from master. */
  const DiffMarker := "bgcolor=\"red\""

  /** A record of the branches listing, reduced to `ref.name`, `id` and `iid`. */
  datatype Pipeline = Pipeline(refName: string, id: int, iid: int)

  /** A job of the pipeline detail: a global `id` ending in "/<number>", `name`, `status`. */
  datatype RawJob = RawJob(id: string, name: string, status: string)
  datatype Group = Group(jobs: seq<RawJob>)
  datatype Stage = Stage(groups: seq<Group>)

  /** The answer to a plain GET of a report page. */
  datatype Response = Response(statusCode: int, body: string)

  // ---------------------------------------------------------------------------
  // get_branch_obj
  // ---------------------------------------------------------------------------

  /** Page 1: the caller's copy when it is given and non-empty, else a fresh fetch. */
  function FirstPage(firstPageCache: Option<seq<Pipeline>>, newest: seq<Pipeline>): seq<Pipeline> {
    if firstPageCache.Some? && firstPageCache.value != [] then firstPageCache.value else newest
  }

  /** The pages `get_branch_obj` reads, in order: page 1, then pages 2 to 10 of the cached fetch. */
  function SearchedPages(firstPageCache: Option<seq<Pipeline>>, newest: seq<Pipeline>,
                         cachedPage: int -> seq<Pipeline>): (pages: seq<seq<Pipeline>>)
    ensures |pages| == PageCount
    ensures firstPageCache.Some? && firstPageCache.value != [] ==> pages[0] == firstPageCache.value
    ensures firstPageCache.None? || firstPageCache.value == [] ==> pages[0] == newest
    ensures forall p | 2 <= p <= PageCount :: pages[p - 1] == cachedPage(p)
  {
    [FirstPage(firstPageCache, newest)] + seq(PageCount - 1, i => cachedPage(i + 2))
  }

  /** The first record of `page` for branch `name`. */
  function FindInPage(name: string, page: seq<Pipeline>): (r: Option<Pipeline>)
    ensures r.Some? ==> r.value in page && r.value.refName == name
    ensures r.None? ==> forall i | 0 <= i < |page| :: page[i].refName != name
  {
    if page == [] then None
    else if page[0].refName == name then Some(page[0])
    else FindInPage(name, page[1..])
  }

  /** The first record for branch `name`, pages in order and records in order within a page. */
  function FirstMatch(name: string, pages: seq<seq<Pipeline>>): (r: Result<Pipeline>)
    ensures r.Failure? ==> r.error == NotFound(name)
    ensures r.Success? ==> r.value.refName == name
  {
    if pages == [] then Failure(NotFound(name))
    else match FindInPage(name, pages[0])
      case Some(p) => Success(p)
      case None => FirstMatch(name, pages[1..])
  }

  /** No record before position `i` of page `p` is for branch `name`. */
  ghost predicate NoneBefore(name: string, pages: seq<seq<Pipeline>>, p: int, i: int) {
    forall q, j | 0 <= q < |pages| && 0 <= j < |pages[q]| && (q < p || (q == p && j < i)) ::
      pages[q][j].refName != name
  }

  lemma {:induction false} FindInPageIsFirst(name: string, page: seq<Pipeline>)
    ensures FindInPage(name, page).Some? <==> exists i | 0 <= i < |page| :: page[i].refName == name
    ensures FindInPage(name, page).Some? ==>
      exists i | 0 <= i < |page| :: page[i] == FindInPage(name, page).value && page[i].refName == name
        && forall j | 0 <= j < i :: page[j].refName != name
  {
    if page != [] && page[0].refName != name {
      FindInPageIsFirst(name, page[1..]);
      if FindInPage(name, page[1..]).Some? {
        var i :| 0 <= i < |page[1..]| && page[1..][i] == FindInPage(name, page[1..]).value
          && page[1..][i].refName == name && forall j | 0 <= j < i :: page[1..][j].refName != name;
        assert page[i + 1] == FindInPage(name, page).value;
        assert forall j | 0 <= j < i + 1 :: page[j].refName != name by {
          forall j | 0 <= j < i + 1 ensures page[j].refName != name {
            if j > 0 { assert page[j] == page[1..][j - 1]; }
          }
        }
      } else {
        forall i | 0 <= i < |page| ensures page[i].refName != name {
          if i > 0 { assert page[i] == page[1..][i - 1]; }
        }
      }
    } else if page != [] {
      assert page[0].refName == name;
    }
  }

  /**
   * `get_branch_obj` answers the first record for the branch, in page order and then in
   * record order; it fails with NotFound exactly when no searched page holds the branch.
   */
  lemma {:induction false} FirstMatchIsFirst(name: string, pages: seq<seq<Pipeline>>)
    ensures FirstMatch(name, pages).Success? <==>
      exists p, i | 0 <= p < |pages| && 0 <= i < |pages[p]| :: pages[p][i].refName == name
    ensures FirstMatch(name, pages).Failure? ==> FirstMatch(name, pages) == Failure(NotFound(name))
    ensures FirstMatch(name, pages).Success? ==>
      exists p, i | 0 <= p < |pages| && 0 <= i < |pages[p]| ::
        pages[p][i] == FirstMatch(name, pages).value && pages[p][i].refName == name
        && NoneBefore(name, pages, p, i)
  {
    if pages != [] {
      FindInPageIsFirst(name, pages[0]);
      if FindInPage(name, pages[0]).Some? {
        var i :| 0 <= i < |pages[0]| && pages[0][i] == FindInPage(name, pages[0]).value
          && pages[0][i].refName == name && forall j | 0 <= j < i :: pages[0][j].refName != name;
        assert NoneBefore(name, pages, 0, i);
      } else {
        var rest := pages[1..];
        FirstMatchIsFirst(name, rest);
        if FirstMatch(name, rest).Success? {
          var p, i :| 0 <= p < |rest| && 0 <= i < |rest[p]| && rest[p][i] == FirstMatch(name, rest).value
            && rest[p][i].refName == name && NoneBefore(name, rest, p, i);
          assert pages[p + 1] == rest[p];
          assert NoneBefore(name, pages, p + 1, i) by {
            forall q, j | 0 <= q < |pages| && 0 <= j < |pages[q]| && (q < p + 1 || (q == p + 1 && j < i))
              ensures pages[q][j].refName != name
            {
              if q > 0 { assert pages[q] == rest[q - 1]; }
            }
          }
        } else {
          forall p, i | 0 <= p < |pages| && 0 <= i < |pages[p]| ensures pages[p][i].refName != name {
            if p > 0 { assert pages[p] == rest[p - 1]; }
          }
        }
      }
    }
  }

  /**
   * `get_branch_obj`: scans pages 1 to 10 (page 1 from the caller's copy or a fresh fetch,
   * the others from the cached per-page fetch) and returns the first record for the branch.
   */
  method GetBranchObj(branchName: string, firstPageCache: Option<seq<Pipeline>>,
                      newest: seq<Pipeline>, cachedPage: int -> seq<Pipeline>)
    returns (r: Result<Pipeline>)
    ensures r == FirstMatch(branchName, SearchedPages(firstPageCache, newest, cachedPage))
  {
    ghost var pages := SearchedPages(firstPageCache, newest, cachedPage);
    for page := 1 to PageCount + 1
      invariant FirstMatch(branchName, pages) == FirstMatch(branchName, pages[page - 1..])
    {
      var branches: seq<Pipeline>;
      if page == 1 {
        if firstPageCache.Some? && firstPageCache.value != [] {
          branches := firstPageCache.value;
        } else {
          branches := newest;
        }
      } else {
        branches := cachedPage(page);
      }
      assert branches == pages[page - 1];
      for i := 0 to |branches|
        invariant FindInPage(branchName, branches) == FindInPage(branchName, branches[i..])
      {
        if branches[i].refName == branchName {
          return Success(branches[i]);
        }
        assert branches[i..][1..] == branches[i + 1..];
      }
      assert pages[page - 1..][1..] == pages[page..];
    }
    return Failure(NotFound(branchName));
  }

  // ---------------------------------------------------------------------------
  // yield_pipeline_jobs and the jobs of interest
  // ---------------------------------------------------------------------------

  /** The jobs of `groups`, group after group. */
  function GroupJobs(groups: seq<Group>): seq<RawJob> {
    if groups == [] then [] else GroupJobs(groups[..|groups| - 1]) + groups[|groups| - 1].jobs
  }

  /** The jobs of a pipeline, stage after stage and group after group. */
  function PipelineJobs(stages: seq<Stage>): seq<RawJob> {
    if stages == [] then [] else PipelineJobs(stages[..|stages| - 1]) + GroupJobs(stages[|stages| - 1].groups)
  }

  /** `yield_pipeline_jobs`: the three nested loops over stages, groups and jobs. */
  method YieldPipelineJobs(stages: seq<Stage>) returns (jobs: seq<RawJob>)
    ensures jobs == PipelineJobs(stages)
  {
    jobs := [];
    for s := 0 to |stages|
      invariant jobs == PipelineJobs(stages[..s])
    {
      var nodes := stages[s].groups;
      for g := 0 to |nodes|
        invariant jobs == PipelineJobs(stages[..s]) + GroupJobs(nodes[..g])
      {
        var groupJobs := nodes[g].jobs;
        for i := 0 to |groupJobs|
          invariant jobs == PipelineJobs(stages[..s]) + GroupJobs(nodes[..g]) + groupJobs[..i]
        {
          jobs := jobs + [groupJobs[i]];
        }
        assert nodes[..g + 1][..g] == nodes[..g];
        assert groupJobs[..|groupJobs|] == groupJobs;
      }
      assert stages[..s + 1][..s] == stages[..s];
      assert nodes[..|nodes|] == nodes;
    }
    assert stages[..|stages|] == stages;
  }

  lemma {:induction false} GroupJobsMembers(groups: seq<Group>, job: RawJob)
    ensures job in GroupJobs(groups) <==> exists g | 0 <= g < |groups| :: job in groups[g].jobs
  {
    if groups != [] {
      var init := groups[..|groups| - 1];
      GroupJobsMembers(init, job);
      assert forall g | 0 <= g < |init| :: init[g] == groups[g];
    }
  }

  /** A job is yielded exactly when some group of some stage holds it. */
  lemma {:induction false} PipelineJobsMembers(stages: seq<Stage>, job: RawJob)
    ensures job in PipelineJobs(stages) <==>
      exists s, g | 0 <= s < |stages| && 0 <= g < |stages[s].groups| :: job in stages[s].groups[g].jobs
  {
    if stages != [] {
      var init := stages[..|stages| - 1];
      PipelineJobsMembers(init, job);
      GroupJobsMembers(stages[|stages| - 1].groups, job);
      assert forall s | 0 <= s < |init| :: init[s] == stages[s];
    }
  }

  /** `get_jobs_of_interests`: the five CI jobs whose UI diffs the dashboard tracks. */
  function JobsOfInterest(): (names: seq<string>)
    ensures |names| == 5
    ensures Distinct(names)
    ensures forall i | 0 <= i < 4 :: "core" <= names[i]
    ensures names[4] == "unix ui changes"
  {
    ["core click R test", "core device R test", "core click test", "core device test", "unix ui changes"]
  }

  // ---------------------------------------------------------------------------
  // get_diff_screens_from_text
  // ---------------------------------------------------------------------------

  /** Python's `text.count(sub)`: non-overlapping occurrences, scanning from the left. */
  function CountNonOverlapping(text: string, sub: string): nat
    requires |sub| > 0
    decreases |text|
  {
    if |text| < |sub| then 0
    else if text[..|sub|] == sub then 1 + CountNonOverlapping(text[|sub|..], sub)
    else CountNonOverlapping(text[1..], sub)
  }

  /** The number of positions at which `sub` occurs in `text`, overlapping ones included. */
  function Occurrences(text: string, sub: string): nat
    requires |sub| > 0
    decreases |text|
  {
    if |text| < |sub| then 0
    else (if text[..|sub|] == sub then 1 else 0) + Occurrences(text[1..], sub)
  }

  /** The first character of `sub` occurs nowhere else in it, so no two occurrences overlap. */
  predicate FirstCharUnique(sub: string) {
    |sub| > 0 && forall i | 0 < i < |sub| :: sub[i] != sub[0]
  }

  /** A prefix without the first character of `sub` holds no occurrence. */
  lemma {:induction false} OccurrencesSkip(text: string, sub: string, k: nat)
    requires |sub| > 0 && k <= |text|
    requires forall j | 0 <= j < k :: text[j] != sub[0]
    ensures Occurrences(text, sub) == Occurrences(text[k..], sub)
    decreases k
  {
    if k > 0 && |text| >= |sub| {
      assert text[..|sub|][0] != sub[0];
      OccurrencesSkip(text[1..], sub, k - 1);
      assert text[1..][k - 1..] == text[k..];
    }
  }

  lemma {:induction false} CountSkip(text: string, sub: string, k: nat)
    requires |sub| > 0 && k <= |text|
    requires forall j | 0 <= j < k :: text[j] != sub[0]
    ensures CountNonOverlapping(text, sub) == CountNonOverlapping(text[k..], sub)
    decreases k
  {
    if k > 0 && |text| >= |sub| {
      assert text[..|sub|][0] != sub[0];
      CountSkip(text[1..], sub, k - 1);
      assert text[1..][k - 1..] == text[k..];
    }
  }

  /** For such a `sub`, Python's non-overlapping count counts every occurrence. */
  lemma {:induction false} CountIsOccurrences(text: string, sub: string)
    requires FirstCharUnique(sub)
    ensures CountNonOverlapping(text, sub) == Occurrences(text, sub)
    decreases |text|
  {
    if |text| >= |sub| {
      if text[..|sub|] == sub {
        var rest := text[1..];
        forall j | 0 <= j < |sub| - 1 ensures rest[j] != sub[0] {
          assert rest[j] == text[..|sub|][j + 1];
        }
        OccurrencesSkip(rest, sub, |sub| - 1);
        assert rest[|sub| - 1..] == text[|sub|..];
        CountIsOccurrences(text[|sub|..], sub);
      } else {
        CountIsOccurrences(text[1..], sub);
      }
    }
  }

  lemma DiffMarkerFirstCharUnique()
    ensures FirstCharUnique(DiffMarker)
  {
  }

  /** `get_diff_screens_from_text`: the number of red-highlighted rows of a report. */
  function DiffScreensFromText(htmlText: string): (n: nat)
    ensures n == Occurrences(htmlText, DiffMarker)
  {
    DiffMarkerFirstCharUnique();
    CountIsOccurrences(htmlText, DiffMarker);
    CountNonOverlapping(htmlText, DiffMarker)
  }

  /** `sub` occurs in `text` at position `i`. */
  predicate OccursAt(text: string, sub: string, i: int) {
    0 <= i && i + |sub| <= |text| && text[i..i + |sub|] == sub
  }

  lemma OccursAtShift(text: string, sub: string, i: int)
    requires 1 <= i && |text| >= 1
    ensures OccursAt(text, sub, i) <==> OccursAt(text[1..], sub, i - 1)
  {
    if i + |sub| <= |text| {
      assert text[i..i + |sub|] == text[1..][i - 1..i - 1 + |sub|];
    }
  }

  lemma {:induction false} NoOccurrences(text: string, sub: string)
    requires |sub| > 0
    ensures Occurrences(text, sub) == 0 <==> forall i :: !OccursAt(text, sub, i)
    decreases |text|
  {
    if |text| >= |sub| {
      NoOccurrences(text[1..], sub);
      assert OccursAt(text, sub, 0) <==> text[..|sub|] == sub by {
        assert text[0..|sub|] == text[..|sub|];
      }
      forall i | 1 <= i ensures OccursAt(text, sub, i) <==> OccursAt(text[1..], sub, i - 1) {
        OccursAtShift(text, sub, i);
      }
      forall i | OccursAt(text[1..], sub, i) ensures OccursAt(text, sub, i + 1) {
        OccursAtShift(text, sub, i + 1);
      }
    }
  }

  /** A report is counted as clean exactly when the marker occurs nowhere in it. */
  lemma NoDiffScreens(htmlText: string)
    ensures DiffScreensFromText(htmlText) == 0 <==> forall i :: !OccursAt(htmlText, DiffMarker, i)
  {
    NoOccurrences(htmlText, DiffMarker);
  }

  /** Text without a 'b' ahead of a marker: what precedes it is not counted. */
  lemma MarkerAfterFiller(filler: string, rest: string)
    requires 'b' !in filler
    ensures CountNonOverlapping(filler + DiffMarker + rest, DiffMarker)
         == 1 + CountNonOverlapping(rest, DiffMarker)
  {
    var t := filler + DiffMarker + rest;
    forall j | 0 <= j < |filler| ensures t[j] != DiffMarker[0] {
      assert t[j] == filler[j];
    }
    CountSkip(t, DiffMarker, |filler|);
    var u := t[|filler|..];
    assert u == DiffMarker + rest;
    assert u[..|DiffMarker|] == DiffMarker;
    assert u[|DiffMarker|..] == rest;
  }

  lemma FillerOnly(filler: string)
    requires 'b' !in filler
    ensures CountNonOverlapping(filler, DiffMarker) == 0
  {
    forall j | 0 <= j < |filler| ensures filler[j] != DiffMarker[0] {
      assert filler[j] in filler;
    }
    CountSkip(filler, DiffMarker, |filler|);
  }

  /** A report with three red rows among other markup gives 3. */
  lemma ThreeRedRows(f1: string, f2: string, f3: string, f4: string)
    requires 'b' !in f1 && 'b' !in f2 && 'b' !in f3 && 'b' !in f4
    ensures DiffScreensFromText(f1 + DiffMarker + f2 + DiffMarker + f3 + DiffMarker + f4) == 3
  {
    var t3 := f3 + DiffMarker + f4;
    var t2 := f2 + DiffMarker + t3;
    var t1 := f1 + DiffMarker + t2;
    assert t1 == f1 + DiffMarker + f2 + DiffMarker + f3 + DiffMarker + f4;
    FillerOnly(f4);
    MarkerAfterFiller(f3, f4);
    MarkerAfterFiller(f2, t3);
    MarkerAfterFiller(f1, t2);
    DiffMarkerFirstCharUnique();
    CountIsOccurrences(t1, DiffMarker);
  }

  // ---------------------------------------------------------------------------
  // get_status_from_link
  // ---------------------------------------------------------------------------

  /** The answer of `get_status_from_link`, the report cache after it, and whether it fetched. */
  datatype StatusOutcome = StatusOutcome(status: string, diffScreens: int, cache: map<string, int>, fetched: bool)

  /**
   * `get_status_from_link` on the report cache `cache`: skipped jobs first, then a cache hit,
   * then a fetch whose 200 answer is counted and cached.
   */
  function StatusFromLink(job: RawJob, link: string, cache: map<string, int>,
                          fetch: string -> Response): (o: StatusOutcome)
    ensures o.status == StatusSkipped || o.status == StatusFinished || o.status == StatusRunning
    ensures forall k | k in cache :: k in o.cache && o.cache[k] == cache[k]
    ensures o.cache.Keys <= cache.Keys + {link}
    ensures o.status == StatusFinished ==> link in o.cache && o.cache[link] == o.diffScreens
    ensures o.status != StatusFinished ==> o.cache == cache && o.diffScreens == 0
    ensures o.fetched <==> job.status != "SKIPPED" && link !in cache
  {
    if job.status == "SKIPPED" then StatusOutcome(StatusSkipped, 0, cache, false)
    else if link in cache then StatusOutcome(StatusFinished, cache[link], cache, false)
    else
      var res := fetch(link);
      if res.statusCode == 200 then
        var n := DiffScreensFromText(res.body);
        StatusOutcome(StatusFinished, n, cache[link := n], true)
      else
        StatusOutcome(StatusRunning, 0, cache, true)
  }

  /** A skipped job is "Skipped" with 0 screens whatever the cache holds; nothing changes. */
  lemma SkippedStatus(job: RawJob, link: string, cache: map<string, int>, fetch: string -> Response)
    requires job.status == "SKIPPED"
    ensures StatusFromLink(job, link, cache, fetch) == StatusOutcome(StatusSkipped, 0, cache, false)
  {
  }

  /** A cached report answers "Finished" with the cached count, without a fetch. */
  lemma CachedStatus(job: RawJob, link: string, cache: map<string, int>, fetch: string -> Response)
    requires job.status != "SKIPPED" && link in cache
    ensures StatusFromLink(job, link, cache, fetch) == StatusOutcome(StatusFinished, cache[link], cache, false)
  {
  }

  /** A fetch: 200 counts the body and caches the count; any other status is "Running...". */
  lemma FetchedStatus(job: RawJob, link: string, cache: map<string, int>, fetch: string -> Response)
    requires job.status != "SKIPPED" && link !in cache
    ensures fetch(link).statusCode == 200 ==>
      var n := Occurrences(fetch(link).body, DiffMarker);
      StatusFromLink(job, link, cache, fetch) == StatusOutcome(StatusFinished, n, cache[link := n], true)
    ensures fetch(link).statusCode != 200 ==>
      StatusFromLink(job, link, cache, fetch) == StatusOutcome(StatusRunning, 0, cache, true)
  {
  }

  /**
   * Once an answer is not "Running...", asking again gives the same answer without a fetch,
   * whatever the server would now say.
   */
  lemma StatusIsFinal(job: RawJob, link: string, cache: map<string, int>,
                      fetch: string -> Response, later: string -> Response)
    requires StatusFromLink(job, link, cache, fetch).status != StatusRunning
    ensures var o := StatusFromLink(job, link, cache, fetch);
      StatusFromLink(job, link, o.cache, later) == StatusOutcome(o.status, o.diffScreens, o.cache, false)
  {
  }

  /** A report answered with 200 and three red rows: "Finished", 3, and the link cached as 3. */
  lemma ThreeRedRowsFetched(job: RawJob, link: string, cache: map<string, int>, fetch: string -> Response,
                            f1: string, f2: string, f3: string, f4: string)
    requires job.status != "SKIPPED" && link !in cache
    requires 'b' !in f1 && 'b' !in f2 && 'b' !in f3 && 'b' !in f4
    requires fetch(link) == Response(200, f1 + DiffMarker + f2 + DiffMarker + f3 + DiffMarker + f4)
    ensures StatusFromLink(job, link, cache, fetch) == StatusOutcome(StatusFinished, 3, cache[link := 3], true)
  {
    ThreeRedRows(f1, f2, f3, f4);
  }

  // ---------------------------------------------------------------------------
  // _get_job_info
  // ---------------------------------------------------------------------------

  /** `job["id"].split("/")[-1]`: the text after the last '/', or all of `s` when it has none. */
  function LastSegment(s: string): (r: string)
    ensures SlashFree(r)
    ensures EndsWith(s, r)
    ensures |r| < |s| ==> s[|s| - |r| - 1] == '/'
  {
    if s == [] || s[|s| - 1] == '/' then [] else LastSegment(s[..|s| - 1]) + [s[|s| - 1]]
  }

  /** `r` is a last segment of `s`: slash-free, a suffix, and the whole or preceded by '/'. */
  predicate IsLastSegment(s: string, r: string) {
    SlashFree(r) && EndsWith(s, r) && (|r| < |s| ==> s[|s| - |r| - 1] == '/')
  }

  lemma SuffixSlashFree(s: string, r: string)
    requires SlashFree(r) && EndsWith(s, r)
    ensures forall i | |s| - |r| <= i < |s| :: s[i] != '/'
  {
    forall i | |s| - |r| <= i < |s| ensures s[i] != '/' {
      assert s[i] == s[|s| - |r|..][i - (|s| - |r|)];
    }
  }

  lemma SameLastSegment(s: string, r: string, l: string)
    requires IsLastSegment(s, r) && IsLastSegment(s, l)
    ensures r == l
  {
    SuffixSlashFree(s, r);
    SuffixSlashFree(s, l);
    assert |r| == |l|;
  }

  /** Those three properties pin the last segment down: any string that has them is it. */
  lemma LastSegmentUnique(s: string, r: string)
    requires IsLastSegment(s, r)
    ensures r == LastSegment(s)
  {
    SameLastSegment(s, r, LastSegment(s));
  }

  lemma LastSegmentExample()
    ensures LastSegment("gid://gitlab/Ci::Build/123") == "123"
  {
    LastSegmentUnique("gid://gitlab/Ci::Build/123", "123");
  }

  /** The job record `_get_job_info` returns, with the report cache and requests after it. */
  datatype JobBuild = JobBuild(info: JobInfo, cache: map<string, int>, requests: seq<string>)

  /** The fields `_get_job_info` takes from the raw job, whatever `find_status` is. */
  predicate BuiltFrom(info: JobInfo, job: RawJob) {
    && info.name == job.name
    && info.jobId == LastSegment(job.id)
    && (info.passed <==> job.status == "SUCCESS")
  }

  /** `_get_job_info` with the report cache `cache`. */
  function BuildJobInfo(job: RawJob, findStatus: bool, cache: map<string, int>,
                        fetch: string -> Response): (b: JobBuild)
    ensures BuiltFrom(b.info, job)
    ensures !findStatus ==> b.info.status.None? && b.info.diffScreens.None? && b.cache == cache && b.requests == []
    ensures findStatus ==>
      var o := StatusFromLink(job, b.info.MasterDiffLink(), cache, fetch);
      && b.info.status == Some(o.status) && b.info.diffScreens == Some(o.diffScreens)
      && b.cache == o.cache && b.requests == (if o.fetched then [b.info.MasterDiffLink()] else [])
    ensures forall k | k in cache :: k in b.cache && b.cache[k] == cache[k]
  {
    var base := JobInfo(job.name, LastSegment(job.id), job.status == "SUCCESS", None, None);
    if findStatus then
      var link := base.MasterDiffLink();
      var o := StatusFromLink(job, link, cache, fetch);
      JobBuild(base.(status := Some(o.status), diffScreens := Some(o.diffScreens)), o.cache,
               if o.fetched then [link] else [])
    else
      JobBuild(base, cache, [])
  }

  /** A skipped "core click test" job with id ".../123" is not passed, "Skipped", 0 screens. */
  lemma SkippedJobExample(cache: map<string, int>, fetch: string -> Response)
    ensures BuildJobInfo(RawJob("gid://gitlab/Ci::Build/123", "core click test", "SKIPPED"), true, cache, fetch).info
         == JobInfo("core click test", "123", false, Some(StatusSkipped), Some(0))
  {
    LastSegmentExample();
  }

  // ---------------------------------------------------------------------------
  // get_latest_infos_for_branch
  // ---------------------------------------------------------------------------

  /** The dict being built by `dict(yield_key_value())`, the report cache and the requests so far. */
  datatype Collected = Collected(infos: map<string, JobInfo>, cache: map<string, int>, requests: seq<string>)

  /** Recording job `job` under its name, with the record `_get_job_info` builds for it. */
  function Record(job: RawJob, findStatus: bool, before: Collected, fetch: string -> Response): Collected {
    var b := BuildJobInfo(job, findStatus, before.cache, fetch);
    Collected(before.infos[job.name := b.info], b.cache, before.requests + b.requests)
  }

  /** One pass of the inner loop of `yield_key_value`: job `job` against the name `name`. */
  function CollectStep(job: RawJob, name: string, findStatus: bool, before: Collected,
                       fetch: string -> Response): Collected
  {
    if job.name == name then Record(job, findStatus, before, fetch) else before
  }

  /** The inner loop of `yield_key_value` for one job, over the names `names`. */
  function CollectForNames(job: RawJob, names: seq<string>, findStatus: bool, st: Collected,
                           fetch: string -> Response): Collected
  {
    if names == [] then st
    else CollectStep(job, names[|names| - 1], findStatus,
                     CollectForNames(job, names[..|names| - 1], findStatus, st, fetch), fetch)
  }

  /** `dict(yield_key_value())` over the jobs `jobs`: a later job of the same name wins. */
  function CollectJobs(jobs: seq<RawJob>, findStatus: bool, st: Collected,
                       fetch: string -> Response): Collected
  {
    if jobs == [] then st
    else CollectForNames(jobs[|jobs| - 1], JobsOfInterest(), findStatus,
                         CollectJobs(jobs[..|jobs| - 1], findStatus, st, fetch), fetch)
  }

  predicate Distinct(names: seq<string>) {
    forall i, j | 0 <= i < j < |names| :: names[i] != names[j]
  }

  /**
   * With distinct names the inner loop matches a job at most once: it builds the job's record
   * exactly when its name is among them, and otherwise changes nothing.
   */
  lemma {:induction false} SingleMatch(job: RawJob, names: seq<string>, findStatus: bool,
                                       st: Collected, fetch: string -> Response)
    requires Distinct(names)
    ensures CollectForNames(job, names, findStatus, st, fetch)
         == if job.name in names then Record(job, findStatus, st, fetch) else st
  {
    if names != [] {
      var init := names[..|names| - 1];
      var last := names[|names| - 1];
      assert names == init + [last];
      assert forall i | 0 <= i < |init| :: init[i] == names[i];
      SingleMatch(job, init, findStatus, st, fetch);
      if job.name == last {
        forall i | 0 <= i < |init| ensures init[i] != last {
          assert names[i] != names[|names| - 1];
        }
      }
    }
  }

  /** Every entry is keyed by its job's name, a job of interest. */
  ghost predicate KeyedByName(infos: map<string, JobInfo>) {
    forall k | k in infos :: infos[k].name == k && k in JobsOfInterest()
  }

  /** The report cache only grows: no entry is changed or removed. */
  ghost predicate Extends(before: map<string, int>, after: map<string, int>) {
    forall k | k in before :: k in after && after[k] == before[k]
  }

  /** Each entry of `c` either was in `st` or is built from a job of `jobs`. */
  ghost predicate EntriesFrom(st: Collected, c: Collected, jobs: seq<RawJob>) {
    forall k | k in c.infos ::
      (k in st.infos && c.infos[k] == st.infos[k]) || exists j | j in jobs :: BuiltFrom(c.infos[k], j)
  }

  /** Without `find_status` the report cache and the requests are left alone. */
  ghost predicate Untouched(findStatus: bool, st: Collected, c: Collected) {
    !findStatus ==> c.cache == st.cache && c.requests == st.requests
  }

  lemma RecordFacts(job: RawJob, findStatus: bool, st: Collected, fetch: string -> Response)
    requires job.name in JobsOfInterest() && KeyedByName(st.infos)
    ensures var c := Record(job, findStatus, st, fetch);
      && KeyedByName(c.infos)
      && c.infos.Keys == st.infos.Keys + {job.name}
      && EntriesFrom(st, c, [job])
      && Extends(st.cache, c.cache)
      && Untouched(findStatus, st, c)
  {
    var c := Record(job, findStatus, st, fetch);
    assert job in [job];
    assert BuiltFrom(c.infos[job.name], job);
  }

  lemma EntriesFromTrans(st: Collected, mid: Collected, c: Collected, jobs: seq<RawJob>, job: RawJob)
    requires EntriesFrom(st, mid, jobs) && EntriesFrom(mid, c, [job])
    ensures EntriesFrom(st, c, jobs + [job])
  {
    forall k | k in c.infos
      ensures (k in st.infos && c.infos[k] == st.infos[k])
           || exists j | j in jobs + [job] :: BuiltFrom(c.infos[k], j)
    {
      if k in mid.infos && c.infos[k] == mid.infos[k] {
        if !(k in st.infos && mid.infos[k] == st.infos[k]) {
          var j :| j in jobs && BuiltFrom(mid.infos[k], j);
          assert j in jobs + [job];
        }
      } else {
        var j :| j in [job] && BuiltFrom(c.infos[k], j);
        assert j in jobs + [job];
      }
    }
  }

  lemma EntriesFromGrow(st: Collected, c: Collected, jobs: seq<RawJob>, job: RawJob)
    requires EntriesFrom(st, c, jobs)
    ensures EntriesFrom(st, c, jobs + [job])
  {
    forall k | k in c.infos && !(k in st.infos && c.infos[k] == st.infos[k])
      ensures exists j | j in jobs + [job] :: BuiltFrom(c.infos[k], j)
    {
      var j :| j in jobs && BuiltFrom(c.infos[k], j);
      assert j in jobs + [job];
    }
  }

  /** The names of the jobs of interest among `jobs`. */
  ghost function InterestingNames(jobs: seq<RawJob>): set<string> {
    set j | j in jobs && j.name in JobsOfInterest() :: j.name
  }

  lemma InterestingNamesSnoc(jobs: seq<RawJob>, job: RawJob)
    ensures InterestingNames(jobs + [job])
         == InterestingNames(jobs) + (if job.name in JobsOfInterest() then {job.name} else {})
  {
    assert forall j | j in jobs + [job] :: j in jobs || j == job;
    assert forall j | j in jobs :: j in jobs + [job];
    assert job in jobs + [job];
  }

  /**
   * The dict `get_latest_infos_for_branch` returns holds one entry per job of interest that the
   * pipeline has, keyed by its name, built from a job of that name; the report cache only grows,
   * and without `find_status` it is neither changed nor consulted.
   */
  lemma {:induction false} CollectJobsFacts(jobs: seq<RawJob>, findStatus: bool, st: Collected,
                                            fetch: string -> Response)
    requires KeyedByName(st.infos)
    ensures var c := CollectJobs(jobs, findStatus, st, fetch);
      && KeyedByName(c.infos)
      && c.infos.Keys == st.infos.Keys + InterestingNames(jobs)
      && EntriesFrom(st, c, jobs)
      && Extends(st.cache, c.cache)
      && Untouched(findStatus, st, c)
  {
    if jobs != [] {
      var init := jobs[..|jobs| - 1];
      var last := jobs[|jobs| - 1];
      assert jobs == init + [last];
      CollectJobsFacts(init, findStatus, st, fetch);
      var mid := CollectJobs(init, findStatus, st, fetch);
      SingleMatch(last, JobsOfInterest(), findStatus, mid, fetch);
      InterestingNamesSnoc(init, last);
      if last.name in JobsOfInterest() {
        RecordFacts(last, findStatus, mid, fetch);
        EntriesFromTrans(st, mid, Record(last, findStatus, mid, fetch), init, last);
      } else {
        EntriesFromGrow(st, mid, init, last);
      }
    } else {
      assert InterestingNames(jobs) == {};
    }
  }

  // ---------------------------------------------------------------------------
  // The report cache
  // ---------------------------------------------------------------------------

  /**
   * `BRANCH_CACHE`: report URL to diff-screen count, with the file it is saved to and the
   * report URLs fetched so far.
   */
  class ReportCache {
    var counts: map<string, int>
    var saved: map<string, int>
    ghost var requests: seq<string>

    /** The file always holds what is in memory: every update rewrites it whole. */
    ghost predicate Valid()
      reads this
    {
      saved == counts
    }

    /** The cache as read from its file at start-up. */
    constructor (stored: map<string, int>)
      ensures Valid() && counts == stored && requests == []
    {
      counts := stored;
      saved := stored;
      requests := [];
    }

    /** `update_branch_cache`: sets one entry and rewrites the file. */
    method UpdateBranchCache(link: string, amount: int)
      requires Valid()
      modifies this`counts, this`saved
      ensures Valid()
      ensures counts == old(counts)[link := amount]
    {
      counts := counts[link := amount];
      saved := counts;
    }

    /** `get_status_from_link`. */
    method GetStatusFromLink(job: RawJob, link: string, fetch: string -> Response)
      returns (status: string, diffScreens: int)
      requires Valid()
      modifies this
      ensures Valid()
      ensures var o := StatusFromLink(job, link, old(counts), fetch);
        && status == o.status && diffScreens == o.diffScreens && counts == o.cache
        && requests == old(requests) + (if o.fetched then [link] else [])
    {
      if job.status == "SKIPPED" {
        return StatusSkipped, 0;
      }
      if link in counts {
        return StatusFinished, counts[link];
      }
      var res := fetch(link);
      requests := requests + [link];
      if res.statusCode == 200 {
        var n := DiffScreensFromText(res.body);
        UpdateBranchCache(link, n);
        return StatusFinished, n;
      } else {
        return StatusRunning, 0;
      }
    }

    /** `_get_job_info`: builds the record, then sets its status and diff count. */
    method GetJobInfo(job: RawJob, findStatus: bool, fetch: string -> Response) returns (info: JobInfo)
      requires Valid()
      modifies this
      ensures Valid()
      ensures var b := BuildJobInfo(job, findStatus, old(counts), fetch);
        info == b.info && counts == b.cache && requests == old(requests) + b.requests
    {
      var passed := job.status == "SUCCESS";
      var jobId := LastSegment(job.id);
      info := JobInfo(job.name, jobId, passed, None, None);
      var status: Option<string>, diffScreens: Option<int>;
      if findStatus {
        var s, d := GetStatusFromLink(job, info.MasterDiffLink(), fetch);
        status, diffScreens := Some(s), Some(d);
      } else {
        status, diffScreens := None, None;
      }
      info := info.(status := status, diffScreens := diffScreens);
    }

    /** One job of `yield_key_value`: recorded under its name when that is a job of interest. */
    method CollectJob(job: RawJob, findStatus: bool, fetch: string -> Response, infos0: map<string, JobInfo>)
      returns (infos: map<string, JobInfo>)
      requires Valid()
      modifies this
      ensures Valid()
      ensures Collected(infos, counts, requests)
           == CollectForNames(job, JobsOfInterest(), findStatus, Collected(infos0, old(counts), old(requests)), fetch)
    {
      var names := JobsOfInterest();
      infos := infos0;
      ghost var before := Collected(infos0, counts, requests);
      for n := 0 to |names|
        invariant Valid()
        invariant Collected(infos, counts, requests) == CollectForNames(job, names[..n], findStatus, before, fetch)
      {
        if job.name == names[n] {
          var info := GetJobInfo(job, findStatus, fetch);
          infos := infos[job.name := info];
        }
        assert names[..n + 1][..n] == names[..n];
      }
      assert names[..|names|] == names;
    }

    /** `dict(yield_key_value())`: the jobs of interest among `jobs`, keyed by name. */
    method YieldKeyValue(jobs: seq<RawJob>, findStatus: bool, fetch: string -> Response)
      returns (infos: map<string, JobInfo>)
      requires Valid()
      modifies this
      ensures Valid()
      ensures Collected(infos, counts, requests)
           == CollectJobs(jobs, findStatus, Collected(map[], old(counts), old(requests)), fetch)
    {
      infos := map[];
      ghost var start := Collected(map[], counts, requests);
      for i := 0 to |jobs|
        invariant Valid()
        invariant Collected(infos, counts, requests) == CollectJobs(jobs[..i], findStatus, start, fetch)
      {
        infos := CollectJob(jobs[i], findStatus, fetch, infos);
        assert jobs[..i + 1][..i] == jobs[..i];
      }
      assert jobs[..|jobs|] == jobs;
    }

    /**
     * `get_latest_infos_for_branch`: the pipeline link and the job infos of the branch's first
     * pipeline in the listing, or the search's error with the cache untouched.
     */
    method GetLatestInfosForBranch(branchName: string, findStatus: bool,
                                   firstPageCache: Option<seq<Pipeline>>, newest: seq<Pipeline>,
                                   cachedPage: int -> seq<Pipeline>, pipelineStages: int -> seq<Stage>,
                                   fetch: string -> Response)
      returns (r: Result<(string, map<string, JobInfo>)>)
      requires Valid()
      modifies this
      ensures Valid()
      ensures var found := FirstMatch(branchName, SearchedPages(firstPageCache, newest, cachedPage));
        if found.Failure? then
          r == Failure(found.error) && counts == old(counts) && requests == old(requests)
        else
          var c := CollectJobs(PipelineJobs(pipelineStages(found.value.iid)), findStatus,
                               Collected(map[], old(counts), old(requests)), fetch);
          && r == Success((PipelinesUrl + DecimalString(found.value.id), c.infos))
          && counts == c.cache && requests == c.requests
    {
      var branchObj := GetBranchObj(branchName, firstPageCache, newest, cachedPage);
      if branchObj.Failure? {
        return Failure(branchObj.error);
      }
      var pipelineIid := branchObj.value.iid;
      var pipelineId := branchObj.value.id;
      var pipelineLink := PipelinesUrl + DecimalString(pipelineId);
      var jobs := YieldPipelineJobs(pipelineStages(pipelineIid));
      var infos := YieldKeyValue(jobs, findStatus, fetch);
      r := Success((pipelineLink, infos));
    }
  }

  /**
   * Every key `get_latest_infos_for_branch` returns is a job of interest, each value is named
   * after its key and built from a job of the pipeline with that name, and exactly the jobs of
   * interest that the pipeline has are keys.
   */
  lemma LatestInfosKeyedByName(jobs: seq<RawJob>, findStatus: bool, cache: map<string, int>,
                               requests: seq<string>, fetch: string -> Response)
    ensures var c := CollectJobs(jobs, findStatus, Collected(map[], cache, requests), fetch);
      && (forall k | k in c.infos :: k in JobsOfInterest() && c.infos[k].name == k)
      && c.infos.Keys == InterestingNames(jobs)
      && (forall k | k in c.infos :: exists j | j in jobs :: BuiltFrom(c.infos[k], j))
      && Extends(cache, c.cache)
  {
    CollectJobsFacts(jobs, findStatus, Collected(map[], cache, requests), fetch);
  }
}
