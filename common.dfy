/**
 * The record types of the dashboard (common_all.py): a CI job's result (`JobInfo`),
 * a tracked pull-request branch (`BranchInfo`), the URLs derived from a job's name and id,
 * and the dict form both records take in the cache files.
 */
module Common {
  import opened Wrappers

  /** A JSON value, as the cache files hold them. */
  datatype Json =
    | JNull
    | JBool(b: bool)
    | JInt(i: int)
    | JStr(s: string)
    | JObj(fields: map<string, Json>)

  function OptStr(o: Option<string>): Json {
    match o
    case None => JNull
    case Some(s) => JStr(s)
  }

  function OptInt(o: Option<int>): Json {
    match o
    case None => JNull
    case Some(n) => JInt(n)
  }

  // ---------------------------------------------------------------------------
  // Strings and decimal numbers
  // ---------------------------------------------------------------------------

  /** Python's `s.endswith(suffix)`; `prefix <= s` is `s.startswith(prefix)`. */
  predicate EndsWith(s: string, suffix: string) {
    |suffix| <= |s| && s[|s| - |suffix|..] == suffix
  }

  predicate IsDigits(s: string) {
    forall i | 0 <= i < |s| :: '0' <= s[i] <= '9'
  }

  function DigitChar(d: nat): (c: char)
    requires d < 10
    ensures '0' <= c <= '9' && c as int - '0' as int == d
  {
    ('0' as int + d) as char
  }

  /** The decimal digits of `n`, without leading zeros. */
  function NatDigits(n: nat): (s: string)
    ensures |s| > 0 && IsDigits(s)
    ensures s[0] == '0' <==> n == 0
    ensures n == 0 ==> s == "0"
    decreases n
  {
    if n < 10 then [DigitChar(n)] else NatDigits(n / 10) + [DigitChar(n % 10)]
  }

  /** Python's `str(n)`, which every f-string of the code applies to its integers. */
  function DecimalString(n: int): (s: string)
    ensures IsDecimal(s)
    ensures s[0] == '-' <==> n < 0
    ensures s[0] == '0' <==> n == 0
    ensures n == 0 ==> s == "0"
    ensures n < 0 ==> s[1] != '0'
  {
    if n < 0 then "-" + NatDigits(-n) else NatDigits(n)
  }

  /** The strings `DecimalString` can produce: digits, or a minus sign followed by digits. */
  predicate IsDecimal(s: string) {
    (|s| > 0 && IsDigits(s)) || (|s| > 1 && s[0] == '-' && IsDigits(s[1..]))
  }

  /** The number a string of digits denotes, read from the left. */
  function DigitsValue(s: string): nat
    requires IsDigits(s)
  {
    if s == [] then 0 else DigitsValue(s[..|s| - 1]) * 10 + (s[|s| - 1] as int - '0' as int)
  }

  /** Python's `int(s)` on what `DecimalString` produces: the reference reading of it. */
  function ParseDecimal(s: string): int
    requires IsDecimal(s)
  {
    if |s| > 1 && s[0] == '-' && IsDigits(s[1..]) then -(DigitsValue(s[1..]) as int) else DigitsValue(s)
  }

  lemma {:induction false} DigitsValueOfNatDigits(n: nat)
    ensures DigitsValue(NatDigits(n)) == n
  {
    if n >= 10 {
      var s := NatDigits(n);
      assert s[..|s| - 1] == NatDigits(n / 10);
      DigitsValueOfNatDigits(n / 10);
    }
  }

  /** Formatting an integer loses nothing: it can be read back. */
  lemma DecimalStringRoundTrip(n: int)
    ensures ParseDecimal(DecimalString(n)) == n
  {
    if n < 0 {
      var s := DecimalString(n);
      assert s[1..] == NatDigits(-n);
      DigitsValueOfNatDigits(-n);
    } else {
      var s := NatDigits(n);
      DigitsValueOfNatDigits(n);
      assert !(s[0] == '-');
    }
  }

  // ---------------------------------------------------------------------------
  // JobInfo
  // ---------------------------------------------------------------------------

  const StatusSkipped := "Skipped"
  const StatusFinished := "Finished"
  const StatusRunning := "Running..."

  const GitLabJobsUrl := "https://gitlab.com/satoshilabs/trezor/trezor-firmware/-/jobs/"
  const ReportsJobsUrl := "https://satoshilabs.gitlab.io/-/trezor/trezor-firmware/-/jobs/"
  const UiReportFolder := "test_ui_report"
  const MasterDiffFolder := "master_diff"
  const MasterDiffPage := "/master_diff.html"

  /** `job_info_extra_properties`: the derived keys `to_dict` adds and `from_dict` strips. */
  const ExtraProperties: seq<string> := ["job_link", "reports_link", "master_diff_link"]
  /** The same keys as a set (see `ExtraKeysOfProperties`). */
  const ExtraKeys: set<string> := {"job_link", "reports_link", "master_diff_link"}
  /** `ExtraKeys` holds exactly the entries of `ExtraProperties`. */
  lemma ExtraKeysOfProperties()
    ensures (set j | 0 <= j < |ExtraProperties| :: ExtraProperties[j]) == ExtraKeys
  {
    assert ExtraProperties[0] == "job_link";
    assert ExtraProperties[1] == "reports_link";
    assert ExtraProperties[2] == "master_diff_link";
  }

  /** The dataclass fields of `JobInfo`. */
  const JobInfoKeys: set<string> := {"name", "job_id", "passed", "status", "diff_screens"}

  /**
   * The result of one CI job: `passed` defaults to false, `status` ("Skipped", "Finished",
   * "Running...") and `diffScreens` to None.
   */
  datatype JobInfo = JobInfo(
    name: string,
    jobId: string,
    passed: bool,
    status: Option<string>,
    diffScreens: Option<int>)
  {
    /** `_reports_base_url`: where the job's artifacts are served as pages. */
    function ReportsBaseUrl(): string {
      ReportsJobsUrl + (jobId + "/artifacts")
    }

    /** `_folder`: UI test jobs ("core ...") keep their report elsewhere than "unix ui changes". */
    function Folder(): (f: string)
      ensures f == UiReportFolder <==> "core" <= name
      ensures f == MasterDiffFolder <==> !("core" <= name)
    {
      if "core" <= name then UiReportFolder else MasterDiffFolder
    }

    /** `master_diff_link`: the HTML report whose red rows are counted; the report cache's key. */
    function MasterDiffLink(): string {
      ReportsBaseUrl() + ("/" + (Folder() + MasterDiffPage))
    }

    /** `job_link`: the job's page on GitLab. */
    function JobLink(): string {
      GitLabJobsUrl + jobId
    }

    /** `reports_link`: the browsable artifact folder of the job. */
    function ReportsLink(): string {
      JobLink() + ("/artifacts/browse/" + Folder())
    }

    /** `dataclasses.asdict(self)`. */
    function BaseFields(): (d: map<string, Json>)
      ensures d.Keys == JobInfoKeys
    {
      map["name" := JStr(name), "job_id" := JStr(jobId), "passed" := JBool(passed),
          "status" := OptStr(status), "diff_screens" := OptInt(diffScreens)]
    }

    /** `getattr(self, key)` for a derived key. */
    function Attribute(key: string): Json
      requires key in ExtraKeys
    {
      if key == "job_link" then JStr(JobLink())
      else if key == "reports_link" then JStr(ReportsLink())
      else JStr(MasterDiffLink())
    }

    /** `JobInfo.to_dict`: the fields plus the three derived links. */
    function ToDict(): (d: map<string, Json>)
      ensures d.Keys == JobInfoKeys + ExtraKeys
      ensures forall k | k in JobInfoKeys :: d[k] == BaseFields()[k]
      ensures d["job_link"] == JStr(JobLink())
      ensures d["reports_link"] == JStr(ReportsLink())
      ensures d["master_diff_link"] == JStr(MasterDiffLink())
    {
      BaseFields()["job_link" := JStr(JobLink())]["reports_link" := JStr(ReportsLink())]
        ["master_diff_link" := JStr(MasterDiffLink())]
    }
  }

  /** A job id that is a last path segment, as `_get_job_info` makes them. */
  predicate SlashFree(s: string) {
    forall i | 0 <= i < |s| :: s[i] != '/'
  }

  lemma CancelPrefix(p: string, x: string, y: string)
    requires p + x == p + y
    ensures x == y
  {
    assert x == (p + x)[|p|..];
    assert y == (p + y)[|p|..];
  }

  lemma CancelSuffix(x: string, y: string, q: string)
    requires x + q == y + q
    ensures x == y
  {
    assert x == (x + q)[..|x|];
    assert y == (y + q)[..|y|];
  }

  lemma Concat(a: string, b: string)
    ensures a <= a + b && EndsWith(a + b, b)
  {
    assert (a + b)[..|a|] == a;
    assert (a + b)[|a|..] == b;
  }

  lemma Assoc<T>(a: seq<T>, b: seq<T>, c: seq<T>)
    ensures (a + b) + c == a + (b + c)
  {
  }

  lemma EndsWithTrans(s: string, t: string, u: string)
    requires EndsWith(s, t) && EndsWith(t, u)
    ensures EndsWith(s, u)
  {
    assert s[|s| - |u|..] == s[|s| - |t|..][|t| - |u|..];
  }

  /**
   * The shapes of the derived links: the report page sits under the job's artifacts and ends
   * in "master_diff.html" under the job's folder; the browsable folder sits under the job page.
   */
  lemma LinkShapes(j: JobInfo)
    ensures ReportsJobsUrl <= j.ReportsBaseUrl() && EndsWith(j.ReportsBaseUrl(), j.jobId + "/artifacts")
    ensures j.ReportsBaseUrl() <= j.MasterDiffLink()
    ensures EndsWith(j.MasterDiffLink(), j.Folder() + MasterDiffPage)
    ensures GitLabJobsUrl <= j.JobLink() && EndsWith(j.JobLink(), j.jobId)
    ensures j.JobLink() <= j.ReportsLink() && EndsWith(j.ReportsLink(), "/artifacts/browse/" + j.Folder())
  {
    Concat(ReportsJobsUrl, j.jobId + "/artifacts");
    var tail := j.Folder() + MasterDiffPage;
    Concat(j.ReportsBaseUrl(), "/" + tail);
    Concat("/", tail);
    EndsWithTrans(j.MasterDiffLink(), "/" + tail, tail);
    Concat(GitLabJobsUrl, j.jobId);
    Concat(j.JobLink(), "/artifacts/browse/" + j.Folder());
  }

  /**
   * The report link determines the job id and the report folder, so two jobs with different
   * ids never share an entry of the report cache.
   */
  lemma MasterDiffLinkDeterminesJob(a: JobInfo, b: JobInfo)
    requires a.MasterDiffLink() == b.MasterDiffLink()
    ensures a.jobId == b.jobId && a.Folder() == b.Folder()
  {
    var link := a.MasterDiffLink();
    LinkShapes(a);
    LinkShapes(b);
    // The two folders end in different letters, and that letter sits just before the page name.
    LastBeforeSuffix(link, a.Folder(), MasterDiffPage);
    LastBeforeSuffix(link, b.Folder(), MasterDiffPage);
    assert a.Folder() == b.Folder();
    var tail := "/" + (a.Folder() + MasterDiffPage);
    Assoc(ReportsJobsUrl, a.jobId + "/artifacts", tail);
    Assoc(ReportsJobsUrl, b.jobId + "/artifacts", tail);
    CancelPrefix(ReportsJobsUrl, (a.jobId + "/artifacts") + tail, (b.jobId + "/artifacts") + tail);
    CancelSuffix(a.jobId + "/artifacts", b.jobId + "/artifacts", tail);
    CancelSuffix(a.jobId, b.jobId, "/artifacts");
  }

  lemma LastBeforeSuffix(s: string, x: string, p: string)
    requires |x| > 0 && EndsWith(s, x + p)
    ensures s[|s| - |p| - 1] == x[|x| - 1]
  {
    assert s[|s| - |p| - 1] == s[|s| - |x + p|..][|x| - 1];
  }

  lemma FolderExamples()
    ensures JobInfo("core device test", "1", false, None, None).Folder() == UiReportFolder
    ensures JobInfo("unix ui changes", "1", false, None, None).Folder() == MasterDiffFolder
  {
    assert !("core" <= "unix ui changes") by {
      assert "unix ui changes"[0] != "core"[0];
    }
  }

  // ---------------------------------------------------------------------------
  // Reading dicts back: the keyword-argument call of a dataclass constructor
  // ---------------------------------------------------------------------------

  function RequiredStr(m: map<string, Json>, key: string): (r: Result<string>)
    ensures r.Success? <==> key in m && m[key].JStr?
    ensures r.Success? ==> m[key] == JStr(r.value)
  {
    if key !in m then Failure(MissingArgument(key))
    else if m[key].JStr? then Success(m[key].s)
    else Failure(IllTyped(key))
  }

  function RequiredInt(m: map<string, Json>, key: string): (r: Result<int>)
    ensures r.Success? <==> key in m && m[key].JInt?
    ensures r.Success? ==> m[key] == JInt(r.value)
  {
    if key !in m then Failure(MissingArgument(key))
    else if m[key].JInt? then Success(m[key].i)
    else Failure(IllTyped(key))
  }

  /** The entries `.items()` lists: only a dict has them. */
  function Items(v: Json): (r: Result<map<string, Json>>)
    ensures r.Success? <==> v.JObj?
    ensures r.Success? ==> v == JObj(r.value)
    ensures r.Failure? ==> r.error == NotAMapping
  {
    if v.JObj? then Success(v.fields) else Failure(NotAMapping)
  }

  /** A keyword argument with a default: absent gives `default`. */
  function OptionalBool(m: map<string, Json>, key: string, default: bool): (r: Result<bool>)
    ensures key !in m ==> r == Success(default)
    ensures key in m ==> (r.Success? <==> m[key].JBool?)
    ensures key in m && r.Success? ==> m[key] == JBool(r.value)
  {
    if key !in m then Success(default)
    else if m[key].JBool? then Success(m[key].b)
    else Failure(IllTyped(key))
  }

  /** A keyword argument of type `str | None` defaulting to None. */
  function OptionalStr(m: map<string, Json>, key: string): (r: Result<Option<string>>)
    ensures key !in m ==> r == Success(None)
    ensures key in m ==> (r.Success? <==> m[key].JNull? || m[key].JStr?)
    ensures key in m && r.Success? ==> m[key] == OptStr(r.value)
  {
    if key !in m then Success(None)
    else if m[key].JNull? then Success(None)
    else if m[key].JStr? then Success(Some(m[key].s))
    else Failure(IllTyped(key))
  }

  /** A keyword argument of type `int | None` defaulting to None. */
  function OptionalInt(m: map<string, Json>, key: string): (r: Result<Option<int>>)
    ensures key !in m ==> r == Success(None)
    ensures key in m ==> (r.Success? <==> m[key].JNull? || m[key].JInt?)
    ensures key in m && r.Success? ==> m[key] == OptInt(r.value)
  {
    if key !in m then Success(None)
    else if m[key].JNull? then Success(None)
    else if m[key].JInt? then Success(Some(m[key].i))
    else Failure(IllTyped(key))
  }

  /**
   * The dict `m` holds the fields of `j`: name and id with their values, and every parameter
   * with a default either with its value or absent and at its default (False, None, None).
   */
  predicate HoldsJob(m: map<string, Json>, j: JobInfo) {
    && "name" in m && m["name"] == JStr(j.name)
    && "job_id" in m && m["job_id"] == JStr(j.jobId)
    && ("passed" in m ==> m["passed"] == JBool(j.passed))
    && ("passed" !in m ==> !j.passed)
    && ("status" in m ==> m["status"] == OptStr(j.status))
    && ("status" !in m ==> j.status == None)
    && ("diff_screens" in m ==> m["diff_screens"] == OptInt(j.diffScreens))
    && ("diff_screens" !in m ==> j.diffScreens == None)
  }

  /** `JobInfo(**data)`: unknown keys and a missing name or job id are rejected. */
  function JobInfoFromFields(m: map<string, Json>): (r: Result<JobInfo>)
    ensures !(m.Keys <= JobInfoKeys) ==> r == Failure(UnexpectedArgument)
    ensures m.Keys <= JobInfoKeys && "name" !in m ==> r == Failure(MissingArgument("name"))
    ensures m.Keys <= JobInfoKeys && "name" in m && m["name"].JStr? && "job_id" !in m
            ==> r == Failure(MissingArgument("job_id"))
    ensures r.Success? ==> m.Keys <= JobInfoKeys && "name" in m && "job_id" in m
    ensures r.Success? ==> forall k | k in m :: m[k] == r.value.BaseFields()[k]
    ensures r.Success? ==> HoldsJob(m, r.value)
  {
    if !(m.Keys <= JobInfoKeys) then Failure(UnexpectedArgument)
    else
      var name :- RequiredStr(m, "name");
      var jobId :- RequiredStr(m, "job_id");
      var passed :- OptionalBool(m, "passed", false);
      var status :- OptionalStr(m, "status");
      var diffScreens :- OptionalInt(m, "diff_screens");
      Success(JobInfo(name, jobId, passed, status, diffScreens))
  }

  /** What `JobInfo.from_dict` builds from a dict: the record of its non-derived keys. */
  function JobInfoOfDict(m: map<string, Json>): Result<JobInfo> {
    JobInfoFromFields(m - ExtraKeys)
  }

  /**
   * A dict with no unknown key that holds the fields of `j` gives `j`; with the success clauses
   * of `JobInfoFromFields` this is an if-and-only-if.
   */
  lemma DecodeJobFields(m: map<string, Json>, j: JobInfo)
    requires m.Keys <= JobInfoKeys && HoldsJob(m, j)
    ensures JobInfoFromFields(m) == Success(j)
  {
    assert RequiredStr(m, "name") == Success(j.name);
    assert RequiredStr(m, "job_id") == Success(j.jobId);
    assert OptionalBool(m, "passed", false) == Success(j.passed);
    assert OptionalStr(m, "status") == Success(j.status);
    assert OptionalInt(m, "diff_screens") == Success(j.diffScreens);
  }

  /** A `JobInfo` built from name and id alone takes the dataclass defaults. */
  lemma JobInfoDefaults(name: string, jobId: string)
    ensures JobInfoFromFields(map["name" := JStr(name), "job_id" := JStr(jobId)])
         == Success(JobInfo(name, jobId, false, None, None))
  {
  }

  /** Dropping the derived keys from `to_dict`'s result leaves `asdict`'s. */
  lemma ToDictWithoutExtras(j: JobInfo)
    ensures j.ToDict() - ExtraKeys == j.BaseFields()
  {
  }

  /** The keyword-argument call rebuilds a record from its own `asdict`. */
  lemma BaseFieldsRoundTrip(j: JobInfo)
    ensures JobInfoFromFields(j.BaseFields()) == Success(j)
  {
  }

  /** `JobInfo.from_dict(j.to_dict())` rebuilds `j`. */
  lemma JobInfoRoundTrip(j: JobInfo)
    ensures JobInfoOfDict(j.ToDict()) == Success(j)
  {
    ToDictWithoutExtras(j);
    BaseFieldsRoundTrip(j);
  }

  /** `asdict(j)` with the first `n` derived keys added. */
  function WithExtras(j: JobInfo, n: nat): map<string, Json>
    requires n <= |ExtraProperties|
  {
    if n == 0 then j.BaseFields()
    else WithExtras(j, n - 1)[ExtraProperties[n - 1] := j.Attribute(ExtraProperties[n - 1])]
  }

  /** With all three derived keys added, the dict is `to_dict`'s. */
  lemma AllExtras(j: JobInfo)
    ensures WithExtras(j, |ExtraProperties|) == j.ToDict()
  {
    var base := j.BaseFields();
    assert WithExtras(j, 1) == base["job_link" := JStr(j.JobLink())];
    assert WithExtras(j, 2) == base["job_link" := JStr(j.JobLink())]["reports_link" := JStr(j.ReportsLink())];
  }

  /** `JobInfo.to_dict` as written: `asdict`, then each derived key added in turn. */
  method JobInfoToDict(j: JobInfo) returns (res: map<string, Json>)
    ensures res == j.ToDict()
  {
    res := j.BaseFields();
    for i := 0 to |ExtraProperties|
      invariant res == WithExtras(j, i)
    {
      var extra := ExtraProperties[i];
      res := res[extra := j.Attribute(extra)];
    }
    AllExtras(j);
  }

  /** A dict object that a callee may change in place. */
  class Dict {
    var entries: map<string, Json>

    constructor (entries: map<string, Json>)
      ensures this.entries == entries
    {
      this.entries := entries;
    }
  }

  /**
   * `JobInfo.from_dict`: deletes the derived keys from the caller's dict, in place, then
   * builds the record from what is left.
   */
  method JobInfoFromDict(data: Dict) returns (r: Result<JobInfo>)
    modifies data
    ensures data.entries == old(data.entries) - ExtraKeys
    ensures r == JobInfoFromFields(data.entries)
  {
    for i := 0 to |ExtraProperties|
      invariant data.entries == old(data.entries) - (set j | 0 <= j < i :: ExtraProperties[j])
    {
      var extra := ExtraProperties[i];
      if extra in data.entries {
        data.entries := data.entries - {extra};
      }
    }
    ExtraKeysOfProperties();
    r := JobInfoFromFields(data.entries);
  }

  // ---------------------------------------------------------------------------
  // BranchInfo
  // ---------------------------------------------------------------------------

  /**
   * A value of `BranchInfo.job_infos`: a `JobInfo`, or the dict `to_dict` put in its place.
   */
  datatype JobSlot = Info(job: JobInfo) | Fields(dict: map<string, Json>)
  {
    /** The per-entry conversion of `BranchInfo.to_dict` (dicts are kept as they are). */
    function ToDict(): (d: map<string, Json>)
      ensures Info? ==> d == job.ToDict()
      ensures Fields? ==> d == dict
    {
      match this
      case Info(j) => j.ToDict()
      case Fields(f) => f
    }
  }

  const BranchInfoKeys: set<string> :=
    {"name", "branch_link", "pull_request_number", "pull_request_name", "pull_request_link",
     "last_commit_sha", "last_commit_timestamp", "last_commit_datetime", "job_infos",
     "pipeline_link"}

  /** A pull-request branch and the latest results of its jobs of interest. */
  datatype BranchInfo = BranchInfo(
    name: string,
    branchLink: string,
    pullRequestNumber: int,
    pullRequestName: string,
    pullRequestLink: string,
    lastCommitSha: string,
    lastCommitTimestamp: int,
    lastCommitDatetime: string,
    jobInfos: map<string, JobSlot>,
    pipelineLink: Option<string>)
  {
    /** Every job entry is a `JobInfo`, as the type annotation of `job_infos` says. */
    predicate AllTyped() {
      forall k | k in jobInfos :: jobInfos[k].Info?
    }

    /** The record as `to_dict` leaves it: each job entry replaced by its dict. */
    function AfterToDict(): (b: BranchInfo)
      ensures b.jobInfos.Keys == jobInfos.Keys
      ensures forall k | k in b.jobInfos :: b.jobInfos[k] == Fields(jobInfos[k].ToDict())
      ensures b == this.(jobInfos := b.jobInfos)
    {
      this.(jobInfos := map k | k in jobInfos :: Fields(jobInfos[k].ToDict()))
    }

    /** The `job_infos` part of `to_dict`'s result. */
    function JobDicts(): (d: map<string, Json>)
      ensures d.Keys == jobInfos.Keys
      ensures forall k | k in d :: d[k] == JObj(jobInfos[k].ToDict())
    {
      map k | k in jobInfos :: JObj(jobInfos[k].ToDict())
    }

    /** The dict `to_dict` returns: `asdict` of the record with its job entries as dicts. */
    function ToDict(): (d: Json)
      ensures d.JObj? && d.fields.Keys == BranchInfoKeys
    {
      JObj(map[
        "name" := JStr(name),
        "branch_link" := JStr(branchLink),
        "pull_request_number" := JInt(pullRequestNumber),
        "pull_request_name" := JStr(pullRequestName),
        "pull_request_link" := JStr(pullRequestLink),
        "last_commit_sha" := JStr(lastCommitSha),
        "last_commit_timestamp" := JInt(lastCommitTimestamp),
        "last_commit_datetime" := JStr(lastCommitDatetime),
        "job_infos" := JObj(JobDicts()),
        "pipeline_link" := OptStr(pipelineLink)])
    }
  }

  /** Every entry is a dict that `JobInfo.from_dict` accepts. */
  predicate JobDictsDecodable(m: map<string, Json>) {
    forall k | k in m :: m[k].JObj? && JobInfoOfDict(m[k].fields).Success?
  }

  /** The comprehension of `BranchInfo.from_dict`: every entry through `JobInfo.from_dict`. */
  function JobInfosFromDicts(m: map<string, Json>): (r: Result<map<string, JobSlot>>)
    ensures r.Success? <==> JobDictsDecodable(m)
    ensures r.Success? ==> r.value.Keys == m.Keys
    ensures r.Success? ==> forall k | k in m :: r.value[k] == Info(JobInfoOfDict(m[k].fields).value)
  {
    if JobDictsDecodable(m) then
      Success(map k | k in m :: Info(JobInfoOfDict(m[k].fields).value))
    else
      Failure(InvalidEntry)
  }

  /** The parameters of `BranchInfo` without a default, in declaration order. */
  const BranchRequiredFields: seq<string> :=
    ["name", "branch_link", "pull_request_number", "pull_request_name", "pull_request_link",
     "last_commit_sha", "last_commit_timestamp", "last_commit_datetime", "job_infos"]

  /** The first of `fields` that `m` lacks, as the keyword call reports it. */
  function FirstMissing(fields: seq<string>, m: map<string, Json>): (k: Option<string>)
    ensures k.None? <==> forall i | 0 <= i < |fields| :: fields[i] in m
    ensures k.Some? ==> k.value in fields && k.value !in m
  {
    if fields == [] then None
    else if fields[0] !in m then Some(fields[0])
    else FirstMissing(fields[1..], m)
  }

  /**
   * The dict `m` holds the fields of `b`: every parameter without a default with its value, the
   * job entries as dicts that decode to `b`'s, and `pipeline_link` as None when it is absent.
   */
  predicate HoldsBranch(m: map<string, Json>, b: BranchInfo) {
    && "name" in m && m["name"] == JStr(b.name)
    && "branch_link" in m && m["branch_link"] == JStr(b.branchLink)
    && "pull_request_number" in m && m["pull_request_number"] == JInt(b.pullRequestNumber)
    && "pull_request_name" in m && m["pull_request_name"] == JStr(b.pullRequestName)
    && "pull_request_link" in m && m["pull_request_link"] == JStr(b.pullRequestLink)
    && "last_commit_sha" in m && m["last_commit_sha"] == JStr(b.lastCommitSha)
    && "last_commit_timestamp" in m && m["last_commit_timestamp"] == JInt(b.lastCommitTimestamp)
    && "last_commit_datetime" in m && m["last_commit_datetime"] == JStr(b.lastCommitDatetime)
    && "job_infos" in m && m["job_infos"].JObj?
    && JobInfosFromDicts(m["job_infos"].fields) == Success(b.jobInfos)
    && ("pipeline_link" in m ==> m["pipeline_link"] == OptStr(b.pipelineLink))
    && ("pipeline_link" !in m ==> b.pipelineLink == None)
  }

  /**
   * `BranchInfo.from_dict`: the keyword-argument call, which rejects unknown keys and then
   * missing ones, then every job entry of `job_infos.items()` made a `JobInfo`.
   */
  function BranchInfoFromDict(data: Json): (r: Result<BranchInfo>)
    ensures r.Success? ==> r.value.AllTyped()
    ensures !data.JObj? ==> r == Failure(NotAMapping)
    ensures data.JObj? && !(data.fields.Keys <= BranchInfoKeys) ==> r == Failure(UnexpectedArgument)
    ensures data.JObj? && data.fields.Keys <= BranchInfoKeys && "name" !in data.fields
            ==> r == Failure(MissingArgument("name"))
    ensures data.JObj? && data.fields.Keys <= BranchInfoKeys
            && (exists i | 0 <= i < |BranchRequiredFields| :: BranchRequiredFields[i] !in data.fields)
            ==> r.Failure? && r.error.MissingArgument? && r.error.argument in BranchRequiredFields
                && r.error.argument !in data.fields
    ensures data.JObj? && data.fields.Keys <= BranchInfoKeys
            && (forall i | 0 <= i < |BranchRequiredFields| :: BranchRequiredFields[i] in data.fields)
            && "job_infos" in data.fields && !data.fields["job_infos"].JObj?
            ==> r == Failure(NotAMapping)
    ensures r.Success? ==> data.JObj? && data.fields.Keys <= BranchInfoKeys
    ensures r.Success? ==> HoldsBranch(data.fields, r.value)
  {
    if !data.JObj? then Failure(NotAMapping)
    else if !(data.fields.Keys <= BranchInfoKeys) then Failure(UnexpectedArgument)
    else
      var m := data.fields;
      match FirstMissing(BranchRequiredFields, m)
      case Some(k) => Failure(MissingArgument(k))
      case None =>
        assert BranchRequiredFields[8] in m;
        var jobDicts :- Items(m["job_infos"]);
        var name :- RequiredStr(m, "name");
        var branchLink :- RequiredStr(m, "branch_link");
        var number :- RequiredInt(m, "pull_request_number");
        var title :- RequiredStr(m, "pull_request_name");
        var pullLink :- RequiredStr(m, "pull_request_link");
        var sha :- RequiredStr(m, "last_commit_sha");
        var timestamp :- RequiredInt(m, "last_commit_timestamp");
        var datetime :- RequiredStr(m, "last_commit_datetime");
        var jobInfos :- JobInfosFromDicts(jobDicts);
        var pipelineLink :- OptionalStr(m, "pipeline_link");
        Success(BranchInfo(name, branchLink, number, title, pullLink, sha, timestamp, datetime,
                           jobInfos, pipelineLink))
  }

  /** Calling `to_dict` a second time changes nothing and returns the same dict. */
  lemma ToDictIdempotent(b: BranchInfo)
    ensures b.AfterToDict().AfterToDict() == b.AfterToDict()
    ensures b.AfterToDict().ToDict() == b.ToDict()
  {
    RewriteIdempotent(b);
    RewriteKeepsDict(b);
  }

  lemma RewriteIdempotent(b: BranchInfo)
    ensures b.AfterToDict().AfterToDict() == b.AfterToDict()
  {
    var c := b.AfterToDict();
    assert c.AfterToDict().jobInfos == c.jobInfos;
  }

  lemma RewriteKeepsJobDicts(b: BranchInfo)
    ensures b.AfterToDict().JobDicts() == b.JobDicts()
  {
    var c := b.AfterToDict();
    forall k | k in b.jobInfos ensures c.JobDicts()[k] == b.JobDicts()[k] {
      var f := b.jobInfos[k].ToDict();
      assert c.jobInfos[k] == Fields(f);
    }
    SameMap(c.JobDicts(), b.JobDicts());
  }

  /** Maps with the same keys and the same entries are equal. */
  lemma SameMap<K, V>(m: map<K, V>, n: map<K, V>)
    requires m.Keys == n.Keys
    requires forall k | k in m :: m[k] == n[k]
    ensures m == n
  {
  }

  lemma RewriteKeepsDict(b: BranchInfo)
    ensures b.AfterToDict().ToDict() == b.ToDict()
  {
    RewriteKeepsJobDicts(b);
    var c := b.AfterToDict();
    assert c == b.(jobInfos := c.jobInfos);
  }

  /** The fields of the dict `to_dict` returns, one by one. */
  lemma BranchInfoDictFields(b: BranchInfo)
    ensures var m := b.ToDict().fields;
      && m["name"] == JStr(b.name)
      && m["branch_link"] == JStr(b.branchLink)
      && m["pull_request_number"] == JInt(b.pullRequestNumber)
      && m["pull_request_name"] == JStr(b.pullRequestName)
      && m["pull_request_link"] == JStr(b.pullRequestLink)
      && m["last_commit_sha"] == JStr(b.lastCommitSha)
      && m["last_commit_timestamp"] == JInt(b.lastCommitTimestamp)
      && m["last_commit_datetime"] == JStr(b.lastCommitDatetime)
      && m["job_infos"] == JObj(b.JobDicts())
      && m["pipeline_link"] == OptStr(b.pipelineLink)
  {
  }

  /** Each job entry of a record whose entries are all `JobInfo`s decodes to that `JobInfo`. */
  lemma JobDictsDecode(b: BranchInfo)
    requires b.AllTyped()
    ensures forall k | k in b.JobDicts() ::
      b.JobDicts()[k].JObj? && JobInfoOfDict(b.JobDicts()[k].fields) == Success(b.jobInfos[k].job)
  {
    var d := b.JobDicts();
    forall k | k in d
      ensures d[k].JObj? && JobInfoOfDict(d[k].fields) == Success(b.jobInfos[k].job)
    {
      var j := b.jobInfos[k].job;
      assert d[k] == JObj(j.ToDict());
      JobInfoRoundTrip(j);
    }
  }

  /** The job entries of a record whose entries are all `JobInfo`s read back unchanged. */
  lemma JobDictsRoundTrip(b: BranchInfo)
    requires b.AllTyped()
    ensures JobInfosFromDicts(b.JobDicts()) == Success(b.jobInfos)
  {
    var d := b.JobDicts();
    JobDictsDecode(b);
    var r := JobInfosFromDicts(d);
    assert r.Success?;
    forall k | k in d
      ensures r.value[k] == b.jobInfos[k]
    {
      assert r.value[k] == Info(JobInfoOfDict(d[k].fields).value);
      assert b.jobInfos[k] == Info(b.jobInfos[k].job);
    }
    SameMap(r.value, b.jobInfos);
  }

  /**
   * A dict with no unknown key that holds the fields of `b` decodes to `b`; with the success
   * clauses of `BranchInfoFromDict` this is an if-and-only-if.
   */
  lemma DecodeBranchFields(m: map<string, Json>, b: BranchInfo)
    requires m.Keys <= BranchInfoKeys && HoldsBranch(m, b)
    ensures BranchInfoFromDict(JObj(m)) == Success(b)
  {
    assert FirstMissing(BranchRequiredFields, m) == None;
    assert RequiredStr(m, "name") == Success(b.name);
    assert RequiredStr(m, "branch_link") == Success(b.branchLink);
    assert RequiredInt(m, "pull_request_number") == Success(b.pullRequestNumber);
    assert RequiredStr(m, "pull_request_name") == Success(b.pullRequestName);
    assert RequiredStr(m, "pull_request_link") == Success(b.pullRequestLink);
    assert RequiredStr(m, "last_commit_sha") == Success(b.lastCommitSha);
    assert RequiredInt(m, "last_commit_timestamp") == Success(b.lastCommitTimestamp);
    assert RequiredStr(m, "last_commit_datetime") == Success(b.lastCommitDatetime);
    assert Items(m["job_infos"]) == Success(m["job_infos"].fields);
    assert OptionalStr(m, "pipeline_link") == Success(b.pipelineLink);
  }

  /** `BranchInfo.from_dict(b.to_dict())` rebuilds `b`, every job entry a `JobInfo` again. */
  lemma BranchInfoRoundTrip(b: BranchInfo)
    requires b.AllTyped()
    ensures BranchInfoFromDict(b.ToDict()) == Success(b)
  {
    BranchInfoDictFields(b);
    JobDictsRoundTrip(b);
    DecodeBranchFields(b.ToDict().fields, b);
  }

  /** The same after the first call has rewritten the record: what was saved reloads as before. */
  lemma BranchInfoRoundTripAfterToDict(b: BranchInfo)
    requires b.AllTyped()
    ensures BranchInfoFromDict(b.AfterToDict().ToDict()) == Success(b)
  {
    ToDictIdempotent(b);
    BranchInfoRoundTrip(b);
  }

  /** A `BranchInfo` object: its `to_dict` rewrites its own `job_infos`. */
  class BranchRecord {
    var info: BranchInfo

    constructor (info: BranchInfo)
      ensures this.info == info
    {
      this.info := info;
    }

    /**
     * `BranchInfo.to_dict`: replaces each job entry by its dict, then returns `asdict(self)`;
     * the dict is the one the record stood for before, and a second call changes nothing.
     */
    method ToDict() returns (d: Json)
      modifies this
      ensures info == old(info).AfterToDict()
      ensures d == old(info).ToDict()
      ensures info.AfterToDict() == info
    {
      var rewritten := map k | k in info.jobInfos :: Fields(info.jobInfos[k].ToDict());
      info := info.(jobInfos := rewritten);
      RewriteKeepsDict(old(info));
      RewriteIdempotent(old(info));
      d := info.ToDict();
    }
  }
}
