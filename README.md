# UI tests dashboard core, in Dafny

This project models the decision and data-shaping logic of a dashboard that polls CI results for
the open pull requests of a firmware repository. The model is written in Dafny and the verifier
checks it. It covers three parts.

* **GitLab** (`gitlab.dfy`, module `GitLab`):
  * the bounded search of pipeline pages 1–10 for a branch's pipeline;
  * flattening a pipeline's stage → group → job tree;
  * the five jobs of interest;
  * counting the red diff rows of an HTML report;
  * the three-way status decision (skipped, cached count, fetched report), which writes into the report cache `BRANCH_CACHE` (report URL → diff count);
  * building a `JobInfo` from a raw job;
  * `get_latest_infos_for_branch`, which puts these together.

  `BRANCH_CACHE` and its file copy are the fields of the class `ReportCache`.
* **GitHub** (`github.dfy`, module `GitHub`):
  * the rule that skips an open pull request whose cached results are for its head commit and are all final, or that comes from a fork (`master`);
  * the fresh `BranchInfo` yielded for every other pull request;
  * `load_branches_cache`;
  * the merge-and-save of `update_cache`.

  The branch cache `CACHE` and the stored "branches" object are the fields of the class `BranchCache`.
* **Records** (`common.dfy`, module `Common`):
  * `JobInfo` and `BranchInfo` with their derived links;
  * their `to_dict` / `from_dict` conversions.

  JSON values are a small datatype `Json` whose objects are string-keyed maps.

`wrappers.dfy` holds `Option`, `Result` (used with `:-`) and `Error`. Most `Error` constructors stand for one Python exception (`NotFound` for `ValueError`, `MissingArgument` and `UnexpectedArgument` for `TypeError`, `KeyError`, `NoAttribute` for `AttributeError`). `NotAMapping` stands for the `TypeError` of `**` or the `AttributeError` of `.items()` on a value that is no dict. `InvalidEntry` is a failure inside a nested entry. `IllTyped` has no Python counterpart: it is the model's rejection of a value whose JSON type the field's annotation excludes.

Everything outside the program becomes a parameter:

* the pull-request listing;
* the newest pipeline page and the per-page lookup `int -> seq<Pipeline>`;
* the pipeline tree lookup `int -> seq<Stage>`;
* the report fetch `string -> Response`, where a `Response` is a status code and a body;
* the commit-timestamp lookup and the date formatter;
* the parsed contents of the cache files.

A ghost `requests` log in `ReportCache` records which report URLs were fetched.

Each loop of the source is a method with a loop, proved against a pure function. Most of these functions recurse on the prefix of the input. `JobInfoFromDict` is proved against a set difference and the keyword call `JobInfoFromFields`. `StillRunningOf` is proved against the predicate `StillRunning`. The properties are proved about the functions:

* `GetBranchObj` against `FirstMatch` over `SearchedPages`;
* `YieldPipelineJobs` against `PipelineJobs`;
* `YieldKeyValue` / `CollectJob` against `CollectJobs` / `CollectForNames`;
* `RecentlyUpdatedBranches` / `RefreshOne` against `RefreshedOrFails`, `Refreshed` and `Yielded`;
* `JobInfoFromDict` against `JobInfoFromFields`;
* `JobInfoToDict` against `JobInfo.ToDict`.

State changes are methods with `modifies`, tied to the same functions:

* `ReportCache.UpdateBranchCache`, `GetStatusFromLink`, `GetJobInfo` and `GetLatestInfosForBranch`;
* `BranchCache.UpdateCache`;
* `BranchRecord.ToDict`, which rewrites a record's own `job_infos`.

Two behaviours of the code that are easy to misread:

* `get_diff_screens_from_text` uses `str.count`, which counts **non-overlapping** occurrences scanned left to right. `CountNonOverlapping` models exactly that. `CountIsOccurrences` proves it equals the number of start positions, because the marker's first character does not occur again in it.
* `JobInfo.to_dict` followed by `JobInfo.from_dict` rebuilds the record only because `from_dict` strips the three derived keys first. Otherwise `JobInfo(**data)` rejects them as unexpected keywords.

## Model

| member | source | states |
|---|---|---|
| GitLab.SearchedPages | gitlab.py:41-50 | exactly ten pages; page 1 is `first_page_cache` when given and non-empty, otherwise the newest page; page p, for 2 ≤ p ≤ 10, is the cached lookup of p |
| GitLab.FindInPage | gitlab.py:52-54 | a record found on a page is on it and has the branch's ref name; when none is found, no record of the page has it |
| GitLab.FirstMatch | gitlab.py:41-55 | the record found has the branch's ref name; a failure is `NotFound(name)` |
| GitLab.FindInPageIsFirst | gitlab.py:52-54 | a page yields a record iff some record has the branch's ref name, and the one returned is the first such |
| GitLab.FirstMatchIsFirst | gitlab.py:41-55 | the search succeeds iff some record on the searched pages has the name; a failure is `NotFound(name)`, the `ValueError`; on success the record has the name and no earlier page or earlier record on its page has it |
| GitLab.GetBranchObj | gitlab.py:37-55 | the page loop with its early return gives `FirstMatch` over the ten searched pages, and nothing beyond page 10 |
| GitLab.YieldPipelineJobs | gitlab.py:103-111 | the three nested loops yield `PipelineJobs`: the jobs of every group of every stage, in order |
| GitLab.GroupJobsMembers | gitlab.py:108-111 | a job is yielded for a list of groups iff it belongs to one of them |
| GitLab.PipelineJobsMembers | gitlab.py:103-111 | a job is yielded iff it belongs to some group of some stage |
| GitLab.JobsOfInterest | gitlab.py:93-100 | five distinct names; the first four start with "core"; the fifth is "unix ui changes" |
| GitLab.CountNonOverlapping | gitlab.py:116 | `str.count` by definition: a match at the front counts 1 and skips the marker, otherwise one character is skipped; `CountIsOccurrences` relates it to `Occurrences` |
| GitLab.CountIsOccurrences | gitlab.py:114-116 | the non-overlapping left-to-right count equals the number of positions where the marker starts, when the marker's first character does not recur in it |
| GitLab.DiffMarkerFirstCharUnique | gitlab.py:115 | `bgcolor="red"` meets that condition |
| GitLab.DiffScreensFromText | gitlab.py:114-116 | the diff count is the number of occurrences of `bgcolor="red"` in the text |
| GitLab.NoDiffScreens | gitlab.py:114-116 | the count is 0 iff the marker occurs nowhere in the text |
| GitLab.ThreeRedRows | gitlab.py:114-116 | three markers separated by filler without a 'b' count 3 |
| GitLab.StatusFromLink | gitlab.py:119-133 | the status is one of "Skipped", "Finished" and "Running..."; old cache entries are kept; at most the link is added; "Finished" means the link is cached with the returned count; any other status leaves the cache unchanged with count 0; a fetch happens iff the job is not skipped and the link is not cached |
| GitLab.SkippedStatus | gitlab.py:120-121 | a skipped job gives ("Skipped", 0) whatever the cache holds, with the cache unchanged and no fetch |
| GitLab.CachedStatus | gitlab.py:123-124 | a cached link gives ("Finished", cache[link]) with no fetch and the cache unchanged |
| GitLab.FetchedStatus | gitlab.py:126-133 | a 200 response gives ("Finished", n) with n the marker count of the body, and the cache gains link ↦ n; any other status gives ("Running...", 0) and leaves the cache unchanged |
| GitLab.StatusIsFinal | gitlab.py:119-133 | once the answer is not "Running...", asking again gives the same answer without a fetch, whatever the server would say |
| GitLab.ThreeRedRowsFetched | gitlab.py:126-131 | a 200 report with three red rows gives ("Finished", 3) and caches 3 |
| GitLab.LastSegment | gitlab.py:138 | `split("/")[-1]`: a slash-free suffix of the id, preceded by '/' unless it is the whole id |
| GitLab.LastSegmentUnique | gitlab.py:138 | any slash-free suffix preceded by '/' or spanning the whole id is that segment |
| GitLab.LastSegmentExample | gitlab.py:138 | "gid://gitlab/Ci::Build/123" gives "123" |
| GitLab.BuildJobInfo | gitlab.py:136-154 | name kept; `job_id` is the last segment of `id`; `passed` iff the status is "SUCCESS"; without `find_status`, status and diff count are None and no cache use; with it, they are the status decision for the record's `master_diff_link` |
| GitLab.SkippedJobExample | gitlab.py:136-154 | a skipped "core click test" job with id ".../123" gives id "123", not passed, "Skipped", 0 |
| GitLab.CollectForNames | gitlab.py:168-170 | the inner loop by definition: for each name in order, the job is recorded under its name when the names match; `SingleMatch` states its effect |
| GitLab.CollectJobs | gitlab.py:166-172 | `dict(yield_key_value())` by definition: the inner loop for each job in order; `CollectJobsFacts` states its keys and entries |
| GitLab.SingleMatch | gitlab.py:168-170 | with distinct names the inner loop records a job iff its name is among them, and otherwise changes nothing |
| GitLab.RecordFacts | gitlab.py:170 | recording a job of interest adds exactly its name as a key, built from that job, and only extends the report cache |
| GitLab.CollectJobsFacts | gitlab.py:166-172 | the collected dict's keys are the initial ones plus the names of interest present among the jobs; every entry is named after its key and built from a job; the report cache only grows and is untouched without `find_status` |
| GitLab.LatestInfosKeyedByName | gitlab.py:157-172 | every returned key is a job of interest and each value's name is its key; exactly the jobs of interest present are keys; each value is built from a job of the pipeline; cache entries are never changed |
| GitLab.ReportCache.constructor | gitlab.py:17-20 | the cache starts as the stored file contents, file and memory equal |
| GitLab.ReportCache.UpdateBranchCache | gitlab.py:23-25 | sets one entry, leaves the others alone, and rewrites the file copy to match |
| GitLab.ReportCache.GetStatusFromLink | gitlab.py:119-133 | returns `StatusFromLink`'s status and count, leaves the cache as it says, and logs a fetch exactly when one happens |
| GitLab.ReportCache.GetJobInfo | gitlab.py:136-154 | builds the record, then sets its status and count, as `BuildJobInfo` states |
| GitLab.ReportCache.CollectJob | gitlab.py:168-170 | the inner loop over the jobs of interest equals `CollectForNames` |
| GitLab.ReportCache.YieldKeyValue | gitlab.py:166-172 | `dict(yield_key_value())` equals `CollectJobs`, a later job of the same name winning |
| GitLab.ReportCache.GetLatestInfosForBranch | gitlab.py:157-172 | a branch with no pipeline found gives the `NotFound` error and leaves the cache untouched; otherwise gives the pipeline link built from the pipeline id, and the collected infos of its jobs |
| GitHub.NewBranchInfo | github.py:98-118 | name is the head ref; sha, number, title, timestamp and date are taken over; no job infos and no pipeline link; the PR link ends in "/pull/{number}" and the branch link in "/tree/{name}" |
| GitHub.LinksDetermineRequest | github.py:102-106 | the number and the head ref can be read back off the two links |
| GitHub.ShouldSkip | github.py:82-96 | the skip rule by definition: the cached record is for the head commit and no job of it is "Running...", or the head ref is "master" |
| GitHub.Fresh | github.py:98-118 | the record yielded for a pull request, with the commit timestamp looked up and formatted; `NewBranchInfo` states its fields |
| GitHub.Yielded | github.py:81-118 | one pass by definition: nothing when skipped, else the fresh record |
| GitHub.Refreshed | github.py:75-118 | the generator without its failure, by definition: the passes over the listing in order; `RefreshedMembers`, `RefreshedLength` and `RefreshedAppend` state its properties |
| GitHub.RefreshedOrFails | github.py:75-118 | the whole generator by definition: `AttributeError` at the first pull request whose scan reads `.status` on a dict, else the passes in order; `RefreshedOrFailsFails` and `RefreshedOrFailsYields` relate it to `Refreshed` |
| GitHub.RefreshedOrFailsFails | github.py:82-91 | the run fails, with `AttributeError` on `status`, iff some pull request's cached record at the same commit holds a job entry that is a dict |
| GitHub.RefreshedOrFailsYields | github.py:75-118 | when the run does not fail it yields `Refreshed` |
| GitHub.RefreshedSingle | github.py:81-118 | one pull request gives nothing when skipped, else its fresh record |
| GitHub.RefreshedAppend | github.py:76 | the listing is processed in order: the yield of a concatenation is the concatenation of the yields |
| GitHub.RefreshedLength | github.py:76-118 | at most one branch per pull request |
| GitHub.RefreshedMembers | github.py:75-118 | a branch is yielded iff it is the fresh record of a pull request of the listing that is not skipped |
| GitHub.RefreshedNeverSkipped | github.py:82-96 | no yielded branch is "master" or up to date in the cache, and each has no jobs and no pipeline link |
| GitHub.RunningIsRefreshed | github.py:85-91 | a cached branch with a job still "Running..." is refreshed even at an unchanged commit |
| GitHub.LoadBranchDicts | github.py:29-30 | succeeds iff every stored entry decodes; keeps exactly the stored keys, each mapped through `BranchInfo.from_dict` |
| GitHub.LoadBranchesCache | github.py:24-30 | a file without "branches" gives `KeyError`; it succeeds iff "branches" is an object whose entries all decode; every loaded job entry is a `JobInfo` |
| GitHub.Saved | github.py:39-41 | the stored "branches" object by definition: every record's `to_dict`; `SavedReloads` states that it loads back |
| GitHub.Rewritten | github.py:39 | the records as `to_dict` leaves them, by definition; `SavedRewritten` states that saving them again writes the same object |
| GitHub.LoadedNeverCrashes | github.py:82-88 | a cache as loaded never makes the skip scan fail |
| GitHub.RewrittenCrashes | github.py:37-88 | after `update_cache` has rewritten a record with job results to dicts, scanning it again at the same commit fails |
| GitHub.SavedReloads | github.py:28-47 | what `update_cache` saves loads back as the cache it saved |
| GitHub.SavedRewritten | github.py:39 | saving again after the records were rewritten writes the same object |
| GitHub.MergeOverrides | github.py:38 | `CACHE.update(d)`: keys are the old ones plus those of `d`; entries of `d` win; other entries are kept |
| GitHub.BranchCache.constructor | github.py:50-53 | `CACHE` is the loaded "branches" object, and all its job entries are `JobInfo`s |
| GitHub.BranchCache.StillRunningOf | github.py:85-88 | the `still_running` flag is set iff some cached job is "Running..."; it fails with `AttributeError` iff some entry is a dict |
| GitHub.BranchCache.RefreshOne | github.py:77-118 | one pass of the loop: the scan's error, nothing for a skipped pull request, or its fresh record |
| GitHub.BranchCache.RecentlyUpdatedBranches | github.py:75-118 | the loop with its `continue`s gives `RefreshedOrFails` over the listing |
| GitHub.BranchCache.UpdateCache | github.py:37-47 | the cache becomes the merge rewritten by `to_dict`, and the stored object is the merge's dicts |
| Common.DecimalStringRoundTrip | github.py:104 | the decimal text of an integer, as an f-string formats it, parses back to the integer |
| Common.DecimalString | github.py:104 | the decimal text of an integer, as an f-string writes it: digits, led by a '-' exactly when the integer is negative; 0 is written "0" and the first digit of any other integer is not '0', so there is no "-0" and no leading zero |
| Common.JobInfo.Folder | common_all.py:72-78 | "test_ui_report" iff the name starts with "core", else "master_diff" |
| Common.FolderExamples | common_all.py:72-78 | "core device test" gives test_ui_report; "unix ui changes" gives master_diff |
| Common.JobInfo.ReportsBaseUrl | common_all.py:68-70 | `_reports_base_url` by definition: the reports jobs URL, the id, then "/artifacts"; `LinkShapes` states its shape |
| Common.JobInfo.MasterDiffLink | common_all.py:80-82 | `master_diff_link` by definition: the base URL, "/", the folder, then "/master_diff.html"; `LinkShapes` and `MasterDiffLinkDeterminesJob` state its properties |
| Common.JobInfo.JobLink | common_all.py:84-86 | `job_link` by definition: the GitLab jobs URL, then the id |
| Common.JobInfo.ReportsLink | common_all.py:88-90 | `reports_link` by definition: the job link, "/artifacts/browse/", then the folder |
| Common.LinkShapes | common_all.py:68-90 | the reports base URL starts with the reports jobs URL and ends with the id followed by "/artifacts"; `master_diff_link` extends it and ends with the folder and "/master_diff.html"; `job_link` is the jobs URL and the id; `reports_link` extends it and ends with "/artifacts/browse/" and the folder |
| Common.MasterDiffLinkDeterminesJob | common_all.py:68-82 | two jobs with the same `master_diff_link` have the same id and folder, whatever characters the ids hold |
| Common.JobInfo.BaseFields | common_all.py:47-53 | `asdict` has exactly the five dataclass fields |
| Common.JobInfo.ToDict | common_all.py:44-66 | the five fields with their values plus `job_link`, `reports_link` and `master_diff_link` with the derived links |
| Common.JobInfoToDict | common_all.py:62-66 | the loop adding each derived key to `asdict` gives `ToDict` |
| Common.JobInfoFromFields | common_all.py:47-60 | unexpected keys give `UnexpectedArgument`; a missing name, or a string name and a missing id, give `MissingArgument` for that key; on success the keys are fields, name and id are present, each given field is the record's, and an absent `passed`, `status` or `diff_screens` takes its default False, None or None |
| Common.JobInfoOfDict | common_all.py:55-60 | `JobInfo.from_dict` as a function: the keyword call on the dict without its derived keys; `JobInfoRoundTrip` states the round trip |
| Common.DecodeJobFields | common_all.py:47-53 | a dict without unknown keys that holds the record's name, id and either the value or the default of each other field gives the record: the converse of `JobInfoFromFields`'s success clauses |
| Common.JobInfoDefaults | common_all.py:50-53 | name and id alone give passed False, status None and no diff count |
| Common.ToDictWithoutExtras | common_all.py:55-66 | stripping the derived keys from `to_dict` leaves `asdict` |
| Common.BaseFieldsRoundTrip | common_all.py:47-60 | the keyword call on `asdict` rebuilds the record |
| Common.JobInfoRoundTrip | common_all.py:55-66 | `JobInfo.from_dict(j.to_dict())` rebuilds `j` |
| Common.JobInfoFromDict | common_all.py:55-60 | deletes exactly the three derived keys from the caller's dict in place, then builds from what is left |
| Common.JobSlot.ToDict | common_all.py:38 | a `JobInfo` entry becomes its `to_dict`; a dict entry is kept |
| Common.BranchInfo.AfterToDict | common_all.py:35-40 | same keys, every job entry replaced by its dict, all other fields unchanged |
| Common.BranchInfo.JobDicts | common_all.py:35-41 | the `job_infos` object has the record's keys, each entry's dict |
| Common.BranchInfo.ToDict | common_all.py:35-41 | the dict has exactly the ten dataclass fields |
| Common.BranchInfoDictFields | common_all.py:35-41 | each field of that dict holds the record's value; `job_infos` holds the entries' dicts |
| Common.JobInfosFromDicts | common_all.py:29-32 | succeeds iff every entry is a dict `JobInfo.from_dict` accepts; same keys; each entry decoded |
| Common.BranchInfoFromDict | common_all.py:24-33 | a non-object gives `NotAMapping`; unexpected keys give `UnexpectedArgument`; otherwise a missing parameter without a default gives `MissingArgument` naming one that is absent ("name" when that is absent); with all of them present, a `job_infos` that is no dict gives `NotAMapping`, the `AttributeError` of `.items()`; on success every job entry is a `JobInfo`, the keys are fields, each field holds the value under its key, the job entries are the decoded dicts, and an absent `pipeline_link` is None |
| Common.RewriteIdempotent | common_all.py:35-40 | a second `to_dict` leaves `job_infos` as the first left it (the `isinstance` check) |
| Common.RewriteKeepsJobDicts | common_all.py:38-41 | the rewritten entries give the same `job_infos` object |
| Common.RewriteKeepsDict | common_all.py:35-41 | the rewritten record gives the same dict |
| Common.ToDictIdempotent | common_all.py:35-41 | calling `to_dict` twice leaves the record as once and returns the same dict |
| Common.JobDictsDecode | common_all.py:29-38 | each job entry's dict decodes to that entry's `JobInfo` |
| Common.JobDictsRoundTrip | common_all.py:29-38 | decoding the `job_infos` object gives the record's entries back |
| Common.DecodeBranchFields | common_all.py:24-33 | a dict without unknown keys that holds the record's values decodes to the record: the converse of `BranchInfoFromDict`'s success clauses |
| Common.BranchInfoRoundTrip | common_all.py:24-41 | `BranchInfo.from_dict(b.to_dict())` rebuilds `b` when its job entries are `JobInfo`s |
| Common.BranchInfoRoundTripAfterToDict | common_all.py:24-41 | the same holds for the dict of a record that `to_dict` has already rewritten |
| Common.BranchRecord.ToDict | common_all.py:35-41 | rewrites the object's `job_infos` to dicts in place, returns the dict of the record as it was, and a second call changes nothing |

## Left out

- HTTP: `requests.get`/`post`, the GraphQL query text, `raise_for_status` and the token headers are left out. Pages, the pipeline tree, report fetches and pull-request listings are parameters.
- `@lru_cache` on the page fetch is left out. It only avoids refetching, so the per-page lookup is a fixed function.
- File I/O and JSON text are left out: `read_text`/`write_text`, `json.loads`/`dumps`. Each cache file is a map, and writing it is an assignment to a field.
- Creating a missing cache file at import is left out (gitlab.py:18-19, github.py:51-52). The model's `BranchCache` constructor requires a loadable file; on a fresh `"{}"` file the source fails with `KeyError`, which `LoadBranchesCache` states.
- Dates and times are left out: `get_commit_ts`, `fromisoformat`, `timestamp()`, `strftime`, and the metadata block that `update_cache` writes. The commit timestamp and the date text are opaque parameters, and the stored metadata is not modelled.
- `print` output and `get_logger` are left out; they only print or log.
- `load_metadata_cache` is left out: it returns the "metadata" block of the cache file (and raises `KeyError` without one), which is not part of the modelled core, and nothing modelled calls it.
- `cli.py` is not part of this model. It is command plumbing, and it imports `get_all_gh_pull_branches`, which `github.py` does not define.
- The `job_info.job_results = job_info.get_job_results()` line (gitlab.py:144) is left out. `JobInfo` defines no such method, so the line would raise `AttributeError`.
- Python's types are not enforced at run time, but the decoders here reject a value whose JSON type the field annotation excludes (`IllTyped`, `InvalidEntry`). Which of several errors is raised first is not modelled for that reason.
- JobInfoFromFields: its contract names the errors for unexpected keys, a missing name and a missing id. The remaining failures are the model-only `IllTyped` rejections, which the decoders' contracts state.
- The yield of the pull-request generator before it fails is left out: `RecentlyUpdatedBranches` returns only the error, although a consumer would already have seen the branches yielded before the failing pull request.
- Aliasing of `BranchInfo` objects is left out. `CACHE` holds records as values, so `update_cache`'s in-place rewrite of a record also held by the caller is not visible to the caller. `BranchRecord` models the rewrite for one object.
- `JobInfo.from_dict` also deletes the derived keys, in place, from the nested `job_infos` dicts of the object that `load_branches_cache` decodes. That object is thrown away afterwards, so nothing can observe the deletion, and `JobInfosFromDicts` does not model it.
- `BranchInfo.from_dict` first calls `BranchInfo(**data)` and then reassigns `self.job_infos` on the fresh object. It is modelled as one function, because no other reference to that object exists in between.
- The JSON key order of the dicts produced is left out; maps are unordered.
- The branch name filter is left out; no such code is among the modelled files.
