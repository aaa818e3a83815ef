/**
 * The GitHub side of the dashboard (github.py): deciding which open pull requests need their
 * UI test results refreshed, building a fresh `BranchInfo` for each of them, and the branch
 * cache that is loaded from and saved to the cache file.
 */
module GitHub {
  import opened Wrappers
  import opened Common

  const PullBase := "https://github.com/trezor/trezor-firmware/pull/"
  const TreeBase := "https://github.com/trezor/trezor-firmware/tree/"
  /** The head ref of pull requests coming from forks, which have no UI tests. */
  const ForkRef := "master"

  /** An entry of the pull-request listing: `head.sha`, `head.ref`, `number` and `title`. */
  datatype PullRequest = PullRequest(headSha: string, headRef: string, number: int, title: string)

  // ---------------------------------------------------------------------------
  // The skip rule of yield_recently_updated_gh_pr_branches
  // ---------------------------------------------------------------------------

  predicate RunningSlot(slot: JobSlot) {
    slot.Info? && slot.job.status == Some(StatusRunning)
  }

  /** Some job of the cached branch is still "Running...". */
  predicate StillRunning(b: BranchInfo) {
    exists k | k in b.jobInfos :: RunningSlot(b.jobInfos[k])
  }

  /** Nothing to refresh: the cached results are for this commit and all of them are final. */
  predicate UpToDate(pr: PullRequest, cache: map<string, BranchInfo>) {
    pr.headRef in cache && cache[pr.headRef].lastCommitSha == pr.headSha && !StillRunning(cache[pr.headRef])
  }

  /** The cached record of the pull request's branch is for its head commit, so its jobs are scanned. */
  predicate Inspected(pr: PullRequest, cache: map<string, BranchInfo>) {
    pr.headRef in cache && cache[pr.headRef].lastCommitSha == pr.headSha
  }

  /** The scan reads `.status` on a job entry that is still a dict: `AttributeError`. */
  predicate Crashes(pr: PullRequest, cache: map<string, BranchInfo>) {
    Inspected(pr, cache) && !cache[pr.headRef].AllTyped()
  }

  /** A pull request is skipped when it is up to date or comes from a fork. */
  predicate ShouldSkip(pr: PullRequest, cache: map<string, BranchInfo>) {
    UpToDate(pr, cache) || pr.headRef == ForkRef
  }

  /** The record yielded for a pull request: links from the head ref and the number, no jobs yet. */
  function NewBranchInfo(pr: PullRequest, timestamp: int, datetime: string): (b: BranchInfo)
    ensures b.name == pr.headRef && b.lastCommitSha == pr.headSha
    ensures b.pullRequestNumber == pr.number && b.pullRequestName == pr.title
    ensures b.lastCommitTimestamp == timestamp && b.lastCommitDatetime == datetime
    ensures b.jobInfos == map[] && b.pipelineLink == None
    ensures EndsWith(b.pullRequestLink, "/pull/" + DecimalString(pr.number))
    ensures EndsWith(b.branchLink, "/tree/" + pr.headRef)
    ensures b.AllTyped() && !StillRunning(b)
  {
    var b := BranchInfo(
      name := pr.headRef,
      branchLink := TreeBase + pr.headRef,
      pullRequestNumber := pr.number,
      pullRequestName := pr.title,
      pullRequestLink := PullBase + DecimalString(pr.number),
      lastCommitSha := pr.headSha,
      lastCommitTimestamp := timestamp,
      lastCommitDatetime := datetime,
      jobInfos := map[],
      pipelineLink := None);
    assert TreeBase == "https://github.com/trezor/trezor-firmware" + "/tree/";
    assert b.branchLink == "https://github.com/trezor/trezor-firmware" + ("/tree/" + pr.headRef);
    assert PullBase == "https://github.com/trezor/trezor-firmware" + "/pull/";
    assert b.pullRequestLink == "https://github.com/trezor/trezor-firmware" + ("/pull/" + DecimalString(pr.number));
    b
  }

  /** The links carry the pull request back: its number and its branch read off them. */
  lemma LinksDetermineRequest(pr: PullRequest, timestamp: int, datetime: string)
    ensures var b := NewBranchInfo(pr, timestamp, datetime);
      && b.pullRequestLink[..|PullBase|] == PullBase
      && ParseDecimal(b.pullRequestLink[|PullBase|..]) == pr.number
      && b.branchLink[..|TreeBase|] == TreeBase
      && b.branchLink[|TreeBase|..] == pr.headRef
  {
    var b := NewBranchInfo(pr, timestamp, datetime);
    assert b.pullRequestLink[|PullBase|..] == DecimalString(pr.number);
    DecimalStringRoundTrip(pr.number);
  }

  /** The record yielded for `pr` when it is not skipped. */
  function Fresh(pr: PullRequest, commitTimestamp: string -> int, formatDatetime: int -> string): BranchInfo {
    NewBranchInfo(pr, commitTimestamp(pr.headSha), formatDatetime(commitTimestamp(pr.headSha)))
  }

  /** What one pull request contributes: nothing when skipped, else its fresh record. */
  function Yielded(pr: PullRequest, cache: map<string, BranchInfo>,
                   commitTimestamp: string -> int, formatDatetime: int -> string): seq<BranchInfo> {
    if ShouldSkip(pr, cache) then [] else [Fresh(pr, commitTimestamp, formatDatetime)]
  }

  /**
   * The branches `yield_recently_updated_gh_pr_branches` yields for the listing `prs` against
   * the cache `cache`; `commitTimestamp` stands for `get_commit_ts` and `formatDatetime` for the
   * local-time formatting of a timestamp.
   */
  function Refreshed(prs: seq<PullRequest>, cache: map<string, BranchInfo>,
                     commitTimestamp: string -> int, formatDatetime: int -> string): seq<BranchInfo>
  {
    if prs == [] then []
    else
      var pr := prs[|prs| - 1];
      Refreshed(prs[..|prs| - 1], cache, commitTimestamp, formatDatetime)
      + Yielded(pr, cache, commitTimestamp, formatDatetime)
  }

  /**
   * The whole run of the generator: `Refreshed`, unless scanning the cached record of some pull
   * request of the listing fails.
   */
  function RefreshedOrFails(prs: seq<PullRequest>, cache: map<string, BranchInfo>,
                            commitTimestamp: string -> int, formatDatetime: int -> string)
    : Result<seq<BranchInfo>>
  {
    if prs == [] then Success([])
    else
      var before :- RefreshedOrFails(prs[..|prs| - 1], cache, commitTimestamp, formatDatetime);
      var pr := prs[|prs| - 1];
      if Crashes(pr, cache) then Failure(NoAttribute("status"))
      else Success(before + Yielded(pr, cache, commitTimestamp, formatDatetime))
  }

  /** The generator fails exactly when the scan of some pull request's cached record does. */
  lemma {:induction false} RefreshedOrFailsFails(prs: seq<PullRequest>, cache: map<string, BranchInfo>,
                                                 commitTimestamp: string -> int, formatDatetime: int -> string)
    ensures var r := RefreshedOrFails(prs, cache, commitTimestamp, formatDatetime);
      && (r.Failure? <==> exists i | 0 <= i < |prs| :: Crashes(prs[i], cache))
      && (r.Failure? ==> r.error == NoAttribute("status"))
  {
    if prs != [] {
      var init := prs[..|prs| - 1];
      var pr := prs[|prs| - 1];
      RefreshedOrFailsFails(init, cache, commitTimestamp, formatDatetime);
      if RefreshedOrFails(init, cache, commitTimestamp, formatDatetime).Failure? {
        var i :| 0 <= i < |init| && Crashes(init[i], cache);
        assert init[i] == prs[i];
      } else if !Crashes(pr, cache) {
        forall i | 0 <= i < |prs| ensures !Crashes(prs[i], cache) {
          if i < |init| {
            assert init[i] == prs[i];
          }
        }
      }
    }
  }

  /** When it does not fail, the generator yields `Refreshed`. */
  lemma {:induction false} RefreshedOrFailsYields(prs: seq<PullRequest>, cache: map<string, BranchInfo>,
                                                  commitTimestamp: string -> int, formatDatetime: int -> string)
    ensures var r := RefreshedOrFails(prs, cache, commitTimestamp, formatDatetime);
      r.Success? ==> r.value == Refreshed(prs, cache, commitTimestamp, formatDatetime)
  {
    if prs != [] {
      RefreshedOrFailsYields(prs[..|prs| - 1], cache, commitTimestamp, formatDatetime);
    }
  }

  /** One pull request on its own: yielded exactly when it is not skipped. */
  lemma RefreshedSingle(pr: PullRequest, cache: map<string, BranchInfo>,
                        commitTimestamp: string -> int, formatDatetime: int -> string)
    ensures Refreshed([pr], cache, commitTimestamp, formatDatetime)
         == if ShouldSkip(pr, cache) then [] else [Fresh(pr, commitTimestamp, formatDatetime)]
  {
    assert [pr][..0] == [];
  }

  lemma RefreshedSnoc(prs: seq<PullRequest>, pr: PullRequest, cache: map<string, BranchInfo>,
                      commitTimestamp: string -> int, formatDatetime: int -> string)
    ensures Refreshed(prs + [pr], cache, commitTimestamp, formatDatetime)
         == Refreshed(prs, cache, commitTimestamp, formatDatetime) + Yielded(pr, cache, commitTimestamp, formatDatetime)
  {
    assert (prs + [pr])[..|prs|] == prs;
  }

  /** The listing is processed in order: the branches of a concatenation are concatenated. */
  lemma {:induction false} RefreshedAppend(prs: seq<PullRequest>, more: seq<PullRequest>,
                                           cache: map<string, BranchInfo>,
                                           commitTimestamp: string -> int, formatDatetime: int -> string)
    ensures Refreshed(prs + more, cache, commitTimestamp, formatDatetime)
         == Refreshed(prs, cache, commitTimestamp, formatDatetime)
            + Refreshed(more, cache, commitTimestamp, formatDatetime)
    decreases |more|
  {
    if more == [] {
      assert prs + more == prs;
    } else {
      var init := more[..|more| - 1];
      var last := more[|more| - 1];
      assert more == init + [last];
      assert prs + more == (prs + init) + [last];
      RefreshedAppend(prs, init, cache, commitTimestamp, formatDatetime);
      RefreshedSnoc(prs + init, last, cache, commitTimestamp, formatDatetime);
      RefreshedSnoc(init, last, cache, commitTimestamp, formatDatetime);
      Assoc(Refreshed(prs, cache, commitTimestamp, formatDatetime),
               Refreshed(init, cache, commitTimestamp, formatDatetime),
               Yielded(last, cache, commitTimestamp, formatDatetime));
    }
  }

  /** At most one branch per pull request. */
  lemma {:induction false} RefreshedLength(prs: seq<PullRequest>, cache: map<string, BranchInfo>,
                                           commitTimestamp: string -> int, formatDatetime: int -> string)
    ensures |Refreshed(prs, cache, commitTimestamp, formatDatetime)| <= |prs|
  {
    if prs != [] {
      RefreshedLength(prs[..|prs| - 1], cache, commitTimestamp, formatDatetime);
    }
  }

  /**
   * A branch is yielded exactly when it is the fresh record of a pull request of the listing
   * that is not skipped; in particular never for a fork and never for an up-to-date branch.
   */
  lemma {:induction false} RefreshedMembers(prs: seq<PullRequest>, cache: map<string, BranchInfo>,
                                            commitTimestamp: string -> int, formatDatetime: int -> string,
                                            b: BranchInfo)
    ensures b in Refreshed(prs, cache, commitTimestamp, formatDatetime) <==>
      exists pr | pr in prs :: !ShouldSkip(pr, cache) && b == Fresh(pr, commitTimestamp, formatDatetime)
  {
    if prs != [] {
      var init := prs[..|prs| - 1];
      var last := prs[|prs| - 1];
      assert prs == init + [last];
      RefreshedMembers(init, cache, commitTimestamp, formatDatetime, b);
      RefreshedSnoc(init, last, cache, commitTimestamp, formatDatetime);
      assert forall pr | pr in prs :: pr in init || pr == last;
      assert forall pr | pr in init :: pr in prs;
    }
  }

  /** No yielded branch is a fork's or an up-to-date one, and each starts without job results. */
  lemma RefreshedNeverSkipped(prs: seq<PullRequest>, cache: map<string, BranchInfo>,
                              commitTimestamp: string -> int, formatDatetime: int -> string)
    ensures forall b | b in Refreshed(prs, cache, commitTimestamp, formatDatetime) ::
      && b.name != ForkRef
      && !(b.name in cache && cache[b.name].lastCommitSha == b.lastCommitSha && !StillRunning(cache[b.name]))
      && b.jobInfos == map[] && b.pipelineLink == None
  {
    forall b | b in Refreshed(prs, cache, commitTimestamp, formatDatetime)
      ensures && b.name != ForkRef
              && !(b.name in cache && cache[b.name].lastCommitSha == b.lastCommitSha && !StillRunning(cache[b.name]))
              && b.jobInfos == map[] && b.pipelineLink == None
    {
      RefreshedMembers(prs, cache, commitTimestamp, formatDatetime, b);
    }
  }

  /** A branch with a job still "Running..." is refreshed even though its commit is unchanged. */
  lemma RunningIsRefreshed(pr: PullRequest, cache: map<string, BranchInfo>,
                           commitTimestamp: string -> int, formatDatetime: int -> string)
    requires pr.headRef in cache && pr.headRef != ForkRef
    requires StillRunning(cache[pr.headRef])
    ensures Refreshed([pr], cache, commitTimestamp, formatDatetime) == [Fresh(pr, commitTimestamp, formatDatetime)]
  {
    RefreshedSingle(pr, cache, commitTimestamp, formatDatetime);
  }

  // ---------------------------------------------------------------------------
  // load_branches_cache and the stored form of the cache
  // ---------------------------------------------------------------------------

  /** Every stored entry is a dict that `BranchInfo.from_dict` accepts. */
  predicate BranchDictsDecodable(stored: map<string, Json>) {
    forall k | k in stored :: BranchInfoFromDict(stored[k]).Success?
  }

  /** The comprehension of `load_branches_cache` over the stored "branches" object. */
  function LoadBranchDicts(stored: map<string, Json>): (r: Result<map<string, BranchInfo>>)
    ensures r.Success? <==> BranchDictsDecodable(stored)
    ensures r.Success? ==> r.value.Keys == stored.Keys
    ensures r.Success? ==> forall k | k in stored :: BranchInfoFromDict(stored[k]) == Success(r.value[k])
  {
    if BranchDictsDecodable(stored) then
      Success(map k | k in stored :: BranchInfoFromDict(stored[k]).value)
    else
      Failure(InvalidEntry)
  }

  /** `load_branches_cache` on the parsed cache file `file`. */
  function LoadBranchesCache(file: map<string, Json>): (r: Result<map<string, BranchInfo>>)
    ensures "branches" !in file ==> r == Failure(KeyError("branches"))
    ensures r.Success? <==>
      ("branches" in file && file["branches"].JObj? && BranchDictsDecodable(file["branches"].fields))
    ensures r.Success? ==> r == LoadBranchDicts(file["branches"].fields)
    ensures r.Success? ==> forall k | k in r.value :: r.value[k].AllTyped()
  {
    if "branches" !in file then Failure(KeyError("branches"))
    else if !file["branches"].JObj? then Failure(NotAMapping)
    else LoadBranchDicts(file["branches"].fields)
  }

  /** The "branches" object `update_cache` writes for the cache `m`. */
  function Saved(m: map<string, BranchInfo>): map<string, Json> {
    map k | k in m :: m[k].ToDict()
  }

  /** The cache after `update_cache` has called `to_dict` on each of its records. */
  function Rewritten(m: map<string, BranchInfo>): map<string, BranchInfo> {
    map k | k in m :: m[k].AfterToDict()
  }

  predicate AllTypedBranches(m: map<string, BranchInfo>) {
    forall k | k in m :: m[k].AllTyped()
  }

  /** What `update_cache` saves reads back, through `load_branches_cache`, as the cache it saved. */
  lemma SavedReloads(m: map<string, BranchInfo>)
    requires AllTypedBranches(m)
    ensures LoadBranchDicts(Saved(m)) == Success(m)
  {
    var s := Saved(m);
    forall k | k in s ensures BranchInfoFromDict(s[k]) == Success(m[k]) {
      BranchInfoRoundTrip(m[k]);
    }
    var r := LoadBranchDicts(s);
    forall k | k in m ensures r.value[k] == m[k] {
      assert BranchInfoFromDict(s[k]) == Success(r.value[k]);
    }
    SameMap(r.value, m);
  }

  /**
   * Saving again after `update_cache` has rewritten the records writes the same object: the
   * rewrite only affects the in-memory copies.
   */
  lemma SavedRewritten(m: map<string, BranchInfo>)
    ensures Saved(Rewritten(m)) == Saved(m)
  {
    var r := Rewritten(m);
    forall k | k in m ensures Saved(r)[k] == Saved(m)[k] {
      RewriteKeepsDict(m[k]);
    }
    SameMap(Saved(r), Saved(m));
  }

  /** A cache as loaded holds only `JobInfo` entries, so no pull request makes the scan fail. */
  lemma LoadedNeverCrashes(prs: seq<PullRequest>, cache: map<string, BranchInfo>)
    requires AllTypedBranches(cache)
    ensures forall i | 0 <= i < |prs| :: !Crashes(prs[i], cache)
  {
  }

  /**
   * After `update_cache` the cached records hold dicts: a later scan of a branch with any job
   * results, at the same commit, fails.
   */
  lemma RewrittenCrashes(m: map<string, BranchInfo>, pr: PullRequest)
    requires pr.headRef in m && m[pr.headRef].lastCommitSha == pr.headSha && m[pr.headRef].jobInfos != map[]
    ensures Crashes(pr, Rewritten(m))
  {
    var k :| k in m[pr.headRef].jobInfos;
    assert Rewritten(m)[pr.headRef].jobInfos[k].Fields?;
  }

  /** `CACHE.update(d)`: entries of `d` replace or join those of the cache, nothing is removed. */
  lemma MergeOverrides(cache: map<string, BranchInfo>, d: map<string, BranchInfo>)
    ensures (cache + d).Keys == cache.Keys + d.Keys
    ensures forall k | k in d :: (cache + d)[k] == d[k]
    ensures forall k | k in cache && k !in d :: (cache + d)[k] == cache[k]
  {
  }

  // ---------------------------------------------------------------------------
  // CACHE
  // ---------------------------------------------------------------------------

  /** `CACHE`, branch name to record, with the "branches" object of the cache file. */
  class BranchCache {
    var branches: map<string, BranchInfo>
    var stored: map<string, Json>

    /** Every cached job entry is a `JobInfo`, as after loading. */
    predicate Typed()
      reads this
    {
      AllTypedBranches(branches)
    }

    /** The module-level `CACHE = load_branches_cache()`. */
    constructor (file: map<string, Json>)
      requires LoadBranchesCache(file).Success?
      ensures branches == LoadBranchesCache(file).value && stored == file["branches"].fields
      ensures Typed()
    {
      branches := LoadBranchesCache(file).value;
      stored := file["branches"].fields;
    }

    /**
     * The `still_running` loop: whether some cached job of `info` is "Running...", or the
     * `AttributeError` of a job entry that is a dict.
     */
    static method StillRunningOf(info: BranchInfo) returns (r: Result<bool>)
      ensures r.Failure? <==> !info.AllTyped()
      ensures r.Failure? ==> r.error == NoAttribute("status")
      ensures r.Success? ==> (r.value <==> StillRunning(info))
    {
      var stillRunning := false;
      var remaining := info.jobInfos.Keys;
      while remaining != {}
        invariant remaining <= info.jobInfos.Keys
        invariant forall k | k in info.jobInfos && k !in remaining :: info.jobInfos[k].Info?
        invariant stillRunning <==> exists k | k in info.jobInfos && k !in remaining :: RunningSlot(info.jobInfos[k])
        decreases remaining
      {
        var k :| k in remaining;
        if info.jobInfos[k].Fields? {
          return Failure(NoAttribute("status"));
        }
        if info.jobInfos[k].job.status == Some(StatusRunning) {
          stillRunning := true;
        }
        remaining := remaining - {k};
      }
      return Success(stillRunning);
    }

    /**
     * One pass of the loop of `yield_recently_updated_gh_pr_branches`: nothing for a skipped pull
     * request (the loop's `continue`), its fresh record otherwise, or the `AttributeError` of
     * scanning a cached record whose job entries include a dict.
     */
    method RefreshOne(pr: PullRequest, commitTimestamp: string -> int, formatDatetime: int -> string)
      returns (r: Result<seq<BranchInfo>>)
      ensures r.Failure? <==> Crashes(pr, branches)
      ensures r.Failure? ==> r.error == NoAttribute("status")
      ensures r.Success? ==> r.value == Yielded(pr, branches, commitTimestamp, formatDatetime)
    {
      var lastCommitSha := pr.headSha;
      var branchName := pr.headRef;
      if branchName in branches {
        var cacheInfo := branches[branchName];
        if cacheInfo.lastCommitSha == lastCommitSha {
          var stillRunning := StillRunningOf(cacheInfo);
          if stillRunning.Failure? {
            return Failure(stillRunning.error);
          }
          if !stillRunning.value {
            return Success([]);
          }
        }
      }
      if branchName == ForkRef {
        return Success([]);
      }
      var lastCommitTimestamp := commitTimestamp(lastCommitSha);
      var lastCommitDatetime := formatDatetime(lastCommitTimestamp);
      return Success([NewBranchInfo(pr, lastCommitTimestamp, lastCommitDatetime)]);
    }

    /**
     * `yield_recently_updated_gh_pr_branches` over the listing `prs`: the refreshed branches, or
     * the `AttributeError` of a pull request whose cached record has a job entry that is a dict.
     */
    method RecentlyUpdatedBranches(prs: seq<PullRequest>, commitTimestamp: string -> int,
                                   formatDatetime: int -> string)
      returns (r: Result<seq<BranchInfo>>)
      ensures r == RefreshedOrFails(prs, branches, commitTimestamp, formatDatetime)
    {
      var yielded := [];
      for i := 0 to |prs|
        invariant RefreshedOrFails(prs[..i], branches, commitTimestamp, formatDatetime) == Success(yielded)
      {
        var one := RefreshOne(prs[i], commitTimestamp, formatDatetime);
        assert prs[..i + 1][..i] == prs[..i];
        if one.Failure? {
          assert Crashes(prs[i], branches);
          RefreshedOrFailsFails(prs, branches, commitTimestamp, formatDatetime);
          return Failure(one.error);
        }
        yielded := yielded + one.value;
      }
      assert prs[..|prs|] == prs;
      return Success(yielded);
    }

    /**
     * `update_cache`: merges `d` into the cache, saves every record's dict, and leaves each record
     * rewritten by `to_dict`.
     */
    method UpdateCache(d: map<string, BranchInfo>)
      modifies this
      ensures branches == Rewritten(old(branches) + d)
      ensures stored == Saved(old(branches) + d)
    {
      var merged := branches + d;
      stored := Saved(merged);
      branches := Rewritten(merged);
    }
  }
}
