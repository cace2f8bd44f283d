/**
 * The build-service tools the MCP server exposes. Each tool forwards its
 * arguments to the build-service adapter and returns what it lists; two of
 * them add logic of their own: the repository tool turns a user-facing
 * `filter` into the service's `reasonFilter`, and the jobs tool selects the
 * Job records of a timeline and orders them.
 */
module AzdoMcpTools {
  import opened Common
  import opened Text
  import opened AzdoTimeline
  import opened Azdo

  const DefaultTop: int := 10
  const DefaultFilter: string := "all"

  const PullRequestReasons: string := "pullRequest"
  const ContinuousIntegrationReasons: string := "individualCI,batchedCI"

  /** The spellings of `pr` and of `ci` in any letter case. */
  const PullRequestSpellings: set<string> := {"pr", "pR", "Pr", "PR"}
  const ContinuousIntegrationSpellings: set<string> := {"ci", "cI", "Ci", "CI"}

  /** The `switch` on the lower-cased filter: `pr` and `ci` name reasons, anything else means no filter. */
  function ReasonFilterFor(filter: string): (reasonFilter: Option<string>)
    ensures filter == DefaultFilter ==> reasonFilter.None?
  {
    match ToLower(filter)
    case "pr" => Some(PullRequestReasons)
    case "ci" => Some(ContinuousIntegrationReasons)
    case _ => None
  }

  lemma LowerTwoLetters(filter: string, lower: string, upper: string)
    requires |lower| == 2 && |upper| == 2
    requires 'a' <= lower[0] <= 'z' && 'a' <= lower[1] <= 'z'
    requires upper[0] as int == lower[0] as int - 32 && upper[1] as int == lower[1] as int - 32
    ensures ToLower(filter) == lower <==>
              filter in {lower, [lower[0], upper[1]], [upper[0], lower[1]], upper}
  {
    if ToLower(filter) == lower {
      assert ToLowerChar(filter[0]) == lower[0] && ToLowerChar(filter[1]) == lower[1];
      assert filter[0] == lower[0] || filter[0] == upper[0];
      assert filter[1] == lower[1] || filter[1] == upper[1];
      assert filter == [filter[0], filter[1]];
      assert upper == [upper[0], upper[1]] && lower == [lower[0], lower[1]];
    }
    if filter in {lower, [lower[0], upper[1]], [upper[0], lower[1]], upper} {
      assert |filter| == 2;
      assert ToLowerChar(filter[0]) == lower[0] && ToLowerChar(filter[1]) == lower[1];
      assert ToLower(filter) == [ToLowerChar(filter[0]), ToLowerChar(filter[1])];
      assert lower == [lower[0], lower[1]];
    }
  }

  /** `pr` in any letter case selects pull-request builds, `ci` in any case the two CI reasons, and every other value no filter. */
  lemma ReasonFilterSpellings(filter: string)
    ensures ReasonFilterFor(filter) == Some(PullRequestReasons) <==> filter in PullRequestSpellings
    ensures ReasonFilterFor(filter) == Some(ContinuousIntegrationReasons) <==> filter in ContinuousIntegrationSpellings
    ensures ReasonFilterFor(filter).None? <==> filter !in PullRequestSpellings && filter !in ContinuousIntegrationSpellings
  {
    LowerTwoLetters(filter, "pr", "PR");
    LowerTwoLetters(filter, "ci", "CI");
    assert PullRequestSpellings == {"pr", ['p', 'R'], ['P', 'r'], "PR"};
    assert ContinuousIntegrationSpellings == {"ci", ['c', 'I'], ['C', 'i'], "CI"};
  }

  /** `azdo_builds_for_repo`: the repository's builds, `top` passed on unchanged, the filter mapped to reasons. */
  function GetBuildsForRepository(
    client: Client, fetch: string -> Response<seq<BuildRaw>>, repository: string,
    top: int := DefaultTop, filter: string := DefaultFilter)
    : (r: Result<seq<Build>>)
    ensures var url := RepositoryBuildsUrl(repository, top, ReasonFilterFor(filter));
            (r.Success? <==> fetch(url).Ok?) && (r.Success? ==> r.value == MapBuilds(client, fetch(url).body))
  {
    Azdo.GetBuildsForRepository(client, fetch, repository, top, ReasonFilterFor(filter))
  }

  /** Exactly the spellings of `pr` and `ci` give a reason filter. */
  lemma ReasonFilterGiven(filter: string)
    ensures ReasonFilterFor(filter).Some? <==> filter in PullRequestSpellings || filter in ContinuousIntegrationSpellings
  {
    ReasonFilterSpellings(filter);
  }

  /** The request of the repository tool carries `$top` as given and a `reasonFilter` exactly for `pr` or `ci`. */
  lemma RepositoryToolRequest(repository: string, top: int, filter: string)
    ensures var ps := QueryParams(RepositoryBuildsUrl(repository, top, ReasonFilterFor(filter)));
            |ps| >= 2 && ps[1] == ("$top", IntToString(top))
            && (HasParam(ps, "reasonFilter") <==> filter in PullRequestSpellings || filter in ContinuousIntegrationSpellings)
  {
    var ps := QueryParams(RepositoryBuildsUrl(repository, top, ReasonFilterFor(filter)));
    assert ps[1] == RepositoryParams(repository, top)[1];
    RepositoryBuildsReasonFilterIff(repository, top, ReasonFilterFor(filter));
    ReasonFilterGiven(filter);
  }

  /** `azdo_recent_builds`: recent builds, of one definition when one is given. */
  function GetRecentBuilds(
    client: Client, fetch: string -> Response<seq<BuildRaw>>, definitionId: Option<int> := None, top: int := DefaultTop)
    : (r: Result<seq<Build>>)
    ensures var url := RecentBuildsUrl(top, definitionId);
            (r.Success? <==> fetch(url).Ok?) && (r.Success? ==> r.value == MapBuilds(client, fetch(url).body))
  {
    Azdo.GetRecentBuilds(client, fetch, definitionId, top)
  }

  /** `azdo_pr_builds`: the builds of one pull request. */
  function GetBuildsForPullRequest(
    client: Client, fetch: string -> Response<seq<BuildRaw>>, repository: string, prNumber: int, top: int := DefaultTop)
    : (r: Result<seq<Build>>)
    ensures var url := PullRequestBuildsUrl(repository, prNumber, top);
            (r.Success? <==> fetch(url).Ok?) && (r.Success? ==> r.value == MapBuilds(client, fetch(url).body))
  {
    Azdo.GetBuildsForPullRequest(client, fetch, repository, prNumber, top)
  }

  /** With the defaults, the recent-builds tool asks for ten builds of any definition. */
  lemma RecentToolDefaults(client: Client, fetch: string -> Response<seq<BuildRaw>>)
    ensures QueryParams(RecentBuildsUrl(DefaultTop, None)) == [("api-version", ApiVersion), ("$top", "10")]
    ensures GetRecentBuilds(client, fetch) == Azdo.GetRecentBuilds(client, fetch, None, 10)
  {
    assert IntToString(10) == "10" by {
      assert NatToString(10) == NatToString(1) + [DigitChar(0)];
    }
  }

  /** `azdo_jobs`: the timeline's Job records, at any nesting, ascending by `Order` with ties in input order. */
  function GetJobs(fetch: string -> Response<TimelineRaw>, buildId: int): (r: Result<seq<TimelineRecord>>)
    ensures r.Success? <==> fetch(TimelineUrl(buildId)).Ok?
    ensures r.Success? ==>
              var records := MapTimeline(fetch(TimelineUrl(buildId)).body).records;
              (forall x :: x in r.value <==> x in records && IsJob(x))
              && IsStableSortOf(r.value, Filter(records, IsJob))
  {
    match GetTimeline(fetch, buildId)
    case Failure(e) => Failure(e)
    case Success(t) => Success(JobsByOrder(t.records))
  }

  /** The job list is the one a stable `OrderBy` gives: any stable sort of the Job records is this list. */
  lemma GetJobsIsOrderBy(fetch: string -> Response<TimelineRaw>, buildId: int, other: seq<TimelineRecord>)
    requires fetch(TimelineUrl(buildId)).Ok?
    requires IsStableSortOf(other, Filter(MapTimeline(fetch(TimelineUrl(buildId)).body).records, IsJob))
    ensures GetJobs(fetch, buildId) == Success(other)
  {
    var records := MapTimeline(fetch(TimelineUrl(buildId)).body).records;
    StableSortUnique(GetJobs(fetch, buildId).value, other, Filter(records, IsJob));
  }
}
