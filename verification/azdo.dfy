/**
 * The build-service adapter (`AzdoClient`): the relative URLs it requests,
 * the mapping of raw responses to domain records, the aggregation of test
 * failures over test runs, and the artifact lookup behind a download.
 *
 * Every GET is a parameter `fetch: string -> Response<T>` keyed by the
 * relative URL requested against `https://dev.azure.com/{org}/{project}/`;
 * the `Response` already says whether the status was a success and whether
 * the body deserialised.
 */
module Azdo {
  import opened Common
  import opened Text
  import opened AzdoTimeline

  const DefaultOrganization: string := "dnceng-public"
  const DefaultProject: string := "public"
  const ApiVersion: string := "7.1"

  /** The organisation and project every request of one client is scoped to. */
  datatype Client = Client(organization: string, project: string)

  // ---------------------------------------------------------------------------
  // Builds

  datatype Build = Build(
    id: int,
    buildNumber: string,
    status: string,
    result: Option<string>,
    uri: string,
    sourceBranch: string,
    definitionName: string,
    finishTime: Option<DateTime>)

  datatype BuildDefinitionRaw = BuildDefinitionRaw(name: string)

  /** A build as the service sends it; its own `uri` is not used. */
  datatype BuildRaw = BuildRaw(
    id: int,
    buildNumber: string,
    status: string,
    result: Option<string>,
    uri: string,
    sourceBranch: string,
    definition: Option<BuildDefinitionRaw>,
    finishTime: Option<DateTime>)

  const BuildUriPrefix: string := "https://dev.azure.com/"

  /** The results page of the client's project, before its query. */
  function BuildPagePath(client: Client): string {
    BuildUriPrefix + client.organization + "/" + client.project + "/_build/results"
  }

  function BuildUriStem(client: Client): string {
    BuildPagePath(client) + "?buildId="
  }

  /** The web page of a build, derived from the client's scope and the build id. */
  function BuildUri(client: Client, buildId: int): (uri: string)
    ensures |BuildUriStem(client)| < |uri|
    ensures uri[..|BuildUriStem(client)|] == BuildUriStem(client)
  {
    BuildUriStem(client) + IntToString(buildId)
  }

  /** Reads the build id back out of a build page URI of this client. */
  function BuildIdFromUri(client: Client, uri: string): Option<int> {
    var stem := BuildUriStem(client);
    if |stem| <= |uri| && uri[..|stem|] == stem then ParseInt(uri[|stem|..]) else None
  }

  lemma BuildUriRoundTrip(client: Client, buildId: int)
    ensures BuildIdFromUri(client, BuildUri(client, buildId)) == Some(buildId)
  {
    var stem := BuildUriStem(client);
    assert BuildUri(client, buildId)[|stem|..] == IntToString(buildId);
    ParseIntToString(buildId);
  }

  /** Distinct builds of one client get distinct page URIs. */
  lemma BuildUriInjective(client: Client, a: int, b: int)
    requires a != b
    ensures BuildUri(client, a) != BuildUri(client, b)
  {
    BuildUriRoundTrip(client, a);
    BuildUriRoundTrip(client, b);
  }

  /** When the scope holds no '?', the page URI carries exactly one query parameter: the build id. */
  lemma BuildUriQuery(client: Client, buildId: int)
    requires '?' !in client.organization && '?' !in client.project
    ensures QueryParams(BuildUri(client, buildId)) == [("buildId", IntToString(buildId))]
  {
    var path := BuildPagePath(client);
    assert '?' !in path by {
      assert path == BuildUriPrefix + client.organization + ['/'] + client.project + "/_build/results";
    }
    assert BuildUri(client, buildId) == path + "?" + Pair("buildId", IntToString(buildId)) by {
      assert "?buildId=" == "?" + "buildId" + "=";
    }
    IntIsSafeValue(buildId);
    UrlReadsBackOne(path, "buildId", IntToString(buildId));
  }

  /** One raw build as a domain build. */
  function MapBuild(client: Client, raw: BuildRaw): (b: Build)
    ensures b.id == raw.id && b.buildNumber == raw.buildNumber && b.status == raw.status
    ensures b.result == raw.result && b.sourceBranch == raw.sourceBranch && b.finishTime == raw.finishTime
    ensures b.uri == BuildUri(client, raw.id)
    ensures raw.definition.None? ==> b.definitionName == "unknown"
    ensures raw.definition.Some? ==> b.definitionName == raw.definition.value.name
  {
    Build(
      raw.id, raw.buildNumber, raw.status, raw.result, BuildUri(client, raw.id), raw.sourceBranch,
      match raw.definition
      case Some(d) => d.name
      case None => "unknown",
      raw.finishTime)
  }

  /** `Value.Select(b => new AzdoBuild { ... })`: one build per raw build, same order. */
  function MapBuilds(client: Client, raws: seq<BuildRaw>): (bs: seq<Build>)
    ensures |bs| == |raws|
    ensures forall i :: 0 <= i < |raws| ==> bs[i] == MapBuild(client, raws[i])
  {
    seq(|raws|, i requires 0 <= i < |raws| => MapBuild(client, raws[i]))
  }

  /** The `uri` the service sent has no bearing on the result. */
  lemma MapBuildIgnoresRawUri(client: Client, raw: BuildRaw, otherUri: string)
    ensures MapBuild(client, raw.(uri := otherUri)) == MapBuild(client, raw)
  {
  }

  /** Two builds that differ only in id stay distinguishable by page URI. */
  lemma MapBuildsDistinctUris(client: Client, raws: seq<BuildRaw>, i: int, j: int)
    requires 0 <= i < |raws| && 0 <= j < |raws| && raws[i].id != raws[j].id
    ensures MapBuilds(client, raws)[i].uri != MapBuilds(client, raws)[j].uri
  {
    BuildUriInjective(client, raws[i].id, raws[j].id);
  }

  const BuildsPath: string := "_apis/build/builds"

  lemma IntIsSafeValue(i: int)
    ensures '&' !in IntToString(i) && '?' !in IntToString(i) && '/' !in IntToString(i)
  {
    var s := IntToString(i);
    assert forall k :: 0 <= k < |s| ==> s[k] != '&' && s[k] != '?' && s[k] != '/';
  }

  /** The parameters every builds listing starts with. */
  function ListingParams(top: int): seq<(string, string)> {
    [("api-version", ApiVersion), ("$top", IntToString(top))]
  }

  lemma ListingParamsSafe(top: int)
    ensures SafeParams(ListingParams(top))
  {
    IntIsSafeValue(top);
    assert SafeParam("api-version", ApiVersion);
    assert SafeParam("$top", IntToString(top));
  }

  /** The recent-builds request: `$top` always, `definitions` exactly when a definition is given. */
  function RecentBuildsUrl(top: int, definitionId: Option<int>): (url: string)
    ensures PathOf(url) == BuildsPath
    ensures QueryParams(url) ==
              [("api-version", ApiVersion), ("$top", IntToString(top))] +
              (if definitionId.Some? then [("definitions", IntToString(definitionId.value))] else [])
  {
    var url := Url(BuildsPath, ListingParams(top));
    var definition := if definitionId.Some? then IntIsSafeValue(definitionId.value); Some(IntToString(definitionId.value)) else None;
    ListingParamsSafe(top);
    UrlReadsBackOptional(BuildsPath, ListingParams(top), "definitions", definition);
    if definitionId.Some? then AddParam(url, "definitions", IntToString(definitionId.value)) else url
  }

  /** The `definitions` parameter is present exactly when a definition id is given. */
  lemma RecentBuildsDefinitionsIff(top: int, definitionId: Option<int>)
    ensures HasParam(QueryParams(RecentBuildsUrl(top, definitionId)), "definitions") <==> definitionId.Some?
  {
    var ps := QueryParams(RecentBuildsUrl(top, definitionId));
    assert ps[0].0[0] == 'a' && ps[1].0[0] == '$';
    if definitionId.Some? {
      assert ps[2].0 == "definitions";
    }
  }

  /** The parameters naming a GitHub repository. */
  function GitHubParams(repository: string): seq<(string, string)> {
    [("repositoryId", EscapeDataString(repository)), ("repositoryType", "GitHub")]
  }

  lemma GitHubParamsSafe(repository: string)
    ensures SafeParams(GitHubParams(repository))
  {
    assert SafeParam("repositoryId", EscapeDataString(repository));
    assert SafeParam("repositoryType", "GitHub");
  }

  /** The parameters of a repository's builds listing before the optional reason filter. */
  function RepositoryParams(repository: string, top: int): seq<(string, string)> {
    ListingParams(top) + GitHubParams(repository)
  }

  lemma RepositoryParamsSafe(repository: string, top: int)
    ensures SafeParams(RepositoryParams(repository, top))
  {
    ListingParamsSafe(top);
    GitHubParamsSafe(repository);
    SafeParamsAppend(ListingParams(top), GitHubParams(repository));
  }

  /**
   * The builds of a GitHub repository: `$top`, the escaped repository and its
   * type always, `reasonFilter` (escaped) exactly when one is given.
   */
  function RepositoryBuildsUrl(repository: string, top: int, reasonFilter: Option<string>): (url: string)
    ensures PathOf(url) == BuildsPath
    ensures QueryParams(url) ==
              RepositoryParams(repository, top) +
              (if reasonFilter.Some? then [("reasonFilter", EscapeDataString(reasonFilter.value))] else [])
  {
    var url := Url(BuildsPath, RepositoryParams(repository, top));
    var reasons := if reasonFilter.Some? then Some(EscapeDataString(reasonFilter.value)) else None;
    RepositoryParamsSafe(repository, top);
    UrlReadsBackOptional(BuildsPath, RepositoryParams(repository, top), "reasonFilter", reasons);
    if reasonFilter.Some? then AddParam(url, "reasonFilter", EscapeDataString(reasonFilter.value)) else url
  }

  lemma HasParamAppend(ps: seq<(string, string)>, extra: seq<(string, string)>, key: string)
    ensures HasParam(ps + extra, key) <==> HasParam(ps, key) || HasParam(extra, key)
  {
    if HasParam(ps + extra, key) {
      var i :| 0 <= i < |ps + extra| && (ps + extra)[i].0 == key;
      if i >= |ps| {
        assert extra[i - |ps|].0 == key;
      }
    }
    if HasParam(extra, key) {
      var i :| 0 <= i < |extra| && extra[i].0 == key;
      assert (ps + extra)[i + |ps|].0 == key;
    }
    if HasParam(ps, key) {
      var i :| 0 <= i < |ps| && ps[i].0 == key;
      assert (ps + extra)[i].0 == key;
    }
  }

  /** The `reasonFilter` parameter is present exactly when a reason filter is given. */
  lemma RepositoryBuildsReasonFilterIff(repository: string, top: int, reasonFilter: Option<string>)
    ensures HasParam(QueryParams(RepositoryBuildsUrl(repository, top, reasonFilter)), "reasonFilter")
            <==> reasonFilter.Some?
  {
    var key := "reasonFilter";
    var base := RepositoryParams(repository, top);
    assert base[0].0 != key by { assert |base[0].0| != |key|; }
    assert base[1].0 != key by { assert |base[1].0| != |key|; }
    assert base[2].0 != key by { assert base[2].0[2] != key[2]; }
    assert base[3].0 != key by { assert |base[3].0| != |key|; }
    assert !HasParam(base, key);
    var extra: seq<(string, string)> := if reasonFilter.Some? then [(key, EscapeDataString(reasonFilter.value))] else [];
    HasParamAppend(base, extra, key);
    if reasonFilter.Some? {
      assert extra[0].0 == key;
    }
  }

  const PullRequestBranchPrefix: string := "refs/pull/"
  const PullRequestBranchSuffix: string := "/merge"

  /** The merge ref the build service builds for a pull request. */
  function PullRequestBranch(prNumber: int): (branch: string)
    ensures |branch| > |PullRequestBranchPrefix| + |PullRequestBranchSuffix|
  {
    PullRequestBranchPrefix + IntToString(prNumber) + PullRequestBranchSuffix
  }

  /** The pull-request number of a merge ref, if it is one. */
  function PullRequestNumber(branch: string): Option<int> {
    var p, q := |PullRequestBranchPrefix|, |PullRequestBranchSuffix|;
    if p + q <= |branch| && branch[..p] == PullRequestBranchPrefix && branch[|branch| - q..] == PullRequestBranchSuffix
    then ParseInt(branch[p..|branch| - q])
    else None
  }

  lemma PullRequestBranchRoundTrip(prNumber: int)
    ensures PullRequestNumber(PullRequestBranch(prNumber)) == Some(prNumber)
  {
    var b := PullRequestBranch(prNumber);
    var p, q := |PullRequestBranchPrefix|, |PullRequestBranchSuffix|;
    assert b[..p] == PullRequestBranchPrefix;
    assert b[|b| - q..] == PullRequestBranchSuffix;
    assert b[p..|b| - q] == IntToString(prNumber);
    ParseIntToString(prNumber);
  }

  /** Different pull requests are different branches. */
  lemma PullRequestBranchInjective(a: int, b: int)
    requires a != b
    ensures PullRequestBranch(a) != PullRequestBranch(b)
  {
    PullRequestBranchRoundTrip(a);
    PullRequestBranchRoundTrip(b);
  }

  /** The parameters of a pull request's builds listing: its merge ref (escaped) and the GitHub repository. */
  function PullRequestParams(repository: string, prNumber: int, top: int): seq<(string, string)> {
    ListingParams(top) + [("branchName", EscapeDataString(PullRequestBranch(prNumber)))] + GitHubParams(repository)
  }

  lemma PullRequestParamsSafe(repository: string, prNumber: int, top: int)
    ensures SafeParams(PullRequestParams(repository, prNumber, top))
  {
    var branch := [("branchName", EscapeDataString(PullRequestBranch(prNumber)))];
    assert SafeParam(branch[0].0, branch[0].1);
    ListingParamsSafe(top);
    SafeParamsAppend(ListingParams(top), branch);
    GitHubParamsSafe(repository);
    SafeParamsAppend(ListingParams(top) + branch, GitHubParams(repository));
  }

  /** The builds of a pull request: its merge ref (escaped) and the repository. */
  function PullRequestBuildsUrl(repository: string, prNumber: int, top: int): (url: string)
    ensures PathOf(url) == BuildsPath
    ensures QueryParams(url) == PullRequestParams(repository, prNumber, top)
  {
    PullRequestParamsSafe(repository, prNumber, top);
    UrlReadsBack(BuildsPath, PullRequestParams(repository, prNumber, top));
    Url(BuildsPath, PullRequestParams(repository, prNumber, top))
  }

  /** The build's identifier in the test service: `vstfs:///Build/Build/{id}`. */
  function TestBuildUri(buildId: int): string {
    "vstfs:///Build/Build/" + IntToString(buildId)
  }

  const TestRunsPath: string := "_apis/test/runs"

  function TestRunsUrl(buildId: int): (url: string)
    ensures PathOf(url) == TestRunsPath
    ensures QueryParams(url) == [("api-version", ApiVersion), ("buildUri", EscapeDataString(TestBuildUri(buildId)))]
  {
    var ps := [("api-version", ApiVersion), ("buildUri", EscapeDataString(TestBuildUri(buildId)))];
    UrlReadsBack(TestRunsPath, ps);
    Url(TestRunsPath, ps)
  }

  /** `_apis/test/Runs/{runId}/results`: the failed results of one run. */
  function TestResultsUrl(runId: int): (url: string)
    ensures PathOf(url) == "_apis/test/Runs/" + IntToString(runId) + "/results"
    ensures QueryParams(url) == [("api-version", ApiVersion), ("outcomes", "Failed")]
  {
    var path := "_apis/test/Runs/" + IntToString(runId) + "/results";
    var ps := [("api-version", ApiVersion), ("outcomes", "Failed")];
    IntIsSafeValue(runId);
    UrlReadsBack(path, ps);
    Url(path, ps)
  }

  /** Between a fixed prefix and suffix, the rendered id determines the id. */
  lemma IdPathInjective(prefix: string, suffix: string, a: int, b: int)
    requires prefix + IntToString(a) + suffix == prefix + IntToString(b) + suffix
    ensures a == b
  {
    var sa, sb := IntToString(a), IntToString(b);
    assert |sa| == |sb|;
    assert sa == (prefix + sa + suffix)[|prefix|..|prefix| + |sa|];
    assert sb == (prefix + sb + suffix)[|prefix|..|prefix| + |sb|];
    IntToStringInjective(a, b);
  }

  /** Each run's results are requested from a URL of its own. */
  lemma TestResultsUrlInjective(a: int, b: int)
    requires a != b
    ensures TestResultsUrl(a) != TestResultsUrl(b)
  {
    if TestResultsUrl(a) == TestResultsUrl(b) {
      IdPathInjective("_apis/test/Runs/", "/results", a, b);
    }
  }

  /** `_apis/build/builds/{id}` followed by `suffix`, with only the API version: one resource of a build. */
  function BuildResourceUrl(buildId: int, suffix: string): (url: string)
    requires '?' !in suffix
    ensures PathOf(url) == BuildsPath + "/" + IntToString(buildId) + suffix
    ensures QueryParams(url) == [("api-version", ApiVersion)]
  {
    var path := BuildsPath + "/" + IntToString(buildId) + suffix;
    IntIsSafeValue(buildId);
    UrlReadsBack(path, [("api-version", ApiVersion)]);
    Url(path, [("api-version", ApiVersion)])
  }

  function TimelineUrl(buildId: int): (url: string)
    ensures PathOf(url) == BuildsPath + "/" + IntToString(buildId) + "/timeline"
    ensures QueryParams(url) == [("api-version", ApiVersion)]
  {
    BuildResourceUrl(buildId, "/timeline")
  }

  function ArtifactsUrl(buildId: int): (url: string)
    ensures PathOf(url) == BuildsPath + "/" + IntToString(buildId) + "/artifacts"
    ensures QueryParams(url) == [("api-version", ApiVersion)]
  {
    BuildResourceUrl(buildId, "/artifacts")
  }

  // ---------------------------------------------------------------------------
  // Build listings

  /** Read a builds response and map every raw build. */
  function ListBuilds(client: Client, response: Response<seq<BuildRaw>>): (r: Result<seq<Build>>)
    ensures r.Success? <==> response.Ok?
    ensures r.Success? ==> r.value == MapBuilds(client, response.body)
    ensures response.NonSuccess? ==> r == Failure(HttpRequestError(response.status))
  {
    match ReadBody(response, "builds")
    case Success(raws) => Success(MapBuilds(client, raws))
    case Failure(e) => Failure(e)
  }

  /** `GetRecentBuildsAsync`: one request, for the recent-builds URL. */
  function GetRecentBuilds(client: Client, fetch: string -> Response<seq<BuildRaw>>, definitionId: Option<int>, top: int)
    : (r: Result<seq<Build>>)
    ensures r.Success? <==> fetch(RecentBuildsUrl(top, definitionId)).Ok?
    ensures r.Success? ==> r.value == MapBuilds(client, fetch(RecentBuildsUrl(top, definitionId)).body)
  {
    ListBuilds(client, fetch(RecentBuildsUrl(top, definitionId)))
  }

  /** `GetBuildsForRepositoryAsync`. */
  function GetBuildsForRepository(
    client: Client, fetch: string -> Response<seq<BuildRaw>>, repository: string, top: int, reasonFilter: Option<string>)
    : (r: Result<seq<Build>>)
    ensures r.Success? <==> fetch(RepositoryBuildsUrl(repository, top, reasonFilter)).Ok?
    ensures r.Success? ==> r.value == MapBuilds(client, fetch(RepositoryBuildsUrl(repository, top, reasonFilter)).body)
  {
    ListBuilds(client, fetch(RepositoryBuildsUrl(repository, top, reasonFilter)))
  }

  /** `GetBuildsForPullRequestAsync`. */
  function GetBuildsForPullRequest(
    client: Client, fetch: string -> Response<seq<BuildRaw>>, repository: string, prNumber: int, top: int)
    : (r: Result<seq<Build>>)
    ensures r.Success? <==> fetch(PullRequestBuildsUrl(repository, prNumber, top)).Ok?
    ensures r.Success? ==> r.value == MapBuilds(client, fetch(PullRequestBuildsUrl(repository, prNumber, top)).body)
  {
    ListBuilds(client, fetch(PullRequestBuildsUrl(repository, prNumber, top)))
  }

  // ---------------------------------------------------------------------------
  // Test failures

  datatype TestRun = TestRun(id: int, name: string)

  datatype TestResult = TestResult(
    testCaseTitle: string,
    outcome: string,
    errorMessage: Option<string>,
    stackTrace: Option<string>)

  datatype TestFailure = TestFailure(
    testCaseTitle: string,
    outcome: string,
    errorMessage: Option<string>,
    stackTrace: Option<string>,
    testRunId: int,
    testRunName: string)

  function Tag(run: TestRun, result: TestResult): TestFailure {
    TestFailure(result.testCaseTitle, result.outcome, result.errorMessage, result.stackTrace, run.id, run.name)
  }

  /** The results of one run, each tagged with that run. */
  function TagAll(run: TestRun, results: seq<TestResult>): (fs: seq<TestFailure>)
    ensures |fs| == |results|
    ensures forall i :: 0 <= i < |fs| ==> fs[i].testRunId == run.id && fs[i].testRunName == run.name
    ensures forall i :: 0 <= i < |fs| ==> fs[i].testCaseTitle == results[i].testCaseTitle && fs[i].outcome == results[i].outcome
    ensures forall i :: 0 <= i < |fs| ==>
              fs[i].errorMessage == results[i].errorMessage && fs[i].stackTrace == results[i].stackTrace
  {
    seq(|results|, i requires 0 <= i < |results| => Tag(run, results[i]))
  }

  /** The failed results of one run, fetched and tagged; a failed fetch fails. */
  function RunFailures(fetchResults: string -> Response<seq<TestResult>>): TestRun -> Result<seq<TestFailure>> {
    (run: TestRun) =>
      match ReadBody(fetchResults(TestResultsUrl(run.id)), "test results")
      case Success(results) => Success(TagAll(run, results))
      case Failure(e) => Failure(e)
  }

  /** Run by run, in order, each run's tagged failures; the first failed fetch fails the whole. */
  function CollectFailures(runs: seq<TestRun>, fetchResults: string -> Response<seq<TestResult>>)
    : (r: Result<seq<TestFailure>>)
    ensures runs == [] ==> r == Success([])
    ensures r.Success? <==> forall i :: 0 <= i < |runs| ==> fetchResults(TestResultsUrl(runs[i].id)).Ok?
  {
    TraverseSuccess(runs, RunFailures(fetchResults));
    forall i | 0 <= i < |runs| {
      RunFailuresSuccess(fetchResults, runs[i]);
    }
    match Traverse(runs, RunFailures(fetchResults))
    case Success(perRun) => Success(Flatten(perRun))
    case Failure(e) => Failure(e)
  }

  /** What `GetTestFailuresAsync` returns for a build. */
  function TestFailuresOf(
    buildId: int, fetchRuns: string -> Response<seq<TestRun>>, fetchResults: string -> Response<seq<TestResult>>)
    : Result<seq<TestFailure>>
  {
    match ReadBody(fetchRuns(TestRunsUrl(buildId)), "test runs")
    case Success(runs) => CollectFailures(runs, fetchResults)
    case Failure(e) => Failure(e)
  }

  lemma RunFailuresSuccess(fetchResults: string -> Response<seq<TestResult>>, run: TestRun)
    ensures RunFailures(fetchResults)(run).Success? <==> fetchResults(TestResultsUrl(run.id)).Ok?
    ensures fetchResults(TestResultsUrl(run.id)).Ok? ==>
              RunFailures(fetchResults)(run) == Success(TagAll(run, fetchResults(TestResultsUrl(run.id)).body))
  {
  }

  /** The inner `foreach`: add every result of one run, tagged with the run, to the list. */
  method AddRunFailures(failures: seq<TestFailure>, run: TestRun, results: seq<TestResult>)
    returns (extended: seq<TestFailure>)
    ensures extended == failures + TagAll(run, results)
  {
    extended := failures;
    var j := 0;
    while j < |results|
      invariant 0 <= j <= |results|
      invariant extended == failures + TagAll(run, results[..j])
    {
      var result := results[j];
      extended := extended + [TestFailure(result.testCaseTitle, result.outcome, result.errorMessage,
                                          result.stackTrace, run.id, run.name)];
      assert TagAll(run, results[..j + 1]) == TagAll(run, results[..j]) + [Tag(run, result)];
      j := j + 1;
    }
    assert results[..j] == results;
  }

  /** `CollectFailures` is the flattened traversal of the runs. */
  lemma CollectFailuresByTraverse(runs: seq<TestRun>, fetchResults: string -> Response<seq<TestResult>>)
    ensures var t := Traverse(runs, RunFailures(fetchResults));
            CollectFailures(runs, fetchResults) == if t.Success? then Success(Flatten(t.value)) else Failure(t.error)
  {
  }

  /** One more run whose results were fetched adds its tagged results to the failures so far. */
  lemma CollectFailuresStep(runs: seq<TestRun>, i: int, fetchResults: string -> Response<seq<TestResult>>)
    requires 0 <= i < |runs| && fetchResults(TestResultsUrl(runs[i].id)).Ok?
    requires Traverse(runs[..i], RunFailures(fetchResults)).Success?
    ensures Traverse(runs[..i + 1], RunFailures(fetchResults)).Success?
    ensures Flatten(Traverse(runs[..i + 1], RunFailures(fetchResults)).value) ==
              Flatten(Traverse(runs[..i], RunFailures(fetchResults)).value)
              + TagAll(runs[i], fetchResults(TestResultsUrl(runs[i].id)).body)
  {
    RunFailuresSuccess(fetchResults, runs[i]);
    TraverseFlattenStep(runs, i, RunFailures(fetchResults));
  }

  /** The outer `foreach`: fetch each run's failed results in turn and add them; a failed fetch ends the loop. */
  method AddAllRunFailures(runs: seq<TestRun>, fetchResults: string -> Response<seq<TestResult>>)
    returns (r: Result<seq<TestFailure>>)
    ensures r == CollectFailures(runs, fetchResults)
  {
    CollectFailuresByTraverse(runs, fetchResults);
    var failures: seq<TestFailure> := [];
    var i := 0;
    while i < |runs|
      invariant 0 <= i <= |runs|
      invariant Traverse(runs[..i], RunFailures(fetchResults)).Success?
      invariant failures == Flatten(Traverse(runs[..i], RunFailures(fetchResults)).value)
    {
      var run := runs[i];
      var resultsBody := ReadBody(fetchResults(TestResultsUrl(run.id)), "test results");
      if resultsBody.Failure? {
        RunFailuresSuccess(fetchResults, run);
        TraverseFailsAt(runs, i, RunFailures(fetchResults));
        return Failure(resultsBody.error);
      }
      CollectFailuresStep(runs, i, fetchResults);
      failures := AddRunFailures(failures, run, resultsBody.value);
      i := i + 1;
    }
    assert runs[..i] == runs;
    return Success(failures);
  }

  /** `GetTestFailuresAsync`: list the runs, then append every run's failed results in turn. */
  method GetTestFailures(
    buildId: int, fetchRuns: string -> Response<seq<TestRun>>, fetchResults: string -> Response<seq<TestResult>>)
    returns (r: Result<seq<TestFailure>>)
    ensures r == TestFailuresOf(buildId, fetchRuns, fetchResults)
  {
    var runsBody := ReadBody(fetchRuns(TestRunsUrl(buildId)), "test runs");
    if runsBody.Failure? {
      return Failure(runsBody.error);
    }
    r := AddAllRunFailures(runsBody.value, fetchResults);
  }

  /** Runs contribute their failures one after another: the result for `a + b` is that for `a` followed by that for `b`. */
  lemma CollectFailuresAppend(a: seq<TestRun>, b: seq<TestRun>, fetchResults: string -> Response<seq<TestResult>>)
    requires CollectFailures(a, fetchResults).Success? && CollectFailures(b, fetchResults).Success?
    ensures CollectFailures(a + b, fetchResults) ==
              Success(CollectFailures(a, fetchResults).value + CollectFailures(b, fetchResults).value)
  {
    var f := RunFailures(fetchResults);
    TraverseAppend(a, b, f);
    FlattenAppend(Traverse(a, f).value, Traverse(b, f).value);
  }

  /** A single run yields its failed results, in the service's order, tagged with that run. */
  lemma CollectFailuresOneRun(run: TestRun, fetchResults: string -> Response<seq<TestResult>>)
    requires fetchResults(TestResultsUrl(run.id)).Ok?
    ensures CollectFailures([run], fetchResults) == Success(TagAll(run, fetchResults(TestResultsUrl(run.id)).body))
  {
    var f := RunFailures(fetchResults);
    var tagged := TagAll(run, fetchResults(TestResultsUrl(run.id)).body);
    RunFailuresSuccess(fetchResults, run);
    var none: seq<TestRun> := [];
    TraverseSnoc(none, run, f);
    assert none + [run] == [run];
    assert Traverse(none, f) == Success([]);
    assert f(run) == Success(tagged);
    assert Traverse(none, f).value + [tagged] == [tagged];
    assert Traverse([run], f) == Success([tagged]);
    var empty: seq<seq<TestFailure>> := [];
    FlattenSnoc(empty, tagged);
    assert empty + [tagged] == [tagged];
    assert Flatten([tagged]) == tagged;
  }

  /** Every reported failure carries the id and name of one of the build's runs. */
  lemma FailuresCarryTheirRun(runs: seq<TestRun>, fetchResults: string -> Response<seq<TestResult>>, j: int)
    requires CollectFailures(runs, fetchResults).Success?
    requires 0 <= j < |CollectFailures(runs, fetchResults).value|
    ensures exists i :: 0 <= i < |runs| && CollectFailures(runs, fetchResults).value[j].testRunId == runs[i].id
                                       && CollectFailures(runs, fetchResults).value[j].testRunName == runs[i].name
  {
    var f := RunFailures(fetchResults);
    var perRun := Traverse(runs, f).value;
    TraverseSuccess(runs, f);
    FlattenMembers(perRun, j);
    var i :| 0 <= i < |perRun| && Flatten(perRun)[j] in perRun[i];
    assert perRun[i] == f(runs[i]).value;
    assert perRun[i] == TagAll(runs[i], fetchResults(TestResultsUrl(runs[i].id)).body);
  }

  /** A failed results fetch fails the whole call with the first such failure: no partial list is returned. */
  lemma CollectFailuresFirstError(runs: seq<TestRun>, fetchResults: string -> Response<seq<TestResult>>, k: int)
    requires 0 <= k < |runs| && !fetchResults(TestResultsUrl(runs[k].id)).Ok?
    requires forall i :: 0 <= i < k ==> fetchResults(TestResultsUrl(runs[i].id)).Ok?
    ensures CollectFailures(runs, fetchResults) ==
              Failure(ReadBody(fetchResults(TestResultsUrl(runs[k].id)), "test results").error)
  {
    var f := RunFailures(fetchResults);
    forall j | 0 <= j < |runs| {
      RunFailuresSuccess(fetchResults, runs[j]);
    }
    var r := Traverse(runs, f);
    TraverseSuccess(runs, f);
    TraverseFailure(runs, f);
    var k' :| 0 <= k' < |runs| && f(runs[k']).Failure? && r.error == f(runs[k']).error
              && forall j :: 0 <= j < k' ==> f(runs[j]).Success?;
    assert k' == k;
  }

  // ---------------------------------------------------------------------------
  // Timeline

  datatype TimelineIssueRaw = TimelineIssueRaw(issueType: string, message: string, category: Option<string>)
  datatype LogReferenceRaw = LogReferenceRaw(url: Option<string>)

  datatype TimelineRecordRaw = TimelineRecordRaw(
    id: string,
    parentId: Option<string>,
    name: string,
    recordType: string,
    order: int,
    state: Option<string>,
    result: Option<string>,
    errorCount: int,
    warningCount: int,
    startTime: Option<DateTime>,
    finishTime: Option<DateTime>,
    workerName: Option<string>,
    issues: Option<seq<TimelineIssueRaw>>,  // None: the field was null or missing
    log: Option<LogReferenceRaw>)

  datatype TimelineRaw = TimelineRaw(records: Option<seq<TimelineRecordRaw>>)

  function MapIssue(raw: TimelineIssueRaw): (issue: TimelineIssue)
    ensures issue.issueType == raw.issueType && issue.message == raw.message && issue.category == raw.category
  {
    TimelineIssue(raw.issueType, raw.message, raw.category)
  }

  /** `Issues.Select(...)`: one issue per raw issue, same order. */
  function MapIssues(raws: seq<TimelineIssueRaw>): (issues: seq<TimelineIssue>)
    ensures |issues| == |raws|
    ensures forall i :: 0 <= i < |raws| ==> issues[i] == MapIssue(raws[i])
  {
    seq(|raws|, i requires 0 <= i < |raws| => MapIssue(raws[i]))
  }

  /** One raw record as a timeline record: a null issue list becomes empty, the log URL comes from the log reference. */
  function MapRecord(raw: TimelineRecordRaw): (r: TimelineRecord)
    ensures r.id == raw.id && r.parentId == raw.parentId && r.name == raw.name
    ensures r.recordType == raw.recordType && r.order == raw.order
    ensures r.state == raw.state && r.result == raw.result
    ensures r.errorCount == raw.errorCount && r.warningCount == raw.warningCount
    ensures r.startTime == raw.startTime && r.finishTime == raw.finishTime && r.workerName == raw.workerName
    ensures r.issues == MapIssues(raw.issues.GetOr([]))
    ensures r.logUrl == (if raw.log.Some? then raw.log.value.url else None)
  {
    TimelineRecord(
      raw.id, raw.parentId, raw.name, raw.recordType, raw.order, raw.state, raw.result,
      raw.errorCount, raw.warningCount, raw.startTime, raw.finishTime,
      MapIssues(raw.issues.GetOr([])),
      raw.workerName,
      match raw.log
      case Some(l) => l.url
      case None => None)
  }

  /** The raw timeline as a timeline: one record per raw record, same order; a null list is empty. */
  function MapTimeline(raw: TimelineRaw): (t: Timeline)
    ensures |t.records| == |raw.records.GetOr([])|
    ensures forall i :: 0 <= i < |t.records| ==> t.records[i] == MapRecord(raw.records.GetOr([])[i])
  {
    var records := raw.records.GetOr([]);
    Timeline(seq(|records|, i requires 0 <= i < |records| => MapRecord(records[i])))
  }

  /** The number of issues the raw records carry, a null list counting none. */
  function RawIssueCount(records: seq<TimelineRecordRaw>): nat {
    if records == [] then 0 else RawIssueCount(records[..|records| - 1]) + |records[|records| - 1].issues.GetOr([])|
  }

  /** The raw records' issues mapped one by one, record after record; a null list contributes none. */
  function RawIssuesMapped(records: seq<TimelineRecordRaw>): seq<TimelineIssue> {
    if records == [] then []
    else RawIssuesMapped(records[..|records| - 1]) + MapIssues(records[|records| - 1].issues.GetOr([]))
  }

  /**
   * Mapping keeps every issue in place: the timeline's issue list is the raw
   * issues mapped, in record order, and as long as the raw lists together.
   */
  lemma MapTimelineKeepsIssues(raw: TimelineRaw)
    ensures GetIssues(MapTimeline(raw)) == RawIssuesMapped(raw.records.GetOr([]))
    ensures |GetIssues(MapTimeline(raw))| == RawIssueCount(raw.records.GetOr([]))
  {
    var records := raw.records.GetOr([]);
    assert MapTimeline(raw) == MapTimeline(TimelineRaw(Some(records)));
    MappedIssues(records);
    IssuesLength(MapTimeline(raw));
    MappedIssueCount(records);
  }

  lemma {:induction false} MappedIssues(records: seq<TimelineRecordRaw>)
    ensures AllIssues(MapTimeline(TimelineRaw(Some(records))).records) == RawIssuesMapped(records)
  {
    if records != [] {
      var init := records[..|records| - 1];
      MappedIssues(init);
      var mapped := MapTimeline(TimelineRaw(Some(records))).records;
      assert mapped[..|mapped| - 1] == MapTimeline(TimelineRaw(Some(init))).records;
    }
  }

  lemma {:induction false} MappedIssueCount(records: seq<TimelineRecordRaw>)
    ensures IssueCount(MapTimeline(TimelineRaw(Some(records))).records) == RawIssueCount(records)
  {
    if records != [] {
      var init := records[..|records| - 1];
      MappedIssueCount(init);
      var mapped := MapTimeline(TimelineRaw(Some(records))).records;
      assert mapped[..|mapped| - 1] == MapTimeline(TimelineRaw(Some(init))).records;
    }
  }

  /** `GetTimelineAsync`. */
  function GetTimeline(fetch: string -> Response<TimelineRaw>, buildId: int): (r: Result<Timeline>)
    ensures r.Success? <==> fetch(TimelineUrl(buildId)).Ok?
    ensures r.Success? ==> r.value == MapTimeline(fetch(TimelineUrl(buildId)).body)
  {
    match ReadBody(fetch(TimelineUrl(buildId)), "timeline")
    case Success(raw) => Success(MapTimeline(raw))
    case Failure(e) => Failure(e)
  }

  // ---------------------------------------------------------------------------
  // Artifacts

  datatype ArtifactResourceRaw = ArtifactResourceRaw(downloadUrl: Option<string>, resourceType: Option<string>)
  datatype ArtifactRaw = ArtifactRaw(id: int, name: string, resource: Option<ArtifactResourceRaw>)
  datatype Artifact = Artifact(id: int, name: string, downloadUrl: Option<string>, resourceType: Option<string>)

  /** A missing resource leaves both the download URL and the type absent. */
  function MapArtifact(raw: ArtifactRaw): (a: Artifact)
    ensures a.id == raw.id && a.name == raw.name
    ensures raw.resource.None? ==> a.downloadUrl.None? && a.resourceType.None?
    ensures raw.resource.Some? ==> a.downloadUrl == raw.resource.value.downloadUrl
                                   && a.resourceType == raw.resource.value.resourceType
  {
    match raw.resource
    case Some(res) => Artifact(raw.id, raw.name, res.downloadUrl, res.resourceType)
    case None => Artifact(raw.id, raw.name, None, None)
  }

  function MapArtifacts(raws: seq<ArtifactRaw>): (artifacts: seq<Artifact>)
    ensures |artifacts| == |raws|
    ensures forall i :: 0 <= i < |raws| ==> artifacts[i] == MapArtifact(raws[i])
  {
    seq(|raws|, i requires 0 <= i < |raws| => MapArtifact(raws[i]))
  }

  /** `GetArtifactsAsync`. */
  function GetArtifacts(fetch: string -> Response<seq<ArtifactRaw>>, buildId: int): (r: Result<seq<Artifact>>)
    ensures r.Success? <==> fetch(ArtifactsUrl(buildId)).Ok?
    ensures r.Success? ==> r.value == MapArtifacts(fetch(ArtifactsUrl(buildId)).body)
  {
    match ReadBody(fetch(ArtifactsUrl(buildId)), "artifacts")
    case Success(raws) => Success(MapArtifacts(raws))
    case Failure(e) => Failure(e)
  }

  predicate IsFirstNamed(artifacts: seq<Artifact>, name: string, i: int) {
    forall j :: 0 <= j < i && j < |artifacts| ==> artifacts[j].name != name
  }

  /** `FirstOrDefault(a => a.Name == name)`, as an index. */
  function FirstNamed(artifacts: seq<Artifact>, name: string): (r: Option<nat>)
    ensures r.Some? ==> r.value < |artifacts| && artifacts[r.value].name == name
                        && forall j :: 0 <= j < r.value ==> artifacts[j].name != name
    ensures r.None? ==> forall j :: 0 <= j < |artifacts| ==> artifacts[j].name != name
  {
    if artifacts == [] then None
    else if artifacts[0].name == name then Some(0)
    else match FirstNamed(artifacts[1..], name)
      case Some(k) => Some(k + 1)
      case None => None
  }

  function NotFoundMessage(name: string, buildId: int): string {
    "Artifact '" + name + "' not found for build " + IntToString(buildId)
  }

  function NoDownloadUrlMessage(name: string): string {
    "Artifact '" + name + "' has no download URL"
  }

  /** The URL to download an artifact from: the first artifact of that exact name, which must have one. */
  function ResolveDownloadUrl(artifacts: seq<Artifact>, name: string, buildId: int): (r: Result<string>)
    ensures (forall j :: 0 <= j < |artifacts| ==> artifacts[j].name != name) ==>
              r == Failure(InvalidOperation(NotFoundMessage(name, buildId)))
    ensures forall i :: 0 <= i < |artifacts| && artifacts[i].name == name && IsFirstNamed(artifacts, name, i) ==>
              r == if artifacts[i].downloadUrl.Some? then Success(artifacts[i].downloadUrl.value)
                   else Failure(InvalidOperation(NoDownloadUrlMessage(name)))
  {
    match FirstNamed(artifacts, name)
    case None => Failure(InvalidOperation(NotFoundMessage(name, buildId)))
    case Some(i) =>
      match artifacts[i].downloadUrl
      case None => Failure(InvalidOperation(NoDownloadUrlMessage(name)))
      case Some(url) => Success(url)
  }

  /**
   * `DownloadArtifactAsync`: list the artifacts, resolve the name, then GET
   * the download URL; the content returned is what would be written to the
   * output file.
   */
  function DownloadArtifact(
    fetchArtifacts: string -> Response<seq<ArtifactRaw>>, download: string -> Result<seq<bv8>>, buildId: int, name: string)
    : (r: Result<seq<bv8>>)
    ensures GetArtifacts(fetchArtifacts, buildId).Failure? ==> r == Failure(GetArtifacts(fetchArtifacts, buildId).error)
    ensures GetArtifacts(fetchArtifacts, buildId).Success? ==>
              var resolved := ResolveDownloadUrl(GetArtifacts(fetchArtifacts, buildId).value, name, buildId);
              r == if resolved.Success? then download(resolved.value) else Failure(resolved.error)
  {
    match GetArtifacts(fetchArtifacts, buildId)
    case Failure(e) => Failure(e)
    case Success(artifacts) =>
      match ResolveDownloadUrl(artifacts, name, buildId)
      case Failure(e) => Failure(e)
      case Success(url) => download(url)
  }

  /** When the name does not resolve to a URL, no download is attempted: the outcome does not depend on `download`. */
  lemma NoDownloadWithoutUrl(
    fetchArtifacts: string -> Response<seq<ArtifactRaw>>, d1: string -> Result<seq<bv8>>, d2: string -> Result<seq<bv8>>,
    buildId: int, name: string)
    requires GetArtifacts(fetchArtifacts, buildId).Failure?
             || ResolveDownloadUrl(GetArtifacts(fetchArtifacts, buildId).value, name, buildId).Failure?
    ensures DownloadArtifact(fetchArtifacts, d1, buildId, name) == DownloadArtifact(fetchArtifacts, d2, buildId, name)
    ensures DownloadArtifact(fetchArtifacts, d1, buildId, name).Failure?
  {
  }
}
