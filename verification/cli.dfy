/**
 * The `pipeline` command line: the subcommand dispatch, the `--name value`
 * option scan, the checks each command makes of its options, and the
 * adapter call each command ends in. Printing is left out; a command's
 * outcome is what it would write out and the exit code that goes with it.
 */
module Cli {
  import opened Common
  import opened Text
  import opened AzdoTimeline
  import opened Azdo
  import opened Helix

  // ---------------------------------------------------------------------------
  // GetOption

  /** The argument after the first `name` that has an argument after it; a trailing `name` has none. */
  function OptionValue(args: seq<string>, name: string): Option<string>
    decreases |args|
  {
    if |args| < 2 then None
    else if args[0] == name then Some(args[1])
    else OptionValue(args[1..], name)
  }

  /** The first occurrence of `name` before the last argument decides the value. */
  lemma {:induction false} OptionValueAt(args: seq<string>, name: string, i: int)
    requires 0 <= i < |args| - 1 && args[i] == name
    requires forall j :: 0 <= j < i ==> args[j] != name
    ensures OptionValue(args, name) == Some(args[i + 1])
  {
    if i > 0 {
      OptionValueAt(args[1..], name, i - 1);
    }
  }

  /** There is no value exactly when `name` occurs nowhere but possibly as the last argument. */
  lemma {:induction false} OptionValueAbsent(args: seq<string>, name: string)
    ensures OptionValue(args, name).None? <==> forall i :: 0 <= i < |args| - 1 ==> args[i] != name
  {
    if |args| >= 2 && args[0] != name {
      OptionValueAbsent(args[1..], name);
      assert forall i :: 1 <= i < |args| - 1 ==> args[i] == args[1..][i - 1];
    }
  }

  /** `GetOption`: scan up to the last-but-one argument and return the one after the first match. */
  method GetOption(args: seq<string>, name: string) returns (value: Option<string>)
    ensures value == OptionValue(args, name)
  {
    var i := 0;
    while i < |args| - 1
      invariant 0 <= i
      invariant forall j :: 0 <= j < i && j < |args| - 1 ==> args[j] != name
    {
      if args[i] == name {
        OptionValueAt(args, name, i);
        return Some(args[i + 1]);
      }
      i := i + 1;
    }
    OptionValueAbsent(args, name);
    return None;
  }

  // ---------------------------------------------------------------------------
  // The owner/repository argument

  /** `repo.Split('/')` must give exactly two parts: the owner and the repository. */
  function ParseRepo(repo: string): Option<(string, string)> {
    var parts := Split(repo, '/');
    if |parts| == 2 then Some((parts[0], parts[1])) else None
  }

  /** Accepted exactly when the text has one '/'; the two parts are what surrounds it. */
  lemma ParseRepoAccepts(repo: string)
    ensures ParseRepo(repo).Some? <==> Count(repo, '/') == 1
    ensures ParseRepo(repo).Some? ==>
              var (owner, repository) := ParseRepo(repo).value;
              '/' !in owner && '/' !in repository && owner + "/" + repository == repo
  {
    var parts := Split(repo, '/');
    if |parts| == 2 {
      JoinSplit(repo, '/');
      assert Join(parts[1..], '/') == parts[1];
    }
  }

  /** Every slash-free owner and repository is read back from `owner/repository`. */
  lemma ParseRepoRoundTrip(owner: string, repository: string)
    requires '/' !in owner && '/' !in repository
    ensures ParseRepo(owner + "/" + repository) == Some((owner, repository))
  {
    SplitAtFirst(owner, repository, '/');
    SplitWithoutSeparator(repository, '/');
  }

  /** The work-item queries filter on the `--repo` text exactly as given. */
  lemma RepoFilterIsArgument(repo: string)
    requires ParseRepo(repo).Some?
    ensures RepositoryFilter(ParseRepo(repo).value.0, ParseRepo(repo).value.1) == Where("Repository == \"" + repo + "\"")
  {
    ParseRepoAccepts(repo);
  }

  // ---------------------------------------------------------------------------
  // Commands

  /**
   * What a command ends in: its usage text (exit code 1), an error message
   * (exit code 1), or the adapter's result (written out with exit code 0 on
   * success; a failure is an unhandled exception).
   */
  datatype Outcome<+T> = Usage | Rejected(message: string) | Completed(result: Result<T>)

  /** The remote services, each request keyed by its URL or query text and answered by the backend of the given client. */
  datatype Services = Services(
    builds: Client -> string -> Response<seq<BuildRaw>>,
    testRuns: Client -> string -> Response<seq<TestRun>>,
    testResults: Client -> string -> Response<seq<TestResult>>,
    timeline: Client -> string -> Response<TimelineRaw>,
    artifacts: Client -> string -> Response<seq<ArtifactRaw>>,
    download: string -> Result<seq<bv8>>,
    execute: string -> QueryOutcome,
    parseAttempt: string -> Option<int>)

  function NotAnInteger(option: string, value: string): string {
    "Error: " + option + " must be an integer, got '" + value + "'"
  }

  function NotOwnerRepository(repo: string): string {
    "Error: --repo must be in owner/repository format, got '" + repo + "'"
  }

  const BuildRequired: string := "Error: --build is required"
  const DownloadOptionsRequired: string := "Error: --build, --artifact, and --output are required"
  const DefaultTop: int := 10

  /**
   * `helix`: `--repo` is required and must be `owner/repository`; then
   * `--pr` wins over `--build`, whichever is used must be an integer, and
   * the failed work items of that pull request or build are queried.
   */
  method RunHelix(args: seq<string>, tryParse: string -> Option<int>, services: Services)
    returns (o: Outcome<seq<WorkItem>>)
    ensures OptionValue(args, "--repo").None? ==> o == Usage
    ensures var repo := OptionValue(args, "--repo");
            repo.Some? && ParseRepo(repo.value).None? ==> o == Rejected(NotOwnerRepository(repo.value))
    ensures var repo, pr, build := OptionValue(args, "--repo"), OptionValue(args, "--pr"), OptionValue(args, "--build");
            repo.Some? && ParseRepo(repo.value).Some? ==>
              var (owner, repository) := ParseRepo(repo.value).value;
              o == if pr.Some? then
                     if tryParse(pr.value).None? then Rejected(NotAnInteger("--pr", pr.value))
                     else Completed(QueryResult(services.execute, services.parseAttempt,
                                                ForPullRequestQuery(owner, repository, tryParse(pr.value).value, false)))
                   else if build.Some? then
                     if tryParse(build.value).None? then Rejected(NotAnInteger("--build", build.value))
                     else Completed(QueryResult(services.execute, services.parseAttempt,
                                                ForBuildQuery(owner, repository, tryParse(build.value).value, false)))
                   else Usage
  {
    var repo := GetOption(args, "--repo");
    var prValue := GetOption(args, "--pr");
    var buildValue := GetOption(args, "--build");
    if repo.None? {
      return Usage;
    }
    var parts := Split(repo.value, '/');
    if |parts| != 2 {
      return Rejected(NotOwnerRepository(repo.value));
    }
    var owner, repository := parts[0], parts[1];
    if prValue.None? && buildValue.None? {
      return Usage;
    }
    var workItems;
    if prValue.Some? {
      var prNumber := tryParse(prValue.value);
      if prNumber.None? {
        return Rejected(NotAnInteger("--pr", prValue.value));
      }
      workItems := GetHelixWorkItemsForPullRequest(services.execute, services.parseAttempt, owner, repository, prNumber.value);
    } else {
      var buildNumber := tryParse(buildValue.value);
      if buildNumber.None? {
        return Rejected(NotAnInteger("--build", buildValue.value));
      }
      workItems := GetHelixWorkItemsForBuild(services.execute, services.parseAttempt, owner, repository, buildNumber.value);
    }
    return Completed(workItems);
  }

  /** The backend a build-service command talks to: `--org` and `--project`, or the public defaults. */
  function RequestedClient(args: seq<string>): Client {
    Client(OptionValue(args, "--org").GetOr(DefaultOrganization), OptionValue(args, "--project").GetOr(DefaultProject))
  }

  /** Without `--org` and `--project` every command talks to the public project. */
  lemma DefaultClient(args: seq<string>)
    requires forall i :: 0 <= i < |args| - 1 ==> args[i] != "--org" && args[i] != "--project"
    ensures RequestedClient(args) == Client("dnceng-public", "public")
  {
    OptionValueAbsent(args, "--org");
    OptionValueAbsent(args, "--project");
  }

  method ClientFor(args: seq<string>) returns (client: Client)
    ensures client == RequestedClient(args)
  {
    var org := GetOption(args, "--org");
    var project := GetOption(args, "--project");
    client := Client(org.GetOr(DefaultOrganization), project.GetOr(DefaultProject));
  }

  /**
   * `azdo builds`: `--definition` and `--top` are optional but must be
   * integers when given; `--top` defaults to 10.
   */
  method RunAzdoBuilds(args: seq<string>, tryParse: string -> Option<int>, services: Services)
    returns (o: Outcome<seq<Build>>)
    ensures var definition := OptionValue(args, "--definition");
            definition.Some? && tryParse(definition.value).None? ==> o == Rejected(NotAnInteger("--definition", definition.value))
    ensures var definition, top := OptionValue(args, "--definition"), OptionValue(args, "--top");
            (definition.None? || tryParse(definition.value).Some?) && top.Some? && tryParse(top.value).None? ==>
              o == Rejected(NotAnInteger("--top", top.value))
    ensures var definition, top := OptionValue(args, "--definition"), OptionValue(args, "--top");
            (definition.None? || tryParse(definition.value).Some?) && (top.None? || tryParse(top.value).Some?) ==>
              var client := RequestedClient(args);
              var definitionId := if definition.Some? then tryParse(definition.value) else None;
              var count := if top.Some? then tryParse(top.value).value else DefaultTop;
              o == Completed(GetRecentBuilds(client, services.builds(client), definitionId, count))
  {
    var client := ClientFor(args);
    var definitionValue := GetOption(args, "--definition");
    var topValue := GetOption(args, "--top");
    var definitionId: Option<int> := None;
    if definitionValue.Some? {
      var id := tryParse(definitionValue.value);
      if id.None? {
        return Rejected(NotAnInteger("--definition", definitionValue.value));
      }
      definitionId := id;
    }
    var top := DefaultTop;
    if topValue.Some? {
      var parsed := tryParse(topValue.value);
      if parsed.None? {
        return Rejected(NotAnInteger("--top", topValue.value));
      }
      top := parsed.value;
    }
    return Completed(GetRecentBuilds(client, services.builds(client), definitionId, top));
  }

  /** The `--build` option the per-build commands require, as an integer. */
  datatype Checked<+T> = Valid(value: T) | Invalid(message: string)

  method RequireBuildId(args: seq<string>, tryParse: string -> Option<int>) returns (c: Checked<int>)
    ensures OptionValue(args, "--build").None? ==> c == Invalid(BuildRequired)
    ensures var build := OptionValue(args, "--build");
            build.Some? ==> c == if tryParse(build.value).Some? then Valid(tryParse(build.value).value)
                                 else Invalid(NotAnInteger("--build", build.value))
  {
    var buildValue := GetOption(args, "--build");
    if buildValue.None? {
      return Invalid(BuildRequired);
    }
    var buildId := tryParse(buildValue.value);
    if buildId.None? {
      return Invalid(NotAnInteger("--build", buildValue.value));
    }
    return Valid(buildId.value);
  }

  /** The `--build` value every per-build command works on, once it has passed its checks. */
  predicate BuildIdGiven(args: seq<string>, tryParse: string -> Option<int>, buildId: int) {
    OptionValue(args, "--build").Some? && tryParse(OptionValue(args, "--build").value) == Some(buildId)
  }

  /** `azdo tests`: the failed test results of the build. */
  method RunAzdoTests(args: seq<string>, tryParse: string -> Option<int>, services: Services)
    returns (o: Outcome<seq<TestFailure>>)
    ensures OptionValue(args, "--build").None? ==> o == Rejected(BuildRequired)
    ensures o.Completed? <==> exists id :: BuildIdGiven(args, tryParse, id)
    ensures forall id :: BuildIdGiven(args, tryParse, id) ==>
              var client := RequestedClient(args);
              o == Completed(TestFailuresOf(id, services.testRuns(client), services.testResults(client)))
  {
    var client := ClientFor(args);
    var buildId := RequireBuildId(args, tryParse);
    if buildId.Invalid? {
      return Rejected(buildId.message);
    }
    assert BuildIdGiven(args, tryParse, buildId.value);
    var failures := GetTestFailures(buildId.value, services.testRuns(client), services.testResults(client));
    return Completed(failures);
  }

  /** `azdo timeline`: the build's timeline. */
  method RunAzdoTimeline(args: seq<string>, tryParse: string -> Option<int>, services: Services)
    returns (o: Outcome<Timeline>)
    ensures OptionValue(args, "--build").None? ==> o == Rejected(BuildRequired)
    ensures o.Completed? <==> exists id :: BuildIdGiven(args, tryParse, id)
    ensures forall id :: BuildIdGiven(args, tryParse, id) ==>
              o == Completed(GetTimeline(services.timeline(RequestedClient(args)), id))
  {
    var client := ClientFor(args);
    var buildId := RequireBuildId(args, tryParse);
    if buildId.Invalid? {
      return Rejected(buildId.message);
    }
    assert BuildIdGiven(args, tryParse, buildId.value);
    return Completed(GetTimeline(services.timeline(client), buildId.value));
  }

  /** `azdo artifacts`: the build's artifacts. */
  method RunAzdoArtifacts(args: seq<string>, tryParse: string -> Option<int>, services: Services)
    returns (o: Outcome<seq<Artifact>>)
    ensures OptionValue(args, "--build").None? ==> o == Rejected(BuildRequired)
    ensures o.Completed? <==> exists id :: BuildIdGiven(args, tryParse, id)
    ensures forall id :: BuildIdGiven(args, tryParse, id) ==>
              o == Completed(GetArtifacts(services.artifacts(RequestedClient(args)), id))
  {
    var client := ClientFor(args);
    var buildId := RequireBuildId(args, tryParse);
    if buildId.Invalid? {
      return Rejected(buildId.message);
    }
    assert BuildIdGiven(args, tryParse, buildId.value);
    return Completed(GetArtifacts(services.artifacts(client), buildId.value));
  }

  /**
   * `azdo jobs`: the Job records of the build's timeline, ascending by
   * `Order` with ties in timeline order.
   */
  method RunAzdoJobs(args: seq<string>, tryParse: string -> Option<int>, services: Services)
    returns (o: Outcome<seq<TimelineRecord>>)
    ensures OptionValue(args, "--build").None? ==> o == Rejected(BuildRequired)
    ensures o.Completed? <==> exists id :: BuildIdGiven(args, tryParse, id)
    ensures forall id :: BuildIdGiven(args, tryParse, id) ==>
              var response := services.timeline(RequestedClient(args))(TimelineUrl(id));
              (o.result.Success? <==> response.Ok?)
              && (o.result.Success? ==>
                    var records := MapTimeline(response.body).records;
                    (forall x :: x in o.result.value <==> x in records && IsJob(x))
                    && IsStableSortOf(o.result.value, Filter(records, IsJob)))
  {
    var client := ClientFor(args);
    var buildId := RequireBuildId(args, tryParse);
    if buildId.Invalid? {
      return Rejected(buildId.message);
    }
    assert BuildIdGiven(args, tryParse, buildId.value);
    var timeline := GetTimeline(services.timeline(client), buildId.value);
    if timeline.Failure? {
      return Completed(Failure(timeline.error));
    }
    return Completed(Success(JobsByOrder(timeline.value.records)));
  }

  /**
   * `azdo download`: `--build`, `--artifact` and `--output` are all
   * required; the content is what would be written to the output path.
   */
  method RunAzdoDownload(args: seq<string>, tryParse: string -> Option<int>, services: Services)
    returns (o: Outcome<seq<bv8>>)
    ensures (OptionValue(args, "--build").None? || OptionValue(args, "--artifact").None?
             || OptionValue(args, "--output").None?) ==> o == Rejected(DownloadOptionsRequired)
    ensures o.Completed? <==> OptionValue(args, "--artifact").Some? && OptionValue(args, "--output").Some?
                              && exists id :: BuildIdGiven(args, tryParse, id)
    ensures forall id :: BuildIdGiven(args, tryParse, id) && OptionValue(args, "--artifact").Some?
                         && OptionValue(args, "--output").Some? ==>
              o == Completed(DownloadArtifact(services.artifacts(RequestedClient(args)), services.download,
                                              id, OptionValue(args, "--artifact").value))
  {
    var client := ClientFor(args);
    var buildValue := GetOption(args, "--build");
    var artifactName := GetOption(args, "--artifact");
    var outputPath := GetOption(args, "--output");
    if buildValue.None? || artifactName.None? || outputPath.None? {
      return Rejected(DownloadOptionsRequired);
    }
    var buildId := tryParse(buildValue.value);
    if buildId.None? {
      return Rejected(NotAnInteger("--build", buildValue.value));
    }
    assert BuildIdGiven(args, tryParse, buildId.value);
    return Completed(DownloadArtifact(services.artifacts(client), services.download, buildId.value, artifactName.value));
  }

  // ---------------------------------------------------------------------------
  // Dispatch

  datatype Command =
    | PrintUsage
    | HelixCommand(options: seq<string>)
    | PrintAzdoUsage
    | AzdoCommand(action: string, options: seq<string>)

  const AzdoActions: set<string> := {"builds", "tests", "timeline", "artifacts", "download", "jobs"}

  /** The subcommand, then for `azdo` the action; the options are the arguments after them. */
  function Route(args: seq<string>): (c: Command)
    ensures c.HelixCommand? <==> |args| >= 1 && args[0] == "helix"
    ensures c.HelixCommand? ==> args == ["helix"] + c.options
    ensures c.AzdoCommand? <==> |args| >= 2 && args[0] == "azdo" && args[1] in AzdoActions
    ensures c.AzdoCommand? ==> args == ["azdo", c.action] + c.options
    ensures c.PrintAzdoUsage? <==> |args| >= 1 && args[0] == "azdo" && (|args| == 1 || args[1] !in AzdoActions)
  {
    if |args| == 0 then PrintUsage
    else if args[0] == "helix" then HelixCommand(args[1..])
    else if args[0] == "azdo" then
      if |args| == 1 || args[1] !in AzdoActions then PrintAzdoUsage else AzdoCommand(args[1], args[2..])
    else PrintUsage
  }
}
