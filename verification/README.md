# pipeline-triage, modelled in Dafny

pipeline-triage is a set of tools for triaging CI failures of the .NET repositories. It has three parts:

- Adapters for two backends:
  - the Azure DevOps build service (builds, test runs, timelines, artifacts);
  - the Helix test-execution service, queried in Kusto.
- An MCP server whose tools forward to the build-service adapter.
- A `pipeline` command line.

This project models the deterministic logic beneath the I/O and proves what that logic promises.

- **Requests.** The adapters build each request: a relative URL for the build service, or a Kusto query text for Helix.
- **Mapping.** The adapters map the wire records to domain records. Defaults apply: `"unknown"` for a missing definition name, empty lists for missing issues and records, and absent URLs.
- **Aggregation and lookup:**
  - test failures are collected run by run;
  - artifacts are looked up by exact name;
  - `Single()` looks up one work item;
  - consoles are fetched one per work item.
- **The timeline views.** Issues are flattened. Job names keep input order. Children are selected by parent id and stably sorted by `Order`. Records whose parent does not exist are invisible to a walk from the top.
- **The MCP tools.** The `pr`/`ci` reason-filter switch, the job list, and the `top` default.
- **The command line:**
  - the `GetOption` scan;
  - the `owner/repository` check;
  - the defaults for `--org`, `--project` and `--top`;
  - the precedence of `--pr` over `--build`;
  - the argument errors;
  - the adapter call each command ends in.

Remote calls are function-typed parameters.

- Build-service requests are keyed by their relative URL.
- A Kusto query is keyed by its text and yields rows or an exception.
- A console or artifact download is keyed by its URL.

Each exception of the source is a `Failure` carrying an `Error`. Because the failure is returned rather than thrown, no partial result is ever returned. The modules are:

- `Common` (common.dfy): `Option`, `Result`, `Response`, and the `Filter`, `Traverse` and `Flatten` combinators. `Traverse` is a `foreach` whose first exception ends the loop.
- `Text` (text.dfy): integer rendering and parsing, `string.Split`, the query part of a relative URL, `ToLowerInvariant`, and `Uri.EscapeDataString`.
- `AzdoTimeline` (timeline.dfy): the timeline record types and their views.
- `Azdo` (azdo.dfy): the build-service adapter.
- `Helix` (helix.dfy): the Helix adapter. A query is a list of clauses rendered one per line.
- `AzdoMcpTools` (mcp.dfy): the MCP tools.
- `Cli` (cli.dfy): the `pipeline` command line.

Two behaviours of the code worth noting:

- **Job names are not distinct.** `GetJobNames` (src/Pipeline.Core/AzdoClient.cs:68-70, documented as the names of all Job records) keeps duplicates, and so does `AzdoTimeline.GetJobNames`.
- **The `helix` command calls an API that does not exist.** src/Pipeline/Program.cs:50 and :69 call `Helix.CreateAsync` and `GetHelixWorkItemsForBuild`, which HelixClient.cs does not define. `Cli.RunHelix` models the evident intent: `GetHelixWorkItemsForBuildAsync` with `includeAll` left at its default of false.

## Model

| member | source | states |
|---|---|---|
| `AzdoTimeline.IssuesAppend` | src/Pipeline.Core/AzdoClient.cs:64-66 | the issues of `a + b` are the issues of `a` followed by those of `b`, so record order is kept |
| `AzdoTimeline.IssuesLength` | src/Pipeline.Core/AzdoClient.cs:64-66 | the number of issues is the sum of the per-record issue counts |
| `AzdoTimeline.IssuesMembership` | src/Pipeline.Core/AzdoClient.cs:64-66 | an issue is listed exactly when some record carries it |
| `AzdoTimeline.GetJobNames` | src/Pipeline.Core/AzdoClient.cs:68-70 | one name per Job record; a name is listed exactly when some Job record has it |
| `AzdoTimeline.JobNamesAppend` | src/Pipeline.Core/AzdoClient.cs:68-70 | job names follow input order, not `Order`, with duplicates kept |
| `AzdoTimeline.SortByOrderIsStableSort` | src/Pipeline.Core/AzdoClient.cs:74 | the insertion sort is a stable sort by `Order`: ascending, ties in input order, a permutation |
| `AzdoTimeline.StableSortUnique` | src/Pipeline.Core/AzdoClient.cs:74 | any two stable sorts of one input are equal, so the sort is exactly LINQ's `OrderBy` |
| `AzdoTimeline.GetChildren` | src/Pipeline.Core/AzdoClient.cs:73-74 | exactly the records whose parent id equals the argument (none selects top-level records), ascending by `Order`, stably |
| `AzdoTimeline.GetChildrenIsOrderBy` | src/Pipeline.Core/AzdoClient.cs:73-74 | every stable sort of the matching records equals the child list |
| `AzdoTimeline.ChildrenTiesKeepInputOrder` | src/Pipeline.Core/AzdoClient.cs:73-74 | children with equal `Order` appear in the order they have in the timeline |
| `AzdoTimeline.OrphanIsNoOnesChild` | src/Pipeline.Core/AzdoClient.cs:73-74 | a record whose parent id names no record is neither top-level nor a child of any record |
| `AzdoTimeline.WalkAnchored` | src/Pipeline.Core/AzdoClient.cs:73-74 | every record a walk from an existing parent reaches is in the timeline and top-level or the child of an existing record |
| `AzdoTimeline.OrphanNeverWalked` | src/Pipeline.Core/AzdoClient.cs:73-74 | a walk from the top-level records, at any depth, never reaches an orphan |
| `AzdoTimeline.TopLevelWalked` | src/Pipeline.Core/AzdoClient.cs:73-74 | every top-level record is reached by a walk from the top |
| `AzdoTimeline.JobsByOrder` | src/Pipeline/Program.cs:312-315 | exactly the Job records, whatever their nesting, stably sorted by `Order` |
| `AzdoTimeline.JobsByOrderMatchesJobNames` | src/Pipeline.Core/AzdoClient.cs:68-70 | the sorted job list and the job names count the same records and carry the same names |
| `Azdo.BuildUri` | src/Pipeline.Core/AzdoClient.cs:144-145 | the web URI starts with `https://dev.azure.com/{org}/{project}/_build/results?buildId=` |
| `Azdo.BuildUriRoundTrip` | src/Pipeline.Core/AzdoClient.cs:144-145 | the build id is read back from the web URI |
| `Azdo.BuildUriInjective` | src/Pipeline.Core/AzdoClient.cs:144-145 | different builds get different web URIs |
| `Azdo.BuildUriQuery` | src/Pipeline.Core/AzdoClient.cs:144-145 | the web URI's only query parameter is `buildId` with the id |
| `Azdo.MapBuild` | src/Pipeline.Core/AzdoClient.cs:162-172 | every field is copied, the URI is the derived web URI, and the definition name is `"unknown"` when there is no definition |
| `Azdo.MapBuilds` | src/Pipeline.Core/AzdoClient.cs:162-172 | same length and order as the raw list, each element mapped |
| `Azdo.MapBuildIgnoresRawUri` | src/Pipeline.Core/AzdoClient.cs:168 | the backend's own `uri` has no effect on the mapped build |
| `Azdo.MapBuildsDistinctUris` | src/Pipeline.Core/AzdoClient.cs:162-172 | builds with different ids get different URIs |
| `Azdo.RecentBuildsUrl` | src/Pipeline.Core/AzdoClient.cs:149-153 | path `_apis/build/builds`; parameters `api-version=7.1` and `$top`, then `definitions` when a definition is given |
| `Azdo.RecentBuildsDefinitionsIff` | src/Pipeline.Core/AzdoClient.cs:150-153 | the `definitions` parameter is present if and only if a definition id is given |
| `Azdo.RepositoryBuildsUrl` | src/Pipeline.Core/AzdoClient.cs:177-181 | `$top`, the escaped repository and `repositoryType=GitHub`, then the escaped reason filter when one is given |
| `Azdo.RepositoryBuildsReasonFilterIff` | src/Pipeline.Core/AzdoClient.cs:178-181 | the `reasonFilter` parameter is present if and only if a reason filter is given |
| `Azdo.PullRequestBranch` | src/Pipeline.Core/AzdoClient.cs:205 | the merge ref is longer than its fixed prefix and suffix |
| `Azdo.PullRequestBranchRoundTrip` | src/Pipeline.Core/AzdoClient.cs:205 | the pull-request number is read back from `refs/pull/{n}/merge` |
| `Azdo.PullRequestBranchInjective` | src/Pipeline.Core/AzdoClient.cs:205 | different pull requests get different merge refs |
| `Azdo.PullRequestBuildsUrl` | src/Pipeline.Core/AzdoClient.cs:205-206 | `$top`, the escaped merge ref, the escaped repository and `repositoryType=GitHub` |
| `Azdo.TestRunsUrl` | src/Pipeline.Core/AzdoClient.cs:230-231 | path `_apis/test/runs`; the `buildUri` parameter is the escaped `vstfs:///Build/Build/{id}` |
| `Azdo.TestResultsUrl` | src/Pipeline.Core/AzdoClient.cs:243 | path `_apis/test/Runs/{id}/results`; parameters `api-version=7.1` and `outcomes=Failed` |
| `Azdo.TestResultsUrlInjective` | src/Pipeline.Core/AzdoClient.cs:243 | different runs are asked for at different URLs |
| `Azdo.BuildResourceUrl` | src/Pipeline.Core/AzdoClient.cs:270 | one resource of a build: path `_apis/build/builds/{id}` plus the resource's suffix, with only `api-version` |
| `Azdo.TimelineUrl` | src/Pipeline.Core/AzdoClient.cs:270 | path `_apis/build/builds/{id}/timeline` with only `api-version` |
| `Azdo.ArtifactsUrl` | src/Pipeline.Core/AzdoClient.cs:307 | path `_apis/build/builds/{id}/artifacts` with only `api-version` |
| `Azdo.ListBuilds` | src/Pipeline.Core/AzdoClient.cs:155-172 | success exactly when the response is readable; then the mapped builds; a non-success status is an HTTP error |
| `Azdo.GetRecentBuilds` | src/Pipeline.Core/AzdoClient.cs:147-173 | one request at the recent-builds URL; success exactly when it answers, with its builds mapped |
| `Azdo.GetBuildsForRepository` | src/Pipeline.Core/AzdoClient.cs:175-201 | one request at the repository URL; success exactly when it answers, with its builds mapped |
| `Azdo.GetBuildsForPullRequest` | src/Pipeline.Core/AzdoClient.cs:203-226 | one request at the pull-request URL; success exactly when it answers, with its builds mapped |
| `Azdo.TagAll` | src/Pipeline.Core/AzdoClient.cs:251-262 | one failure per result, in order, each with the result's title, outcome, error message and stack trace and the run's id and name |
| `Azdo.CollectFailures` | src/Pipeline.Core/AzdoClient.cs:240-265 | zero runs give an empty list; success exactly when every run's results are fetched |
| `Azdo.RunFailuresSuccess` | src/Pipeline.Core/AzdoClient.cs:243-262 | one run's step succeeds exactly when its results answer, and then yields those results tagged with the run |
| `Azdo.AddRunFailures` | src/Pipeline.Core/AzdoClient.cs:251-262 | the inner loop appends the run's tagged results to the list |
| `Azdo.AddAllRunFailures` | src/Pipeline.Core/AzdoClient.cs:240-265 | the outer loop computes exactly `CollectFailures`, stopping at the first failed fetch |
| `Azdo.GetTestFailures` | src/Pipeline.Core/AzdoClient.cs:228-266 | the runs request, then the failures of each run, as `TestFailuresOf` |
| `Azdo.CollectFailuresAppend` | src/Pipeline.Core/AzdoClient.cs:241-263 | the failures of runs `a + b` are those of `a` followed by those of `b` |
| `Azdo.CollectFailuresOneRun` | src/Pipeline.Core/AzdoClient.cs:241-263 | a single run contributes exactly its results, tagged with it |
| `Azdo.FailuresCarryTheirRun` | src/Pipeline.Core/AzdoClient.cs:259-260 | every failure carries the id of one of the listed runs |
| `Azdo.CollectFailuresFirstError` | src/Pipeline.Core/AzdoClient.cs:244-249 | the first run whose results do not answer decides the error, and no partial list is returned |
| `Azdo.MapRecord` | src/Pipeline.Core/AzdoClient.cs:280-301 | every field copied (id, parent, name, type, order, state, result, error and warning counts, start and finish times, worker), the issues the raw issues mapped one by one with a missing list read as empty, the log URL absent when there is no log reference |
| `Azdo.MapTimeline` | src/Pipeline.Core/AzdoClient.cs:278-302 | a missing record list reads as empty; one record per raw record, in order |
| `Azdo.MapTimelineKeepsIssues` | src/Pipeline.Core/AzdoClient.cs:295-300 | the mapped timeline's issues are the raw issues mapped, in order |
| `Azdo.MappedIssueCount` | src/Pipeline.Core/AzdoClient.cs:295-300 | mapping neither adds nor drops issues |
| `Azdo.GetTimeline` | src/Pipeline.Core/AzdoClient.cs:268-303 | one request at the timeline URL; success exactly when it answers, with the timeline mapped |
| `Azdo.MapArtifact` | src/Pipeline.Core/AzdoClient.cs:315-321 | id and name copied; URL and type taken from the resource, absent without one |
| `Azdo.MapArtifacts` | src/Pipeline.Core/AzdoClient.cs:315-321 | same length and order as the raw list, each element mapped |
| `Azdo.GetArtifacts` | src/Pipeline.Core/AzdoClient.cs:305-322 | one request at the artifacts URL; success exactly when it answers, with the artifacts mapped |
| `Azdo.FirstNamed` | src/Pipeline.Core/AzdoClient.cs:327 | the index of the first artifact whose name is exactly the one asked for, or none when no name matches |
| `Azdo.ResolveDownloadUrl` | src/Pipeline.Core/AzdoClient.cs:327-331 | no match gives the "not found" error; otherwise the first match's URL, or the "no download URL" error when it has none |
| `Azdo.DownloadArtifact` | src/Pipeline.Core/AzdoClient.cs:324-337 | list the artifacts, resolve the name, then download exactly the resolved URL |
| `Azdo.NoDownloadWithoutUrl` | src/Pipeline.Core/AzdoClient.cs:326-333 | when listing or resolving fails, the outcome is a failure and does not depend on the download service: no download is issued |
| `Helix.ForBuildFailedOnlyIff` | src/Pipeline.Core/HelixClient.cs:77-94 | the build query's clause list holds the `where ExitCode != 0` clause if and only if `includeAll` is false |
| `Helix.ForBuildQueryLines` | src/Pipeline.Core/HelixClient.cs:80-93 | with an owner and repository free of line breaks, the lines of the build query text are its clauses rendered, in order |
| `Helix.ForBuildQueryFailedOnlyIff` | src/Pipeline.Core/HelixClient.cs:77-94 | with an owner and repository free of line breaks, the failed-only line (`where ExitCode != 0` after the pipe) is one of the lines of the build query text if and only if `includeAll` is false |
| `Helix.ForPullRequestFailedOnlyIff` | src/Pipeline.Core/HelixClient.cs:99-116 | the pull-request query's clause list holds the `where ExitCode != 0` clause if and only if `includeAll` is false |
| `Helix.ForPullRequestQueryLines` | src/Pipeline.Core/HelixClient.cs:102-115 | with an owner and repository free of line breaks, the lines of the pull-request query text are its clauses rendered, in order |
| `Helix.ForPullRequestQueryFailedOnlyIff` | src/Pipeline.Core/HelixClient.cs:99-116 | with an owner and repository free of line breaks, the failed-only line (`where ExitCode != 0` after the pipe) is one of the lines of the pull-request query text if and only if `includeAll` is false |
| `Helix.WorkItemNeverFailedOnly` | src/Pipeline.Core/HelixClient.cs:123-135 | the single-work-item query never filters on the exit code |
| `Helix.ListQueriesFilter` | src/Pipeline.Core/HelixClient.cs:82-104 | with an owner and repository free of line breaks, both query texts have 13 lines, the second being the pipe and `where Repository == "{owner}/{repository}"`; the build query's seventh line is the pipe and `where AzdoBuildId == {n}` |
| `Helix.BranchFilterMatchesBuildService` | src/Pipeline.Core/HelixClient.cs:105 | with an owner and repository free of line breaks, the pull-request query text's third line is the pipe and `where Branch == "{ref}"`, where `{ref}` is the build service's merge ref `refs/pull/{n}/merge` |
| `Helix.MapRow` | src/Pipeline.Core/HelixClient.cs:152-185 | columns are copied by position into the matching fields; an attempt that does not parse is a format error |
| `Helix.QueryHelixWorkItem` | src/Pipeline.Core/HelixClient.cs:141-196 | the read loop computes exactly `QueryResult`: every row mapped, the first bad row or a query exception failing the whole |
| `Helix.QueryResultRows` | src/Pipeline.Core/HelixClient.cs:150-188 | a successful read has one work item per row, each the row mapped |
| `Helix.QueryResultFails` | src/Pipeline.Core/HelixClient.cs:143-195 | the read fails exactly when the query throws or some row's attempt does not parse |
| `Helix.QueryResultFirstBadAttempt` | src/Pipeline.Core/HelixClient.cs:157 | the first non-numeric attempt fails the read with that text; the row is not skipped |
| `Helix.GetHelixWorkItemsForBuild` | src/Pipeline.Core/HelixClient.cs:77-97 | runs the build query, failed items only by default |
| `Helix.GetHelixWorkItemsForPullRequest` | src/Pipeline.Core/HelixClient.cs:99-119 | runs the pull-request query, failed items only by default |
| `Helix.Single` | src/Pipeline.Core/HelixClient.cs:138 | success exactly for one element; distinct errors for none and for more than one |
| `Helix.GetHelixWorkItem` | src/Pipeline.Core/HelixClient.cs:121-139 | runs the single-item query and returns its sole row |
| `Helix.WorkItemResultIsSoleRow` | src/Pipeline.Core/HelixClient.cs:137-138 | success exactly when the query returns one row whose attempt parses; then that row mapped |
| `Helix.GetConsole` | src/Pipeline.Core/HelixClient.cs:198-208 | job id and work-item id copied from the work item, text from its console URI |
| `Helix.GetConsoles` | src/Pipeline.Core/HelixClient.cs:210-225 | the loop fetches the consoles in order and stops at the first failed fetch |
| `Helix.ConsolesMatchItems` | src/Pipeline.Core/HelixClient.cs:213-224 | one console per work item, in order, each with that item's ids; success exactly when every fetch succeeds |
| `AzdoMcpTools.ReasonFilterFor` | src/Pipeline.Mcp/AzdoMcpTools.cs:18-25 | the default filter `all` means no reason filter |
| `AzdoMcpTools.ReasonFilterSpellings` | src/Pipeline.Mcp/AzdoMcpTools.cs:20-25 | `pr` in any letter case gives `pullRequest`, `ci` in any case gives `individualCI,batchedCI`, and every other value gives none |
| `AzdoMcpTools.GetBuildsForRepository` | src/Pipeline.Mcp/AzdoMcpTools.cs:14-29 | asks the adapter with `top` unchanged and the mapped reason filter |
| `AzdoMcpTools.RepositoryToolRequest` | src/Pipeline.Mcp/AzdoMcpTools.cs:17-27 | the request carries `$top` as given, and `reasonFilter` exactly for `pr` or `ci` in any case |
| `AzdoMcpTools.GetRecentBuilds` | src/Pipeline.Mcp/AzdoMcpTools.cs:32-39 | asks the adapter with the definition and `top` unchanged |
| `AzdoMcpTools.RecentToolDefaults` | src/Pipeline.Mcp/AzdoMcpTools.cs:34-37 | with the defaults the request asks for `$top=10` and no definition |
| `AzdoMcpTools.GetBuildsForPullRequest` | src/Pipeline.Mcp/AzdoMcpTools.cs:42-50 | asks the adapter with the pull request and `top` unchanged |
| `AzdoMcpTools.GetJobs` | src/Pipeline.Mcp/AzdoMcpTools.cs:80-90 | exactly the timeline's Job records, whatever their nesting, stably sorted by `Order` |
| `AzdoMcpTools.GetJobsIsOrderBy` | src/Pipeline.Mcp/AzdoMcpTools.cs:85-88 | every stable sort by `Order` of the Job records is the tool's list |
| `Cli.OptionValueAt` | src/Pipeline/Program.cs:167-170 | the argument after the first occurrence of the name is the value |
| `Cli.OptionValueAbsent` | src/Pipeline/Program.cs:167-172 | there is no value exactly when the name is absent or occurs only as the last argument |
| `Cli.GetOption` | src/Pipeline/Program.cs:165-173 | the scan returns exactly `OptionValue` |
| `Cli.ParseRepoAccepts` | src/Pipeline/Program.cs:33-41 | accepted exactly when the text has one `/`; owner and repository are what surrounds it |
| `Cli.ParseRepoRoundTrip` | src/Pipeline/Program.cs:33-41 | every slash-free owner and repository is read back from `owner/repository` |
| `Cli.RepoFilterIsArgument` | src/Pipeline/Program.cs:33-41 | the work-item queries filter on the `--repo` text exactly as given |
| `Cli.RunHelix` | src/Pipeline/Program.cs:21-75 | no `--repo` gives usage; a bad `--repo` is rejected; `--pr` wins over `--build`; a non-integer is rejected; otherwise the failed work items are queried |
| `Cli.DefaultClient` | src/Pipeline/Program.cs:102-103 | without `--org` and `--project` the commands talk to `dnceng-public/public` |
| `Cli.ClientFor` | src/Pipeline/Program.cs:102-103 | the client is `--org` and `--project`, or the defaults |
| `Cli.RunAzdoBuilds` | src/Pipeline/Program.cs:100-135 | a non-integer `--definition` or `--top` is rejected; otherwise recent builds, with `--top` defaulting to 10 |
| `Cli.RequireBuildId` | src/Pipeline/Program.cs:141-154 | a missing `--build` is required; a non-integer is rejected; otherwise its value |
| `Cli.RunAzdoTests` | src/Pipeline/Program.cs:137-163 | completes exactly when `--build` is an integer, with that build's test failures |
| `Cli.RunAzdoTimeline` | src/Pipeline/Program.cs:205-231 | completes exactly when `--build` is an integer, with that build's timeline |
| `Cli.RunAzdoArtifacts` | src/Pipeline/Program.cs:233-259 | completes exactly when `--build` is an integer, with that build's artifacts |
| `Cli.RunAzdoJobs` | src/Pipeline/Program.cs:290-320 | completes exactly when `--build` is an integer, with the Job records stably sorted by `Order` |
| `Cli.RunAzdoDownload` | src/Pipeline/Program.cs:261-288 | `--build`, `--artifact` and `--output` are all required; then the download of the named artifact |
| `Cli.Route` | src/Pipeline/Program.cs:5-19 | `helix` and `azdo <action>` reach their command with the remaining arguments; anything else prints usage |

## Left out

- **HTTP and Kusto execution** are parameters of the model. This covers `HttpClient`, `EnsureSuccessStatusCode`, the Kusto client and the reader. A response is a body, a non-success status or an unreadable body. A query yields rows or an exception.
- **Token acquisition and client construction** (`CreateAsync`) are not modelled. A client is its organisation and project.
- **JSON (de)serialisation** is not modelled. Raw records are given datatypes. A null deserialisation result is an `InvalidOperation` failure whose message is not compared.
- **The MCP tools' and the command line's output** is not modelled: the JSON text they print or return, usage text, console output and the VPN hint in the query's catch block. A command's outcome stands for what it prints.
- **Floating-point durations** are given integers. This covers `GetDouble`, `TimeSpan.FromSeconds` and the `(int)` truncation.
- **`DateTime` values** are opaque. No arithmetic is done on them.
- **Integer widths** are not modelled. 32-bit and 64-bit ids are unbounded integers, and no overflow is possible in the logic modelled.
- **`int.Parse` and `int.TryParse`** are parameters. Their acceptance of whitespace, signs and culture formats is .NET behaviour.
- `Text.EscapeDataString` is modelled as UTF-8 percent-encoding of every character outside the unreserved set of RFC 3986. Its contract states only that `&`, `=`, `?` and `/` never survive escaping.
- `Text.ToLower` lowers ASCII letters only. Under invariant casing no non-ASCII character lowers to `p`, `r`, `c` or `i`. So the outcome of the `pr`/`ci` switch is exact, but other strings are not fully lowered.
- **File streaming of a downloaded artifact** is not modelled. The downloaded content is the result, and the output path is only checked for presence.
- `Helix.ForBuildQueryFailedOnlyIff`: the if-and-only-if on the query text is stated only for an owner and repository that hold no line break. The source puts both into the query unchecked (src/Pipeline.Core/HelixClient.cs:82), and `--repo` is only split on `/` (src/Pipeline/Program.cs:33-41). An owner such as `x` + line break + `| where ExitCode != 0` + line break puts the failed-only line into the text even when `includeAll` is true. For any owner and repository the statement holds on the clause list (`Helix.ForBuildFailedOnlyIff`).
- `Helix.ForPullRequestQueryFailedOnlyIff`: stated only for an owner and repository without line breaks, for the same reason (src/Pipeline.Core/HelixClient.cs:104). `Helix.ForPullRequestFailedOnlyIff` holds on the clause list for any input.
- `Helix.ListQueriesFilter`: the line numbers are stated only for an owner and repository without line breaks. Otherwise the repository line breaks into several lines and the later lines shift.
- `Helix.BranchFilterMatchesBuildService`: stated only for an owner and repository without line breaks, for the same reason.
- **The raw-string literal's indentation and line endings** are not modelled. Lines are joined with `\n`.
- **The server-side meaning of the queries** (join, `parse_json`, the exit-code filter) is not modelled. Only the query text is.
- **The remaining MCP tools** (`GetTestFailures`, `GetTimeline`, `GetArtifacts`) forward their build id to `Azdo.GetTestFailures`, `Azdo.GetTimeline` and `Azdo.GetArtifacts` unchanged and serialise the result. They have no member of their own.
- **The `Rejected` outcome** does not record that the azdo usage text is also printed after the "`--build` is required" and "all required" messages.
- **The exit code of a command whose adapter call fails** is not modelled. That failure is an unhandled exception.
- **Walks down the record tree** take a depth bound, because parent links in a timeline may form a cycle.
