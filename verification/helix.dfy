/**
 * The test-execution adapter (`HelixClient`): the text of the three
 * analytics queries, the reading of result rows into work items, the
 * single-item lookup, and fetching the console logs of work items.
 *
 * Running a query is a parameter `execute: string -> QueryOutcome` keyed by
 * the query text; `int.Parse` is a parameter `parse: string -> Option<int>`;
 * fetching a console log is `fetchText: string -> Result<string>` keyed by
 * its URI.
 */
module Helix {
  import opened Common
  import opened Text
  import Azdo

  datatype WorkItem = WorkItem(
    friendlyName: string,
    executionTime: int,   // whole seconds
    queueName: string,
    queuedTime: int,      // whole seconds
    azdoBuildId: int,
    azdoPhaseName: string,
    azdoAttempt: int,
    machineName: string,
    exitCode: int,
    consoleUri: string,
    jobId: int,
    jobName: string,
    finished: DateTime,
    workItemId: int,
    status: string)

  datatype WorkItemConsole = WorkItemConsole(jobId: int, workItemId: int, text: string)

  /** One result row, column by column in the order the queries project them. */
  datatype Row = Row(
    friendlyName: string,   // 0
    executionTime: int,     // 1
    queuedTime: int,        // 2
    azdoBuildId: int,       // 3
    azdoPhaseName: string,  // 4
    azdoAttempt: string,    // 5: text, parsed as an int
    machineName: string,    // 6
    exitCode: int,          // 7
    consoleUri: string,     // 8
    jobId: int,             // 9
    jobName: string,        // 10
    queueName: string,      // 11
    finished: DateTime,     // 12
    workItemId: int,        // 13
    status: string)         // 14

  /** What running a query gives: the rows in order, or the exception the query client raised. */
  datatype QueryOutcome = Rows(rows: seq<Row>) | QueryException(message: string)

  // ---------------------------------------------------------------------------
  // Query text

  /** One line of a query: a table, or a `|`-prefixed operator. */
  datatype Clause =
    | Table(name: string)
    | Where(condition: string)
    | ProjectAway(columns: seq<string>)
    | JoinOn(kind: string, table: string, key: string)
    | Extend(column: string, expression: string)
    | Project(columns: seq<string>)
    | Blank                                // an empty line

  /** `a, b, c`. */
  function CommaList(names: seq<string>): string {
    if names == [] then "" else if |names| == 1 then names[0] else names[0] + ", " + CommaList(names[1..])
  }

  /** The text of one clause, as it stands on its line. */
  function Render(c: Clause): string {
    match c
    case Table(name) => name
    case Where(condition) => "| where " + condition
    case ProjectAway(columns) => "| project-away " + CommaList(columns)
    case JoinOn(kind, table, key) => "| join kind=" + kind + " " + table + " on " + key
    case Extend(column, expression) => "| extend " + column + " = " + expression
    case Project(columns) => "| project " + CommaList(columns)
    case Blank => ""
  }

  function RenderAll(clauses: seq<Clause>): (lines: seq<string>)
    ensures |lines| == |clauses|
    ensures forall i :: 0 <= i < |clauses| ==> lines[i] == Render(clauses[i])
  {
    seq(|clauses|, i requires 0 <= i < |clauses| => Render(clauses[i]))
  }

  /** The query text: the clauses' lines joined by line breaks. */
  function QueryText(clauses: seq<Clause>): string
    requires |clauses| >= 1
  {
    Join(RenderAll(clauses), '\n')
  }

  /** The columns every query projects, in the order the rows carry them. */
  const Columns: seq<string> :=
    ["FriendlyName", "ExecutionTime", "QueuedTime", "AzdoBuildId", "AzdoPhaseName", "AzdoAttempt", "MachineName",
     "ExitCode", "ConsoleUri", "JobId", "JobName", "QueueName", "Finished", "WorkItemId", "Status"]

  const FailedOnly: Clause := Where("ExitCode != 0")

  /** The failed-only clause, or an empty line when every work item is wanted. */
  function FailedFilter(includeAll: bool): Clause {
    if includeAll then Blank else FailedOnly
  }

  function RepositoryFilter(owner: string, repository: string): Clause {
    Where("Repository == \"" + owner + "/" + repository + "\"")
  }

  function BuildFilter(buildNumber: int): Clause {
    Where("AzdoBuildId == " + IntToString(buildNumber))
  }

  /** The branch clause of the pull-request query, with its own copy of the merge-ref format. */
  function BranchFilter(prNumber: int): Clause {
    Where("Branch == \"refs/pull/" + IntToString(prNumber) + "/merge\"")
  }

  const ParseProperties: Clause := Extend("p", "parse_json(Properties)")
  const ExtendBuildId: Clause := Extend("AzdoBuildId", "toint(p[\"BuildId\"])")
  const ExtendPhaseName: Clause := Extend("AzdoPhaseName", "tostring(p[\"System.PhaseName\"])")
  const ExtendAttempt: Clause := Extend("AzdoAttempt", "tostring(p[\"System.JobAttempt\"])")
  const ExtendExecutionTime: Clause := Extend("ExecutionTime", "(Finished - Started) / 1s")
  const ExtendQueuedTime: Clause := Extend("QueuedTime", "(Started - Queued) / 1s")

  function ForBuildClauses(owner: string, repository: string, buildNumber: int, includeAll: bool): seq<Clause> {
    [Table("Jobs"),
     RepositoryFilter(owner, repository),
     ProjectAway(["Started", "Finished"]),
     JoinOn("inner", "WorkItems", "JobId"),
     ParseProperties,
     ExtendBuildId,
     BuildFilter(buildNumber),
     ExtendPhaseName,
     ExtendAttempt,
     ExtendExecutionTime,
     ExtendQueuedTime,
     FailedFilter(includeAll),
     Project(Columns)]
  }

  function ForPullRequestClauses(owner: string, repository: string, prNumber: int, includeAll: bool): seq<Clause> {
    [Table("Jobs"),
     RepositoryFilter(owner, repository),
     BranchFilter(prNumber),
     ProjectAway(["Started", "Finished"]),
     JoinOn("inner", "WorkItems", "JobId"),
     ParseProperties,
     ExtendPhaseName,
     ExtendAttempt,
     ExtendBuildId,
     ExtendExecutionTime,
     ExtendQueuedTime,
     FailedFilter(includeAll),
     Project(Columns)]
  }

  function WorkItemClauses(jobId: int, workItemId: int): seq<Clause> {
    [Table("WorkItems"),
     Where("JobId == " + IntToString(jobId)),
     Where("WorkItemId == " + IntToString(workItemId)),
     JoinOn("inner", "Jobs", "JobId"),
     ParseProperties,
     ExtendPhaseName,
     ExtendAttempt,
     ExtendBuildId,
     ExtendExecutionTime,
     ExtendQueuedTime,
     Project(Columns)]
  }

  function ForBuildQuery(owner: string, repository: string, buildNumber: int, includeAll: bool): string {
    QueryText(ForBuildClauses(owner, repository, buildNumber, includeAll))
  }

  function ForPullRequestQuery(owner: string, repository: string, prNumber: int, includeAll: bool): string {
    QueryText(ForPullRequestClauses(owner, repository, prNumber, includeAll))
  }

  function WorkItemQuery(jobId: int, workItemId: int): string {
    QueryText(WorkItemClauses(jobId, workItemId))
  }

  /** The failed-only clause is in the list query exactly when not every work item is wanted. */
  lemma ForBuildFailedOnlyIff(owner: string, repository: string, buildNumber: int, includeAll: bool)
    ensures FailedOnly in ForBuildClauses(owner, repository, buildNumber, includeAll) <==> !includeAll
  {
    var cs := ForBuildClauses(owner, repository, buildNumber, includeAll);
    assert cs[1].condition[0] == 'R' && cs[6].condition[0] == 'A';
    assert forall i :: 0 <= i < |cs| && i != 11 ==> cs[i] != FailedOnly;
  }

  lemma ForPullRequestFailedOnlyIff(owner: string, repository: string, prNumber: int, includeAll: bool)
    ensures FailedOnly in ForPullRequestClauses(owner, repository, prNumber, includeAll) <==> !includeAll
  {
    var cs := ForPullRequestClauses(owner, repository, prNumber, includeAll);
    assert cs[1].condition[0] == 'R' && cs[2].condition[0] == 'B';
    assert forall i :: 0 <= i < |cs| && i != 11 ==> cs[i] != FailedOnly;
  }

  /** The single-item query never carries the failed-only clause. */
  lemma WorkItemNeverFailedOnly(jobId: int, workItemId: int)
    ensures FailedOnly !in WorkItemClauses(jobId, workItemId)
  {
    var cs := WorkItemClauses(jobId, workItemId);
    assert cs[1].condition[0] == 'J' && cs[2].condition[0] == 'W';
  }

  // ---------------------------------------------------------------------------
  // The query text, line by line

  /** No part of the clause holds a line break. */
  predicate Unbroken(c: Clause) {
    match c
    case Table(name) => '\n' !in name
    case Where(condition) => '\n' !in condition
    case ProjectAway(columns) => forall i :: 0 <= i < |columns| ==> '\n' !in columns[i]
    case JoinOn(kind, table, key) => '\n' !in kind && '\n' !in table && '\n' !in key
    case Extend(column, expression) => '\n' !in column && '\n' !in expression
    case Project(columns) => forall i :: 0 <= i < |columns| ==> '\n' !in columns[i]
    case Blank => true
  }

  lemma {:induction false} CommaListUnbroken(names: seq<string>)
    requires forall i :: 0 <= i < |names| ==> '\n' !in names[i]
    ensures '\n' !in CommaList(names)
    decreases |names|
  {
    if |names| > 1 {
      CommaListUnbroken(names[1..]);
    }
  }

  /** A clause without line breaks in its parts renders as one line. */
  lemma RenderUnbroken(c: Clause)
    requires Unbroken(c)
    ensures '\n' !in Render(c)
  {
    match c
    case ProjectAway(columns) => CommaListUnbroken(columns);
    case Project(columns) => CommaListUnbroken(columns);
    case _ =>
  }

  /** The lines of a query text are exactly its clauses rendered, when no clause holds a line break. */
  lemma QueryLines(clauses: seq<Clause>)
    requires |clauses| >= 1
    requires forall c :: c in clauses ==> Unbroken(c)
    ensures Split(QueryText(clauses), '\n') == RenderAll(clauses)
  {
    var lines := RenderAll(clauses);
    forall i | 0 <= i < |lines| ensures '\n' !in lines[i] {
      assert clauses[i] in clauses;
      RenderUnbroken(clauses[i]);
    }
    SplitJoin(lines, '\n');
  }

  lemma IntToStringUnbroken(i: int)
    ensures '\n' !in IntToString(i)
  {
    var s := IntToString(i);
    assert forall k :: 0 <= k < |s| ==> s[k] != '\n';
  }

  lemma ColumnsUnbroken()
    ensures forall i :: 0 <= i < |Columns| ==> '\n' !in Columns[i]
  {
  }

  // One lemma per shared clause: none of them holds a line break.
  lemma ParsePropertiesUnbroken() ensures Unbroken(ParseProperties) {}
  lemma ExtendBuildIdUnbroken() ensures Unbroken(ExtendBuildId) {}
  lemma ExtendPhaseNameUnbroken() ensures Unbroken(ExtendPhaseName) {}
  lemma ExtendAttemptUnbroken() ensures Unbroken(ExtendAttempt) {}
  lemma ExtendExecutionTimeUnbroken() ensures Unbroken(ExtendExecutionTime) {}
  lemma ExtendQueuedTimeUnbroken() ensures Unbroken(ExtendQueuedTime) {}
  lemma JobsTableUnbroken() ensures Unbroken(Table("Jobs")) {}
  lemma JoinWorkItemsUnbroken() ensures Unbroken(JoinOn("inner", "WorkItems", "JobId")) {}
  lemma ProjectAwayTimesUnbroken() ensures Unbroken(ProjectAway(["Started", "Finished"])) {}

  lemma ProjectColumnsUnbroken()
    ensures Unbroken(Project(Columns))
  {
    ColumnsUnbroken();
  }

  /** The repository filter is one line when neither the owner nor the repository holds a line break. */
  lemma BranchFilterUnbroken(prNumber: int)
    ensures Unbroken(BranchFilter(prNumber))
  {
    var head, number, tail := "Branch == \"refs/pull/", IntToString(prNumber), "/merge\"";
    IntToStringUnbroken(prNumber);
    assert '\n' !in head && '\n' !in tail;
    assert forall k :: 0 <= k < |head + number + tail| ==> (head + number + tail)[k] != '\n';
  }

  lemma RepositoryFilterUnbroken(owner: string, repository: string)
    requires '\n' !in owner && '\n' !in repository
    ensures Unbroken(RepositoryFilter(owner, repository))
  {
  }

  /** The build query's first six clauses hold no line break when the owner and repository hold none. */
  lemma ForBuildHeadUnbroken(owner: string, repository: string, buildNumber: int, includeAll: bool)
    requires '\n' !in owner && '\n' !in repository
    ensures var cs := ForBuildClauses(owner, repository, buildNumber, includeAll);
            forall i :: 0 <= i < 6 ==> Unbroken(cs[i])
  {
    JobsTableUnbroken();
    RepositoryFilterUnbroken(owner, repository);
    ProjectAwayTimesUnbroken();
    JoinWorkItemsUnbroken();
    ParsePropertiesUnbroken();
    ExtendBuildIdUnbroken();
  }

  /** The build query's middle clauses hold no line break. */
  lemma ForBuildMiddleUnbroken(owner: string, repository: string, buildNumber: int, includeAll: bool)
    ensures var cs := ForBuildClauses(owner, repository, buildNumber, includeAll);
            forall i :: 6 <= i < 10 ==> Unbroken(cs[i])
  {
    IntToStringUnbroken(buildNumber);
    ExtendPhaseNameUnbroken();
    ExtendAttemptUnbroken();
    ExtendExecutionTimeUnbroken();
  }

  /** The build query's last three clauses hold no line break. */
  lemma ForBuildTailUnbroken(owner: string, repository: string, buildNumber: int, includeAll: bool)
    ensures var cs := ForBuildClauses(owner, repository, buildNumber, includeAll);
            |cs| == 13 && Unbroken(cs[10]) && Unbroken(cs[11]) && Unbroken(cs[12])
  {
    ExtendQueuedTimeUnbroken();
    ProjectColumnsUnbroken();
  }

  /** With a line-break-free owner and repository, no clause of the query holds a line break. */
  lemma ForBuildClausesUnbroken(owner: string, repository: string, buildNumber: int, includeAll: bool)
    requires '\n' !in owner && '\n' !in repository
    ensures var cs := ForBuildClauses(owner, repository, buildNumber, includeAll);
            forall c :: c in cs ==> Unbroken(c)
  {
    var cs := ForBuildClauses(owner, repository, buildNumber, includeAll);
    ForBuildHeadUnbroken(owner, repository, buildNumber, includeAll);
    ForBuildMiddleUnbroken(owner, repository, buildNumber, includeAll);
    ForBuildTailUnbroken(owner, repository, buildNumber, includeAll);
    forall c | c in cs ensures Unbroken(c) {
      var i :| 0 <= i < |cs| && cs[i] == c;
    }
  }

  /** With a line-break-free owner and repository, the query's lines are its clauses rendered. */
  lemma ForBuildQueryLines(owner: string, repository: string, buildNumber: int, includeAll: bool)
    requires '\n' !in owner && '\n' !in repository
    ensures Split(ForBuildQuery(owner, repository, buildNumber, includeAll), '\n')
            == RenderAll(ForBuildClauses(owner, repository, buildNumber, includeAll))
  {
    ForBuildClausesUnbroken(owner, repository, buildNumber, includeAll);
    QueryLines(ForBuildClauses(owner, repository, buildNumber, includeAll));
  }

  /** The pull-request query's first six clauses hold no line break when the owner and repository hold none. */
  lemma ForPullRequestHeadUnbroken(owner: string, repository: string, prNumber: int, includeAll: bool)
    requires '\n' !in owner && '\n' !in repository
    ensures var cs := ForPullRequestClauses(owner, repository, prNumber, includeAll);
            forall i :: 0 <= i < 6 ==> Unbroken(cs[i])
  {
    JobsTableUnbroken();
    RepositoryFilterUnbroken(owner, repository);
    BranchFilterUnbroken(prNumber);
    ProjectAwayTimesUnbroken();
    JoinWorkItemsUnbroken();
    ParsePropertiesUnbroken();
  }

  /** The pull-request query's middle clauses hold no line break. */
  lemma ForPullRequestMiddleUnbroken(owner: string, repository: string, prNumber: int, includeAll: bool)
    ensures var cs := ForPullRequestClauses(owner, repository, prNumber, includeAll);
            forall i :: 6 <= i < 10 ==> Unbroken(cs[i])
  {
    ExtendPhaseNameUnbroken();
    ExtendAttemptUnbroken();
    ExtendBuildIdUnbroken();
    ExtendExecutionTimeUnbroken();
  }

  /** The pull-request query's last three clauses hold no line break. */
  lemma ForPullRequestTailUnbroken(owner: string, repository: string, prNumber: int, includeAll: bool)
    ensures var cs := ForPullRequestClauses(owner, repository, prNumber, includeAll);
            |cs| == 13 && Unbroken(cs[10]) && Unbroken(cs[11]) && Unbroken(cs[12])
  {
    ExtendQueuedTimeUnbroken();
    ProjectColumnsUnbroken();
  }

  /** With a line-break-free owner and repository, no clause of the query holds a line break. */
  lemma ForPullRequestClausesUnbroken(owner: string, repository: string, prNumber: int, includeAll: bool)
    requires '\n' !in owner && '\n' !in repository
    ensures var cs := ForPullRequestClauses(owner, repository, prNumber, includeAll);
            forall c :: c in cs ==> Unbroken(c)
  {
    var cs := ForPullRequestClauses(owner, repository, prNumber, includeAll);
    ForPullRequestHeadUnbroken(owner, repository, prNumber, includeAll);
    ForPullRequestMiddleUnbroken(owner, repository, prNumber, includeAll);
    ForPullRequestTailUnbroken(owner, repository, prNumber, includeAll);
    forall c | c in cs ensures Unbroken(c) {
      var i :| 0 <= i < |cs| && cs[i] == c;
    }
  }

  /** With a line-break-free owner and repository, the query's lines are its clauses rendered. */
  lemma ForPullRequestQueryLines(owner: string, repository: string, prNumber: int, includeAll: bool)
    requires '\n' !in owner && '\n' !in repository
    ensures Split(ForPullRequestQuery(owner, repository, prNumber, includeAll), '\n')
            == RenderAll(ForPullRequestClauses(owner, repository, prNumber, includeAll))
  {
    ForPullRequestClausesUnbroken(owner, repository, prNumber, includeAll);
    QueryLines(ForPullRequestClauses(owner, repository, prNumber, includeAll));
  }

  /** Only the failed-only clause renders as the failed-only line, tables aside. */
  lemma RenderIsFailedOnly(c: Clause)
    requires !c.Table?
    ensures Render(c) == Render(FailedOnly) <==> c == FailedOnly
  {
    var line := Render(FailedOnly);
    match c
    case Where(condition) =>
      if Render(c) == line {
        assert condition == Render(c)[8..] == line[8..];
      }
    case ProjectAway(_) => assert Render(c)[2] != line[2];
    case JoinOn(_, _, _) => assert Render(c)[2] != line[2];
    case Extend(_, _) => assert Render(c)[2] != line[2];
    case Project(_) => assert Render(c)[2] != line[2];
    case Blank =>
  }

  /** The failed-only line is among the rendered clauses exactly when the failed-only clause is among the clauses. */
  lemma RenderedFailedOnly(clauses: seq<Clause>)
    requires forall i :: 0 <= i < |clauses| ==> !clauses[i].Table? || clauses[i].name != Render(FailedOnly)
    ensures Render(FailedOnly) in RenderAll(clauses) <==> FailedOnly in clauses
  {
    var lines := RenderAll(clauses);
    if Render(FailedOnly) in lines {
      var i :| 0 <= i < |lines| && lines[i] == Render(FailedOnly);
      if !clauses[i].Table? {
        RenderIsFailedOnly(clauses[i]);
      }
    }
    if FailedOnly in clauses {
      var i :| 0 <= i < |clauses| && clauses[i] == FailedOnly;
      assert lines[i] == Render(FailedOnly);
    }
  }

  lemma FailedOnlyLine()
    ensures Render(FailedOnly) == "| where ExitCode != 0"
  {
  }

  /** The only table clause of the list queries is `Jobs`, which is not the failed-only line. */
  lemma ForBuildTablesNotFailedOnly(owner: string, repository: string, buildNumber: int, includeAll: bool)
    ensures var cs := ForBuildClauses(owner, repository, buildNumber, includeAll);
            forall i :: 0 <= i < |cs| ==> !cs[i].Table? || cs[i].name != Render(FailedOnly)
  {
    var cs := ForBuildClauses(owner, repository, buildNumber, includeAll);
    assert |cs[0].name| != |Render(FailedOnly)|;
  }

  lemma ForPullRequestTablesNotFailedOnly(owner: string, repository: string, prNumber: int, includeAll: bool)
    ensures var cs := ForPullRequestClauses(owner, repository, prNumber, includeAll);
            forall i :: 0 <= i < |cs| ==> !cs[i].Table? || cs[i].name != Render(FailedOnly)
  {
    var cs := ForPullRequestClauses(owner, repository, prNumber, includeAll);
    assert |cs[0].name| != |Render(FailedOnly)|;
  }

  /**
   * The build query's text has the line `| where ExitCode != 0` exactly when
   * not every work item is wanted, for an owner and repository without line breaks.
   */
  lemma ForBuildQueryFailedOnlyIff(owner: string, repository: string, buildNumber: int, includeAll: bool)
    requires '\n' !in owner && '\n' !in repository
    ensures Render(FailedOnly) == "| where ExitCode != 0"
    ensures Render(FailedOnly) in Split(ForBuildQuery(owner, repository, buildNumber, includeAll), '\n') <==> !includeAll
  {
    FailedOnlyLine();
    ForBuildQueryLines(owner, repository, buildNumber, includeAll);
    ForBuildFailedOnlyIff(owner, repository, buildNumber, includeAll);
    ForBuildTablesNotFailedOnly(owner, repository, buildNumber, includeAll);
    RenderedFailedOnly(ForBuildClauses(owner, repository, buildNumber, includeAll));
  }

  /** The same for the pull-request query. */
  lemma ForPullRequestQueryFailedOnlyIff(owner: string, repository: string, prNumber: int, includeAll: bool)
    requires '\n' !in owner && '\n' !in repository
    ensures Render(FailedOnly) == "| where ExitCode != 0"
    ensures Render(FailedOnly) in Split(ForPullRequestQuery(owner, repository, prNumber, includeAll), '\n') <==> !includeAll
  {
    FailedOnlyLine();
    ForPullRequestQueryLines(owner, repository, prNumber, includeAll);
    ForPullRequestFailedOnlyIff(owner, repository, prNumber, includeAll);
    ForPullRequestTablesNotFailedOnly(owner, repository, prNumber, includeAll);
    RenderedFailedOnly(ForPullRequestClauses(owner, repository, prNumber, includeAll));
  }

  /** The repository line of a list query. */
  lemma RepositoryLine(owner: string, repository: string)
    ensures Render(RepositoryFilter(owner, repository)) == "| where Repository == \"" + owner + "/" + repository + "\""
  {
  }

  /** The build line of the build query. */
  lemma BuildLine(n: int)
    ensures Render(BuildFilter(n)) == "| where AzdoBuildId == " + IntToString(n)
  {
  }

  /** The branch line of the pull-request query spells out the build service's merge ref. */
  lemma BranchLine(prNumber: int)
    ensures Render(BranchFilter(prNumber)) == "| where Branch == \"" + Azdo.PullRequestBranch(prNumber) + "\""
  {
    var w, b, n, q := "| where ", "Branch == \"", IntToString(prNumber), "\"";
    var p, m := Azdo.PullRequestBranchPrefix, Azdo.PullRequestBranchSuffix;
    assert "Branch == \"refs/pull/" == b + p;
    assert "/merge\"" == m + q;
    assert "| where Branch == \"" == w + b;
    Regroup(w, b, p, n, m, q);
  }

  /** Re-bracketing of a six-part concatenation. */
  lemma Regroup(w: string, b: string, p: string, n: string, m: string, q: string)
    ensures w + ((b + p) + n + (m + q)) == (w + b) + (p + n + m) + q
  {
  }


  lemma ForBuildClausesAt(owner: string, repository: string, n: int, includeAll: bool)
    ensures var cs := ForBuildClauses(owner, repository, n, includeAll);
            |cs| == 13 && cs[1] == RepositoryFilter(owner, repository) && cs[6] == BuildFilter(n)
  {
  }

  lemma ForPullRequestClausesAt(owner: string, repository: string, n: int, includeAll: bool)
    ensures var cs := ForPullRequestClauses(owner, repository, n, includeAll);
            |cs| == 13 && cs[1] == RepositoryFilter(owner, repository) && cs[2] == BranchFilter(n)
  {
  }

  /**
   * Both list queries filter on the repository on their second line; the
   * build query filters on the build id on its seventh.
   */
  lemma ListQueriesFilter(owner: string, repository: string, n: int, includeAll: bool)
    requires '\n' !in owner && '\n' !in repository
    ensures var lines := Split(ForBuildQuery(owner, repository, n, includeAll), '\n');
            |lines| == 13
            && lines[1] == "| where Repository == \"" + owner + "/" + repository + "\""
            && lines[6] == "| where AzdoBuildId == " + IntToString(n)
    ensures var lines := Split(ForPullRequestQuery(owner, repository, n, includeAll), '\n');
            |lines| == 13 && lines[1] == "| where Repository == \"" + owner + "/" + repository + "\""
  {
    ForBuildQueryLines(owner, repository, n, includeAll);
    ForPullRequestQueryLines(owner, repository, n, includeAll);
    ForBuildClausesAt(owner, repository, n, includeAll);
    ForPullRequestClausesAt(owner, repository, n, includeAll);
    RepositoryLine(owner, repository);
    BuildLine(n);
  }

  /**
   * The pull-request query's branch line names the merge ref the build
   * service uses for the same pull request, although the two formats are written separately.
   */
  lemma BranchFilterMatchesBuildService(owner: string, repository: string, prNumber: int, includeAll: bool)
    requires '\n' !in owner && '\n' !in repository
    ensures var lines := Split(ForPullRequestQuery(owner, repository, prNumber, includeAll), '\n');
            |lines| == 13 && lines[2] == "| where Branch == \"" + Azdo.PullRequestBranch(prNumber) + "\""
  {
    ForPullRequestQueryLines(owner, repository, prNumber, includeAll);
    ForPullRequestClausesAt(owner, repository, prNumber, includeAll);
    BranchLine(prNumber);
  }


  // ---------------------------------------------------------------------------
  // Reading rows

  /** One row as a work item; an attempt column that is not a number fails with a format error. */
  function MapRow(row: Row, parse: string -> Option<int>): (r: Result<WorkItem>)
    ensures r.Success? <==> parse(row.azdoAttempt).Some?
    ensures r.Failure? ==> r.error == FormatError(row.azdoAttempt)
    ensures r.Success? ==>
              var w := r.value;
              w.friendlyName == row.friendlyName && w.executionTime == row.executionTime
              && w.queuedTime == row.queuedTime && w.azdoBuildId == row.azdoBuildId
              && w.azdoPhaseName == row.azdoPhaseName && w.azdoAttempt == parse(row.azdoAttempt).value
              && w.machineName == row.machineName && w.exitCode == row.exitCode
              && w.consoleUri == row.consoleUri && w.jobId == row.jobId && w.jobName == row.jobName
              && w.queueName == row.queueName && w.finished == row.finished
              && w.workItemId == row.workItemId && w.status == row.status
  {
    match parse(row.azdoAttempt)
    case None => Failure(FormatError(row.azdoAttempt))
    case Some(attempt) =>
      Success(WorkItem(
        row.friendlyName, row.executionTime, row.queueName, row.queuedTime, row.azdoBuildId,
        row.azdoPhaseName, attempt, row.machineName, row.exitCode, row.consoleUri, row.jobId,
        row.jobName, row.finished, row.workItemId, row.status))
  }

  function MapRowWith(parse: string -> Option<int>): Row -> Result<WorkItem> {
    (row: Row) => MapRow(row, parse)
  }

  /** The work items a query yields: every row mapped, or the first failure. */
  function QueryResult(execute: string -> QueryOutcome, parse: string -> Option<int>, query: string): Result<seq<WorkItem>> {
    match execute(query)
    case QueryException(message) => Failure(QueryFailed(message))
    case Rows(rows) => Traverse(rows, MapRowWith(parse))
  }

  /** `QueryHelixWorkItem`: run the query, then read row after row into the list. */
  method QueryHelixWorkItem(execute: string -> QueryOutcome, parse: string -> Option<int>, query: string)
    returns (r: Result<seq<WorkItem>>)
    ensures r == QueryResult(execute, parse, query)
  {
    var outcome := execute(query);
    if outcome.QueryException? {
      return Failure(QueryFailed(outcome.message));
    }
    var rows := outcome.rows;
    ghost var f := MapRowWith(parse);
    var list: seq<WorkItem> := [];
    var i := 0;
    while i < |rows|
      invariant 0 <= i <= |rows|
      invariant Traverse(rows[..i], f) == Success(list)
    {
      var row := rows[i];
      var item := MapRow(row, parse);
      if item.Failure? {
        TraverseFailsAt(rows, i, f);
        return Failure(item.error);
      }
      assert rows[..i + 1] == rows[..i] + [row];
      TraverseSnoc(rows[..i], row, f);
      list := list + [item.value];
      i := i + 1;
    }
    assert rows[..i] == rows;
    return Success(list);
  }

  /** A successful read has one work item per row, in row order, each the mapping of its row. */
  lemma QueryResultRows(execute: string -> QueryOutcome, parse: string -> Option<int>, query: string)
    requires execute(query).Rows? && QueryResult(execute, parse, query).Success?
    ensures |QueryResult(execute, parse, query).value| == |execute(query).rows|
    ensures forall i :: 0 <= i < |execute(query).rows| ==>
              Success(QueryResult(execute, parse, query).value[i]) == MapRow(execute(query).rows[i], parse)
  {
    TraverseSuccess(execute(query).rows, MapRowWith(parse));
  }

  /** Whole or nothing: the read fails exactly when some row's attempt is not a number, or the query itself fails. */
  lemma QueryResultFails(execute: string -> QueryOutcome, parse: string -> Option<int>, query: string)
    ensures QueryResult(execute, parse, query).Failure? <==>
              execute(query).QueryException?
              || exists i :: 0 <= i < |execute(query).rows| && parse(execute(query).rows[i].azdoAttempt).None?
  {
    if execute(query).Rows? {
      var rows := execute(query).rows;
      TraverseSuccess(rows, MapRowWith(parse));
      assert forall i :: 0 <= i < |rows| ==> (MapRowWith(parse)(rows[i]).Success? <==> parse(rows[i].azdoAttempt).Some?);
    }
  }

  /** A row with an unreadable attempt fails the read, with the first such row's text. */
  lemma QueryResultFirstBadAttempt(execute: string -> QueryOutcome, parse: string -> Option<int>, query: string, k: int)
    requires execute(query).Rows? && 0 <= k < |execute(query).rows|
    requires parse(execute(query).rows[k].azdoAttempt).None?
    requires forall i :: 0 <= i < k ==> parse(execute(query).rows[i].azdoAttempt).Some?
    ensures QueryResult(execute, parse, query) == Failure(FormatError(execute(query).rows[k].azdoAttempt))
  {
    var rows := execute(query).rows;
    var f := MapRowWith(parse);
    TraverseSuccess(rows[..k], f);
    assert forall i :: 0 <= i < k ==> rows[..k][i] == rows[i];
    TraverseFailsAt(rows, k, f);
  }

  // ---------------------------------------------------------------------------
  // Listing and looking up work items

  /** `GetHelixWorkItemsForBuildAsync`; by default only the failed work items are asked for. */
  method GetHelixWorkItemsForBuild(
    execute: string -> QueryOutcome, parse: string -> Option<int>,
    owner: string, repository: string, buildNumber: int, includeAll: bool := false)
    returns (r: Result<seq<WorkItem>>)
    ensures r == QueryResult(execute, parse, ForBuildQuery(owner, repository, buildNumber, includeAll))
  {
    var query := ForBuildQuery(owner, repository, buildNumber, includeAll);
    r := QueryHelixWorkItem(execute, parse, query);
  }

  /** `GetHelixWorkItemsForPullRequestAsync`; by default only the failed work items are asked for. */
  method GetHelixWorkItemsForPullRequest(
    execute: string -> QueryOutcome, parse: string -> Option<int>,
    owner: string, repository: string, prNumber: int, includeAll: bool := false)
    returns (r: Result<seq<WorkItem>>)
    ensures r == QueryResult(execute, parse, ForPullRequestQuery(owner, repository, prNumber, includeAll))
  {
    var query := ForPullRequestQuery(owner, repository, prNumber, includeAll);
    r := QueryHelixWorkItem(execute, parse, query);
  }

  const NoElements: string := "Sequence contains no elements"
  const MoreThanOneElement: string := "Sequence contains more than one element"

  /** LINQ `Single()`: the one element, or a failure for none and for several. */
  function Single<T>(s: seq<T>): (r: Result<T>)
    ensures r.Success? <==> |s| == 1
    ensures r.Success? ==> r.value == s[0]
    ensures s == [] ==> r == Failure(InvalidOperation(NoElements))
    ensures |s| > 1 ==> r == Failure(InvalidOperation(MoreThanOneElement))
  {
    if |s| == 0 then Failure(InvalidOperation(NoElements))
    else if |s| == 1 then Success(s[0])
    else Failure(InvalidOperation(MoreThanOneElement))
  }

  /** What `GetHelixWorkItemAsync` returns: the sole work item of the point query. */
  function WorkItemResult(execute: string -> QueryOutcome, parse: string -> Option<int>, jobId: int, workItemId: int)
    : Result<WorkItem>
  {
    match QueryResult(execute, parse, WorkItemQuery(jobId, workItemId))
    case Failure(e) => Failure(e)
    case Success(items) => Single(items)
  }

  /** `GetHelixWorkItemAsync`. */
  method GetHelixWorkItem(execute: string -> QueryOutcome, parse: string -> Option<int>, jobId: int, workItemId: int)
    returns (r: Result<WorkItem>)
    ensures r == WorkItemResult(execute, parse, jobId, workItemId)
  {
    var items := QueryHelixWorkItem(execute, parse, WorkItemQuery(jobId, workItemId));
    if items.Failure? {
      return Failure(items.error);
    }
    r := Single(items.value);
  }

  /** The lookup succeeds exactly when the query yields one readable row, and then returns that row's item. */
  lemma WorkItemResultIsSoleRow(execute: string -> QueryOutcome, parse: string -> Option<int>, jobId: int, workItemId: int)
    requires execute(WorkItemQuery(jobId, workItemId)).Rows?
    ensures WorkItemResult(execute, parse, jobId, workItemId).Success? <==>
              |execute(WorkItemQuery(jobId, workItemId)).rows| == 1
              && parse(execute(WorkItemQuery(jobId, workItemId)).rows[0].azdoAttempt).Some?
    ensures WorkItemResult(execute, parse, jobId, workItemId).Success? ==>
              Success(WorkItemResult(execute, parse, jobId, workItemId).value)
              == MapRow(execute(WorkItemQuery(jobId, workItemId)).rows[0], parse)
  {
    var query := WorkItemQuery(jobId, workItemId);
    var rows := execute(query).rows;
    QueryResultFails(execute, parse, query);
    if QueryResult(execute, parse, query).Success? {
      QueryResultRows(execute, parse, query);
    }
  }

  // ---------------------------------------------------------------------------
  // Console logs

  /** `GetConsoleAsync`: the log text at the item's console URI, under the item's job and work-item ids. */
  function GetConsole(fetchText: string -> Result<string>, item: WorkItem): (r: Result<WorkItemConsole>)
    ensures r.Success? <==> fetchText(item.consoleUri).Success?
    ensures r.Success? ==> r.value.jobId == item.jobId && r.value.workItemId == item.workItemId
                           && r.value.text == fetchText(item.consoleUri).value
    ensures r.Failure? ==> r.error == fetchText(item.consoleUri).error
  {
    match fetchText(item.consoleUri)
    case Success(text) => Success(WorkItemConsole(item.jobId, item.workItemId, text))
    case Failure(e) => Failure(e)
  }

  function ConsoleOf(fetchText: string -> Result<string>): WorkItem -> Result<WorkItemConsole> {
    (item: WorkItem) => GetConsole(fetchText, item)
  }

  /** `GetConsolesAsync`: the consoles of the items one by one, in order; the first failed fetch ends the batch. */
  method GetConsoles(fetchText: string -> Result<string>, items: seq<WorkItem>)
    returns (r: Result<seq<WorkItemConsole>>)
    ensures r == Traverse(items, ConsoleOf(fetchText))
  {
    ghost var f := ConsoleOf(fetchText);
    var list: seq<WorkItemConsole> := [];
    var i := 0;
    while i < |items|
      invariant 0 <= i <= |items|
      invariant Traverse(items[..i], f) == Success(list)
    {
      var item := items[i];
      var text := fetchText(item.consoleUri);
      if text.Failure? {
        TraverseFailsAt(items, i, f);
        return Failure(text.error);
      }
      assert items[..i + 1] == items[..i] + [item];
      TraverseSnoc(items[..i], item, f);
      list := list + [WorkItemConsole(item.jobId, item.workItemId, text.value)];
      i := i + 1;
    }
    assert items[..i] == items;
    return Success(list);
  }

  /** The batch agrees with single fetches: one console per item, in item order, carrying that item's ids. */
  lemma ConsolesMatchItems(fetchText: string -> Result<string>, items: seq<WorkItem>)
    ensures Traverse(items, ConsoleOf(fetchText)).Success? <==>
              forall i :: 0 <= i < |items| ==> fetchText(items[i].consoleUri).Success?
    ensures Traverse(items, ConsoleOf(fetchText)).Success? ==>
              var consoles := Traverse(items, ConsoleOf(fetchText)).value;
              |consoles| == |items|
              && forall i :: 0 <= i < |items| ==>
                   Success(consoles[i]) == GetConsole(fetchText, items[i])
                   && consoles[i].jobId == items[i].jobId && consoles[i].workItemId == items[i].workItemId
  {
    TraverseSuccess(items, ConsoleOf(fetchText));
  }
}
