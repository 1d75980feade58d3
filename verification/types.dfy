/** Values the runner passes between its collaborators. The report shape is
    borrowed from the generated client model of a dependency; the runner itself
    treats a report as opaque. */
module Types {
  import opened Wrappers

  /** The message of an error thrown by a collaborator. */
  type Fault = string

  /** The deterministic identifier of a repository's recurring job. */
  type TaskId = string

  /** A configuration value as read from the plugin configuration. */
  datatype Json =
    | JNull
    | JBool(b: bool)
    | JNumber(n: int)
    | JString(s: string)
    | JArray(items: seq<Json>)
    | JObject(fields: map<string, Json>)

  /** The repository a job works on. */
  datatype TargetRepo = TargetRepo(host: string, repository: string)

  /** One dependency finding of a report. */
  datatype Dependency = Dependency(
    depName: string,
    manager: string,
    datasource: string,
    packageFile: string,
    packageName: Option<string>,
    depType: Option<string>,
    currentValue: Option<string>,
    currentVersion: Option<string>,
    skipReason: Option<string>)

  /** The structured outcome of one Renovate run. */
  datatype RenovateReport = RenovateReport(dependencies: seq<Dependency>)

  /** What the runner hands to the report store. */
  datatype ReportRecord = ReportRecord(taskID: TaskId, report: RenovateReport, target: TargetRepo)
}
