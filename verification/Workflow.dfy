/** Routing table for attempts that left artifacts but no report. */
module Workflow {
  import opened Base
  import opened State

  predicate Present(artifacts: map<string, bool>, name: string)
  {
    name in artifacts && artifacts[name]
  }

  /** The artifact a workflow is expected to leave. */
  function Artifact(wf: WorkflowType): Option<string>
  {
    match wf
    case Plan => Some("PLAN.md")
    case Investigate => Some("INVESTIGATION.md")
    case Implement => None
  }

  predicate SoftSuccessAllowed(wf: WorkflowType, artifacts: map<string, bool>)
  {
    match wf
    case Plan => Present(artifacts, "PLAN.md")
    case Investigate => Present(artifacts, "INVESTIGATION.md")
    case Implement => true
  }
}
