/**
  `register_tools` (research_tools.py:42-77): upsert the two agent tools
  into the platform's tool catalog, one attempt each, and report per tool
  whether its upsert returned. The platform call is replaced by its
  outcome.
 */
module Registrar {

  const CreatePlanTool: string := "create_research_plan"
  const ResetTool: string := "reset_research"
  const StatusKey: string := "status"
  const Success: string := "success"
  const Error: string := "error"

  /** How one upsert call ended: it returned a tool, or it raised. */
  datatype UpsertOutcome = Returned | Raised(message: string)

  /** The `{"status": ...}` entry reported for one tool. */
  function StatusEntry(outcome: UpsertOutcome): (entry: map<string, string>)
    ensures entry.Keys == {StatusKey}
    ensures entry[StatusKey] == Success <==> outcome.Returned?
    ensures entry[StatusKey] == Error <==> outcome.Raised?
  {
    map[StatusKey := if outcome.Returned? then Success else Error]
  }

  /**
    The registration summary: exactly the two tool names, each reporting
    "success" when its own upsert returned and "error" when it raised,
    whatever the other upsert did and whatever the error said.
   */
  function RegisterTools(createPlan: UpsertOutcome, reset: UpsertOutcome): (r: map<string, map<string, string>>)
    ensures r.Keys == {CreatePlanTool, ResetTool}
    ensures StatusKey in r[CreatePlanTool] && StatusKey in r[ResetTool]
    ensures r[CreatePlanTool][StatusKey] == Success <==> createPlan.Returned?
    ensures r[CreatePlanTool][StatusKey] == Error <==> createPlan.Raised?
    ensures r[ResetTool][StatusKey] == Success <==> reset.Returned?
    ensures r[ResetTool][StatusKey] == Error <==> reset.Raised?
  {
    map[CreatePlanTool := StatusEntry(createPlan), ResetTool := StatusEntry(reset)]
  }

  /** Each tool's status depends on its own upsert only. */
  lemma StatusesIndependent(createPlan: UpsertOutcome, reset: UpsertOutcome,
                            otherCreatePlan: UpsertOutcome, otherReset: UpsertOutcome)
    ensures RegisterTools(createPlan, reset)[CreatePlanTool] == RegisterTools(createPlan, otherReset)[CreatePlanTool]
    ensures RegisterTools(createPlan, reset)[ResetTool] == RegisterTools(otherCreatePlan, reset)[ResetTool]
  {
  }
}
