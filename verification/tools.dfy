/**
  The two agent-side tools of research_tools.py, `create_research_plan`
  (lines 16-31) and `reset_research` (lines 33-40), as pure functions over
  the agent's memory: a map from block label to block value. The tools
  write only the plan and report blocks, so those are all they require.
 */
module ResearchTools {
  import opened Options
  import opened ResearchPlan

  const PersonaLabel: string := "persona"
  const HumanLabel: string := "human"
  const PlanLabel: string := "research_plan"
  const ReportLabel: string := "research_report"

  const PlanCreated: string := "Research plan successfully created, time to execute the plan!"
  const ResetDone: string := "Research state successfully reset"

  /** The four labels are distinct. */
  lemma LabelsDistinct()
    ensures PersonaLabel != HumanLabel && PersonaLabel != PlanLabel && PersonaLabel != ReportLabel
    ensures HumanLabel != PlanLabel && HumanLabel != ReportLabel && PlanLabel != ReportLabel
  {
    assert PersonaLabel[0] != HumanLabel[0] && PersonaLabel[0] != PlanLabel[0];
    assert HumanLabel[0] != PlanLabel[0] && PlanLabel[9] != ReportLabel[9];
  }

  /** Block label to block value. */
  type Memory = map<string, string>

  /** The memory holds the plan and report blocks, the two the tools write. */
  predicate HasResearchBlocks(m: Memory) {
    PlanLabel in m && ReportLabel in m
  }

  /** What a tool call leaves behind: the agent's memory and the reply the tool returns. */
  datatype ToolReply = ToolReply(memory: Memory, message: string)

  /** Whole-value replacement of one existing block: no block appears, disappears or changes besides `blockLabel`. */
  function UpdateBlockValue(m: Memory, blockLabel: string, value: string): (m': Memory)
    requires blockLabel in m
    ensures m'.Keys == m.Keys
    ensures m'[blockLabel] == value
    ensures forall l :: l in m && l != blockLabel ==> m'[l] == m[l]
  {
    m[blockLabel := value]
  }

  /**
    `create_research_plan`: the plan block becomes the rendered checklist,
    which reads back as exactly this topic and these steps when neither the
    topic nor any step contains a newline; every other block keeps its
    value; the reply is the fixed acknowledgement.
   */
  function CreateResearchPlan(m: Memory, steps: seq<string>, topic: string): (r: ToolReply)
    requires PlanLabel in m
    ensures r.message == PlanCreated
    ensures r.memory.Keys == m.Keys
    ensures r.memory[PlanLabel] == RenderPlan(topic, steps)
    ensures SingleLinePlan(topic, steps) ==> ParsePlan(r.memory[PlanLabel]) == Some(PlanData(topic, steps))
    ensures forall l :: l in m && l != PlanLabel ==> r.memory[l] == m[l]
  {
    PlanReadsBack(topic, steps);
    ToolReply(UpdateBlockValue(m, PlanLabel, RenderPlan(topic, steps)), PlanCreated)
  }

  /** The round trip of the plan text, for every topic and step list that it covers. */
  lemma PlanReadsBack(topic: string, steps: seq<string>)
    ensures SingleLinePlan(topic, steps) ==> ParsePlan(RenderPlan(topic, steps)) == Some(PlanData(topic, steps))
  {
    if SingleLinePlan(topic, steps) {
      PlanRoundTrip(topic, steps);
    }
  }

  /**
    `reset_research`: the plan and report blocks become empty whatever they
    held; every other block keeps its value; the reply is the fixed
    acknowledgement.
   */
  function ResetResearch(m: Memory): (r: ToolReply)
    requires HasResearchBlocks(m)
    ensures r.message == ResetDone
    ensures r.memory.Keys == m.Keys
    ensures r.memory[PlanLabel] == "" && r.memory[ReportLabel] == ""
    ensures forall l :: l in m && l != PlanLabel && l != ReportLabel ==> r.memory[l] == m[l]
  {
    ToolReply(UpdateBlockValue(UpdateBlockValue(m, PlanLabel, ""), ReportLabel, ""), ResetDone)
  }

  /** A second plan replaces the first wholesale: nothing of the first survives. */
  lemma PlanReplacedWholesale(m: Memory, steps1: seq<string>, topic1: string, steps2: seq<string>, topic2: string)
    requires PlanLabel in m
    ensures CreateResearchPlan(CreateResearchPlan(m, steps1, topic1).memory, steps2, topic2)
         == CreateResearchPlan(m, steps2, topic2)
  {
  }

  /** Resetting twice is resetting once. */
  lemma ResetIdempotent(m: Memory)
    requires HasResearchBlocks(m)
    ensures ResetResearch(ResetResearch(m).memory) == ResetResearch(m)
  {
  }

  /** A reset after a plan leaves the same memory as a reset alone. */
  lemma ResetErasesPlan(m: Memory, steps: seq<string>, topic: string)
    requires HasResearchBlocks(m)
    ensures ResetResearch(CreateResearchPlan(m, steps, topic).memory) == ResetResearch(m)
  {
  }

  // ---------------------------------------------------------------------
  // Sequences of tool calls

  /** One call the agent makes to either tool. */
  datatype Invocation = PlanCall(steps: seq<string>, topic: string) | ResetCall

  /** One call: it sets the plan block, empties the report block only if it is a reset, and keeps the rest. */
  function Invoke(m: Memory, call: Invocation): (r: ToolReply)
    requires HasResearchBlocks(m)
    ensures r.memory.Keys == m.Keys
    ensures r.memory[PlanLabel] == PlanLeftBy(call)
    ensures r.memory[ReportLabel] == if call.ResetCall? then "" else m[ReportLabel]
    ensures forall l :: l in m && l != PlanLabel && l != ReportLabel ==> r.memory[l] == m[l]
  {
    match call
    case PlanCall(steps, topic) => CreateResearchPlan(m, steps, topic)
    case ResetCall => ResetResearch(m)
  }

  /** The memory after the calls, applied in order. */
  function Run(m: Memory, calls: seq<Invocation>): (m': Memory)
    requires HasResearchBlocks(m)
    ensures m'.Keys == m.Keys
    decreases |calls|
  {
    if |calls| == 0 then m else Run(Invoke(m, calls[0]).memory, calls[1..])
  }

  /** The plan text a single call leaves in the plan block. */
  function PlanLeftBy(call: Invocation): string {
    match call
    case PlanCall(steps, topic) => RenderPlan(topic, steps)
    case ResetCall => ""
  }

  /**
    After any sequence of calls, the plan block is decided by the last call
    alone: the rendering of that call's plan, or empty after a reset. An
    empty sequence leaves it as it was.
   */
  lemma {:induction false} RunPlanBlock(m: Memory, calls: seq<Invocation>)
    requires HasResearchBlocks(m)
    ensures Run(m, calls)[PlanLabel]
         == if |calls| == 0 then m[PlanLabel] else PlanLeftBy(calls[|calls| - 1])
    decreases |calls|
  {
    if |calls| > 0 {
      LabelsDistinct();
      var m1 := Invoke(m, calls[0]).memory;
      var rest := calls[1..];
      assert Run(m, calls) == Run(m1, rest);
      if |rest| == 0 {
        assert Run(m1, rest) == m1;
      } else {
        RunPlanBlock(m1, rest);
        assert calls[|calls| - 1] == rest[|rest| - 1];
      }
    }
  }

  /**
    After any sequence of calls, the report block is empty if some call
    was a reset, and otherwise keeps its starting value (which may itself
    be empty).
   */
  lemma {:induction false} RunReportBlock(m: Memory, calls: seq<Invocation>)
    requires HasResearchBlocks(m)
    ensures Run(m, calls)[ReportLabel] == if ResetCall in calls then "" else m[ReportLabel]
    decreases |calls|
  {
    if |calls| > 0 {
      LabelsDistinct();
      var m1 := Invoke(m, calls[0]).memory;
      var rest := calls[1..];
      assert Run(m, calls) == Run(m1, rest);
      RunReportBlock(m1, rest);
      if calls[0].ResetCall? {
        assert ResetCall in calls;
      } else {
        assert ResetCall in rest ==> ResetCall in calls by {
          if ResetCall in rest {
            var j :| 0 <= j < |rest| && rest[j] == ResetCall;
            assert calls[j + 1] == ResetCall;
          }
        }
        assert ResetCall in calls ==> ResetCall in rest by {
          if ResetCall in calls {
            var i :| 0 <= i < |calls| && calls[i] == ResetCall;
            assert rest[i - 1] == ResetCall;
          }
        }
      }
    }
  }

  /** After any sequence of calls, every block other than the plan and the report keeps its value. */
  lemma {:induction false} RunOtherBlocks(m: Memory, calls: seq<Invocation>, blockLabel: string)
    requires HasResearchBlocks(m)
    requires blockLabel in m && blockLabel != PlanLabel && blockLabel != ReportLabel
    ensures Run(m, calls)[blockLabel] == m[blockLabel]
    decreases |calls|
  {
    if |calls| > 0 {
      RunOtherBlocks(Invoke(m, calls[0]).memory, calls[1..], blockLabel);
    }
  }

  /** The persona and human blocks the agent is created with survive any sequence of research-tool calls. */
  lemma {:induction false} RunKeepsProfile(m: Memory, calls: seq<Invocation>)
    requires HasResearchBlocks(m) && PersonaLabel in m && HumanLabel in m
    ensures Run(m, calls)[PersonaLabel] == m[PersonaLabel]
    ensures Run(m, calls)[HumanLabel] == m[HumanLabel]
  {
    LabelsDistinct();
    RunOtherBlocks(m, calls, PersonaLabel);
    RunOtherBlocks(m, calls, HumanLabel);
  }
}
