# Deep-research agent tools, modelled in Dafny

The repository configures a research agent hosted by the Letta agent
platform. Its own logic sits in `research_tools.py`:

- two tools the agent calls on its memory:
  - `create_research_plan` renders a topic and an ordered list of steps as a checklist and writes it into the `research_plan` memory block;
  - `reset_research` blanks the `research_plan` and `research_report` blocks;
- `register_tools`, which upserts those two tools into the platform's catalog and reports a status per tool;
- `setup_exa_mcp_server`, which:
  - resolves the Exa search API key;
  - registers the `exa` MCP tool server, tolerating an "already exists" error;
  - lists the server's tools;
  - attaches the allow-listed ones (`web_search_exa`, `crawling_exa`) and collects their ids.

This project models that logic as pure functions. The platform is replaced
by its answers, supplied as inputs: whether each call returned or raised,
and what it returned. Agent memory is a map from block label to block
value.

Modules, one file each:

- `Options` (`options.dfy`): the optional value used for missing keys and failed parses.
- `Decimal` (`decimal.dfy`): the decimal numeral of a natural number, as `f"{i+1}"` renders it.
- `Text` (`text.dfy`): Python's substring test `pat in text`, and splitting a text into newline-terminated lines and joining it back.
- `ResearchPlan` (`plan.dfy`): the checklist text.
  - A reference definition: a header line, then one item line per step.
  - The accumulating loop of the source, proved equal to that definition.
  - A parser for checklists, proved inverse to rendering. This pins down the exact layout: header, numbering from 1, order, and one item per step.
- `ResearchTools` (`tools.dfy`): the two memory tools, with these properties:
  - frame conditions;
  - wholesale replacement;
  - idempotent reset;
  - the outcome of any sequence of tool calls.
- `Registrar` (`registrar.dfy`): the status summary of `register_tools`.
- `ExaSetup` (`exa_setup.dfy`): the decisions of `setup_exa_mcp_server`:
  - key resolution;
  - tolerance of a server that already exists;
  - the allow-list filter;
  - skipping failed attaches;
  - order of the returned ids.

  The result also records the platform calls made, so "no platform call"
  can be stated.

Two facts about the code that the model follows:

- `register_tools` reports `"error"` for every upsert that raised, whatever the message, including one that failed because the tool already exists (research_tools.py:62-76). `Registrar.RegisterTools` states exactly that.
- `research_plan` does not always hold a rendered checklist: the agent is created with a placeholder greeting text in that block (research.py:86-89). `ResearchTools.RunPlanBlock` and `ResearchTools.RunReportBlock` state what holds after any sequence of tool calls: the plan block is decided by the last call, and the report block is `""` after any reset and otherwise keeps its starting value.

## Model

| member | source | states |
|---|---|---|
| Decimal.FromNat | research_tools.py:27 | The step number is rendered as a non-empty run of digits with no leading zero, and the run reads back as the number. |
| Decimal.FromNatOfValue | research_tools.py:27 | Every canonical numeral is the rendering of the number it denotes, so the numbering of step lines is a bijection with the naturals. |
| Text.Contains | research_tools.py:118 | The `"already exists" in str(e)` test is true exactly when the pattern occurs at some index of the message. |
| ResearchPlan.RenderPlanHeader | research_tools.py:25 | The plan text begins with exactly ``The plan of action is to research `<topic>` with the following steps: `` followed by a newline, with the topic verbatim. An empty step list yields that header alone. |
| ResearchPlan.RenderPlanSnoc | research_tools.py:26-27 | One more step appends exactly one line `- [ ] Step <n> - <step>` with n one past the preceding steps, and leaves the earlier text untouched. |
| ResearchPlan.BuildPlanText | research_tools.py:25-27 | The source's loop, which starts from the header and appends one item per step in enumeration order, produces exactly the reference rendering. |
| ResearchPlan.ParsePlan | research_tools.py:25-27 | Every text the checklist parser accepts is the rendering of the topic and steps it returns. |
| ResearchPlan.PlanRoundTrip | research_tools.py:25-27 | For a topic and steps without newlines, parsing the rendered plan recovers that topic and exactly those steps, in input order, numbered 1, 2, .... So there is no extra or missing line. |
| ResearchPlan.StepRoundTrip | research_tools.py:27 | An item line reads back as its number and its step text, whatever the step text contains. |
| ResearchPlan.HeaderRoundTrip | research_tools.py:25 | The header line reads back as its topic, whatever the topic contains. |
| ResearchTools.UpdateBlockValue | research_tools.py:29 | Updating a block replaces that one block's whole value. No block appears, disappears or changes besides it. |
| ResearchTools.CreateResearchPlan | research_tools.py:16-31 | The plan block becomes the rendered checklist, which reads back as this topic and these steps when neither the topic nor any step contains a newline. Every other block keeps its value. The reply is "Research plan successfully created, time to execute the plan!". |
| ResearchTools.ResetResearch | research_tools.py:33-40 | The plan and report blocks become empty whatever they held. Every other block keeps its value. The reply is "Research state successfully reset". |
| ResearchTools.PlanReplacedWholesale | research_tools.py:29 | Two successive plan calls leave the same memory and reply as the second call alone, so the update replaces and does not append. |
| ResearchTools.ResetIdempotent | research_tools.py:37-40 | Resetting twice equals resetting once. |
| ResearchTools.ResetErasesPlan | research_tools.py:29-38 | A reset after a plan call leaves the same memory as a reset alone. |
| ResearchTools.RunPlanBlock | research_tools.py:16-40 | After any sequence of tool calls, the plan block is decided by the last call alone: the rendering of that call's topic and steps, or empty if it was a reset. |
| ResearchTools.RunReportBlock | research_tools.py:16-40 | After any sequence of tool calls, the report block is `""` if some call was a reset, and otherwise keeps its starting value (which may itself be `""`, as the agent creates it). |
| ResearchTools.RunOtherBlocks | research_tools.py:16-40 | After any sequence of tool calls, the persona, human and any other blocks keep their values. |
| ResearchTools.RunKeepsProfile | research.py:75-85 | The `persona` and `human` blocks the agent is created with keep their values across any sequence of plan and reset calls. |
| Registrar.StatusEntry | research_tools.py:75-76 | A tool's entry is `{"status": "success"}` exactly when its upsert returned, and `{"status": "error"}` exactly when it raised. |
| Registrar.RegisterTools | research_tools.py:56-77 | The summary names exactly `create_research_plan` and `reset_research`. Each reports success exactly when its own upsert returned, and error exactly when it raised. |
| Registrar.StatusesIndependent | research_tools.py:56-77 | Each tool's status is unaffected by the other tool's upsert outcome. |
| ExaSetup.ResolveKey | research_tools.py:91-93 | A key is found exactly when the explicit key or the environment key is non-empty. The explicit key takes precedence. A resolved key is never empty. |
| ExaSetup.SetupExaMcpServer | research_tools.py:79-152 | The outcome of each path. Without a key there are no calls and no ids. When adding the server fails for a reason other than "already exists", setup returns no ids after that one call. When listing fails, setup returns no ids after two calls. Any ids returned are the attached ids of the listing. Every call after the first two is an attach of an allow-listed name. |
| ExaSetup.AttachDesiredTools | research_tools.py:128-145 | The source's attach loop returns the ids of the allow-listed tools that attach, in listing order. It makes exactly one attach attempt per allow-listed listed name, in listing order. |
| ExaSetup.AttachedIdsAppend | research_tools.py:131-141 | The ids from a concatenated listing are the ids of the first part followed by those of the second. Listing order is kept and each tool is handled on its own. |
| ExaSetup.FailedAttachSkipped | research_tools.py:133-141 | A tool whose attach fails contributes nothing, and the tools around it are processed as if it were absent. |
| ExaSetup.DesiredNamesAreDesired | research_tools.py:128-132 | A name gets an attach attempt exactly when it is allow-listed and appears in the listing. |
| ExaSetup.AttachedIdsMembership | research_tools.py:131-138 | An id is returned exactly when some listed, allow-listed tool attached with that id. |
| ExaSetup.AttachedIdsBound | research_tools.py:128-148 | No more ids are returned than attach attempts were made. The counts are equal exactly when every allow-listed tool attaches. |
| ExaSetup.ExistingServerTolerated | research_tools.py:114-122 | An "already exists" error from adding the server leaves setup's result and calls identical to a successful add. |
| ExaSetup.SetupAttaches | research_tools.py:124-148 | With a key, a registered server and a successful listing, setup returns the attached ids, at most one per attempt. Its calls are: add the server, list it, then one attach per allow-listed name in listing order. |

## Left out

- research.py as a whole, because it is I/O and calls into an SDK that is not part of this model:
  - reading the environment and building the client;
  - creating the agent with its persona, model and initial blocks;
  - streaming and printing the response events;
  - fetching and rendering the report.
- The Letta client calls `upsert_from_function`, `add_mcp_server`, `list_mcp_tools_by_server` and `add_mcp_tool` are not executed. Each is replaced by the outcome it would produce, given as input.
- ResearchTools.UpdateBlockValue: the platform's `update_block_value` is assumed to succeed whenever the block exists; a failure of that call (network, permissions) is not modelled, because the tools do not handle one and it would simply propagate.
- ResearchTools.CreateResearchPlan: requires that the memory holds the `research_plan` block, which the agent is created with (research.py:86-89). The SDK's behaviour when `update_block_value` names a missing block is not part of this model.
- ResearchTools.ResetResearch: requires the `research_plan` and `research_report` blocks, for the same reason.
- `ResearchPlanData`, the pydantic argument schema, is left out: it is a foreign type with no checkable logic.
- The `StdioServerConfig`/`npx` command and the server URL that embeds the API key are left out: they only build a foreign configuration value. ExaSetup.ResolveKey keeps the key's value, but nothing else uses it.
- Exceptions other than the platform calls' failures are left out, for example one raised while building the server configuration. In setup, only the add-server, list and attach outcomes are modelled.
- An exception's text (`str(e)`) is given directly as the error message.
- Console output (`print`) is left out.
- Other memory tools the agent uses (`memory_replace`, `memory_insert`, `memory_rethink`) are not modelled. RunPlanBlock, RunReportBlock, RunOtherBlocks and RunKeepsProfile cover sequences of the two research tools only.
