# Interview coach: the turn orchestration, in Dafny

This project models the core of a multi-agent technical-interview coach built on LangGraph. Each call to `graph.invoke` handles one candidate turn. The graph always runs the same pipeline:

- the planner, which runs once per session;
- the router, a guardrail classifier: ANSWER, ROLE_REVERSAL, INJECTION or STOP;
- the observer, which analyses the answer and leaves a "thought" for the interviewer;
- the interviewer, which drafts the next message;
- the critic, which may reject a draft and send control back to the interviewer once.

A STOP goes to the feedback node instead.

The model covers:

- the routing functions and node wrappers of `graph.py`;
- the update each of the router, observer and interviewer nodes returns;
- how updates are merged into the state;
- a whole invocation, as a terminating function over the graph's nodes.

Every model call is an oracle parameter that returns `None` when the call raised: the router's classifier, the observer's analysis, the interviewer's draft, the critic's verdict, the planner's topics and the feedback node.

Two secondary parts are modelled as well:

- `validate_log`, the structural checker for the session log files. It works on an already-parsed JSON value and follows Python's `in` on strings, lists and dicts.
- The deterministic preparation of the final report's inputs:
  - the manager's transcript and observer-notes loops, its fallback record and `format_decision_report`;
  - the technical-transcript loop, the knowledge-gap filter and the section headings of `utils/report.py`.

Modules, one per source file: `Util` (Python string and list behaviour), `State`, `Router`, `Observer`, `Interviewer`, `Graph`, `ValidateLogs`, `Manager`, `Report`. Loops in the source are methods with loop invariants, each proved equal to a function. Properties are stated about that function.

Some behaviours of the code are easy to miss when reading it, and the model states them as proved properties:

- **Rejected drafts stay in the history.** A rejected draft is appended to `messages` like any other, and only the next prompt leaves it out (`Graph.DraftsStayInHistory`).
- **Only one retry.** The critic wrapper bumps the counter before the route reads it, so a turn runs the interviewer at most twice (`Graph.InvokeAtMostTwoDrafts`).
- **No reset at the ceiling.** A turn that ends on a rejection leaves the counter at 2 or more, and the next turn gets no retry (`Graph.CounterAfterCritic`, `Graph.NoRetryAfterRejectedTurn`).
- **The first draft is what gets counted.** It is logged and counted in `loop_count` even when it is later rejected. The redraft is neither logged nor counted (`Interviewer.Run`).
- **The observer cannot end the interview.** Its `should_stop` is read by no route; only the router's STOP reaches the feedback node (`Graph.FeedbackOnlyOnStop`, `Graph.RoutesIgnoreThoughts`).
- **Critic feedback can outlive the turn.** When a turn ends on a rejection, the critic's feedback is still in the state at the next turn. That turn's first draft is then treated as a redraft: it is not logged and `loop_count` does not move (`Graph.LeftoverFeedbackSkipsLog`).

A related behaviour of the report code: the observer's opening thought (MAINTAIN) and its question-limit thought (DECREASE_DIFFICULTY) both pass the roadmap's gap filter, so "Start of interview." is listed as a knowledge gap (`Report.FixedThoughtsAreGaps`).

## Model

| member | source | states |
|---|---|---|
| State.Apply | agents/interviewer.py:97-100 | `messages`, `internal_thoughts` and `interview_log` are extended by exactly the update's lists; a scalar field the update writes takes the written value, `topics_covered` takes the merge of old and new, and every field the update leaves out keeps its value |
| Router.RouterNode | router.py:25-94 | the update writes only `router_decision`; it is always one of the four labels; empty history gives ANSWER, a failed classification gives ANSWER, otherwise the category of the last message |
| Router.OnlyLastMessageRead | router.py:38-85 | two histories with the same last message get the same decision |
| Router.StartIgnoresClassifier | router.py:33-36 | with no messages the classifier is not consulted |
| Router.StopOnlyFromClassifier | router.py:84-94 | a STOP decision means there is a last message and the classifier returned STOP for it |
| Observer.LastN | agents/observer.py:86 | for n > 0, the slice `xs[-n:]`: the last min(n, len) elements |
| Observer.AsThought | agents/observer.py:131-132 | the stored thought is a dict holding the model's analysis and `should_stop` |
| Observer.DictLines | agents/observer.py:98-102 | a dict thought gives one line with its decision (or `N/A`) and its topics (or `[]`), a non-dict thought none; as many lines as thoughts exactly when all are dicts |
| Observer.DictLinesAppend | agents/observer.py:98-102 | the lines of a split list of thoughts are the lines of each part in turn, so the summary keeps the thoughts' order |
| Observer.PreviousAnalysis | agents/observer.py:96-102 | at most three summary lines, never more than there are thoughts |
| Observer.Context | agents/observer.py:83-129 | the model sees the last message's text and at most three previous-analysis lines |
| Observer.ContextWindow | agents/observer.py:85-102 | states agreeing on the last five messages, last three thoughts, candidate and plan give the model the same context |
| Observer.Run | agents/observer.py:60-138 | skip (non-ANSWER with history) adds no thought and passes `topics_covered` through; `loop_count` >= 11 gives the one stop thought; empty history gives the opening thought; otherwise the model's thought, its topics and the `Observer` entry; only the model path can fail; no other field is written |
| Observer.NoModelCallWhenDecided | agents/observer.py:60-81 | on the three early-return paths the model is not called |
| Observer.EmptyHistoryNeverSkips | agents/observer.py:60-81 | empty history below the limit gives the opening thought, whatever the router decided |
| Observer.StopOnlyAtLimit | agents/observer.py:63-71 | a stop recommendation comes from the question limit or from the model |
| Interviewer.History | agents/interviewer.py:49-53 | the history shown is the full history, or it minus its last message exactly when there is critic feedback and that message is the interviewer's |
| Interviewer.Instruction | agents/interviewer.py:46-76 | ROLE_REVERSAL and INJECTION get fixed instructions; otherwise the latest thought's instruction or "Continue the interview.", with the rejection note and feedback appended only on a redraft; a non-dict thought raises |
| Interviewer.LoggedThought | agents/interviewer.py:102 | on an ANSWER turn with thoughts, the latest thought; otherwise a dict holding only the router's decision |
| Interviewer.UserInput | agents/interviewer.py:107-112 | the text of the last message when the candidate wrote it; empty when there is none or the interviewer wrote it; a non-empty result is the candidate's last message |
| Interviewer.TurnLogOf | agents/interviewer.py:102-112 | the logged turn is numbered `loop_count + 1`, records the reply text, the last message's text as `user_input` when it is the candidate's (else empty), and the logged thought |
| Interviewer.Run | agents/interviewer.py:33-120 | one interviewer message; a first draft is logged and bumps `loop_count`, a redraft does neither; feedback cleared; retry counter passed through; nothing else written |
| Interviewer.LoggedResponseIsNewMessage | agents/interviewer.py:104-116 | the logged `agent_response` is the text of the one message added |
| Interviewer.RunKeepsLogNumbered | agents/interviewer.py:104-117 | a log numbered 1..`loop_count` stays so after the node's update is merged |
| Graph.RouteNextStep | graph.py:69-80 | STOP goes to feedback, ROLE_REVERSAL and INJECTION to the interviewer, anything else (or nothing) to the observer |
| Graph.RouteNextStepByCategory | graph.py:70-80 | the route of each router category; a missing decision routes as ANSWER |
| Graph.RouteCriticDecision | graph.py:83-92 | back to the interviewer exactly when the status is REJECTED and the counter is below 2, else END; a missing status counts as APPROVED |
| Graph.CriticNodeWrapper | graph.py:57-66 | the critic's result passes through; the counter becomes old + 1 on REJECTED and 0 otherwise |
| Graph.PlannerNodeWrapper | graph.py:37-42 | with a plan the wrapper returns it without the planner; without one it returns the planner's plan or fails with it |
| Graph.PlannerRunsOnce | graph.py:37-42 | once a non-empty plan is in the state, the wrapper leaves the state unchanged |
| Graph.Successor | graph.py:106-136 | every route a node takes is an edge of the compiled graph; END has no successor but itself |
| Graph.StepDecreasesRank | graph.py:124-134 | each step lowers a rank bounded by the retry counter, so an invocation terminates |
| Graph.Run | graph.py:95-140 | the trace starts at the given node and, when no node raised, ends at END |
| Graph.RunFollowsEdges | graph.py:106-136 | consecutive nodes of any run are joined by edges |
| Graph.Invoke | main.py:100-104 | an invocation starts at the planner, a completed one ends at END, and unless feedback ran, the old history followed by the input stays a prefix of the messages |
| Graph.InvokeStartsWithPlannerRouter | graph.py:106-110 | every invocation starts at the planner, followed by the router |
| Graph.InterviewerRunsBounded | graph.py:57-92 | from counter 0 the interviewer runs at most twice, from a higher counter at most once |
| Graph.InvokeAtMostTwoDrafts | graph.py:83-92 | an invocation runs the interviewer at most twice, and at most once when the counter starts above 0 |
| Graph.CriticJudgesEveryDraft | graph.py:124-134 | in a completed run the critic runs exactly once per interviewer run |
| Graph.CounterAfterCritic | graph.py:57-66 | a completed run through the critic ends with the counter at 0 after approval, at 2 or more after a rejection |
| Graph.NoRetryAfterRejectedTurn | graph.py:63-92 | after a turn that ended on a rejection, the next turn runs the interviewer at most once |
| Graph.FeedbackOnlyOnStop | graph.py:69-80 | the feedback node is reached only right after the router, and only when the classifier returned STOP for the last message |
| Graph.NoFeedbackAfter | graph.py:122-136 | from the observer, interviewer or critic the feedback node is never reached |
| Graph.RoutesIgnoreThoughts | graph.py:69-92 | no route reads `internal_thoughts`, where `should_stop` lives |
| Graph.StepKeepsLogNumbered | agents/interviewer.py:104-117 | every node but feedback keeps the log numbered 1..`loop_count` |
| Graph.RunKeepsLogNumbered | agents/interviewer.py:104-117 | an invocation not reaching feedback keeps the log numbered, even when a node raised |
| Graph.DraftsStayInHistory | agents/interviewer.py:97-115 | messages only grow, by one interviewer message per interviewer run, rejected or not |
| Graph.LeftoverFeedbackSkipsLog | agents/interviewer.py:114-119 | with critic feedback left over and the counter raised, an invocation neither logs a turn nor moves `loop_count` |
| Graph.OpeningPlanner | graph.py:37-42 | on the first invocation the planner's plan fills the empty plan and nothing else changes |
| Graph.OpeningRouter | router.py:33-36 | on the first invocation the router decides ANSWER, changes nothing else, and routes to the observer |
| Graph.OpeningObserver | agents/observer.py:73-81 | on the first invocation the observer appends the opening thought and nothing else changes |
| Graph.OpeningDraft | agents/interviewer.py:102-117 | the first draft of the session is logged as turn 1 with no candidate input |
| Graph.ApprovalEndsRun | graph.py:57-92 | an approval resets the counter and ends the run, leaving messages and log alone |
| Graph.OpeningDraftApproved | graph.py:122-134 | an approved opening draft: interviewer, critic, END, one message logged as turn 1 |
| Graph.OpeningFromObserver | graph.py:122-134 | the opening turn from the observer on: observer, interviewer, critic, END |
| Graph.OpeningFromRouter | graph.py:112-122 | the opening turn from the router on: router, observer, interviewer, critic, END |
| Graph.OpeningRoute | graph.py:106-136 | the whole opening pass over the graph, planner to END |
| Graph.FirstTurn | main.py:60-80 | from the initial state with no input, the first invocation runs planner, router, observer, interviewer, critic once each and ends with one question logged as turn 1 |
| ValidateLogs.ReadKeysAreTested | validate_logs.py:17-37 | the keys read after the checks (`turns`, `internal_thoughts`) are among the keys tested |
| ValidateLogs.PyIn | validate_logs.py:19-38 | `key in c` is key membership on a dict, element membership on a list, substring on a string, and raises on anything else |
| ValidateLogs.ScanKeys | validate_logs.py:17-21 | all keys present exactly when every `in` test is true; it raises exactly on a non-container with keys to test |
| ValidateLogs.ScanKeysLoop | validate_logs.py:17-21 | the key loop computes `ScanKeys` |
| ValidateLogs.AnyMarkerLoop | validate_logs.py:38 | the `any` over the markers computes `AnyMarker` |
| ValidateLogs.Validate | validate_logs.py:5-43 | a missing file or a decode error gives False, a file that cannot be read raises, and True needs a parsed dict log whose `turns` is a list |
| ValidateLogs.ValidateLog | validate_logs.py:5-43 | the checker computes `Validate` on what loading produced |
| ValidateLogs.AnyMarkerRaises | validate_logs.py:37-39 | the marker test raises exactly on non-container thoughts, and is true exactly when some marker is in them |
| ValidateLogs.CheckTurnFine | validate_logs.py:29-39 | a turn passes exactly when it conforms; it warns exactly when it also has no marker |
| ValidateLogs.CheckTurnsTrue | validate_logs.py:30-41 | the turn loop returns true exactly when every remaining turn conforms |
| ValidateLogs.ValidateTrueIff | validate_logs.py:5-43 | the result is True exactly for a parsed log with the three keys whose `turns` is a list of conforming turns; ids and order are not checked |
| ValidateLogs.FailsWithoutTopKeys | validate_logs.py:6-21 | a missing file, unparseable JSON or a dict log missing a required key gives False with no warnings |
| ValidateLogs.WarningsNameMarkerlessTurns | validate_logs.py:30-39 | for a passing log, a warning is given exactly for each turn without a marker; markers never change the result |
| Manager.TurnLines | agents/manager.py:84-91 | a `Candidate:` line exactly when `user_input` is non-empty, an `Interviewer:` line exactly when `agent_response` is, and always a final `---` |
| Manager.TurnBlock | agents/manager.py:85-91 | a turn's lines, newline-terminated, are the text the loop appends for it |
| Manager.TranscriptSnoc | agents/manager.py:83-91 | the transcript of one more turn is the old transcript plus that turn's block |
| Manager.BuildTranscript | agents/manager.py:83-91 | the transcript loop computes `Transcript` |
| Manager.SeparatorPerTurn | agents/manager.py:84-91 | the transcript has exactly one `---` line per log turn |
| Manager.TranscriptReadsBack | agents/manager.py:83-91 | with single-line fields, splitting the transcript at newlines gives the turns' lines back, in order |
| Manager.Note | agents/manager.py:95-100 | a note exactly for a dict thought with non-empty analysis; the note is `- `, the decision (or empty), `: ` and the analysis |
| Manager.CollectObserverNotes | agents/manager.py:94-100 | the notes loop computes `ObserverNotes` |
| Manager.NotesAreTagged | agents/manager.py:94-100 | every note starts with `- ` and comes from a dict thought |
| Manager.NotesSummaryReadsBack | agents/manager.py:102 | `NotesSummary` (the `observer_summary` join): single-line notes read back from it, one per line, in order |
| Manager.PlaceholderOnlyWithoutNotes | agents/manager.py:102 | the summary is "No detailed notes available." exactly when there are no notes |
| Manager.Fallback | agents/manager.py:130-140 | the fallback record: UNABLE_TO_EVALUATE, confidence 0, no strengths, the parse-failure concern, the reply as recommendation and raw output |
| Manager.CleanResponseHasNoFence | agents/manager.py:128 | what is handed to the decoder contains no code fence and has no surrounding whitespace |
| Manager.Evaluate | agents/manager.py:72-142 | one model call on the transcript and notes summary; fails when the call fails; otherwise the decoded cleaned reply, or the fallback record |
| Manager.BulletLinesSingle | agents/manager.py:173-176 | a bullet list of single-line items is non-empty and single-line per entry |
| Manager.ReportReadsBack | agents/manager.py:144-181 | `FormatDecisionReport`: with single-line fields the report reads back as the fixed headings, one line per field, one `- item` line per strength and concern or `- Не выявлено`, and the recommendation |
| Manager.EmptyRecordReport | agents/manager.py:148-158 | an empty record reports UNKNOWN, 0%, N/A for grade and each soft skill, and `- Не выявлено` for both lists |
| Manager.FallbackReport | agents/manager.py:130-181 | the fallback record's report, line by line |
| Util.Strip | agents/manager.py:128 | `str.strip`: a slice with only whitespace cut at both ends and no whitespace left at either end |
| Util.RemoveFenceLeavesNone | agents/manager.py:128 | once every triple-backtick fence is replaced by nothing, no fence remains |
| Util.IntToString | agents/manager.py:164 | `str(int)` is a minus sign and digits |
| Report.ShownAnalysis | utils/report.py:95-97 | an analysis is shown exactly for a dict thought with non-empty analysis |
| Report.TechTurnLines | utils/report.py:89-99 | no lines for a turn without a reply; otherwise `Q:` then `A:`, the `[Analysis: ...]` line exactly when there is one, then `---` |
| Report.TechTurnBlock | utils/report.py:93-99 | an answered turn's lines, newline-terminated, are the text the loop appends |
| Report.BuildTechnicalTranscript | utils/report.py:88-99 | the transcript loop computes `TechTranscript` |
| Report.SeparatorPerAnsweredTurn | utils/report.py:89-99 | one `---` line per answered turn: unanswered turns leave no trace |
| Report.TechTranscriptReadsBack | utils/report.py:88-99 | with single-line fields, the transcript splits back into the answered turns' lines |
| Report.Gap | utils/report.py:143-149 | a gap exactly for a dict thought whose decision is DECREASE_DIFFICULTY or MAINTAIN and whose analysis is non-empty; the gap is that analysis |
| Report.CollectGaps | utils/report.py:142-149 | the gap loop computes `Gaps` |
| Report.GapMembers | utils/report.py:142-149 | a text is a gap exactly when it is the non-empty analysis of some thought with a gap decision |
| Report.FixedThoughtsAreGaps | utils/report.py:146 | the observer's opening and question-limit thoughts are both listed as gaps |
| Report.GapsTextReadsBack | utils/report.py:166 | `GapsText` (the `gaps_text` join): single-line gaps read back from the text as one `- gap` line each, in order |
| Report.GapsPlaceholderOnlyWithoutGaps | utils/report.py:166 | the text is "No specific gaps identified." exactly when there are no gaps |
| Report.TechnicalReport | utils/report.py:67-117 | the section is `## Техническая оценка`, a blank line, then the model's reply to the technical transcript; fails when the call fails |
| Report.DevelopmentRoadmap | utils/report.py:120-170 | the section is `## План развития`, a blank line, then the model's reply to the gaps text and the number of logged turns; fails when the call fails |
| Report.QuestionCountCountsUnanswered | utils/report.py:167 | the number of questions equals the answered turns exactly when every logged turn has a reply |

## Left out

- The terminal and web front ends (`main.py` loop, `streamlit_app.py`), the smoke test and package init. Only the initial state built in `main.py` is modelled.
- The `current_question` and `session_id` entries of that initial state (main.py:72-74). No modelled node, route or report function reads or writes either, so `AgentState` omits them.
- Prompt texts, `ChatPromptTemplate` and structured-output plumbing. The model sees each prompt as a datatype of what it is given.
- The values of `str(candidate_info)` and of Python list reprs inside prompts. They are passed as structured values.
- The `Name` and `Experience` entries of `candidate_info` (main.py:38-43). `CandidateInfo` keeps only `Grade` and `Position`, the two the modelled code reads with `.get`; the name and experience reach the planner, observer, interviewer, manager and report prompts only through `str(candidate_info)`, which is not modelled, and are read with `.get('Name')` / `.get('Experience')` only in the header of `generate_final_report` (utils/report.py:49-52), which is left out below.
- Router.RouterNode: building the classifier (`ChatOpenAI(...)` and `with_structured_output`, router.py:42-50) happens outside the `try`, so a failure there makes `router_node` raise; the model has the node total, because that construction depends only on configuration.
- Every model call: the router's classifier, the observer, the interviewer, the critic, the planner, the manager and the report sections. Each is an oracle, and `None` stands for the exception left after `llm_retry`.
- The tenacity backoff timing of `utils/llm_utils.py`. It involves wall-clock waits.
- `agents/planner.py`, `agents/critic.py`, `feedback.py` and `state.py` are not part of this model:
  - the planner's plan, the critic's (status, feedback) verdict and the feedback node's update are oracle results;
  - the reducers are list-append for `messages`, `internal_thoughts` and `interview_log` and overwrite for the rest;
  - the `topics_covered` reducer is a parameter.
- `MemorySaver` checkpointing and thread ids. The state is passed explicitly from one invocation to the next.
- Logging, log colouring, configuration loading and `utils/logger.py` file output. These are I/O.
- `json.load` in the validator, as file I/O. Its outcome is an input: a missing file, a decode error, an error the check does not catch (a directory, bytes that are not UTF-8, no permission), which makes `validate_log` raise, or a parsed value. JSON numbers are integers.
- `json.loads` in `evaluate`. It is an oracle returning a typed record. A reply that decodes to something other than an object, to fields of other types, or to explicit nulls (which would print as `None`) is not modelled.
- Manager.ReportReadsBack: a non-dict `soft_skills_analysis`, on which `format_decision_report` raises, is not modelled, because the decision record is typed.
- `generate_final_report` (utils/report.py:8-64): the final concatenation of the sections, and the `print` before it. Its pieces (`Evaluate`, `FormatDecisionReport`, `TechnicalReport`, `DevelopmentRoadmap`) are modelled.
- The `INTERVIEW_FINISHED` sentinel loop in `main.py`. It belongs to the front end.
- Floating point. No modelled operation uses it.
