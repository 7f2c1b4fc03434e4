/**
 * The interview graph's shared state (the `AgentState` every node reads) and
 * the partial update a node returns. The framework merges an update into the
 * state field by field: `messages`, `internal_thoughts` and `interview_log`
 * are appended to, every other field present in the update overwrites the old
 * value, and the merge of `topics_covered` is a parameter of the model.
 */
module State {
  import opened Util

  /** A chat message: the candidate's (`HumanMessage`) or the interviewer's (`AIMessage`). */
  datatype Message = Human(content: string) | Ai(content: string)

  /**
   * One element of `internal_thoughts`. The nodes store dicts whose keys may be
   * missing (hence the options); the consumers skip anything that is not a dict.
   */
  datatype Thought =
    | ThoughtDict(analysis: Option<string>, decision: Option<string>, instruction: Option<string>,
                  topicsCovered: Option<seq<string>>, shouldStop: Option<bool>)
    | NonDict

  /** The `turn_log` dict the interviewer appends to `interview_log`. */
  datatype TurnLog = TurnLog(turnId: int, internalThoughts: Thought, userInput: string, agentResponse: string)

  /** The two `candidate_info` entries the core reads (`.get('Grade')`, `.get('Position')`). */
  datatype CandidateInfo = CandidateInfo(grade: Option<string>, position: Option<string>)

  // The string values the routing code compares against.
  const AnswerLabel: string := "ANSWER"
  const RoleReversalLabel: string := "ROLE_REVERSAL"
  const InjectionLabel: string := "INJECTION"
  const StopLabel: string := "STOP"
  const Rejected: string := "REJECTED"
  const Approved: string := "APPROVED"
  const Maintain: string := "MAINTAIN"
  const DecreaseDifficulty: string := "DECREASE_DIFFICULTY"

  /**
   * The state of one interview thread. `companyProfile` and `criticStatus` may be
   * absent (the first is read with a default, the second is only written by the
   * critic); every other key is present from the initial state on.
   */
  datatype AgentState = AgentState(
    messages: seq<Message>,
    candidateInfo: CandidateInfo,
    companyProfile: Option<string>,
    internalThoughts: seq<Thought>,
    interviewLog: seq<TurnLog>,
    loopCount: nat,
    topicsCovered: seq<string>,
    routerDecision: string,
    topicPlan: seq<string>,
    criticStatus: Option<string>,
    criticFeedback: string,
    criticRetryCount: nat,
    currentTurnThoughts: map<string, string>)

  /**
   * The dict a node returns. The three list fields hold what is to be appended
   * (an absent key and an empty list append nothing alike); `None` in any other
   * field means the node did not return that key.
   */
  datatype Update = Update(
    messages: seq<Message>,
    internalThoughts: seq<Thought>,
    interviewLog: seq<TurnLog>,
    loopCount: Option<nat>,
    topicsCovered: Option<seq<string>>,
    routerDecision: Option<string>,
    topicPlan: Option<seq<string>>,
    criticStatus: Option<string>,
    criticFeedback: Option<string>,
    criticRetryCount: Option<nat>,
    currentTurnThoughts: Option<map<string, string>>)

  /** The empty dict `{}`. */
  const NoUpdate: Update := Update([], [], [], None, None, None, None, None, None, None, None)

  /** The reducer for a field written by overwriting. */
  function Overwrite<T>(prev: T, written: Option<T>): T {
    written.GetOr(prev)
  }

  /**
   * Merges a node's update into the state: append for the three list fields,
   * `mergeTopics` for `topics_covered`, last write wins for the rest.
   */
  function Apply(s: AgentState, u: Update, mergeTopics: (seq<string>, seq<string>) -> seq<string>): (r: AgentState)
    ensures s.messages <= r.messages && s.internalThoughts <= r.internalThoughts && s.interviewLog <= r.interviewLog
    ensures |r.messages| == |s.messages| + |u.messages| && r.messages[|s.messages|..] == u.messages
    ensures |r.internalThoughts| == |s.internalThoughts| + |u.internalThoughts|
    ensures r.internalThoughts[|s.internalThoughts|..] == u.internalThoughts
    ensures |r.interviewLog| == |s.interviewLog| + |u.interviewLog| && r.interviewLog[|s.interviewLog|..] == u.interviewLog
    ensures r.candidateInfo == s.candidateInfo && r.companyProfile == s.companyProfile
    ensures u.loopCount.None? ==> r.loopCount == s.loopCount
    ensures u.topicsCovered.None? ==> r.topicsCovered == s.topicsCovered
    ensures u.routerDecision.None? ==> r.routerDecision == s.routerDecision
    ensures u.topicPlan.None? ==> r.topicPlan == s.topicPlan
    ensures u.criticStatus.None? ==> r.criticStatus == s.criticStatus
    ensures u.criticFeedback.None? ==> r.criticFeedback == s.criticFeedback
    ensures u.criticRetryCount.None? ==> r.criticRetryCount == s.criticRetryCount
    ensures u.currentTurnThoughts.None? ==> r.currentTurnThoughts == s.currentTurnThoughts
    ensures u.loopCount.Some? ==> r.loopCount == u.loopCount.value
    ensures u.topicsCovered.Some? ==> r.topicsCovered == mergeTopics(s.topicsCovered, u.topicsCovered.value)
    ensures u.routerDecision.Some? ==> r.routerDecision == u.routerDecision.value
    ensures u.topicPlan.Some? ==> r.topicPlan == u.topicPlan.value
    ensures u.criticStatus.Some? ==> r.criticStatus == u.criticStatus
    ensures u.criticFeedback.Some? ==> r.criticFeedback == u.criticFeedback.value
    ensures u.criticRetryCount.Some? ==> r.criticRetryCount == u.criticRetryCount.value
    ensures u.currentTurnThoughts.Some? ==> r.currentTurnThoughts == u.currentTurnThoughts.value
  {
    s.(messages := s.messages + u.messages,
       internalThoughts := s.internalThoughts + u.internalThoughts,
       interviewLog := s.interviewLog + u.interviewLog,
       loopCount := Overwrite(s.loopCount, u.loopCount),
       topicsCovered := match u.topicsCovered
                        case Some(t) => mergeTopics(s.topicsCovered, t)
                        case None => s.topicsCovered,
       routerDecision := Overwrite(s.routerDecision, u.routerDecision),
       topicPlan := Overwrite(s.topicPlan, u.topicPlan),
       criticStatus := match u.criticStatus
                       case Some(c) => Some(c)
                       case None => s.criticStatus,
       criticFeedback := Overwrite(s.criticFeedback, u.criticFeedback),
       criticRetryCount := Overwrite(s.criticRetryCount, u.criticRetryCount),
       currentTurnThoughts := Overwrite(s.currentTurnThoughts, u.currentTurnThoughts))
  }

  /**
   * The bookkeeping the interview log keeps across turns: one entry per counted
   * turn, numbered 1, 2, ... in order.
   */
  predicate LogNumbered(s: AgentState) {
    |s.interviewLog| == s.loopCount
    && forall k :: 0 <= k < |s.interviewLog| ==> s.interviewLog[k].turnId == k + 1
  }
}
