/**
 * The observer node (`ObserverAgent.run`): it analyses the candidate's latest
 * answer and leaves one recommendation ("thought") for the interviewer. Three
 * cases are decided without the model, in this order: a non-ANSWER turn is
 * skipped, the question limit ends the interview, and an empty history opens
 * it. Otherwise the model is asked, with a bounded context window; `llm` is
 * that call (`None` when it raised).
 */
module Observer {
  import opened Util
  import opened State

  /** The `loop_count` at which the observer stops asking the model. */
  const LoopLimit: nat := 11
  /** How many trailing messages the model is shown. */
  const MessageWindow: nat := 5
  /** How many trailing thoughts are summarised for the model. */
  const ThoughtWindow: nat := 3

  /** The structured model output (`ObserverOutput`), all fields filled. */
  datatype ObserverOutput = ObserverOutput(
    analysis: string, decision: string, instruction: string, topicsCovered: seq<string>, shouldStop: bool)

  /** `model_dump()`: the thought as stored in the state. */
  function AsThought(o: ObserverOutput): (t: Thought)
    ensures t.ThoughtDict? && t.analysis == Some(o.analysis) && t.shouldStop == Some(o.shouldStop)
  {
    ThoughtDict(Some(o.analysis), Some(o.decision), Some(o.instruction), Some(o.topicsCovered), Some(o.shouldStop))
  }

  /** One line of the "previous analysis" summary: a decision and its topics. */
  datatype AnalysisLine = AnalysisLine(decision: string, topics: seq<string>)

  /** What the model is shown, besides the fixed system prompt. */
  datatype ObserverContext = ObserverContext(
    candidate: CandidateInfo, topicPlan: string, conversation: string,
    previousAnalysis: seq<AnalysisLine>, lastUserMessage: string)

  /** `xs[-n:]`, for a positive `n` (`xs[-0:]` would be all of `xs`). */
  function LastN<T>(xs: seq<T>, n: nat): (r: seq<T>)
    requires n > 0
    ensures |r| == (if |xs| < n then |xs| else n)
    ensures r == xs[|xs| - |r|..]
  {
    if |xs| > n then xs[|xs| - n..] else xs
  }

  function SpeakerLine(m: Message): string {
    (if m.Human? then "User" else "Interviewer") + ": " + m.content
  }

  /** The "Recent Conversation" block: one speaker-tagged line per message. */
  function Conversation(recent: seq<Message>): string {
    JoinLines(seq(|recent|, k requires 0 <= k < |recent| => SpeakerLine(recent[k])))
  }

  /** The summary lines of the dict thoughts among `ts`, in order; anything else is skipped. */
  function DictLines(ts: seq<Thought>): (r: seq<AnalysisLine>)
    ensures |r| <= |ts|
    ensures |r| == |ts| <==> forall k :: 0 <= k < |ts| ==> ts[k].ThoughtDict?
    ensures |ts| == 1 && ts[0].NonDict? ==> r == []
    ensures |ts| == 1 && ts[0].ThoughtDict? ==>
              r == [AnalysisLine(ts[0].decision.GetOr("N/A"), ts[0].topicsCovered.GetOr([]))]
  {
    if ts == [] then []
    else
      var rest := DictLines(ts[1..]);
      match ts[0]
      case ThoughtDict(_, decision, _, topics, _) =>
        [AnalysisLine(decision.GetOr("N/A"), topics.GetOr([]))] + rest
      case NonDict => rest
  }

  /** The summary lines keep the order of the thoughts: a split history gives the lines of each part in turn. */
  lemma {:induction false} DictLinesAppend(a: seq<Thought>, b: seq<Thought>)
    ensures DictLines(a + b) == DictLines(a) + DictLines(b)
  {
    if a != [] {
      assert (a + b)[0] == a[0] && (a + b)[1..] == a[1..] + b;
      DictLinesAppend(a[1..], b);
    } else {
      assert a + b == b;
    }
  }

  /** The summary of the last three thoughts. */
  function PreviousAnalysis(thoughts: seq<Thought>): (r: seq<AnalysisLine>)
    ensures |r| <= ThoughtWindow && |r| <= |thoughts|
  {
    DictLines(LastN(thoughts, ThoughtWindow))
  }

  /** The context of the model call; it exists only when there is a message to analyse. */
  function Context(s: AgentState): (c: ObserverContext)
    requires s.messages != []
    ensures c.lastUserMessage == s.messages[|s.messages| - 1].content
    ensures |c.previousAnalysis| <= ThoughtWindow
  {
    ObserverContext(
      s.candidateInfo, Join(", ", s.topicPlan), Conversation(LastN(s.messages, MessageWindow)),
      PreviousAnalysis(s.internalThoughts), s.messages[|s.messages| - 1].content)
  }

  /** The context sees no more than the last five messages and the last three thoughts. */
  lemma ContextWindow(s1: AgentState, s2: AgentState)
    requires s1.messages != [] && s2.messages != []
    requires LastN(s1.messages, MessageWindow) == LastN(s2.messages, MessageWindow)
    requires LastN(s1.internalThoughts, ThoughtWindow) == LastN(s2.internalThoughts, ThoughtWindow)
    requires s1.candidateInfo == s2.candidateInfo && s1.topicPlan == s2.topicPlan
    ensures Context(s1) == Context(s2)
  {
    var w1, w2 := LastN(s1.messages, MessageWindow), LastN(s2.messages, MessageWindow);
    assert w1[|w1| - 1] == s1.messages[|s1.messages| - 1];
    assert w2[|w2| - 1] == s2.messages[|s2.messages| - 1];
  }

  // The three cases decided without the model, in the order they are tested.

  predicate Skips(s: AgentState) {
    s.routerDecision != AnswerLabel && s.messages != []
  }

  predicate AtLimit(s: AgentState) {
    !Skips(s) && s.loopCount >= LoopLimit
  }

  predicate AtStart(s: AgentState) {
    !Skips(s) && !AtLimit(s) && s.messages == []
  }

  predicate AsksModel(s: AgentState) {
    !Skips(s) && !AtLimit(s) && s.messages != []
  }

  function OpeningInstruction(c: CandidateInfo): string {
    "Start the interview for a " + PyStr(c.grade) + " " + PyStr(c.position) + " role. Ask an introductory question."
  }

  function OpeningThought(c: CandidateInfo): Thought {
    ThoughtDict(Some("Start of interview."), Some(Maintain), Some(OpeningInstruction(c)), None, None)
  }

  const LimitThought: Thought :=
    ThoughtDict(Some("Question limit reached."), Some(DecreaseDifficulty),
                Some("Thank the candidate and conclude the interview."), None, Some(true))

  /** The update touches only `internal_thoughts`, `topics_covered` and `current_turn_thoughts`. */
  predicate OnlyObserverFields(u: Update) {
    u.messages == [] && u.interviewLog == [] && u.loopCount.None? && u.routerDecision.None?
    && u.topicPlan.None? && u.criticStatus.None? && u.criticFeedback.None?
    && u.criticRetryCount.None?
  }

  /** `ObserverAgent.run`; `None` when the model call raised. */
  function Run(s: AgentState, llm: ObserverContext -> Option<ObserverOutput>): (r: Option<Update>)
    ensures r.None? <==> AsksModel(s) && llm(Context(s)).None?
    ensures r.Some? ==> OnlyObserverFields(r.value)
    ensures r.Some? ==> |r.value.internalThoughts| == (if Skips(s) then 0 else 1)
    ensures Skips(s) ==> r == Some(NoUpdate.(topicsCovered := Some(s.topicsCovered)))
    ensures AtLimit(s) ==> r == Some(NoUpdate.(internalThoughts := [LimitThought]))
    ensures AtStart(s) ==> r == Some(NoUpdate.(internalThoughts := [OpeningThought(s.candidateInfo)]))
    ensures AsksModel(s) && r.Some? ==>
              var o := llm(Context(s)).value;
              r.value == NoUpdate.(internalThoughts := [AsThought(o)], topicsCovered := Some(o.topicsCovered),
                                   currentTurnThoughts := Some(map["Observer" := o.analysis]))
  {
    if Skips(s) then
      Some(NoUpdate.(internalThoughts := [], topicsCovered := Some(s.topicsCovered)))
    else if s.loopCount >= LoopLimit then
      Some(NoUpdate.(internalThoughts := [LimitThought]))
    else if s.messages == [] then
      Some(NoUpdate.(internalThoughts := [OpeningThought(s.candidateInfo)]))
    else
      match llm(Context(s))
      case None => None
      case Some(o) =>
        var thought := AsThought(o);
        Some(NoUpdate.(internalThoughts := [thought], topicsCovered := Some(o.topicsCovered),
                       currentTurnThoughts := Some(map["Observer" := o.analysis])))
  }

  /** Outside the model path the result does not depend on the model at all: it is not called. */
  lemma NoModelCallWhenDecided(s: AgentState, f: ObserverContext -> Option<ObserverOutput>,
                               g: ObserverContext -> Option<ObserverOutput>)
    requires !AsksModel(s)
    ensures Run(s, f) == Run(s, g)
  {
  }

  /** The skip test comes first only when there is a message: an empty history never skips. */
  lemma EmptyHistoryNeverSkips(s: AgentState, llm: ObserverContext -> Option<ObserverOutput>)
    requires s.messages == [] && s.loopCount < LoopLimit
    ensures Run(s, llm) == Some(NoUpdate.(internalThoughts := [OpeningThought(s.candidateInfo)]))
  {
  }

  /** Without the model, a recommendation to stop is made only at the question limit. */
  lemma StopOnlyAtLimit(s: AgentState, llm: ObserverContext -> Option<ObserverOutput>)
    requires Run(s, llm).Some?
    requires forall t :: t in Run(s, llm).value.internalThoughts ==> t.ThoughtDict? && t.shouldStop == Some(true)
    requires |Run(s, llm).value.internalThoughts| > 0
    ensures AtLimit(s) || (AsksModel(s) && llm(Context(s)).value.shouldStop)
  {
    var t := Run(s, llm).value.internalThoughts[0];
    assert t in Run(s, llm).value.internalThoughts;
  }
}
