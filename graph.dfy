/**
 * The interview graph (`graph.py`): the node wrappers, the two routing
 * functions, and what one `graph.invoke` does with them. An invocation starts
 * at the planner, goes to the router, then either to the feedback node or
 * through (observer,) interviewer and critic, where a rejected draft can send
 * control back to the interviewer. Each node's update is merged into the state
 * before the next node is chosen.
 *
 * The model calls and the two nodes whose code is not part of this model (the
 * critic's verdict, the feedback node's update) are the oracles in `Oracles`;
 * `None` from an oracle means that node raised, which ends the invocation.
 */
module Graph {
  import opened Util
  import opened State
  import R = Router
  import O = Observer
  import I = Interviewer

  /** The graph's nodes; `End` is LangGraph's `END`. */
  datatype Node = Planner | Router | Observer | Interviewer | Critic | Feedback | End

  /** The reducer for `topics_covered`. */
  type Merge = (seq<string>, seq<string>) -> seq<string>

  // ---------------------------------------------------------------------
  // Routing functions
  // ---------------------------------------------------------------------

  /** `route_next_step`, given `state.get("router_decision")`. */
  function RouteNextStep(decision: Option<string>): (n: Node)
    ensures n == Feedback || n == Observer || n == Interviewer
    ensures n == Feedback <==> decision == Some(StopLabel)
    ensures n == Interviewer <==> decision == Some(RoleReversalLabel) || decision == Some(InjectionLabel)
  {
    var d := decision.GetOr(AnswerLabel);
    if d == StopLabel then Feedback
    else if d == AnswerLabel then Observer
    else if d == RoleReversalLabel || d == InjectionLabel then Interviewer
    else Observer
  }

  /** What each router category leads to; a missing decision is taken as ANSWER. */
  lemma RouteNextStepByCategory(c: R.RouteCategory)
    ensures RouteNextStep(Some(c.Label())) == match c
                                             case Answer => Observer
                                             case RoleReversal => Interviewer
                                             case Injection => Interviewer
                                             case Stop => Feedback
    ensures RouteNextStep(None) == RouteNextStep(Some(AnswerLabel)) == Observer
  {
  }

  /** `route_critic_decision`, given the two `state.get`s. */
  function RouteCriticDecision(status: Option<string>, retryCount: Option<nat>): (n: Node)
    ensures n == Interviewer || n == End
    ensures n == Interviewer <==> status == Some(Rejected) && retryCount.GetOr(0) < 2
  {
    if status.GetOr(Approved) == Rejected && retryCount.GetOr(0) < 2 then Interviewer else End
  }

  // ---------------------------------------------------------------------
  // Node wrappers
  // ---------------------------------------------------------------------

  /** What `critic_node` returns: the verdict and the feedback for a redraft. */
  datatype CriticVerdict = CriticVerdict(status: string, feedback: string)

  /**
   * `critic_node_wrapper`: the critic's result passes through, and the retry
   * counter is bumped on a rejection and reset on anything else.
   */
  function CriticNodeWrapper(s: AgentState, v: CriticVerdict): (u: Update)
    ensures u == NoUpdate.(criticStatus := Some(v.status), criticFeedback := Some(v.feedback),
                           criticRetryCount := u.criticRetryCount)
    ensures v.status == Rejected ==> u.criticRetryCount == Some(s.criticRetryCount + 1)
    ensures v.status != Rejected ==> u.criticRetryCount == Some(0)
  {
    var count := if v.status == Rejected then s.criticRetryCount + 1 else 0;
    NoUpdate.(criticStatus := Some(v.status), criticFeedback := Some(v.feedback), criticRetryCount := Some(count))
  }

  /**
   * `planner_node_wrapper`: the planner runs only while `topic_plan` is empty;
   * `plan` is its output (`None` when it raised).
   */
  function PlannerNodeWrapper(s: AgentState, plan: Option<seq<string>>): (r: Option<Update>)
    ensures r.Some? ==> r.value == NoUpdate.(topicPlan := r.value.topicPlan) && r.value.topicPlan.Some?
    ensures s.topicPlan != [] ==> r == Some(NoUpdate.(topicPlan := Some(s.topicPlan)))
    ensures s.topicPlan == [] ==> (r.Some? <==> plan.Some?) && (plan.Some? ==> r.value.topicPlan == plan)
  {
    if s.topicPlan != [] then Some(NoUpdate.(topicPlan := Some(s.topicPlan)))
    else
      match plan
      case None => None
      case Some(topics) => Some(NoUpdate.(topicPlan := Some(topics)))
  }

  /**
   * Once there is a plan, the planner wrapper changes nothing and does not
   * consult the planner; a non-empty plan from a first run is kept for good.
   */
  lemma {:induction false} PlannerRunsOnce(s: AgentState, p1: Option<seq<string>>, p2: Option<seq<string>>, merge: Merge)
    requires PlannerNodeWrapper(s, p1).Some?
    ensures var s1 := Apply(s, PlannerNodeWrapper(s, p1).value, merge);
            s1.topicPlan != [] ==> PlannerNodeWrapper(s1, p2).Some? && Apply(s1, PlannerNodeWrapper(s1, p2).value, merge) == s1
  {
    var s1 := Apply(s, PlannerNodeWrapper(s, p1).value, merge);
    if s1.topicPlan != [] {
      var s2 := Apply(s1, PlannerNodeWrapper(s1, p2).value, merge);
      assert s2.messages == s1.messages + [];
      assert s2.internalThoughts == s1.internalThoughts + [];
      assert s2.interviewLog == s1.interviewLog + [];
    }
  }

  // ---------------------------------------------------------------------
  // One invocation
  // ---------------------------------------------------------------------

  /**
   * The inputs the graph's code does not determine. `draft` and `critic` are
   * given the index of the draft within the invocation (0 for the first, 1
   * for the redraft), so that a redraft and its verdict may differ from the
   * first ones.
   */
  datatype Oracles = Oracles(
    plan: Option<seq<string>>,
    classify: string -> Option<R.RouteCategory>,
    observe: O.ObserverContext -> Option<O.ObserverOutput>,
    draft: (nat, I.InterviewerPrompt) -> Option<string>,
    critic: (nat, AgentState) -> Option<CriticVerdict>,
    feedback: AgentState -> Option<Update>)

  /** What node `n` returns on state `s` (`None`: it raised). */
  function NodeUpdate(n: Node, s: AgentState, o: Oracles, attempt: nat): Option<Update> {
    match n
    case Planner => PlannerNodeWrapper(s, o.plan)
    case Router => Some(R.RouterNode(s.messages, o.classify))
    case Observer => O.Run(s, o.observe)
    case Interviewer => I.Run(s, p => o.draft(attempt, p))
    case Critic =>
      (match o.critic(attempt, s)
       case None => None
       case Some(v) => Some(CriticNodeWrapper(s, v)))
    case Feedback => o.feedback(s)
    case End => Some(NoUpdate)
  }

  /** The state after node `n` has run and its update has been merged. */
  function After(n: Node, s: AgentState, o: Oracles, merge: Merge, attempt: nat): AgentState
    requires NodeUpdate(n, s, o, attempt).Some?
  {
    Apply(s, NodeUpdate(n, s, o, attempt).value, merge)
  }

  /** The edges added at graph.py:107-136, read on the state after `n` ran. */
  function Successor(n: Node, s: AgentState): (r: Node)
    ensures n != End ==> Edge(n, r)
    ensures n == End ==> r == End
  {
    match n
    case Planner => Router
    case Router => RouteNextStep(Some(s.routerDecision))
    case Observer => Interviewer
    case Interviewer => Critic
    case Critic => RouteCriticDecision(s.criticStatus, Some(s.criticRetryCount))
    case Feedback => End
    case End => End
  }

  /** The static edge set of the compiled graph. */
  predicate Edge(a: Node, b: Node) {
    match a
    case Planner => b == Router
    case Router => b == Feedback || b == Observer || b == Interviewer
    case Observer => b == Interviewer
    case Interviewer => b == Critic
    case Critic => b == Interviewer || b == End
    case Feedback => b == End
    case End => false
  }

  /** The index of the current draft; it moves on once the critic has judged a draft. */
  function NextAttempt(n: Node, attempt: nat): nat {
    if n == Critic then attempt + 1 else attempt
  }

  /** Retries the critic still allows at counter `c`. */
  function Slack(c: nat): nat {
    if c >= 2 then 0 else 2 - c
  }

  /** Decreases along every step of an invocation: the retry loop is bounded. */
  function Rank(n: Node, c: nat): nat {
    match n
    case End => 0
    case Feedback => 1
    case Critic => 1 + 2 * Slack(c)
    case Interviewer => 2 + 2 * Slack(c)
    case Observer => 7
    case Router => 8
    case Planner => 9
  }

  lemma StepDecreasesRank(n: Node, s: AgentState, o: Oracles, merge: Merge, attempt: nat)
    requires n != End && NodeUpdate(n, s, o, attempt).Some?
    ensures var s' := After(n, s, o, merge, attempt);
            Rank(Successor(n, s'), s'.criticRetryCount) < Rank(n, s.criticRetryCount)
  {
  }

  /** The nodes an invocation went through, the final state, and whether a node raised. */
  datatype Outcome = Outcome(trace: seq<Node>, state: AgentState, failed: bool)

  /**
   * Runs the graph from node `n`. The trace lists the nodes that completed,
   * ending with `End` when none raised; a node that raises leaves the state
   * as the previous node left it.
   */
  function Run(n: Node, s: AgentState, o: Oracles, merge: Merge, attempt: nat): (r: Outcome)
    ensures r.trace != [] ==> r.trace[0] == n
    ensures !r.failed ==> r.trace != [] && r.trace[|r.trace| - 1] == End
    decreases Rank(n, s.criticRetryCount)
  {
    if n == End then Outcome([End], s, false)
    else if NodeUpdate(n, s, o, attempt).None? then Outcome([], s, true)
    else
      var s' := After(n, s, o, merge, attempt);
      StepDecreasesRank(n, s, o, merge, attempt);
      var rest := Run(Successor(n, s'), s', o, merge, NextAttempt(n, attempt));
      Outcome([n] + rest.trace, rest.state, rest.failed)
  }

  /** The state the first `graph.invoke` starts from (main.py builds it). */
  function InitialState(candidate: CandidateInfo, companyProfile: string): AgentState {
    AgentState([], candidate, Some(companyProfile), [], [], 0, [], AnswerLabel, [], None, "", 0, map[])
  }

  /** `graph.invoke(input)`: the input messages are merged in, then the graph runs from its entry point. */
  function Invoke(s: AgentState, input: seq<Message>, o: Oracles, merge: Merge): (r: Outcome)
    ensures r.trace != [] ==> r.trace[0] == Planner
    ensures !r.failed ==> r.trace != [] && r.trace[|r.trace| - 1] == End
    ensures Feedback !in r.trace ==> s.messages + input <= r.state.messages
  {
    var s0 := Apply(s, NoUpdate.(messages := input), merge);
    var r := Run(Planner, s0, o, merge, 0);
    if Feedback in r.trace then r
    else
      DraftsStayInHistory(Planner, s0, o, merge, 0);
      r
  }

  function Count(trace: seq<Node>, n: Node): nat {
    multiset(trace)[n]
  }

  // ---------------------------------------------------------------------
  // Properties of an invocation
  // ---------------------------------------------------------------------

  /** Consecutive nodes of `t` are joined by edges. */
  predicate FollowsEdges(t: seq<Node>) {
    forall k :: 0 < k < |t| ==> Edge(t[k - 1], t[k])
  }

  /** Every step of a run follows an edge of the graph. */
  lemma {:induction false} RunFollowsEdges(n: Node, s: AgentState, o: Oracles, merge: Merge, attempt: nat)
    ensures FollowsEdges(Run(n, s, o, merge, attempt).trace)
    decreases Rank(n, s.criticRetryCount)
  {
    if n != End && NodeUpdate(n, s, o, attempt).Some? {
      var s' := After(n, s, o, merge, attempt);
      var next := Successor(n, s');
      StepDecreasesRank(n, s, o, merge, attempt);
      RunFollowsEdges(next, s', o, merge, NextAttempt(n, attempt));
      var rest := Run(next, s', o, merge, NextAttempt(n, attempt)).trace;
      var t := Run(n, s, o, merge, attempt).trace;
      assert t == [n] + rest;
      forall k | 0 < k < |t|
        ensures Edge(t[k - 1], t[k])
      {
        if k > 1 {
          assert t[k - 1] == rest[k - 2] && t[k] == rest[k - 1];
        } else {
          assert t[1] == next;
        }
      }
    }
  }

  /** Every invocation starts at the planner, and the router comes next. */
  lemma InvokeStartsWithPlannerRouter(s: AgentState, input: seq<Message>, o: Oracles, merge: Merge)
    ensures var t := Invoke(s, input, o, merge).trace;
            t != [] ==> t[0] == Planner && (|t| > 1 ==> t[1] == Router)
  {
    var t := Invoke(s, input, o, merge).trace;
    if |t| > 1 {
      RunFollowsEdges(Planner, Apply(s, NoUpdate.(messages := input), merge), o, merge, 0);
      assert Edge(t[1 - 1], t[1]);
    }
  }

  /** The interviewer runs allowed from node `n` at retry counter `c`. */
  function Allowance(n: Node, c: nat): nat {
    match n
    case End => 0
    case Feedback => 0
    case Critic => if c == 0 then 1 else 0
    case _ => if c == 0 then 2 else 1
  }

  /**
   * The retry bound: from counter 0 the interviewer runs at most twice in an
   * invocation, and from any other value at most once, because the counter is
   * bumped before the critic's route reads it.
   */
  lemma {:induction false} InterviewerRunsBounded(n: Node, s: AgentState, o: Oracles, merge: Merge, attempt: nat)
    ensures Count(Run(n, s, o, merge, attempt).trace, Interviewer) <= Allowance(n, s.criticRetryCount)
    decreases Rank(n, s.criticRetryCount)
  {
    if n != End && NodeUpdate(n, s, o, attempt).Some? {
      var s' := After(n, s, o, merge, attempt);
      var next := Successor(n, s');
      StepDecreasesRank(n, s, o, merge, attempt);
      InterviewerRunsBounded(next, s', o, merge, NextAttempt(n, attempt));
      StepAllowance(n, s, o, merge, attempt);
      var t := Run(n, s, o, merge, attempt).trace;
      assert t == [n] + Run(next, s', o, merge, NextAttempt(n, attempt)).trace;
    }
  }

  /** One step spends an interviewer run only when it is one, and never raises the allowance. */
  lemma StepAllowance(n: Node, s: AgentState, o: Oracles, merge: Merge, attempt: nat)
    requires n != End && NodeUpdate(n, s, o, attempt).Some?
    ensures var s' := After(n, s, o, merge, attempt);
            (if n == Interviewer then 1 else 0) + Allowance(Successor(n, s'), s'.criticRetryCount)
              <= Allowance(n, s.criticRetryCount)
  {
  }

  /** An invocation runs the interviewer at most twice. */
  lemma InvokeAtMostTwoDrafts(s: AgentState, input: seq<Message>, o: Oracles, merge: Merge)
    ensures Count(Invoke(s, input, o, merge).trace, Interviewer) <= 2
    ensures Apply(s, NoUpdate.(messages := input), merge).criticRetryCount > 0 ==>
              Count(Invoke(s, input, o, merge).trace, Interviewer) <= 1
  {
    InterviewerRunsBounded(Planner, Apply(s, NoUpdate.(messages := input), merge), o, merge, 0);
  }

  /** In a run that completes, each interviewer run is judged by the critic exactly once. */
  lemma {:induction false} CriticJudgesEveryDraft(n: Node, s: AgentState, o: Oracles, merge: Merge, attempt: nat)
    requires !Run(n, s, o, merge, attempt).failed
    ensures var t := Run(n, s, o, merge, attempt).trace;
            Count(t, Critic) == Count(t, Interviewer) + (if n == Critic then 1 else 0)
    decreases Rank(n, s.criticRetryCount)
  {
    if n != End {
      var s' := After(n, s, o, merge, attempt);
      var next := Successor(n, s');
      StepDecreasesRank(n, s, o, merge, attempt);
      CriticJudgesEveryDraft(next, s', o, merge, NextAttempt(n, attempt));
      var t := Run(n, s, o, merge, attempt).trace;
      assert t == [n] + Run(next, s', o, merge, NextAttempt(n, attempt)).trace;
    }
  }

  /**
   * How a completed run through the critic leaves the counter: reset to 0 on an
   * approval, and 2 or more when it ends on a rejection. The counter is not
   * reset at the ceiling.
   */
  lemma {:induction false} CounterAfterCritic(n: Node, s: AgentState, o: Oracles, merge: Merge, attempt: nat)
    requires var r := Run(n, s, o, merge, attempt); !r.failed && Critic in r.trace
    ensures var f := Run(n, s, o, merge, attempt).state;
            && (f.criticStatus == Some(Rejected) ==> f.criticRetryCount >= 2)
            && (f.criticStatus != Some(Rejected) ==> f.criticRetryCount == 0)
    decreases Rank(n, s.criticRetryCount)
  {
    var s' := After(n, s, o, merge, attempt);
    var next := Successor(n, s');
    StepDecreasesRank(n, s, o, merge, attempt);
    var rest := Run(next, s', o, merge, NextAttempt(n, attempt));
    assert Run(n, s, o, merge, attempt).trace == [n] + rest.trace;
    if n == Critic && next == End {
      assert rest.state == s';
    } else {
      assert Critic in rest.trace;
      CounterAfterCritic(next, s', o, merge, NextAttempt(n, attempt));
    }
  }

  /**
   * Only a STOP from the classifier reaches the feedback node: the observer's
   * `should_stop` is read by no route, and the feedback node comes right after
   * the router.
   */
  lemma FeedbackOnlyOnStop(s: AgentState, o: Oracles, merge: Merge)
    requires Feedback in Run(Planner, s, o, merge, 0).trace
    ensures s.messages != [] && o.classify(s.messages[|s.messages| - 1].content) == Some(R.Stop)
    ensures Run(Planner, s, o, merge, 0).trace[..3] == [Planner, Router, Feedback]
  {
    var s1 := After(Planner, s, o, merge, 0);
    var s2 := After(Router, s1, o, merge, 0);
    assert s1.messages == s.messages;
    var rest := Run(Successor(Router, s2), s2, o, merge, 0);
    if Successor(Router, s2) != Feedback {
      NoFeedbackAfter(Successor(Router, s2), s2, o, merge, 0);
      assert false;
    }
    R.StopOnlyFromClassifier(s1.messages, o.classify);
  }

  /** From the observer, interviewer or critic on, the feedback node is never reached. */
  lemma {:induction false} NoFeedbackAfter(n: Node, s: AgentState, o: Oracles, merge: Merge, attempt: nat)
    requires n == Observer || n == Interviewer || n == Critic || n == End
    ensures Feedback !in Run(n, s, o, merge, attempt).trace
    decreases Rank(n, s.criticRetryCount)
  {
    if n != End && NodeUpdate(n, s, o, attempt).Some? {
      var s' := After(n, s, o, merge, attempt);
      StepDecreasesRank(n, s, o, merge, attempt);
      NoFeedbackAfter(Successor(n, s'), s', o, merge, NextAttempt(n, attempt));
    }
  }

  /** No route depends on `internal_thoughts`, where the observer's `should_stop` is kept. */
  lemma RoutesIgnoreThoughts(n: Node, s: AgentState, thoughts: seq<Thought>)
    ensures Successor(n, s) == Successor(n, s.(internalThoughts := thoughts))
  {
  }

  /** Every node except the feedback node keeps the log numbered 1..`loop_count`. */
  lemma StepKeepsLogNumbered(n: Node, s: AgentState, o: Oracles, merge: Merge, attempt: nat)
    requires n != Feedback && NodeUpdate(n, s, o, attempt).Some? && LogNumbered(s)
    ensures LogNumbered(After(n, s, o, merge, attempt))
  {
    if n == Interviewer {
      I.RunKeepsLogNumbered(s, p => o.draft(attempt, p), merge);
    }
  }

  /** An invocation that does not reach the feedback node keeps the log numbered, whether or not a node raised. */
  lemma {:induction false} RunKeepsLogNumbered(n: Node, s: AgentState, o: Oracles, merge: Merge, attempt: nat)
    requires LogNumbered(s) && Feedback !in Run(n, s, o, merge, attempt).trace
    ensures LogNumbered(Run(n, s, o, merge, attempt).state)
    decreases Rank(n, s.criticRetryCount)
  {
    if n != End && NodeUpdate(n, s, o, attempt).Some? {
      var s' := After(n, s, o, merge, attempt);
      StepDecreasesRank(n, s, o, merge, attempt);
      StepKeepsLogNumbered(n, s, o, merge, attempt);
      RunKeepsLogNumbered(Successor(n, s'), s', o, merge, NextAttempt(n, attempt));
    }
  }

  /**
   * Every interviewer run appends its message, rejected or not: without the
   * feedback node, the messages grow by one interviewer message per run.
   */
  lemma {:induction false} DraftsStayInHistory(n: Node, s: AgentState, o: Oracles, merge: Merge, attempt: nat)
    requires Feedback !in Run(n, s, o, merge, attempt).trace
    ensures var r := Run(n, s, o, merge, attempt);
            && s.messages <= r.state.messages
            && |r.state.messages| == |s.messages| + Count(r.trace, Interviewer)
            && forall k :: |s.messages| <= k < |r.state.messages| ==> r.state.messages[k].Ai?
    decreases Rank(n, s.criticRetryCount)
  {
    if n != End && NodeUpdate(n, s, o, attempt).Some? {
      var s' := After(n, s, o, merge, attempt);
      var next := Successor(n, s');
      StepDecreasesRank(n, s, o, merge, attempt);
      DraftsStayInHistory(next, s', o, merge, NextAttempt(n, attempt));
      var t := Run(n, s, o, merge, attempt).trace;
      assert t == [n] + Run(next, s', o, merge, NextAttempt(n, attempt)).trace;
      StepAppendsDraft(n, s, o, merge, attempt);
    }
  }

  /** One step other than feedback adds a message only when it is the interviewer's, and then one. */
  lemma StepAppendsDraft(n: Node, s: AgentState, o: Oracles, merge: Merge, attempt: nat)
    requires n != End && n != Feedback && NodeUpdate(n, s, o, attempt).Some?
    ensures var s' := After(n, s, o, merge, attempt);
            && s.messages <= s'.messages
            && |s'.messages| == |s.messages| + (if n == Interviewer then 1 else 0)
            && forall k :: |s.messages| <= k < |s'.messages| ==> s'.messages[k].Ai?
  {
    var u := NodeUpdate(n, s, o, attempt).value;
    assert u.messages == (if n == Interviewer then [Ai(u.messages[0].content)] else []);
  }

  /**
   * A turn that ended on a rejection leaves the counter at its ceiling, so the
   * next turn gets no retry: at most one interviewer run.
   */
  lemma NoRetryAfterRejectedTurn(s: AgentState, in1: seq<Message>, in2: seq<Message>,
                                 o1: Oracles, o2: Oracles, merge: Merge)
    requires var r1 := Invoke(s, in1, o1, merge);
             !r1.failed && Critic in r1.trace && r1.state.criticStatus == Some(Rejected)
    ensures Count(Invoke(Invoke(s, in1, o1, merge).state, in2, o2, merge).trace, Interviewer) <= 1
  {
    var s0 := Apply(s, NoUpdate.(messages := in1), merge);
    CounterAfterCritic(Planner, s0, o1, merge, 0);
    InvokeAtMostTwoDrafts(Invoke(s, in1, o1, merge).state, in2, o2, merge);
  }

  /**
   * The critic's feedback outlives the turn: with feedback left over and the
   * counter already raised, the next turn's draft counts as a redraft, so it is
   * neither logged nor counted in `loop_count`.
   */
  lemma {:induction false} LeftoverFeedbackSkipsLog(n: Node, s: AgentState, o: Oracles, merge: Merge, attempt: nat)
    requires (n != Critic ==> s.criticFeedback != "") && s.criticRetryCount >= 1
    requires Feedback !in Run(n, s, o, merge, attempt).trace
    ensures var f := Run(n, s, o, merge, attempt).state;
            f.interviewLog == s.interviewLog && f.loopCount == s.loopCount
    decreases Rank(n, s.criticRetryCount)
  {
    if n != End && NodeUpdate(n, s, o, attempt).Some? {
      var s' := After(n, s, o, merge, attempt);
      var next := Successor(n, s');
      StepDecreasesRank(n, s, o, merge, attempt);
      assert s'.interviewLog == s.interviewLog + [];
      if n == Critic {
        // whatever the verdict, the raised counter ends the loop
        assert next == End;
        assert Run(n, s, o, merge, attempt).state == s';
      } else {
        assert n != Interviewer ==> s'.criticFeedback == s.criticFeedback;
        LeftoverFeedbackSkipsLog(next, s', o, merge, NextAttempt(n, attempt));
      }
    }
  }

  /** Facts shared by every state of the opening turn before the first draft. */
  predicate Opening(s: AgentState) {
    && s.messages == [] && s.loopCount == 0 && s.interviewLog == [] && s.criticFeedback == ""
    && s.criticRetryCount == 0 && I.LatestThought(s).ThoughtDict?
  }

  /** How the opening turn leaves the state: one question, logged as turn 1 with no candidate input. */
  predicate Opened(s: AgentState) {
    && |s.messages| == 1 && s.messages[0].Ai?
    && s.loopCount == 1 && |s.interviewLog| == 1
    && s.interviewLog[0].turnId == 1 && s.interviewLog[0].userInput == ""
    && s.criticRetryCount == 0
  }

  /** The first draft of the opening turn is logged as turn 1, with no candidate input. */
  lemma OpeningDraft(s: AgentState, o: Oracles, merge: Merge)
    requires Opening(s)
    requires forall p :: o.draft(0, p).Some?
    ensures NodeUpdate(Interviewer, s, o, 0).Some?
    ensures var s' := After(Interviewer, s, o, merge, 0);
            Opened(s')
  {
    var prompt := I.Prompt(s).value;
    assert o.draft(0, prompt).Some?;
  }

  /** An approval ends the run and resets the counter, leaving messages and log as they were. */
  lemma ApprovalEndsRun(s: AgentState, o: Oracles, merge: Merge, attempt: nat)
    requires forall st :: o.critic(attempt, st).Some? && o.critic(attempt, st).value.status == Approved
    ensures NodeUpdate(Critic, s, o, attempt).Some?
    ensures var s' := After(Critic, s, o, merge, attempt);
            && Run(Critic, s, o, merge, attempt) == Outcome([Critic, End], s', false)
            && s'.messages == s.messages && s'.interviewLog == s.interviewLog && s'.loopCount == s.loopCount
            && s'.criticRetryCount == 0
  {
    assert o.critic(attempt, s).Some?;
    var s' := After(Critic, s, o, merge, attempt);
    assert s'.messages == s.messages + [] && s'.interviewLog == s.interviewLog + [];
    assert Successor(Critic, s') == End;
  }

  /** The opening draft, approved: one message, logged as turn 1, and the run ends. */
  lemma OpeningDraftApproved(s: AgentState, o: Oracles, merge: Merge)
    requires Opening(s)
    requires forall p :: o.draft(0, p).Some?
    requires forall st :: o.critic(0, st).Some? && o.critic(0, st).value.status == Approved
    ensures var r := Run(Interviewer, s, o, merge, 0);
            && r.trace == [Interviewer, Critic, End] && !r.failed
            && Opened(r.state)
  {
    OpeningDraft(s, o, merge);
    var s' := After(Interviewer, s, o, merge, 0);
    ApprovalEndsRun(s', o, merge, 0);
  }

  /**
   * The opening turn: with a plan, a draft and an approval, the graph runs
   * planner, router, observer, interviewer and critic once each, sends the
   * first question, and logs it as turn 1 with no candidate input.
   */
  lemma FirstTurn(candidate: CandidateInfo, profile: string, o: Oracles, merge: Merge)
    requires o.plan.Some?
    requires forall p :: o.draft(0, p).Some?
    requires forall st :: o.critic(0, st).Some? && o.critic(0, st).value.status == Approved
    ensures var r := Invoke(InitialState(candidate, profile), [], o, merge);
            && r.trace == [Planner, Router, Observer, Interviewer, Critic, End] && !r.failed
            && Opened(r.state)
  {
    var s0 := Apply(InitialState(candidate, profile), NoUpdate.(messages := []), merge);
    assert Opening(s0) && s0.topicPlan == [];
    OpeningRoute(s0, o, merge);
  }

  /** One step of a run: node `n` completes and the run goes on from its successor. */
  lemma RunStep(n: Node, s: AgentState, o: Oracles, merge: Merge, attempt: nat)
    requires n != End && NodeUpdate(n, s, o, attempt).Some?
    ensures var s' := After(n, s, o, merge, attempt);
            var rest := Run(Successor(n, s'), s', o, merge, NextAttempt(n, attempt));
            Run(n, s, o, merge, attempt) == Outcome([n] + rest.trace, rest.state, rest.failed)
  {
  }

  lemma OpeningPlanner(s: AgentState, o: Oracles, merge: Merge)
    requires Opening(s) && s.topicPlan == [] && o.plan.Some?
    ensures NodeUpdate(Planner, s, o, 0).Some? && Opening(After(Planner, s, o, merge, 0))
    ensures After(Planner, s, o, merge, 0) == s.(topicPlan := o.plan.value)
  {
    var s' := After(Planner, s, o, merge, 0);
    assert s'.internalThoughts == s.internalThoughts + [];
    assert s'.messages == s.messages + [] && s'.interviewLog == s.interviewLog + [];
  }

  lemma OpeningRouter(s: AgentState, o: Oracles, merge: Merge)
    requires Opening(s)
    ensures var s' := After(Router, s, o, merge, 0);
            Opening(s') && s'.routerDecision == AnswerLabel && Successor(Router, s') == Observer
    ensures After(Router, s, o, merge, 0) == s.(routerDecision := AnswerLabel)
  {
    var s' := After(Router, s, o, merge, 0);
    assert s'.internalThoughts == s.internalThoughts + [];
    assert s'.messages == s.messages + [] && s'.interviewLog == s.interviewLog + [];
  }

  lemma OpeningObserver(s: AgentState, o: Oracles, merge: Merge)
    requires Opening(s) && s.routerDecision == AnswerLabel
    ensures NodeUpdate(Observer, s, o, 0).Some? && Opening(After(Observer, s, o, merge, 0))
    ensures After(Observer, s, o, merge, 0) ==
              s.(internalThoughts := s.internalThoughts + [O.OpeningThought(s.candidateInfo)])
  {
    assert O.AtStart(s);
    var s' := After(Observer, s, o, merge, 0);
    assert s'.internalThoughts == s.internalThoughts + [O.OpeningThought(s.candidateInfo)];
    assert s'.messages == s.messages + [] && s'.interviewLog == s.interviewLog + [];
  }

  /** From the observer on, the opening turn runs observer, interviewer and critic once each. */
  lemma OpeningFromObserver(s: AgentState, o: Oracles, merge: Merge)
    requires Opening(s) && s.routerDecision == AnswerLabel
    requires forall p :: o.draft(0, p).Some?
    requires forall st :: o.critic(0, st).Some? && o.critic(0, st).value.status == Approved
    ensures var r := Run(Observer, s, o, merge, 0);
            r.trace == [Observer, Interviewer, Critic, End] && !r.failed && Opened(r.state)
  {
    OpeningObserver(s, o, merge);
    var s' := After(Observer, s, o, merge, 0);
    assert Successor(Observer, s') == Interviewer && NextAttempt(Observer, 0) == 0;
    OpeningDraftApproved(s', o, merge);
    var rest := Run(Interviewer, s', o, merge, 0);
    RunStep(Observer, s, o, merge, 0);
    var r := Run(Observer, s, o, merge, 0);
    assert r == Outcome([Observer] + rest.trace, rest.state, rest.failed);
    assert r.trace == [Observer] + [Interviewer, Critic, End];
  }

  lemma OpeningFromRouter(s: AgentState, o: Oracles, merge: Merge)
    requires Opening(s)
    requires forall p :: o.draft(0, p).Some?
    requires forall st :: o.critic(0, st).Some? && o.critic(0, st).value.status == Approved
    ensures var r := Run(Router, s, o, merge, 0);
            r.trace == [Router, Observer, Interviewer, Critic, End] && !r.failed && Opened(r.state)
  {
    OpeningRouter(s, o, merge);
    var s' := After(Router, s, o, merge, 0);
    assert Successor(Router, s') == Observer && NextAttempt(Router, 0) == 0;
    OpeningFromObserver(s', o, merge);
    var rest := Run(Observer, s', o, merge, 0);
    RunStep(Router, s, o, merge, 0);
    var r := Run(Router, s, o, merge, 0);
    assert r == Outcome([Router] + rest.trace, rest.state, rest.failed);
    assert r.trace == [Router] + [Observer, Interviewer, Critic, End];
  }

  /** From the opening state, the planner and router lead to the observer. */
  lemma OpeningRoute(s: AgentState, o: Oracles, merge: Merge)
    requires Opening(s) && s.topicPlan == [] && o.plan.Some?
    requires forall p :: o.draft(0, p).Some?
    requires forall st :: o.critic(0, st).Some? && o.critic(0, st).value.status == Approved
    ensures var r := Run(Planner, s, o, merge, 0);
            r.trace == [Planner, Router, Observer, Interviewer, Critic, End] && !r.failed && Opened(r.state)
  {
    OpeningPlanner(s, o, merge);
    var s' := After(Planner, s, o, merge, 0);
    OpeningFromRouter(s', o, merge);
    RunStep(Planner, s, o, merge, 0);
  }
}
