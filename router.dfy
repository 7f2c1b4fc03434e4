/**
 * The guardrail classifier node: it labels the candidate's latest message with
 * one of four categories and writes the label to `router_decision`. The
 * classification itself is an oracle: `classify(text)` is the structured
 * model output for `text`, or `None` when the call raised.
 */
module Router {
  import opened Util
  import opened State

  /** The `category` literal of `RouteResponse`. */
  datatype RouteCategory = Answer | RoleReversal | Injection | Stop {
    function Label(): string {
      match this
      case Answer => AnswerLabel
      case RoleReversal => RoleReversalLabel
      case Injection => InjectionLabel
      case Stop => StopLabel
    }
  }

  /** The strings `router_decision` can be given by this node. */
  predicate IsCategoryLabel(d: string) {
    d == AnswerLabel || d == RoleReversalLabel || d == InjectionLabel || d == StopLabel
  }

  /**
   * `router_node`: an empty history is the session start and needs no
   * classification; otherwise the last message's text is classified, and a
   * failed classification falls back to ANSWER.
   */
  function RouterNode(messages: seq<Message>, classify: string -> Option<RouteCategory>): (u: Update)
    ensures u == NoUpdate.(routerDecision := u.routerDecision)
    ensures u.routerDecision.Some? && IsCategoryLabel(u.routerDecision.value)
    ensures messages == [] ==> u.routerDecision == Some(AnswerLabel)
    ensures messages != [] && classify(messages[|messages| - 1].content).None? ==>
              u.routerDecision == Some(AnswerLabel)
    ensures messages != [] && classify(messages[|messages| - 1].content).Some? ==>
              u.routerDecision == Some(classify(messages[|messages| - 1].content).value.Label())
  {
    if messages == [] then
      NoUpdate.(routerDecision := Some(AnswerLabel))
    else
      var decision := match classify(messages[|messages| - 1].content)
                      case Some(category) => category.Label()
                      case None => AnswerLabel;
      NoUpdate.(routerDecision := Some(decision))
  }

  /** Only the last message is classified: histories ending alike route alike. */
  lemma OnlyLastMessageRead(m1: seq<Message>, m2: seq<Message>, classify: string -> Option<RouteCategory>)
    requires m1 != [] && m2 != []
    requires m1[|m1| - 1].content == m2[|m2| - 1].content
    ensures RouterNode(m1, classify) == RouterNode(m2, classify)
  {
  }

  /** At session start the classifier is never consulted. */
  lemma StartIgnoresClassifier(c1: string -> Option<RouteCategory>, c2: string -> Option<RouteCategory>)
    ensures RouterNode([], c1) == RouterNode([], c2)
  {
  }

  /** The router never decides STOP on its own: STOP comes only from the classifier. */
  lemma StopOnlyFromClassifier(messages: seq<Message>, classify: string -> Option<RouteCategory>)
    requires RouterNode(messages, classify).routerDecision == Some(StopLabel)
    ensures messages != [] && classify(messages[|messages| - 1].content) == Some(Stop)
  {
  }
}
