/**
 * The report sections written after the interview (`utils/report.py`): the
 * technical assessment is asked for on a question-and-answer transcript of
 * the answered turns, and the development roadmap on the list of knowledge
 * gaps the observer recorded. `llm` is the model call (`None` when it raised).
 */
module Report {
  import opened Util
  import opened State
  import Observer

  // ---------------------------------------------------------------------
  // The technical transcript
  // ---------------------------------------------------------------------

  const QuestionTag: string := "Q: "
  const AnswerTag: string := "A: "
  const AnalysisTag: string := "[Analysis: "
  const Separator: string := "---"

  /** The analysis shown under an answer: that of a dict thought, when non-empty. */
  function ShownAnalysis(t: Thought): (r: Option<string>)
    ensures r.Some? <==> t.ThoughtDict? && t.analysis.GetOr("") != ""
    ensures r.Some? ==> r == t.analysis
  {
    match t
    case NonDict => None
    case ThoughtDict(analysis, _, _, _, _) => if analysis.GetOr("") != "" then analysis else None
  }

  /**
   * The lines one turn adds: nothing for a turn without a reply; otherwise the
   * question, the answer, the analysis when there is one, and a separator.
   */
  function TechTurnLines(t: TurnLog): (r: seq<string>)
    ensures r == [] <==> t.userInput == ""
    ensures r != [] ==> |r| >= 3 && r[0] == QuestionTag + t.agentResponse && r[1] == AnswerTag + t.userInput
                        && r[|r| - 1] == Separator
    ensures r != [] ==> (|r| == 4 <==> ShownAnalysis(t.internalThoughts).Some?)
  {
    if t.userInput == "" then []
    else
      [QuestionTag + t.agentResponse, AnswerTag + t.userInput]
      + (match ShownAnalysis(t.internalThoughts) case Some(a) => [AnalysisTag + a + "]"] case None => [])
      + [Separator]
  }

  function TechTranscriptLines(log: seq<TurnLog>): seq<string> {
    FlatMap(log, TechTurnLines)
  }

  /** The transcript the model is shown: every line ends with a newline. */
  function TechTranscript(log: seq<TurnLog>): string {
    Terminated(TechTranscriptLines(log))
  }

  /** One answered turn's block of text, as the loop writes it. */
  lemma TechTurnBlock(t: TurnLog)
    requires t.userInput != ""
    ensures Terminated(TechTurnLines(t)) ==
              (QuestionTag + t.agentResponse + "\n" + AnswerTag + t.userInput + "\n")
              + (match ShownAnalysis(t.internalThoughts) case Some(a) => AnalysisTag + a + "]\n" case None => "")
              + (Separator + "\n")
  {
    var qa := [QuestionTag + t.agentResponse, AnswerTag + t.userInput];
    var an := match ShownAnalysis(t.internalThoughts) case Some(a) => [AnalysisTag + a + "]"] case None => [];
    TerminatedAppend(qa + an, [Separator]);
    TerminatedAppend(qa, an);
    assert Terminated([Separator]) == Separator + "\n" by { assert [Separator][1..] == []; }
    assert Terminated(qa) == qa[0] + "\n" + (qa[1] + "\n") by {
      assert qa[1..] == [qa[1]];
      assert [qa[1]][1..] == [];
    }
    if an != [] {
      assert Terminated(an) == an[0] + "\n" by { assert an[1..] == []; }
    }
  }

  lemma TechTranscriptStep(log: seq<TurnLog>, i: nat, block: string)
    requires i < |log| && block == Terminated(TechTurnLines(log[i]))
    ensures TechTranscript(log[..i + 1]) == TechTranscript(log[..i]) + block
  {
    assert log[..i + 1] == log[..i] + [log[i]];
    FlatMapAppend(log[..i], [log[i]], TechTurnLines);
    assert FlatMap([log[i]], TechTurnLines) == TechTurnLines(log[i]) by {
      assert [log[i]][1..] == [];
    }
    TerminatedAppend(TechTranscriptLines(log[..i]), TechTurnLines(log[i]));
  }

  /** The body of the transcript loop: the lines of one turn are appended. */
  method AppendTechTurn(transcript: string, turn: TurnLog) returns (r: string)
    ensures r == transcript + Terminated(TechTurnLines(turn))
  {
    r := transcript;
    if turn.userInput != "" {
      ghost var block := QuestionTag + turn.agentResponse + "\n" + AnswerTag + turn.userInput + "\n";
      r := r + (QuestionTag + turn.agentResponse + "\n" + AnswerTag + turn.userInput + "\n");
      if turn.internalThoughts.ThoughtDict? {
        var analysis := turn.internalThoughts.analysis.GetOr("");
        if analysis != "" {
          r := r + (AnalysisTag + analysis + "]\n");
          block := block + (AnalysisTag + analysis + "]\n");
        }
      }
      assert r == transcript + block;
      r := r + (Separator + "\n");
      block := block + (Separator + "\n");
      assert r == transcript + block;
      TechTurnBlock(turn);
    } else {
      assert TechTurnLines(turn) == [];
    }
  }

  /** The transcript loop of `generate_technical_report`. */
  method BuildTechnicalTranscript(log: seq<TurnLog>) returns (transcript: string)
    ensures transcript == TechTranscript(log)
  {
    transcript := "";
    var i := 0;
    while i < |log|
      invariant 0 <= i <= |log|
      invariant transcript == TechTranscript(log[..i])
    {
      transcript := AppendTechTurn(transcript, log[i]);
      TechTranscriptStep(log, i, Terminated(TechTurnLines(log[i])));
      i := i + 1;
    }
    assert log[..|log|] == log;
  }

  /** The number of turns in which the candidate replied. */
  function Answered(log: seq<TurnLog>): (n: nat)
    ensures n <= |log|
  {
    if log == [] then 0 else (if log[0].userInput != "" then 1 else 0) + Answered(log[1..])
  }

  /** Only answered turns appear, each closed by exactly one separator. */
  lemma {:induction false} SeparatorPerAnsweredTurn(log: seq<TurnLog>)
    ensures multiset(TechTranscriptLines(log))[Separator] == Answered(log)
  {
    if log != [] {
      SeparatorPerAnsweredTurn(log[1..]);
      TurnSeparators(log[0]);
      assert TechTranscriptLines(log) == TechTurnLines(log[0]) + TechTranscriptLines(log[1..]);
    }
  }

  /** An answered turn holds one separator line, an unanswered one none. */
  lemma TurnSeparators(t: TurnLog)
    ensures multiset(TechTurnLines(t))[Separator] == if t.userInput != "" then 1 else 0
  {
    if t.userInput != "" {
      var r := TechTurnLines(t);
      assert r[0][0] == 'Q' && r[1][0] == 'A';
      if |r| == 4 {
        assert r[2] == AnalysisTag + ShownAnalysis(t.internalThoughts).value + "]";
        assert r[2][0] == '[';
        assert r == [r[0], r[1], r[2], Separator];
      } else {
        assert r == [r[0], r[1], Separator];
      }
    }
  }

  lemma {:induction false} TechLinesSingle(log: seq<TurnLog>)
    requires forall k :: 0 <= k < |log| ==> TurnSingleLine(log[k])
    ensures forall k :: 0 <= k < |TechTranscriptLines(log)| ==> '\n' !in TechTranscriptLines(log)[k]
  {
    if log != [] {
      var t := log[0];
      TechLinesSingle(log[1..]);
      var head, rest := TechTurnLines(t), TechTranscriptLines(log[1..]);
      assert TurnSingleLine(t);
      TagsSingle();
      assert forall k :: 0 <= k < |head| ==> '\n' !in head[k] by {
        if t.userInput != "" {
          NoNewlineConcat(QuestionTag, t.agentResponse);
          NoNewlineConcat(AnswerTag, t.userInput);
          if ShownAnalysis(t.internalThoughts).Some? {
            var a := ShownAnalysis(t.internalThoughts).value;
            NoNewlineConcat(AnalysisTag, a);
            NoNewlineConcat(AnalysisTag + a, "]");
          }
        }
      }
      assert TechTranscriptLines(log) == head + rest;
      forall k | 0 <= k < |head + rest|
        ensures '\n' !in (head + rest)[k]
      {
        if k < |head| {
          assert (head + rest)[k] == head[k];
        } else {
          assert (head + rest)[k] == rest[k - |head|];
        }
      }
    }
  }

  /** No question, answer or analysis of the turn holds a newline. */
  predicate TurnSingleLine(t: TurnLog) {
    '\n' !in t.userInput && '\n' !in t.agentResponse
    && (t.internalThoughts.ThoughtDict? ==> '\n' !in t.internalThoughts.analysis.GetOr(""))
  }

  lemma TagsSingle()
    ensures '\n' !in QuestionTag && '\n' !in AnswerTag && '\n' !in AnalysisTag
    ensures '\n' !in "]" && '\n' !in Separator
  {
  }

  /**
   * When nothing in the turns holds a newline, the transcript reads back line
   * by line as the answered turns' lines, with nothing after the last newline.
   */
  lemma TechTranscriptReadsBack(log: seq<TurnLog>)
    requires forall k :: 0 <= k < |log| ==> TurnSingleLine(log[k])
    ensures SplitLines(TechTranscript(log)) == TechTranscriptLines(log) + [""]
  {
    TechLinesSingle(log);
    SplitTerminated(TechTranscriptLines(log));
  }

  // ---------------------------------------------------------------------
  // Knowledge gaps
  // ---------------------------------------------------------------------

  /** A thought records a gap when its decision keeps or lowers the difficulty. */
  predicate IsGapDecision(d: string) {
    d == DecreaseDifficulty || d == Maintain
  }

  /** The gap a thought contributes: the non-empty analysis of a dict thought with a gap decision. */
  function Gap(t: Thought): (r: Option<string>)
    ensures r.Some? <==> t.ThoughtDict? && IsGapDecision(t.decision.GetOr("")) && t.analysis.GetOr("") != ""
    ensures r.Some? ==> r == t.analysis
  {
    match t
    case NonDict => None
    case ThoughtDict(analysis, decision, _, _, _) =>
      if IsGapDecision(decision.GetOr("")) && analysis.GetOr("") != "" then analysis else None
  }

  function Gaps(ts: seq<Thought>): seq<string> {
    FilterMap(ts, Gap)
  }

  /** The gap loop of `generate_development_roadmap`. */
  method CollectGaps(ts: seq<Thought>) returns (gaps: seq<string>)
    ensures gaps == Gaps(ts)
  {
    gaps := [];
    var i := 0;
    while i < |ts|
      invariant 0 <= i <= |ts|
      invariant gaps == Gaps(ts[..i])
    {
      var thought := ts[i];
      assert ts[..i + 1] == ts[..i] + [thought];
      FilterMapAppend(ts[..i], [thought], Gap);
      assert FilterMap([thought], Gap) == (match Gap(thought) case Some(g) => [g] case None => []) by {
        assert [thought][1..] == [];
      }
      if thought.ThoughtDict? {
        var decision := thought.decision.GetOr("");
        if decision == DecreaseDifficulty || decision == Maintain {
          var analysis := thought.analysis.GetOr("");
          if analysis != "" {
            gaps := gaps + [analysis];
          }
        }
      }
      i := i + 1;
    }
    assert ts[..|ts|] == ts;
  }

  /** A text is listed as a gap exactly when some thought with a gap decision gives it as its analysis. */
  lemma GapMembers(ts: seq<Thought>, g: string)
    ensures g in Gaps(ts) <==>
              g != "" && exists t :: t in ts && t.ThoughtDict? && IsGapDecision(t.decision.GetOr("")) && t.analysis == Some(g)
  {
    FilterMapMembers(ts, Gap, g);
  }

  /**
   * The observer's own fixed thoughts count as gaps too: the opening thought
   * (MAINTAIN) and the question-limit thought (DECREASE_DIFFICULTY) both have
   * a non-empty analysis.
   */
  lemma FixedThoughtsAreGaps(c: CandidateInfo)
    ensures Gaps([Observer.OpeningThought(c), Observer.LimitThought]) == ["Start of interview.", "Question limit reached."]
  {
    var ts := [Observer.OpeningThought(c), Observer.LimitThought];
    assert Gap(ts[0]) == Some("Start of interview.");
    assert Gap(ts[1]) == Some("Question limit reached.");
    assert ts[1..] == [Observer.LimitThought];
    assert ts[1..][1..] == [];
    assert Gaps(ts[1..]) == ["Question limit reached."] + Gaps([]);
  }

  const NoGaps: string := "No specific gaps identified."

  /** The gaps one per line, each as a "- " bullet, or a placeholder. */
  function GapsText(gaps: seq<string>): string {
    if gaps == [] then NoGaps else JoinLines(Prefixed("- ", gaps))
  }

  /** Single-line gaps read back from the text as one bullet each, in order. */
  lemma GapsTextReadsBack(gaps: seq<string>)
    requires gaps != []
    requires forall k :: 0 <= k < |gaps| ==> '\n' !in gaps[k]
    ensures SplitLines(GapsText(gaps)) == Prefixed("- ", gaps)
  {
    var lines := Prefixed("- ", gaps);
    forall k | 0 <= k < |lines|
      ensures '\n' !in lines[k]
    {
      assert '\n' !in "- ";
      NoNewlineConcat("- ", gaps[k]);
    }
    SplitJoinLines(lines);
  }

  /** The placeholder appears exactly when there are no gaps. */
  lemma GapsPlaceholderOnlyWithoutGaps(gaps: seq<string>)
    ensures GapsText(gaps) == NoGaps <==> gaps == []
  {
    if gaps != [] {
      var lines := Prefixed("- ", gaps);
      var s := JoinLines(lines);
      if |lines| == 1 {
        assert s == lines[0];
      } else {
        assert s == lines[0] + "\n" + JoinLines(lines[1..]);
      }
      assert lines[0][0] == '-';
      assert s[0] == '-';
      assert NoGaps[0] == 'N';
    }
  }

  // ---------------------------------------------------------------------
  // The two sections
  // ---------------------------------------------------------------------

  const TechnicalHeading: string := "## Техническая оценка\n\n"
  const RoadmapHeading: string := "## План развития\n\n"

  datatype TechnicalPrompt = TechnicalPrompt(candidate: CandidateInfo, transcript: string)
  datatype RoadmapPrompt = RoadmapPrompt(candidate: CandidateInfo, gaps: string, numQuestions: nat)

  /** `generate_technical_report`: the heading followed by the model's assessment of the transcript. */
  method TechnicalReport(log: seq<TurnLog>, candidate: CandidateInfo, llm: TechnicalPrompt -> Option<string>)
    returns (r: Option<string>)
    ensures var reply := llm(TechnicalPrompt(candidate, TechTranscript(log)));
            && (r.Some? <==> reply.Some?)
            && (r.Some? ==> StartsWith(r.value, TechnicalHeading) && r.value[|TechnicalHeading|..] == reply.value)
  {
    var transcript := BuildTechnicalTranscript(log);
    var reply := llm(TechnicalPrompt(candidate, transcript));
    if reply.None? {
      return None;
    }
    r := Some(TechnicalHeading + reply.value);
  }

  /**
   * `generate_development_roadmap`: the heading followed by the model's
   * roadmap for the gaps; the question count is the number of logged turns.
   */
  method DevelopmentRoadmap(log: seq<TurnLog>, thoughts: seq<Thought>, candidate: CandidateInfo,
                            llm: RoadmapPrompt -> Option<string>)
    returns (r: Option<string>)
    ensures var reply := llm(RoadmapPrompt(candidate, GapsText(Gaps(thoughts)), |log|));
            && (r.Some? <==> reply.Some?)
            && (r.Some? ==> StartsWith(r.value, RoadmapHeading) && r.value[|RoadmapHeading|..] == reply.value)
  {
    var gaps := CollectGaps(thoughts);
    var gapsText := if gaps == [] then NoGaps else JoinLines(Prefixed("- ", gaps));
    var reply := llm(RoadmapPrompt(candidate, gapsText, |log|));
    if reply.None? {
      return None;
    }
    r := Some(RoadmapHeading + reply.value);
  }

  /**
   * The question count is the number of logged turns, which exceeds the
   * number of answered turns exactly when some turn (such as the opening
   * question) has no reply.
   */
  lemma {:induction false} QuestionCountCountsUnanswered(log: seq<TurnLog>)
    ensures Answered(log) == |log| <==> forall k :: 0 <= k < |log| ==> log[k].userInput != ""
  {
    if log != [] {
      QuestionCountCountsUnanswered(log[1..]);
      assert forall k :: 1 <= k < |log| ==> log[k] == log[1..][k - 1];
      if Answered(log) == |log| {
        forall k | 0 <= k < |log|
          ensures log[k].userInput != ""
        {
          if k > 0 {
            assert log[k] == log[1..][k - 1];
          }
        }
      }
    }
  }
}
