/**
 * The hiring manager (`ManagerAgent`): at the end of the interview it turns the
 * interview log into a transcript and the observer's thoughts into notes, asks
 * the model for a decision record, falls back to a fixed record when the reply
 * is not JSON, and formats the record as the report section. The model call
 * (`llm`, `None` when it raised) and `json.loads` (`parse`, `None` on a decode
 * error) are parameters.
 */
module Manager {
  import opened Util
  import opened State

  // ---------------------------------------------------------------------
  // The interview transcript
  // ---------------------------------------------------------------------

  const CandidateTag: string := "Candidate: "
  const InterviewerTag: string := "Interviewer: "
  const Separator: string := "---"

  /**
   * The lines one turn adds: the candidate's reply and the interviewer's
   * message, each only when non-empty, then the separator.
   */
  function TurnLines(t: TurnLog): (r: seq<string>)
    ensures 1 <= |r| <= 3 && r[|r| - 1] == Separator
    ensures CandidateTag + t.userInput in r <==> t.userInput != ""
    ensures InterviewerTag + t.agentResponse in r <==> t.agentResponse != ""
  {
    assert (CandidateTag + t.userInput)[0] == 'C';
    assert (InterviewerTag + t.agentResponse)[0] == 'I';
    (if t.userInput != "" then [CandidateTag + t.userInput] else [])
    + (if t.agentResponse != "" then [InterviewerTag + t.agentResponse] else [])
    + [Separator]
  }

  function TranscriptLines(log: seq<TurnLog>): seq<string> {
    FlatMap(log, TurnLines)
  }

  /** The transcript the model is shown: every line ends with a newline. */
  function Transcript(log: seq<TurnLog>): string {
    Terminated(TranscriptLines(log))
  }

  /** One turn's block of text, as the loop writes it. */
  lemma TurnBlock(t: TurnLog)
    ensures Terminated(TurnLines(t)) ==
              (if t.userInput != "" then CandidateTag + t.userInput + "\n" else "")
              + (if t.agentResponse != "" then InterviewerTag + t.agentResponse + "\n" else "")
              + (Separator + "\n")
  {
    var c := if t.userInput != "" then [CandidateTag + t.userInput] else [];
    var a := if t.agentResponse != "" then [InterviewerTag + t.agentResponse] else [];
    TerminatedAppend(c + a, [Separator]);
    TerminatedAppend(c, a);
    assert Terminated([Separator]) == Separator + "\n" by { assert [Separator][1..] == []; }
    if c != [] {
      assert Terminated(c) == c[0] + "\n" by { assert c[1..] == []; }
    }
    if a != [] {
      assert Terminated(a) == a[0] + "\n" by { assert a[1..] == []; }
    }
  }

  lemma TranscriptStep(log: seq<TurnLog>, i: nat, block: string)
    requires i < |log| && block == Terminated(TurnLines(log[i]))
    ensures Transcript(log[..i + 1]) == Transcript(log[..i]) + block
  {
    assert log[..i + 1] == log[..i] + [log[i]];
    TranscriptSnoc(log[..i], log[i]);
  }

  lemma TranscriptSnoc(log: seq<TurnLog>, t: TurnLog)
    ensures Transcript(log + [t]) == Transcript(log) + Terminated(TurnLines(t))
  {
    FlatMapAppend(log, [t], TurnLines);
    assert FlatMap([t], TurnLines) == TurnLines(t) by {
      assert [t][1..] == [];
    }
    TerminatedAppend(TranscriptLines(log), TurnLines(t));
  }

  /** The body of the transcript loop: the lines of one turn are appended. */
  method AppendTurn(transcript: string, turn: TurnLog) returns (r: string)
    ensures r == transcript + Terminated(TurnLines(turn))
  {
    r := transcript;
    ghost var block := "";
    if turn.userInput != "" {
      r := r + (CandidateTag + turn.userInput + "\n");
      block := CandidateTag + turn.userInput + "\n";
    }
    assert r == transcript + block;
    if turn.agentResponse != "" {
      r := r + (InterviewerTag + turn.agentResponse + "\n");
      block := block + (InterviewerTag + turn.agentResponse + "\n");
    }
    assert r == transcript + block;
    r := r + (Separator + "\n");
    block := block + (Separator + "\n");
    assert r == transcript + block;
    TurnBlock(turn);
  }

  /** The transcript loop of `evaluate`. */
  method BuildTranscript(log: seq<TurnLog>) returns (transcript: string)
    ensures transcript == Transcript(log)
  {
    transcript := "";
    var i := 0;
    while i < |log|
      invariant 0 <= i <= |log|
      invariant transcript == Transcript(log[..i])
    {
      transcript := AppendTurn(transcript, log[i]);
      TranscriptStep(log, i, Terminated(TurnLines(log[i])));
      i := i + 1;
    }
    assert log[..|log|] == log;
  }

  /** Every turn adds exactly one separator line, whatever it holds. */
  lemma {:induction false} SeparatorPerTurn(log: seq<TurnLog>)
    ensures multiset(TranscriptLines(log))[Separator] == |log|
  {
    if log != [] {
      var t := log[0];
      SeparatorPerTurn(log[1..]);
      assert (CandidateTag + t.userInput)[0] != Separator[0];
      assert (InterviewerTag + t.agentResponse)[0] != Separator[0];
      assert multiset(TurnLines(t))[Separator] == 1;
    }
  }

  lemma {:induction false} TranscriptLinesSingle(log: seq<TurnLog>)
    requires forall k :: 0 <= k < |log| ==> '\n' !in log[k].userInput && '\n' !in log[k].agentResponse
    ensures forall k :: 0 <= k < |TranscriptLines(log)| ==> '\n' !in TranscriptLines(log)[k]
  {
    if log != [] {
      var t := log[0];
      TranscriptLinesSingle(log[1..]);
      assert '\n' !in CandidateTag && '\n' !in InterviewerTag && '\n' !in Separator;
      var head, rest := TurnLines(t), TranscriptLines(log[1..]);
      assert forall k :: 0 <= k < |head| ==> '\n' !in head[k];
      assert TranscriptLines(log) == head + rest;
      forall k | 0 <= k < |head + rest|
        ensures '\n' !in (head + rest)[k]
      {
        if k < |head| {
          assert (head + rest)[k] == head[k];
        } else {
          assert (head + rest)[k] == rest[k - |head|];
        }
      }
    }
  }

  /**
   * When no reply or message holds a newline, the transcript reads back line
   * by line as the turns' lines, with nothing after the last newline.
   */
  lemma TranscriptReadsBack(log: seq<TurnLog>)
    requires forall k :: 0 <= k < |log| ==> '\n' !in log[k].userInput && '\n' !in log[k].agentResponse
    ensures SplitLines(Transcript(log)) == TranscriptLines(log) + [""]
  {
    TranscriptLinesSingle(log);
    SplitTerminated(TranscriptLines(log));
  }

  // ---------------------------------------------------------------------
  // The observer's notes
  // ---------------------------------------------------------------------

  const NoNotes: string := "No detailed notes available."

  /** The note a thought contributes: a dict with a non-empty analysis, tagged with its decision. */
  function Note(t: Thought): (r: Option<string>)
    ensures r.Some? <==> t.ThoughtDict? && t.analysis.GetOr("") != ""
    ensures r.Some? ==> StartsWith(r.value, "- ") && StartsWith(r.value[2..], t.decision.GetOr(""))
    ensures r.Some? ==> r.value == "- " + t.decision.GetOr("") + ": " + t.analysis.value
  {
    match t
    case NonDict => None
    case ThoughtDict(analysis, decision, _, _, _) =>
      var a := analysis.GetOr("");
      if a != "" then
        var note := "- " + decision.GetOr("") + ": " + a;
        assert note[2..] == decision.GetOr("") + ": " + a;
        Some(note)
      else None
  }

  function ObserverNotes(ts: seq<Thought>): seq<string> {
    FilterMap(ts, Note)
  }

  /** The notes loop of `evaluate`. */
  method CollectObserverNotes(ts: seq<Thought>) returns (notes: seq<string>)
    ensures notes == ObserverNotes(ts)
  {
    notes := [];
    var i := 0;
    while i < |ts|
      invariant 0 <= i <= |ts|
      invariant notes == ObserverNotes(ts[..i])
    {
      var thought := ts[i];
      assert ts[..i + 1] == ts[..i] + [thought];
      FilterMapAppend(ts[..i], [thought], Note);
      assert FilterMap([thought], Note) == (match Note(thought) case Some(n) => [n] case None => []) by {
        assert [thought][1..] == [];
      }
      if thought.ThoughtDict? {
        var analysis := thought.analysis.GetOr("");
        var decision := thought.decision.GetOr("");
        if analysis != "" {
          notes := notes + ["- " + decision + ": " + analysis];
        }
      }
      i := i + 1;
    }
    assert ts[..|ts|] == ts;
  }

  /** Each note starts with "- " and comes from one of the thoughts. */
  lemma NotesAreTagged(ts: seq<Thought>, n: string)
    requires n in ObserverNotes(ts)
    ensures StartsWith(n, "- ")
    ensures exists t :: t in ts && t.ThoughtDict? && Note(t) == Some(n)
  {
    FilterMapMembers(ts, Note, n);
  }

  /** `observer_summary`: the notes one per line, or a placeholder. */
  function NotesSummary(notes: seq<string>): string {
    if notes == [] then NoNotes else JoinLines(notes)
  }

  /** Single-line notes read back from the summary one per line. */
  lemma NotesSummaryReadsBack(notes: seq<string>)
    requires notes != []
    requires forall k :: 0 <= k < |notes| ==> '\n' !in notes[k]
    ensures SplitLines(NotesSummary(notes)) == notes
  {
    SplitJoinLines(notes);
  }

  /** The placeholder cannot be mistaken for a note: it appears exactly when there are none. */
  lemma PlaceholderOnlyWithoutNotes(ts: seq<Thought>)
    ensures NotesSummary(ObserverNotes(ts)) == NoNotes <==> ObserverNotes(ts) == []
  {
    var notes := ObserverNotes(ts);
    if notes != [] {
      NotesAreTagged(ts, notes[0]);
      var s := JoinLines(notes);
      if |notes| == 1 {
        assert s == notes[0];
      } else {
        assert s == notes[0] + "\n" + JoinLines(notes[1..]);
      }
      assert s[0] == '-';
      assert NoNotes[0] == 'N';
    }
  }

  // ---------------------------------------------------------------------
  // The decision record
  // ---------------------------------------------------------------------

  datatype SoftSkills = SoftSkills(clarity: Option<string>, honesty: Option<string>, engagement: Option<string>)

  /** The decision record; a field the reply left out is `None`. */
  datatype DecisionData = DecisionData(
    decision: Option<string>, confidenceScore: Option<int>, gradeAssessment: Option<string>,
    softSkills: Option<SoftSkills>, keyStrengths: Option<seq<string>>, keyConcerns: Option<seq<string>>,
    recommendation: Option<string>, rawOutput: Option<string>)

  const UnableToEvaluate: string := "UNABLE_TO_EVALUATE"
  const ParseFailure: string := "Failed to parse LLM response"

  /** The record used when the reply does not decode: the reply itself is kept twice. */
  function Fallback(content: string): (d: DecisionData)
    ensures d.decision == Some(UnableToEvaluate) && d.confidenceScore == Some(0)
    ensures d.keyStrengths == Some([]) && d.keyConcerns == Some([ParseFailure])
    ensures d.recommendation == Some(content) && d.rawOutput == Some(content)
  {
    DecisionData(Some(UnableToEvaluate), Some(0), Some("Unable to assess"), None,
                 Some([]), Some([ParseFailure]), Some(content), Some(content))
  }

  /** The reply with every code fence removed and surrounding whitespace stripped. */
  function CleanResponse(content: string): string {
    Strip(RemoveAll(RemoveAll(content, Fence + "json"), Fence))
  }

  /** What is handed to the JSON decoder holds no fence and starts and ends with no whitespace. */
  lemma CleanResponseHasNoFence(content: string)
    ensures !Contains(CleanResponse(content), Fence)
    ensures var r := CleanResponse(content); r == [] || (!IsSpace(r[0]) && !IsSpace(r[|r| - 1]))
  {
    var x := RemoveAll(RemoveAll(content, Fence + "json"), Fence);
    RemoveFenceLeavesNone(RemoveAll(content, Fence + "json"));
    StripKeepsAbsent(x, Fence);
  }

  /** Stripping only cuts a string down, so it cannot bring in a pattern. */
  lemma StripKeepsAbsent(x: string, p: string)
    requires !Contains(x, p)
    ensures !Contains(Strip(x), p)
  {
    var r := Strip(x);
    if Contains(r, p) {
      ContainsInSlice(x, StripStart(x), StripStart(x) + |r|, p);
    }
  }

  /** What the model is shown besides the fixed system prompt. */
  datatype ManagerPrompt = ManagerPrompt(candidate: CandidateInfo, transcript: string, observerNotes: string)

  /**
   * `ManagerAgent.evaluate`: one model call on the transcript and the notes;
   * `None` when the call raised. A reply that does not decode gives the
   * fallback record.
   */
  method Evaluate(log: seq<TurnLog>, thoughts: seq<Thought>, candidate: CandidateInfo,
                  llm: ManagerPrompt -> Option<string>, parse: string -> Option<DecisionData>)
    returns (r: Option<DecisionData>)
    ensures var p := ManagerPrompt(candidate, Transcript(log), NotesSummary(ObserverNotes(thoughts)));
            && (r.Some? <==> llm(p).Some?)
            && (r.Some? ==> r.value == parse(CleanResponse(llm(p).value)).GetOr(Fallback(llm(p).value)))
  {
    var transcript := BuildTranscript(log);
    var notes := CollectObserverNotes(thoughts);
    var summary := if notes == [] then NoNotes else JoinLines(notes);
    var reply := llm(ManagerPrompt(candidate, transcript, summary));
    if reply.None? {
      return None;
    }
    var content := reply.value;
    var cleaned := Strip(RemoveAll(RemoveAll(content, Fence + "json"), Fence));
    match parse(cleaned) {
      case Some(d) => r := Some(d);
      case None => r := Some(Fallback(content));
    }
  }

  // ---------------------------------------------------------------------
  // format_decision_report
  // ---------------------------------------------------------------------

  const NothingFound: string := "- Не выявлено"

  /** A bullet list: one "- " line per item, or a single "nothing found" line. */
  function BulletLines(xs: seq<string>): seq<string> {
    if xs == [] then [NothingFound] else Prefixed("- ", xs)
  }

  function Bullets(xs: seq<string>): string {
    JoinLines(BulletLines(xs))
  }

  const NoSoftSkills: SoftSkills := SoftSkills(None, None, None)

  /** The report lines up to the strengths list; absent fields show their defaults. */
  function ReportHead(d: DecisionData): seq<string> {
    var ss := d.softSkills.GetOr(NoSoftSkills);
    [ "",
      "## Решение Hiring Manager",
      "",
      "### Решение: **" + d.decision.GetOr("UNKNOWN") + "**",
      "- **Уверенность**: " + IntToString(d.confidenceScore.GetOr(0)) + "%",
      "- **Оценка грейда**: " + d.gradeAssessment.GetOr("N/A"),
      "",
      "### Soft Skills & Communication",
      "- **Clarity (Ясность)**: " + ss.clarity.GetOr("N/A"),
      "- **Honesty (Честность)**: " + ss.honesty.GetOr("N/A"),
      "- **Engagement (Вовлечённость)**: " + ss.engagement.GetOr("N/A"),
      "",
      "### Ключевые сильные стороны" ]
  }

  const ConcernsHeading: seq<string> := ["", "### Ключевые замечания"]

  function ReportTail(d: DecisionData): seq<string> {
    ["", "### Рекомендация", d.recommendation.GetOr(""), ""]
  }

  /** The report as written: each list is joined into one block first. */
  function FormatDecisionReport(d: DecisionData): string {
    JoinLines(ReportHead(d) + [Bullets(d.keyStrengths.GetOr([]))] + ConcernsHeading
              + [Bullets(d.keyConcerns.GetOr([]))] + ReportTail(d))
  }

  /** The report line by line, with the lists spread out. */
  function ReportLines(d: DecisionData): seq<string> {
    ReportHead(d) + BulletLines(d.keyStrengths.GetOr([])) + ConcernsHeading
    + BulletLines(d.keyConcerns.GetOr([])) + ReportTail(d)
  }

  lemma JoinNested(a: seq<string>, b: seq<string>, c: seq<string>)
    requires |a| >= 1 && |b| >= 1 && |c| >= 1
    ensures JoinLines(a + [JoinLines(b)] + c) == JoinLines(a + b + c)
  {
    var jb := JoinLines(b);
    assert a + [jb] + c == a + ([jb] + c);
    JoinLinesAppend(a, [jb] + c);
    JoinLinesAppend([jb], c);
    assert a + b + c == a + (b + c);
    JoinLinesAppend(a, b + c);
    JoinLinesAppend(b, c);
  }

  predicate SingleLine(s: string) {
    '\n' !in s
  }

  predicate AllSingleLine(xs: seq<string>) {
    forall k :: 0 <= k < |xs| ==> SingleLine(xs[k])
  }

  /** No field that is printed holds a newline. */
  predicate FieldsSingleLine(d: DecisionData) {
    var ss := d.softSkills.GetOr(NoSoftSkills);
    && SingleLine(d.decision.GetOr("")) && SingleLine(d.gradeAssessment.GetOr(""))
    && SingleLine(ss.clarity.GetOr("")) && SingleLine(ss.honesty.GetOr("")) && SingleLine(ss.engagement.GetOr(""))
    && AllSingleLine(d.keyStrengths.GetOr([])) && AllSingleLine(d.keyConcerns.GetOr([]))
    && SingleLine(d.recommendation.GetOr(""))
  }

  lemma BulletLinesSingle(xs: seq<string>)
    requires AllSingleLine(xs)
    ensures |BulletLines(xs)| >= 1 && AllSingleLine(BulletLines(xs))
  {
    assert SingleLine(NothingFound);
    forall k | 0 <= k < |xs|
      ensures SingleLine("- " + xs[k])
    {
      NoNewlineConcat("- ", xs[k]);
    }
  }

  lemma HeadingsSingle()
    ensures SingleLine("") && SingleLine("## Решение Hiring Manager")
    ensures SingleLine("### Soft Skills & Communication") && SingleLine("### Ключевые сильные стороны")
  {
  }

  lemma DecisionLabelsSingle()
    ensures SingleLine("### Решение: **") && SingleLine("**") && SingleLine("%")
  {
  }

  lemma ScoreLabelsSingle()
    ensures SingleLine("- **Уверенность**: ") && SingleLine("- **Оценка грейда**: ")
  {
  }

  lemma SoftSkillLabelsSingle()
    ensures SingleLine("- **Clarity (Ясность)**: ") && SingleLine("- **Honesty (Честность)**: ")
  {
  }

  lemma EngagementLabelSingle()
    ensures SingleLine("- **Engagement (Вовлечённость)**: ")
  {
  }

  lemma DecisionLinesSingle(decision: string, confidence: int, grade: string)
    requires SingleLine(decision) && SingleLine(grade)
    ensures SingleLine("### Решение: **" + decision + "**")
    ensures SingleLine("- **Уверенность**: " + IntToString(confidence) + "%")
    ensures SingleLine("- **Оценка грейда**: " + grade)
  {
    DecisionLabelsSingle();
    ScoreLabelsSingle();
    NoNewlineConcat("### Решение: **", decision);
    NoNewlineConcat("### Решение: **" + decision, "**");
    var n := IntToString(confidence);
    assert SingleLine(n);
    NoNewlineConcat("- **Уверенность**: ", n);
    NoNewlineConcat("- **Уверенность**: " + n, "%");
    NoNewlineConcat("- **Оценка грейда**: ", grade);
  }

  lemma SoftSkillLinesSingle(clarity: string, honesty: string, engagement: string)
    requires SingleLine(clarity) && SingleLine(honesty) && SingleLine(engagement)
    ensures SingleLine("- **Clarity (Ясность)**: " + clarity)
    ensures SingleLine("- **Honesty (Честность)**: " + honesty)
    ensures SingleLine("- **Engagement (Вовлечённость)**: " + engagement)
  {
    SoftSkillLabelsSingle();
    EngagementLabelSingle();
    NoNewlineConcat("- **Clarity (Ясность)**: ", clarity);
    NoNewlineConcat("- **Honesty (Честность)**: ", honesty);
    NoNewlineConcat("- **Engagement (Вовлечённость)**: ", engagement);
  }

  lemma ReportHeadSingle(d: DecisionData)
    requires FieldsSingleLine(d)
    ensures AllSingleLine(ReportHead(d))
  {
    var ss := d.softSkills.GetOr(NoSoftSkills);
    HeadingsSingle();
    DecisionLinesSingle(d.decision.GetOr("UNKNOWN"), d.confidenceScore.GetOr(0), d.gradeAssessment.GetOr("N/A"));
    SoftSkillLinesSingle(ss.clarity.GetOr("N/A"), ss.honesty.GetOr("N/A"), ss.engagement.GetOr("N/A"));
  }

  lemma AppendSingle(a: seq<string>, b: seq<string>)
    requires AllSingleLine(a) && AllSingleLine(b)
    ensures AllSingleLine(a + b)
  {
    forall k | 0 <= k < |a + b|
      ensures SingleLine((a + b)[k])
    {
      if k < |a| {
        assert (a + b)[k] == a[k];
      } else {
        assert (a + b)[k] == b[k - |a|];
      }
    }
  }

  lemma ReportLinesSingle(d: DecisionData)
    requires FieldsSingleLine(d)
    ensures AllSingleLine(ReportLines(d))
  {
    var head, tail := ReportHead(d), ReportTail(d);
    var strengths, concerns := BulletLines(d.keyStrengths.GetOr([])), BulletLines(d.keyConcerns.GetOr([]));
    ReportHeadSingle(d);
    BulletLinesSingle(d.keyStrengths.GetOr([]));
    BulletLinesSingle(d.keyConcerns.GetOr([]));
    assert AllSingleLine(ConcernsHeading);
    assert AllSingleLine(tail);
    AppendSingle(head, strengths);
    AppendSingle(head + strengths, ConcernsHeading);
    AppendSingle(head + strengths + ConcernsHeading, concerns);
    AppendSingle(head + strengths + ConcernsHeading + concerns, tail);
  }

  /**
   * The report reads back line by line: the fixed headings, each printed
   * field on its own line, one line per strength and per concern (or the
   * "nothing found" line), then the recommendation.
   */
  lemma ReportReadsBack(d: DecisionData)
    requires FieldsSingleLine(d)
    ensures SplitLines(FormatDecisionReport(d)) == ReportLines(d)
  {
    var head, tail := ReportHead(d), ReportTail(d);
    var strengths, concerns := BulletLines(d.keyStrengths.GetOr([])), BulletLines(d.keyConcerns.GetOr([]));
    var b := Bullets(d.keyConcerns.GetOr([]));
    JoinNested(head, strengths, ConcernsHeading + [b] + tail);
    assert head + [Bullets(d.keyStrengths.GetOr([]))] + ConcernsHeading + [b] + tail
        == head + [Bullets(d.keyStrengths.GetOr([]))] + (ConcernsHeading + [b] + tail);
    assert head + strengths + (ConcernsHeading + [b] + tail) == (head + strengths + ConcernsHeading) + [b] + tail;
    JoinNested(head + strengths + ConcernsHeading, concerns, tail);
    assert (head + strengths + ConcernsHeading) + concerns + tail == ReportLines(d);
    ReportLinesSingle(d);
    SplitJoinLines(ReportLines(d));
  }

  /** A record with no fields gives a report of defaults. */
  lemma EmptyRecordReport()
    ensures var d := DecisionData(None, None, None, None, None, None, None, None);
            SplitLines(FormatDecisionReport(d)) ==
              [ "", "## Решение Hiring Manager", "",
                "### Решение: **" + "UNKNOWN" + "**", "- **Уверенность**: " + "0" + "%",
                "- **Оценка грейда**: " + "N/A", "",
                "### Soft Skills & Communication",
                "- **Clarity (Ясность)**: " + "N/A", "- **Honesty (Честность)**: " + "N/A",
                "- **Engagement (Вовлечённость)**: " + "N/A", "",
                "### Ключевые сильные стороны", NothingFound,
                "", "### Ключевые замечания", NothingFound,
                "", "### Рекомендация", "", "" ]
  {
    var d := DecisionData(None, None, None, None, None, None, None, None);
    assert IntToString(0) == "0" by {
      assert DigitChar(0) == '0';
    }
    ReportReadsBack(d);
  }

  /** The fallback record reports the parse failure and passes the reply on as the recommendation. */
  lemma FallbackReport(content: string)
    requires SingleLine(content)
    ensures SplitLines(FormatDecisionReport(Fallback(content))) ==
              [ "", "## Решение Hiring Manager", "",
                "### Решение: **" + UnableToEvaluate + "**", "- **Уверенность**: " + "0" + "%",
                "- **Оценка грейда**: " + "Unable to assess", "",
                "### Soft Skills & Communication",
                "- **Clarity (Ясность)**: " + "N/A", "- **Honesty (Честность)**: " + "N/A",
                "- **Engagement (Вовлечённость)**: " + "N/A", "",
                "### Ключевые сильные стороны", NothingFound,
                "", "### Ключевые замечания", "- " + ParseFailure,
                "", "### Рекомендация", content, "" ]
  {
    var d := Fallback(content);
    assert IntToString(0) == "0" by {
      assert DigitChar(0) == '0';
    }
    assert SingleLine(ParseFailure) && SingleLine(UnableToEvaluate);
    assert SingleLine("Unable to assess");
    assert FieldsSingleLine(d) by {
      assert AllSingleLine([ParseFailure]);
    }
    assert Prefixed("- ", [ParseFailure]) == ["- " + ParseFailure] by {
      assert Prefixed("- ", [ParseFailure])[0] == "- " + ParseFailure;
    }
    ReportReadsBack(d);
  }
}
