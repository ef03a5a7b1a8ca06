/**
 * The interview practice page: an ordered list of questions, the index of
 * the one on screen, the answer being typed and a seconds timer. Submitting
 * an answer has the model score it, rewrites that one question in place and
 * re-persists the session with recomputed aggregates.
 */
module InterviewSession {
  import opened Wrappers
  import opened Text
  import opened ModelOutput
  import opened Records

  /** The evaluation the model returns for one answer. */
  datatype Evaluation = Evaluation(score: Option<int>, strengths: seq<string>,
                                   improvements: seq<string>, suggestedAnswer: string)

  // ---- aggregates ----

  /** `q.answer` is truthy: present and not the empty string. */
  predicate Answered(q: Question)
  {
    q.answer.Some? && q.answer.value != ""
  }

  /** `q.score` is truthy: present and not 0. */
  predicate HasScore(q: Question)
  {
    q.score.Some? && q.score.value != 0
  }

  /** `questions.filter((q) => q.answer).length` */
  function AnsweredCount(qs: seq<Question>): (n: nat)
    ensures n <= |qs|
  {
    if qs == [] then 0 else (if Answered(qs[0]) then 1 else 0) + AnsweredCount(qs[1..])
  }

  /** `questions.filter((q) => q.score).reduce((acc, q) => acc + (q.score || 0), 0)` */
  function ScoreSum(qs: seq<Question>): (r: int)
    ensures (forall i :: 0 <= i < |qs| ==> !HasScore(qs[i])) ==> r == 0
    ensures (forall i :: 0 <= i < |qs| && HasScore(qs[i]) ==> qs[i].score.value >= 0) ==> r >= 0
  {
    if qs == [] then 0 else (if HasScore(qs[0]) then qs[0].score.value else 0) + ScoreSum(qs[1..])
  }

  /**
   * `Math.round(num / den)` for a positive denominator: the integer within one
   * half of the quotient, halves going up.
   */
  function RoundHalfUp(num: int, den: int): (r: int)
    requires den > 0
    ensures 2 * num - den < 2 * den * r <= 2 * num + den
  {
    var q := (2 * num + den) / (2 * den);
    assert 2 * num + den == 2 * den * q + (2 * num + den) % (2 * den);
    q
  }

  /** Those bounds leave room for one integer only. */
  lemma RoundHalfUpUnique(num: int, den: int, r: int)
    requires den > 0
    requires 2 * num - den < 2 * den * r <= 2 * num + den
    ensures r == RoundHalfUp(num, den)
  {
    var q := RoundHalfUp(num, den);
    if r < q {
      assert 2 * den * r <= 2 * den * (q - 1) by {
        MulMonotone(2 * den, r, q - 1);
      }
    } else if r > q {
      assert 2 * den * (q + 1) <= 2 * den * r by {
        MulMonotone(2 * den, q + 1, r);
      }
    }
  }

  lemma MulMonotone(k: int, a: int, b: int)
    requires k > 0 && a <= b
    ensures k * a <= k * b
  {
  }

  /**
   * `Math.round(sum / answeredCount || 0)`. With no answered question the
   * quotient is 0/0 = NaN and `|| 0` makes it 0. A non-zero sum over no
   * answered question would give an infinite average; the precondition
   * excludes it (the page never reaches it: the scored question is answered).
   */
  function AverageScore(qs: seq<Question>): (r: int)
    requires AnsweredCount(qs) > 0 || ScoreSum(qs) == 0
    ensures AnsweredCount(qs) == 0 ==> r == 0
    ensures AnsweredCount(qs) > 0 ==>
      2 * ScoreSum(qs) - AnsweredCount(qs) < 2 * AnsweredCount(qs) * r <= 2 * ScoreSum(qs) + AnsweredCount(qs)
  {
    if AnsweredCount(qs) == 0 then 0 else RoundHalfUp(ScoreSum(qs), AnsweredCount(qs))
  }

  function B2I(b: bool): int
  {
    if b then 1 else 0
  }

  /** Replacing one question changes the count by that question's contribution only. */
  lemma {:induction false} AnsweredCountUpdate(qs: seq<Question>, i: int, q: Question)
    requires 0 <= i < |qs|
    ensures AnsweredCount(qs[i := q]) == AnsweredCount(qs) - B2I(Answered(qs[i])) + B2I(Answered(q))
  {
    if i > 0 {
      assert qs[i := q][1..] == qs[1..][i - 1 := q];
      AnsweredCountUpdate(qs[1..], i - 1, q);
    } else {
      assert qs[i := q][1..] == qs[1..];
    }
  }

  lemma {:induction false} ScoreSumUpdate(qs: seq<Question>, i: int, q: Question)
    requires 0 <= i < |qs|
    ensures ScoreSum(qs[i := q]) == ScoreSum(qs)
      - (if HasScore(qs[i]) then qs[i].score.value else 0) + (if HasScore(q) then q.score.value else 0)
  {
    if i > 0 {
      assert qs[i := q][1..] == qs[1..][i - 1 := q];
      ScoreSumUpdate(qs[1..], i - 1, q);
    } else {
      assert qs[i := q][1..] == qs[1..];
    }
  }

  /** One answered question makes the count positive. */
  lemma {:induction false} AnsweredCountPositive(qs: seq<Question>, i: int)
    requires 0 <= i < |qs| && Answered(qs[i])
    ensures AnsweredCount(qs) > 0
  {
    if i > 0 {
      AnsweredCountPositive(qs[1..], i - 1);
    }
  }

  /** Questions without a truthy answer or score contribute nothing to either aggregate. */
  lemma {:induction false} UntouchedAggregates(qs: seq<Question>)
    requires forall i :: 0 <= i < |qs| ==> !Answered(qs[i]) && !HasScore(qs[i])
    ensures AnsweredCount(qs) == 0 && ScoreSum(qs) == 0 && AverageScore(qs) == 0
  {
    if qs != [] {
      UntouchedAggregates(qs[1..]);
    }
  }

  /** Every score present lies in 0..100. */
  predicate ScoresInRange(qs: seq<Question>)
  {
    forall i :: 0 <= i < |qs| ==> qs[i].score.Some? ==> 0 <= qs[i].score.value <= 100
  }

  /** Only answered questions carry a truthy score. */
  predicate ScoredAreAnswered(qs: seq<Question>)
  {
    forall i :: 0 <= i < |qs| ==> HasScore(qs[i]) ==> Answered(qs[i])
  }

  lemma {:induction false} ScoreSumBounds(qs: seq<Question>)
    requires ScoresInRange(qs) && ScoredAreAnswered(qs)
    ensures 0 <= ScoreSum(qs) <= 100 * AnsweredCount(qs)
  {
    if qs != [] {
      assert ScoresInRange(qs[1..]) && ScoredAreAnswered(qs[1..]) by {
        assert forall i :: 0 <= i < |qs| - 1 ==> qs[1..][i] == qs[i + 1];
      }
      ScoreSumBounds(qs[1..]);
    }
  }

  /** With scores in 0..100 on answered questions, the average lies in 0..100. */
  lemma AverageInRange(qs: seq<Question>)
    requires ScoresInRange(qs) && ScoredAreAnswered(qs)
    ensures 0 <= ScoreSum(qs) <= 100 * AnsweredCount(qs)
    ensures 0 <= AverageScore(qs) <= 100
  {
    ScoreSumBounds(qs);
    if AnsweredCount(qs) > 0 {
      RoundInPercent(ScoreSum(qs), AnsweredCount(qs), AverageScore(qs));
    }
  }

  lemma RoundInPercent(s: int, c: int, r: int)
    requires c > 0 && 0 <= s <= 100 * c
    requires 2 * s - c < 2 * c * r <= 2 * s + c
    ensures 0 <= r <= 100
  {
    if r < 0 {
      MulMonotone(2 * c, r, -1);
    } else if r > 100 {
      MulMonotone(2 * c, 101, r);
    }
  }

  /** A worked example: scores 80, 60, unanswered, 100. */
  lemma AggregateExample(t: Question)
    ensures var qs := [t.(answer := Some("a"), score := Some(80)), t.(answer := Some("b"), score := Some(60)),
                       t.(answer := None, score := None), t.(answer := Some("d"), score := Some(100))];
      AnsweredCount(qs) == 3 && AverageScore(qs) == 80
  {
    var a, b := t.(answer := Some("a"), score := Some(80)), t.(answer := Some("b"), score := Some(60));
    var c, d := t.(answer := None, score := None), t.(answer := Some("d"), score := Some(100));
    assert [a, b, c, d][1..] == [b, c, d];
    assert [b, c, d][1..] == [c, d];
    assert [c, d][1..] == [d];
    assert [d][1..] == [];
    assert AnsweredCount([d]) == 1 && ScoreSum([d]) == 100;
    assert AnsweredCount([c, d]) == 1 && ScoreSum([c, d]) == 100;
    assert AnsweredCount([b, c, d]) == 2 && ScoreSum([b, c, d]) == 160;
    assert AnsweredCount([a, b, c, d]) == 3 && ScoreSum([a, b, c, d]) == 240;
    RoundHalfUpUnique(240, 3, 80);
  }

  /** The denominator counts answered questions, scored or not: 80 and an unscored answer average 40. */
  lemma DenominatorCountsAnswered(t: Question)
    ensures var qs := [t.(answer := Some("a"), score := Some(80)), t.(answer := Some("b"), score := None)];
      AnsweredCount(qs) == 2 && AverageScore(qs) == 40
  {
    var a, b := t.(answer := Some("a"), score := Some(80)), t.(answer := Some("b"), score := None);
    assert [a, b][1..] == [b];
    assert [b][1..] == [];
    assert AnsweredCount([b]) == 1 && ScoreSum([b]) == 0;
    assert AnsweredCount([a, b]) == 2 && ScoreSum([a, b]) == 80;
    RoundHalfUpUnique(80, 2, 40);
  }

  // ---- scoring one question ----

  /** The copied list with entry i replaced. */
  function Rescored(qs: seq<Question>, i: int, answer: string, e: Evaluation, serialized: string): (r: seq<Question>)
    requires 0 <= i < |qs|
    ensures |r| == |qs|
    ensures forall j :: 0 <= j < |qs| && j != i ==> r[j] == qs[j]
    ensures r[i].id == qs[i].id && r[i].question == qs[i].question && r[i].category == qs[i].category
    ensures r[i].difficulty == qs[i].difficulty && r[i].tips == qs[i].tips
    ensures r[i].answer == Some(answer) && r[i].score == e.score && r[i].feedback == Some(serialized)
  {
    qs[i := qs[i].(answer := Some(answer), score := e.score, feedback := Some(serialized))]
  }

  /** A rescored list with a non-blank answer has at least that one answered question. */
  lemma RescoredAggregates(qs: seq<Question>, i: int, answer: string, e: Evaluation, serialized: string)
    requires 0 <= i < |qs| && !IsBlank(answer)
    ensures var r := Rescored(qs, i, answer, e, serialized);
      && AnsweredCount(r) == AnsweredCount(qs) - B2I(Answered(qs[i])) + 1
      && AnsweredCount(r) > 0
  {
    var q := Rescored(qs, i, answer, e, serialized)[i];
    assert Rescored(qs, i, answer, e, serialized) == qs[i := q];
    NonBlankIsNonEmpty(answer);
    assert Answered(q);
    AnsweredCountUpdate(qs, i, q);
    AnsweredCountPositive(qs[i := q], i);
  }

  lemma NonBlankIsNonEmpty(s: string)
    requires !IsBlank(s)
    ensures s != ""
  {
  }

  /** Rescoring keeps "scored questions are answered" and, for an in-range score, "scores in 0..100". */
  lemma RescoredKeepsInvariants(qs: seq<Question>, i: int, answer: string, e: Evaluation, serialized: string)
    requires 0 <= i < |qs| && !IsBlank(answer)
    requires ScoredAreAnswered(qs)
    ensures ScoredAreAnswered(Rescored(qs, i, answer, e, serialized))
    ensures ScoresInRange(qs) && (e.score.Some? ==> 0 <= e.score.value <= 100) ==>
      ScoresInRange(Rescored(qs, i, answer, e, serialized))
  {
    NonBlankIsNonEmpty(answer);
  }

  /**
   * Answering question i of a session in which nothing was answered or
   * scored yet: one answered question, and the average is that score.
   */
  lemma FirstAnswer(qs: seq<Question>, i: int, answer: string, e: Evaluation, serialized: string)
    requires 0 <= i < |qs| && !IsBlank(answer)
    requires forall j :: 0 <= j < |qs| ==> !Answered(qs[j]) && !HasScore(qs[j])
    requires e.score.Some?
    ensures var r := Rescored(qs, i, answer, e, serialized);
      AnsweredCount(r) == 1 && AverageScore(r) == e.score.value
  {
    var r := Rescored(qs, i, answer, e, serialized);
    UntouchedAggregates(qs);
    RescoredAggregates(qs, i, answer, e, serialized);
    ScoreSumUpdate(qs, i, r[i]);
    assert r == qs[i := r[i]];
    assert ScoreSum(r) == e.score.value;
    RoundHalfUpUnique(e.score.value, 1, e.score.value);
  }

  /** The stored session after a scored answer: questions and both aggregates replaced, nothing else. */
  function AfterScoring(s: SessionRecord, qs: seq<Question>): (r: SessionRecord)
    requires AnsweredCount(qs) > 0
    ensures r.questions == qs && r.questionsAnswered == AnsweredCount(qs) && r.averageScore == AverageScore(qs)
    ensures r.(questions := s.questions, questionsAnswered := s.questionsAnswered, averageScore := s.averageScore) == s
  {
    s.(questions := qs, questionsAnswered := AnsweredCount(qs), averageScore := AverageScore(qs))
  }

  /** A session freshly built from the resume-linked generation. */
  function GeneratedSession(id: string, resumeId: string, resume: ResumeRecord, createdAt: string,
                            qs: seq<Question>): (r: SessionRecord)
    ensures r.id == id && r.resumeId == Some(resumeId) && r.questions == qs
    ensures r.jobTitle == resume.jobTitle && r.companyName == Some(resume.companyName)
    ensures r.questionsAnswered == 0 && r.averageScore == 0 && r.totalQuestions == Some(|qs|)
  {
    SessionRecord(id, Some(resumeId), resume.jobTitle, None, Some(resume.companyName), createdAt,
                  None, Some(|qs|), None, qs, 0, 0)
  }

  /** The first n generated UUIDs, in call order. */
  function FirstIds(uuids: nat -> string, n: nat): (ids: seq<string>)
    ensures |ids| == n && forall k :: 0 <= k < n ==> ids[k] == uuids(k)
  {
    if n == 0 then [] else FirstIds(uuids, n - 1) + [uuids(n - 1)]
  }

  /** Freshly generated questions carry no answer and no score, so the stored zeros are the aggregates. */
  lemma GeneratedAggregates(ds: seq<Draft>, ids: seq<string>)
    requires |ids| == |ds|
    ensures var qs := Decorate(ds, ids, None, None, None);
      AnsweredCount(qs) == 0 && ScoreSum(qs) == 0 && AverageScore(qs) == 0
  {
    UntouchedAggregates(Decorate(ds, ids, None, None, None));
  }

  // ---- the timer display ----

  /**
   * The seconds part of the display, two decimal digits. It is the text of
   * `secs.toString().padStart(2, "0")` (`TwoDigitsIsPadStart`).
   */
  function TwoDigits(secs: nat): (ss: string)
    requires secs < 60
    ensures |ss| == 2 && AllDigits(ss) && ParseDigits(ss) == secs
  {
    var hi, lo := DigitChar(secs / 10), DigitChar(secs % 10);
    assert ParseDigits([hi]) == secs / 10 by {
      assert [hi][..0] == [];
    }
    assert [hi, lo][..1] == [hi];
    [hi, lo]
  }

  lemma PadOnce(s: string, fill: char)
    requires |s| == 1
    ensures PadStart(s, 2, fill) == [fill] + s
  {
    assert |[fill] + s| == 2;
  }

  /** The two digits are the numeral of the seconds padded with "0" to width 2. */
  lemma TwoDigitsIsPadStart(secs: nat)
    requires secs < 60
    ensures TwoDigits(secs) == PadStart(NatToString(secs), 2, '0')
  {
    if secs < 10 {
      PadOnce(NatToString(secs), '0');
      assert DigitChar(0) == '0';
    } else {
      assert NatToString(secs) == [DigitChar(secs / 10), DigitChar(secs % 10)];
    }
  }

  /** Minutes, a colon and the two second digits, side by side. */
  function Join(m: string, ss: string): (r: string)
    requires |ss| == 2
    ensures |r| == |m| + 3 && r[|r| - 3] == ':'
    ensures r[..|r| - 3] == m && r[|r| - 2..] == ss
  {
    var t := m + ":" + ss;
    assert t[..|t| - 3] == m;
    assert t[|t| - 2..] == ss;
    t
  }

  /** The "m:ss" display of a minute count and a second count below 60. */
  function Display(minutes: nat, secs: nat): (r: string)
    requires secs < 60
    ensures |r| >= 4 && r[|r| - 3] == ':'
    ensures r[..|r| - 3] == NatToString(minutes)
    ensures AllDigits(r[|r| - 2..]) && ParseDigits(r[|r| - 2..]) == secs
  {
    Join(NatToString(minutes), TwoDigits(secs))
  }

  /** `formatTime`: minutes, a colon, and the seconds padded to two digits. */
  function FormatTime(seconds: nat): (r: string)
    ensures |r| >= 4 && r[|r| - 3] == ':'
    ensures r[..|r| - 3] == NatToString(seconds / 60)
    ensures AllDigits(r[|r| - 2..]) && ParseDigits(r[|r| - 2..]) == seconds % 60
  {
    Display(seconds / 60, seconds % 60)
  }

  /** Reads back an "m:ss" display: minutes, a colon, two digits below 60. */
  function ParseTime(t: string): Option<nat>
  {
    if |t| < 4 || t[|t| - 3] != ':' then None
    else
      var m := t[..|t| - 3];
      var ss := t[|t| - 2..];
      if AllDigits(m) && AllDigits(ss) && ParseDigits(ss) < 60
      then Some(ParseDigits(m) * 60 + ParseDigits(ss))
      else None
  }

  /** Any "m:ss" with digit minutes and two-digit seconds below 60 reads back. */
  lemma ParseTimeOf(m: string, ss: string)
    requires |m| >= 1 && AllDigits(m) && |ss| == 2 && AllDigits(ss) && ParseDigits(ss) < 60
    ensures ParseTime(Join(m, ss)) == Some(ParseDigits(m) * 60 + ParseDigits(ss))
  {
    var t := Join(m, ss);
    var m', ss' := t[..|t| - 3], t[|t| - 2..];
    assert m' == m && ss' == ss;
    assert ParseTime(t) == Some(ParseDigits(m') * 60 + ParseDigits(ss'));
  }

  /** The display shows the minutes and the remaining seconds, and determines the time. */
  lemma FormatTimeRoundTrip(seconds: nat)
    ensures ParseTime(FormatTime(seconds)) == Some(seconds)
  {
    ParseDisplay(seconds / 60, seconds % 60);
  }

  /** An "m:ss" display reads back as its minutes and seconds. */
  lemma ParseDisplay(minutes: nat, secs: nat)
    requires secs < 60
    ensures ParseTime(Display(minutes, secs)) == Some(minutes * 60 + secs)
  {
    ParseNatToString(minutes);
    ParseTimeOf(NatToString(minutes), TwoDigits(secs));
  }

  // ---- the page ----

  const AnalyzeFailed := "Failed to analyze your answer. Please try again."
  const GenerateFailed := "Failed to generate questions. Please try again or check your internet connection."

  function SessionPath(id: string): string
  {
    "/interview-prep/session/" + id
  }

  function Max(a: int, b: int): int
  {
    if a >= b then a else b
  }

  function Min(a: int, b: int): int
  {
    if a <= b then a else b
  }

  /**
   * The store and alerts after the session page re-persists `updated`,
   * given what was stored under its key before: on a saved page with a
   * stored session, that session with the new questions and aggregates is
   * written; a stored text that does not parse is alerted; otherwise
   * nothing happens.
   */
  ghost predicate Persisted(routeId: string, updated: seq<Question>, stored: Option<Value>,
                            entries0: map<string, Value>, writes0: seq<KvItem>, alerts0: seq<string>,
                            entries: map<string, Value>, writes: seq<KvItem>, alerts: seq<string>)
    requires AnsweredCount(updated) > 0
  {
    var key := InterviewKey(routeId);
    if routeId != "new" && stored.Some? && stored.value.SessionDoc? then
      var record := SessionDoc(AfterScoring(stored.value.session, updated));
      && entries == entries0[key := record]
      && writes == writes0 + [KvItem(key, record)]
      && alerts == alerts0
    else
      && entries == entries0 && writes == writes0
      && alerts == alerts0 + (if routeId != "new" && stored.Some? && Truthy(stored.value) then [AnalyzeFailed] else [])
  }

  /** What the session page shows and has stored, as one value. */
  datatype PageState = PageState(loadingQuestions: bool, questions: seq<Question>, navigatedTo: Option<string>,
                                 alerts: seq<string>, entries: map<string, Value>, writes: seq<KvItem>)

  /**
   * `loadSession`, given what is stored under the session's key: a stored
   * text that does not parse throws and leaves the loading flag set; a
   * session shows its questions; a missing or empty value keeps the
   * questions; any other parsed value has no `questions` and shows none.
   */
  predicate Loaded(stored: Option<Value>, questions0: seq<Question>, loading: bool, questions: seq<Question>)
  {
    if stored.Some? && stored.value.Unparsable? && stored.value.text != "" then
      loading && questions == questions0
    else
      && !loading
      && questions == (if stored.None? || !Truthy(stored.value) then questions0
                       else if stored.value.SessionDoc? then stored.value.session.questions
                       else [])
  }

  /**
   * `generateQuestions`, given what is stored under the resume's key: a
   * missing or unreadable resume record stops with the loading flag set and
   * nothing else changed; a failed model call alerts and goes back to the
   * practice page; otherwise the decorated questions are shown, stored as a
   * new session under the id after theirs, and the page moves to it.
   */
  predicate Generated(resumeId: string, stored: Option<Value>, reply: Option<Reply>,
                      parse: string -> Option<seq<Draft>>, uuids: nat -> string, now: string,
                      s0: PageState, s: PageState)
  {
    if stored.None? || !stored.value.ResumeDoc? then
      s == s0.(loadingQuestions := true)
    else if Decode(reply, parse).None? then
      s == s0.(loadingQuestions := false, navigatedTo := Some("/interview-prep"), alerts := s0.alerts + [GenerateFailed])
    else
      var ds := Decode(reply, parse).value;
      var sessionId := uuids(|ds|);
      var qs := Decorate(ds, FirstIds(uuids, |ds|), None, None, None);
      var record := SessionDoc(GeneratedSession(sessionId, resumeId, stored.value.resume, now, qs));
      s == PageState(false, qs, Some(SessionPath(sessionId)), s0.alerts,
                     s0.entries[InterviewKey(sessionId) := record], s0.writes + [KvItem(InterviewKey(sessionId), record)])
  }

  class SessionPage {
    /** The `id` route parameter: a session id, or "new". */
    const routeId: string
    const kv: KvStore
    var questions: seq<Question>
    var currentIndex: int
    var answer: string
    var isAnalyzing: bool
    var loadingQuestions: bool
    var timer: nat
    var isTimerRunning: bool
    var isRecording: bool
    /** The last navigation the page asked for. */
    var navigatedTo: Option<string>
    /** The alert messages shown, in order. */
    ghost var alerts: seq<string>

    ghost function State(): PageState
      reads this, kv
    {
      PageState(loadingQuestions, questions, navigatedTo, alerts, kv.entries, kv.writes)
    }

    constructor (routeId: string, kv: KvStore)
      ensures this.routeId == routeId && this.kv == kv
      ensures questions == [] && currentIndex == 0 && answer == ""
      ensures !isAnalyzing && !loadingQuestions && timer == 0 && !isTimerRunning && !isRecording
      ensures navigatedTo == None && alerts == []
    {
      this.routeId := routeId;
      this.kv := kv;
      questions := [];
      currentIndex := 0;
      answer := "";
      isAnalyzing := false;
      loadingQuestions := false;
      timer := 0;
      isTimerRunning := false;
      isRecording := false;
      navigatedTo := None;
      alerts := [];
    }

    /** The textarea's `onChange`. */
    method EditAnswer(text: string)
      modifies `answer
      ensures answer == text
    {
      answer := text;
    }

    /**
     * `handleAnalyzeAnswer`. A blank answer changes nothing. Otherwise the
     * model's evaluation, if it decodes, rewrites the current question; the
     * session is then re-persisted when the page is not "new" and a session
     * is stored under its key. A failure of either step is alerted.
     */
    method AnalyzeAnswer(reply: Option<Reply>, parse: string -> Option<Evaluation>, serialize: Evaluation -> string)
      requires 0 <= currentIndex < |questions|
      requires kv.Valid()
      modifies `questions, `isAnalyzing, `alerts, kv
      ensures kv.Valid()
      ensures if IsBlank(answer) then
          && questions == old(questions) && isAnalyzing == old(isAnalyzing) && alerts == old(alerts)
          && kv.entries == old(kv.entries) && kv.writes == old(kv.writes)
        else
          var evaluation := Decode(reply, parse);
          && !isAnalyzing
          && if evaluation.None? then
            && questions == old(questions) && alerts == old(alerts) + [AnalyzeFailed]
            && kv.entries == old(kv.entries) && kv.writes == old(kv.writes)
          else
            var e := evaluation.value;
            && questions == Rescored(old(questions), currentIndex, answer, e, serialize(e))
            && AnsweredCount(questions) > 0
            && Persisted(routeId, questions, old(kv.Get(InterviewKey(routeId))), old(kv.entries), old(kv.writes),
                         old(alerts), kv.entries, kv.writes, alerts)
    {
      if IsBlank(answer) {
        return;
      }
      isAnalyzing := true;
      var evaluation := Decode(reply, parse);
      if evaluation.None? {
        alerts := alerts + [AnalyzeFailed];
        isAnalyzing := false;
        return;
      }
      var e := evaluation.value;
      Rescore(e, serialize(e));
      Persist();
      isAnalyzing := false;
    }

    /** Writes a decoded evaluation into the current question. */
    method Rescore(e: Evaluation, serialized: string)
      requires 0 <= currentIndex < |questions| && !IsBlank(answer)
      modifies `questions
      ensures questions == Rescored(old(questions), currentIndex, answer, e, serialized)
      ensures AnsweredCount(questions) > 0
    {
      RescoredAggregates(questions, currentIndex, answer, e, serialized);
      questions := Rescored(questions, currentIndex, answer, e, serialized);
    }

    /** The re-persisting step of `handleAnalyzeAnswer`, for the questions already shown. */
    method Persist()
      requires AnsweredCount(questions) > 0
      requires kv.Valid()
      modifies `alerts, kv
      ensures kv.Valid()
      ensures Persisted(routeId, questions, old(kv.Get(InterviewKey(routeId))), old(kv.entries), old(kv.writes),
                        old(alerts), kv.entries, kv.writes, alerts)
    {
      if routeId != "new" {
        var key := InterviewKey(routeId);
        var stored := kv.Get(key);
        if stored.Some? && Truthy(stored.value) {
          if stored.value.SessionDoc? {
            KeysOfNamespaces(routeId, routeId);
            kv.Set(key, SessionDoc(AfterScoring(stored.value.session, questions)));
          } else {
            // JSON.parse of the stored text throws; the catch alerts.
            alerts := alerts + [AnalyzeFailed];
          }
        }
      }
    }

    /** The Previous button: step back, clamped at 0; clear the answer and the timer. */
    method Previous()
      modifies `currentIndex, `answer, `timer, `isTimerRunning
      ensures currentIndex == Max(0, old(currentIndex) - 1)
      ensures answer == "" && timer == 0 && !isTimerRunning
      ensures 0 <= old(currentIndex) < |questions| ==> 0 <= currentIndex < |questions|
    {
      currentIndex := Max(0, currentIndex - 1);
      answer := "";
      timer := 0;
      isTimerRunning := false;
    }

    /** The Next button: step forward, clamped at the last question; clear the answer and the timer. */
    method Next()
      modifies `currentIndex, `answer, `timer, `isTimerRunning
      ensures currentIndex == Min(|questions| - 1, old(currentIndex) + 1)
      ensures answer == "" && timer == 0 && !isTimerRunning
      ensures 0 <= old(currentIndex) < |questions| ==> 0 <= currentIndex < |questions|
    {
      currentIndex := Min(|questions| - 1, currentIndex + 1);
      answer := "";
      timer := 0;
      isTimerRunning := false;
    }

    /** The reset button next to the timer. */
    method ResetTimer()
      modifies `timer, `isTimerRunning
      ensures timer == 0 && !isTimerRunning
    {
      timer := 0;
      isTimerRunning := false;
    }

    /** One second of the interval: counts only while the timer runs. */
    method Tick()
      modifies `timer
      ensures timer == if isTimerRunning then old(timer) + 1 else old(timer)
    {
      if isTimerRunning {
        timer := timer + 1;
      }
    }

    /** `handleStartRecording`: starts recording and the timer when the microphone is granted. */
    method StartRecording(granted: bool)
      modifies `isRecording, `isTimerRunning
      ensures granted ==> isRecording && isTimerRunning
      ensures !granted ==> isRecording == old(isRecording) && isTimerRunning == old(isTimerRunning)
    {
      if granted {
        isRecording := true;
        isTimerRunning := true;
      }
    }

    /** `handleStopRecording`: stops recording and the timer if recording. */
    method StopRecording()
      modifies `isRecording, `isTimerRunning
      ensures old(isRecording) ==> !isRecording && !isTimerRunning
      ensures !old(isRecording) ==> isRecording == old(isRecording) && isTimerRunning == old(isTimerRunning)
    {
      if isRecording {
        isRecording := false;
        isTimerRunning := false;
      }
    }

    /**
     * `loadSession`: show the stored session's questions. A stored text that
     * JSON.parse rejects throws, leaving the loading flag set.
     */
    method LoadSession(sessionId: string)
      modifies `loadingQuestions, `questions
      ensures Loaded(kv.Get(InterviewKey(sessionId)), old(questions), loadingQuestions, questions)
    {
      loadingQuestions := true;
      var stored := kv.Get(InterviewKey(sessionId));
      if stored.Some? && Truthy(stored.value) {
        match stored.value
        case SessionDoc(s) =>
          questions := s.questions;
        case ResumeDoc(_) =>
          // parses, but has no `questions`: `|| []`
          questions := [];
        case Unparsable(_) =>
          return;
      }
      loadingQuestions := false;
    }

    /**
     * `generateQuestions`: read the resume record, have the model write the
     * questions, give each a fresh id, store the new session under a fresh id
     * and move to it. A missing resume record stops with the loading flag
     * set; a failed model call alerts and goes back to the practice page.
     */
    method GenerateQuestions(resumeId: string, reply: Option<Reply>, parse: string -> Option<seq<Draft>>,
                             uuids: nat -> string, now: string)
      requires kv.Valid()
      modifies `loadingQuestions, `questions, `navigatedTo, `alerts, kv
      ensures kv.Valid()
      ensures Generated(resumeId, old(kv.Get(ResumeKey(resumeId))), reply, parse, uuids, now, old(State()), State())
    {
      loadingQuestions := true;
      var stored := kv.Get(ResumeKey(resumeId));
      if stored.None? || !Truthy(stored.value) {
        return;
      }
      if !stored.value.ResumeDoc? {
        // JSON.parse runs outside the try block: the throw leaves the flag set.
        KeysOfNamespaces(resumeId, resumeId);
        return;
      }
      var resume := stored.value.resume;
      var drafts := Decode(reply, parse);
      if drafts.None? {
        alerts := alerts + [GenerateFailed];
        navigatedTo := Some("/interview-prep");
        loadingQuestions := false;
        return;
      }
      var ds := drafts.value;
      var qs := Decorate(ds, FirstIds(uuids, |ds|), None, None, None);
      questions := qs;
      var sessionId := uuids(|ds|);
      KeysOfNamespaces(sessionId, sessionId);
      kv.Set(InterviewKey(sessionId), SessionDoc(GeneratedSession(sessionId, resumeId, resume, now, qs)));
      navigatedTo := Some(SessionPath(sessionId));
      loadingQuestions := false;
    }

    /**
     * The route effect: a "new" page with a truthy `resumeId` query
     * parameter generates questions; any other id loads that session; a
     * "new" page without a resume id does nothing.
     */
    method LoadOrGenerate(resumeId: Option<string>, reply: Option<Reply>, parse: string -> Option<seq<Draft>>,
                          uuids: nat -> string, now: string)
      requires kv.Valid()
      modifies `loadingQuestions, `questions, `navigatedTo, `alerts, kv
      ensures kv.Valid()
      ensures if routeId == "new" then
          if resumeId.Some? && resumeId.value != "" then
            Generated(resumeId.value, old(kv.Get(ResumeKey(resumeId.value))), reply, parse, uuids, now, old(State()), State())
          else State() == old(State())
        else
          && Loaded(kv.Get(InterviewKey(routeId)), old(questions), loadingQuestions, questions)
          && navigatedTo == old(navigatedTo) && alerts == old(alerts)
          && kv.entries == old(kv.entries) && kv.writes == old(kv.writes)
    {
      if routeId == "new" && resumeId.Some? && resumeId.value != "" {
        GenerateQuestions(resumeId.value, reply, parse, uuids, now);
      } else if routeId != "new" {
        LoadSession(routeId);
      }
    }
  }
}
