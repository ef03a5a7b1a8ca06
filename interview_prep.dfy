/**
 * The standalone interview preparation page: a form (job title, job
 * description, number of questions) that has the model write questions and
 * stores a new session, and the list of stored sessions.
 */
module InterviewPrep {
  import opened Wrappers
  import opened Text
  import opened ModelOutput
  import opened Records
  import opened InterviewSession

  /** The counts the select offers. */
  const QuestionCounts: seq<int> := [5, 10, 15, 20]
  const DefaultCount := 10

  const FillFields := "Please fill in all fields"
  const CreateFailed := "Failed to generate questions. Please try again."

  /** Both text fields hold something besides whitespace. */
  predicate ValidForm(jobTitle: string, jobDescription: string)
  {
    !IsBlank(jobTitle) && !IsBlank(jobDescription)
  }

  /** The form passes exactly when neither field trims to the empty string. */
  lemma ValidFormIffContent(jobTitle: string, jobDescription: string)
    ensures ValidForm(jobTitle, jobDescription) <==> Trim(jobTitle) != "" && Trim(jobDescription) != ""
    ensures ValidForm(jobTitle, jobDescription) ==> jobTitle != "" && jobDescription != ""
  {
    BlankIffTrimEmpty(jobTitle);
    BlankIffTrimEmpty(jobDescription);
  }

  /** Each generated question gains an id and the defaults `answer: ""`, `score: 0`, `feedback: ""`. */
  function WithDefaults(ds: seq<Draft>, ids: seq<string>): (qs: seq<Question>)
    requires |ids| == |ds|
    ensures |qs| == |ds|
    ensures forall i :: 0 <= i < |qs| ==>
      && qs[i].id == ids[i] && qs[i].question == ds[i].question && qs[i].category == ds[i].category
      && qs[i].difficulty == ds[i].difficulty && qs[i].tips == ds[i].tips
      && qs[i].answer == Some("") && qs[i].score == Some(0) && qs[i].feedback == Some("")
  {
    Decorate(ds, ids, Some(""), Some(0), Some(""))
  }

  /** The defaults are falsy, so the stored zeros are the aggregates the session page would compute. */
  lemma DefaultsAreUnanswered(ds: seq<Draft>, ids: seq<string>)
    requires |ids| == |ds|
    ensures var qs := WithDefaults(ds, ids);
      AnsweredCount(qs) == 0 && ScoreSum(qs) == 0 && AverageScore(qs) == 0
  {
    UntouchedAggregates(WithDefaults(ds, ids));
  }

  /** `{...newSession, questions}`: the record written for a standalone session. */
  function NewSession(id: string, jobTitle: string, jobDescription: string, requested: int,
                      createdAt: string, qs: seq<Question>): (r: SessionRecord)
    ensures r.id == id && r.jobTitle == jobTitle && r.jobDescription == Some(jobDescription)
    ensures r.createdAt == createdAt && r.questions == qs && r.resumeId == None
    ensures r.completed == Some(false) && r.questionsAnswered == 0 && r.averageScore == 0
    ensures r.numberOfQuestions == Some(requested)
  {
    SessionRecord(id, None, jobTitle, Some(jobDescription), None, createdAt, Some(requested), None,
                  Some(false), qs, 0, 0)
  }

  /** `JSON.parse(session.value)` of one listed entry; `None` where it throws. */
  function ParseSession(v: Value): Option<SessionRecord>
  {
    match v
    case SessionDoc(s) => Some(s)
    // not reached from a listing: a valid store keeps resume records off interview: keys
    case ResumeDoc(_) => None
    case Unparsable(_) => None
  }

  /**
   * `sessionData.map(parse)`: one session per listed entry, in list order;
   * one entry that does not parse makes the whole map throw.
   */
  function ParseAll(items: seq<KvItem>): (r: Option<seq<SessionRecord>>)
    ensures r.Some? <==> forall i :: 0 <= i < |items| ==> items[i].value.SessionDoc?
    ensures r.Some? ==> |r.value| == |items| && forall i :: 0 <= i < |items| ==> r.value[i] == items[i].value.session
  {
    if items == [] then Some([])
    else
      match ParseSession(items[0].value)
      case None => None
      case Some(s) =>
        match ParseAll(items[1..])
        case None => None
        case Some(rest) => Some([s] + rest)
  }

  /** A malformed entry anywhere aborts the listing; it is not skipped. */
  lemma MalformedEntryAborts(good: seq<KvItem>, bad: KvItem, more: seq<KvItem>)
    requires !bad.value.SessionDoc?
    ensures ParseAll(good + [bad] + more).None?
  {
    var items := good + [bad] + more;
    assert items[|good|] == bad;
  }

  /**
   * Over a listing of a namespaced store, the listing aborts exactly when
   * some stored interview entry does not parse, and otherwise every stored
   * session is shown.
   */
  lemma ListingParses(entries: map<string, Value>, items: seq<KvItem>)
    requires Namespaced(entries) && Listing(entries, items, InterviewPrefix)
    ensures ParseAll(items).None? <==>
      exists k :: k in entries && HasPrefix(k, InterviewPrefix) && entries[k].Unparsable?
    ensures ParseAll(items).Some? ==>
      forall k :: k in entries && HasPrefix(k, InterviewPrefix) ==>
        entries[k].SessionDoc? && entries[k].session in ParseAll(items).value
  {
    if ParseAll(items).None? {
      var i :| 0 <= i < |items| && !items[i].value.SessionDoc?;
      assert InNamespace(items[i].key, entries[items[i].key]);
    } else {
      forall k | k in entries && HasPrefix(k, InterviewPrefix)
        ensures entries[k].SessionDoc? && entries[k].session in ParseAll(items).value
      {
        var i :| 0 <= i < |items| && items[i].key == k;
        assert ParseAll(items).value[i] == entries[k].session;
      }
    }
  }

  /** The list card shows the average only when it is positive. */
  predicate ShowsAverage(s: SessionRecord)
  {
    s.averageScore > 0
  }

  /**
   * A session re-persisted after scoring shows its average on the list card
   * exactly when its score total is at least half its answered count, that
   * is when the rounded mean is at least 1.
   */
  lemma ShowsAverageAfterScoring(s: SessionRecord, qs: seq<Question>)
    requires AnsweredCount(qs) > 0
    ensures ShowsAverage(AfterScoring(s, qs)) <==> 2 * ScoreSum(qs) >= AnsweredCount(qs)
  {
    var n := AnsweredCount(qs);
    var r := AverageScore(qs);
    if r >= 1 {
      MulMonotone(2 * n, 1, r);
    } else {
      MulMonotone(2 * n, r, 0);
    }
  }

  /** The list card's badge: `session.completed ? "Completed" : "In Progress"`. */
  function StatusBadge(s: SessionRecord): (r: string)
    ensures r == "Completed" <==> s.completed == Some(true)
    ensures r == "Completed" || r == "In Progress"
  {
    if s.completed.Some? && s.completed.value then "Completed" else "In Progress"
  }

  /** A new standalone session is listed as in progress, without an average. */
  lemma NewSessionListing(id: string, jobTitle: string, jobDescription: string, requested: int,
                          createdAt: string, qs: seq<Question>)
    ensures var r := NewSession(id, jobTitle, jobDescription, requested, createdAt, qs);
      StatusBadge(r) == "In Progress" && !ShowsAverage(r)
  {
  }

  class PrepPage {
    const kv: KvStore
    var sessions: seq<SessionRecord>
    var loadingSessions: bool
    var generatingQuestions: bool
    var jobTitle: string
    var jobDescription: string
    var numberOfQuestions: int
    var navigatedTo: Option<string>
    ghost var alerts: seq<string>

    /** The selected count is one the select offers. */
    ghost predicate CountOffered()
      reads this
    {
      numberOfQuestions in QuestionCounts
    }

    constructor (kv: KvStore)
      ensures this.kv == kv && sessions == [] && !loadingSessions && !generatingQuestions
      ensures jobTitle == "" && jobDescription == "" && numberOfQuestions == DefaultCount
      ensures navigatedTo == None && alerts == []
      ensures CountOffered()
    {
      this.kv := kv;
      sessions := [];
      loadingSessions := false;
      generatingQuestions := false;
      jobTitle := "";
      jobDescription := "";
      numberOfQuestions := DefaultCount;
      navigatedTo := None;
      alerts := [];
    }

    method SetJobTitle(text: string)
      modifies `jobTitle
      ensures jobTitle == text
    {
      jobTitle := text;
    }

    method SetJobDescription(text: string)
      modifies `jobDescription
      ensures jobDescription == text
    {
      jobDescription := text;
    }

    /** The select's `onChange`: it only produces the values of its options. */
    method SelectCount(n: int)
      requires n in QuestionCounts
      modifies `numberOfQuestions
      ensures numberOfQuestions == n && CountOffered()
    {
      numberOfQuestions := n;
    }

    /**
     * `loadSessions`: the entries listed under the interview prefix, parsed
     * in list order; an absent list gives no sessions. A failing parse throws,
     * leaving the loading flag set and the list as it was.
     */
    method LoadSessions(listed: Option<seq<KvItem>>)
      requires kv.Valid()
      requires listed.Some? ==> Listing(kv.entries, listed.value, InterviewPrefix)
      modifies `loadingSessions, `sessions
      ensures listed.None? ==> sessions == [] && !loadingSessions
      ensures listed.Some? && ParseAll(listed.value).None? ==> sessions == old(sessions) && loadingSessions
      ensures listed.Some? && ParseAll(listed.value).Some? ==>
        && !loadingSessions
        && |sessions| == |listed.value|
        && forall i :: 0 <= i < |sessions| ==> sessions[i] == listed.value[i].value.session
      ensures listed.Some? ==>
        (loadingSessions <==> exists k :: k in kv.entries && HasPrefix(k, InterviewPrefix) && kv.entries[k].Unparsable?)
      ensures listed.Some? && !loadingSessions ==>
        forall k :: k in kv.entries && HasPrefix(k, InterviewPrefix) ==> kv.entries[k].session in sessions
    {
      if listed.Some? {
        ListingParses(kv.entries, listed.value);
      }
      loadingSessions := true;
      if listed.None? {
        sessions := [];
      } else {
        var parsed := ParseAll(listed.value);
        if parsed.None? {
          return;
        }
        sessions := parsed.value;
      }
      loadingSessions := false;
    }

    /**
     * `handleCreateSession`: validate the form, have the model write the
     * questions, decorate them, store the session under a fresh id and move
     * to it. A failure alerts and neither writes nor navigates.
     */
    method CreateSession(reply: Option<Reply>, parse: string -> Option<seq<Draft>>,
                         uuids: nat -> string, now: string)
      requires kv.Valid()
      modifies `generatingQuestions, `navigatedTo, `alerts, kv
      ensures kv.Valid()
      ensures if !ValidForm(jobTitle, jobDescription) then
          && generatingQuestions == old(generatingQuestions) && navigatedTo == old(navigatedTo)
          && alerts == old(alerts) + [FillFields]
          && kv.entries == old(kv.entries) && kv.writes == old(kv.writes)
        else
          var generated := Decode(reply, parse);
          && !generatingQuestions
          && if generated.None? then
            && navigatedTo == old(navigatedTo) && alerts == old(alerts) + [CreateFailed]
            && kv.entries == old(kv.entries) && kv.writes == old(kv.writes)
          else
            var ds := generated.value;
            var sessionId := uuids(|ds|);
            var record := SessionDoc(NewSession(sessionId, jobTitle, jobDescription, numberOfQuestions, now,
                                                WithDefaults(ds, FirstIds(uuids, |ds|))));
            && kv.entries == old(kv.entries)[InterviewKey(sessionId) := record]
            && kv.writes == old(kv.writes) + [KvItem(InterviewKey(sessionId), record)]
            && navigatedTo == Some(SessionPath(sessionId))
            && alerts == old(alerts)
    {
      if !ValidForm(jobTitle, jobDescription) {
        alerts := alerts + [FillFields];
        return;
      }
      generatingQuestions := true;
      var generated := Decode(reply, parse);
      if generated.None? {
        alerts := alerts + [CreateFailed];
      } else {
        StoreSession(generated.value, uuids, now);
      }
      generatingQuestions := false;
    }

    /** The success path of `handleCreateSession`: decorate, store under a fresh id, move to it. */
    method StoreSession(ds: seq<Draft>, uuids: nat -> string, now: string)
      requires kv.Valid()
      modifies `navigatedTo, kv
      ensures kv.Valid()
      ensures var sessionId := uuids(|ds|);
        var record := SessionDoc(NewSession(sessionId, jobTitle, jobDescription, numberOfQuestions, now,
                                            WithDefaults(ds, FirstIds(uuids, |ds|))));
        && kv.entries == old(kv.entries)[InterviewKey(sessionId) := record]
        && kv.writes == old(kv.writes) + [KvItem(InterviewKey(sessionId), record)]
        && navigatedTo == Some(SessionPath(sessionId))
    {
      var qs := WithDefaults(ds, FirstIds(uuids, |ds|));
      var sessionId := uuids(|ds|);
      KeysOfNamespaces(sessionId, sessionId);
      kv.Set(InterviewKey(sessionId),
             SessionDoc(NewSession(sessionId, jobTitle, jobDescription, numberOfQuestions, now, qs)));
      navigatedTo := Some(SessionPath(sessionId));
    }
  }
}
