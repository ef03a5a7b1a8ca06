/**
 * The persisted entities and the key-value store that holds them. Records
 * are stored under namespaced keys, `resume:<id>` and `interview:<id>`;
 * JSON.stringify/JSON.parse of a whole record are taken as exact inverses, so
 * the store keeps the records themselves, plus `Unparsable` text for a value
 * that JSON.parse rejects.
 */
module Records {
  import opened Wrappers

  /**
   * An interview question. `answer`, `score` and `feedback` are optional
   * (`None` is a missing property); `feedback` holds the serialised
   * evaluation. `category` and `difficulty` are whatever the model wrote:
   * the source casts them without checking.
   */
  datatype Question = Question(
    id: string,
    question: string,
    category: string,
    difficulty: string,
    tips: seq<string>,
    answer: Option<string>,
    score: Option<int>,
    feedback: Option<string>)

  /** A question as the model generates it, before the page gives it an id. */
  datatype Draft = Draft(question: string, category: string, difficulty: string, tips: seq<string>)

  /**
   * `drafts.map(q => ({...q, id, <defaults>}))` with the k-th id taken from
   * `ids`: same length and order, every draft's own fields kept.
   */
  function Decorate(drafts: seq<Draft>, ids: seq<string>, answer: Option<string>,
                    score: Option<int>, feedback: Option<string>): (qs: seq<Question>)
    requires |ids| == |drafts|
    ensures |qs| == |drafts|
    ensures forall i :: 0 <= i < |qs| ==>
      && qs[i].id == ids[i]
      && qs[i].question == drafts[i].question
      && qs[i].category == drafts[i].category
      && qs[i].difficulty == drafts[i].difficulty
      && qs[i].tips == drafts[i].tips
      && qs[i].answer == answer && qs[i].score == score && qs[i].feedback == feedback
  {
    if drafts == [] then []
    else
      var d := drafts[0];
      [Question(ids[0], d.question, d.category, d.difficulty, d.tips, answer, score, feedback)]
        + Decorate(drafts[1..], ids[1..], answer, score, feedback)
  }

  /** Distinct ids give questions with distinct ids. */
  lemma DecorateIdsDistinct(drafts: seq<Draft>, ids: seq<string>, answer: Option<string>,
                            score: Option<int>, feedback: Option<string>)
    requires |ids| == |drafts|
    requires forall i, j :: 0 <= i < j < |ids| ==> ids[i] != ids[j]
    ensures var qs := Decorate(drafts, ids, answer, score, feedback);
      forall i, j :: 0 <= i < j < |qs| ==> qs[i].id != qs[j].id
  {
  }

  /**
   * A stored interview session. The standalone page writes `jobDescription`,
   * `numberOfQuestions` and `completed`; the resume-linked page writes
   * `resumeId`, `companyName` and `totalQuestions`; the other fields both.
   */
  datatype SessionRecord = SessionRecord(
    id: string,
    resumeId: Option<string>,
    jobTitle: string,
    jobDescription: Option<string>,
    companyName: Option<string>,
    createdAt: string,
    numberOfQuestions: Option<int>,
    totalQuestions: Option<int>,
    completed: Option<bool>,
    questions: seq<Question>,
    questionsAnswered: int,
    averageScore: int)

  /** One tip of a feedback category; `kind` is the JSON `type` ("good" or "improve"). */
  datatype Tip = Tip(kind: string, tip: string)

  datatype CategoryScore = CategoryScore(score: int, tips: seq<Tip>)

  /** The structured resume feedback the model returns. */
  datatype Feedback = Feedback(
    overallScore: int,
    ats: CategoryScore,
    toneAndStyle: CategoryScore,
    content: CategoryScore,
    structure: CategoryScore,
    skills: CategoryScore)

  /**
   * What `JSON.parse` makes of the model's reply: a feedback object, or any
   * other JSON value (`null`, an array, a number, an object without the
   * feedback fields), kept as its text.
   */
  datatype ParsedFeedback = FeedbackObject(feedback: Feedback) | OtherJson(json: string)

  /** The `feedback` field of a resume record: "" until scoring, then whatever the reply parsed to. */
  datatype ResumeFeedback = Pending | Ready(parsed: ParsedFeedback)

  datatype ResumeRecord = ResumeRecord(
    id: string,
    resumePath: string,
    imagePath: string,
    companyName: string,
    jobTitle: string,
    jobDescription: string,
    feedback: ResumeFeedback)

  /** A stored value. */
  datatype Value = ResumeDoc(resume: ResumeRecord) | SessionDoc(session: SessionRecord) | Unparsable(text: string)

  /** The `if (value)` test on what `kv.get` returned: only the empty string is falsy. */
  predicate Truthy(v: Value)
  {
    !(v.Unparsable? && v.text == "")
  }

  const ResumePrefix := "resume:"
  const InterviewPrefix := "interview:"

  function ResumeKey(id: string): string
  {
    ResumePrefix + id
  }

  function InterviewKey(id: string): string
  {
    InterviewPrefix + id
  }

  predicate HasPrefix(s: string, prefix: string)
  {
    |prefix| <= |s| && s[..|prefix|] == prefix
  }

  /** Each record kind lives under its own prefix. */
  predicate InNamespace(key: string, v: Value)
  {
    && (HasPrefix(key, InterviewPrefix) ==> !v.ResumeDoc?)
    && (HasPrefix(key, ResumePrefix) ==> !v.SessionDoc?)
  }

  lemma KeysOfNamespaces(a: string, b: string)
    ensures HasPrefix(ResumeKey(a), ResumePrefix) && !HasPrefix(ResumeKey(a), InterviewPrefix)
    ensures HasPrefix(InterviewKey(a), InterviewPrefix) && !HasPrefix(InterviewKey(a), ResumePrefix)
    ensures ResumeKey(a) != InterviewKey(b)
    ensures ResumeKey(a) == ResumeKey(b) ==> a == b
    ensures InterviewKey(a) == InterviewKey(b) ==> a == b
  {
    assert ResumeKey(a)[0] == 'r' && InterviewKey(b)[0] == 'i';
    assert ResumeKey(a)[|ResumePrefix|..] == a && ResumeKey(b)[|ResumePrefix|..] == b;
    assert InterviewKey(a)[|InterviewPrefix|..] == a && InterviewKey(b)[|InterviewPrefix|..] == b;
  }

  /** One entry of a `kv.list(pattern, true)` result. */
  datatype KvItem = KvItem(key: string, value: Value)

  /** Every stored value sits in its own namespace. */
  predicate Namespaced(entries: map<string, Value>)
  {
    forall k | k in entries :: InNamespace(k, entries[k])
  }

  /**
   * What `kv.list(prefix + "*", true)` returns: every stored key with the
   * prefix exactly once, with its value, in an order the platform chooses.
   */
  predicate Listing(entries: map<string, Value>, items: seq<KvItem>, prefix: string)
  {
    && (forall i :: 0 <= i < |items| ==>
          HasPrefix(items[i].key, prefix) && items[i].key in entries && entries[items[i].key] == items[i].value)
    && (forall i, j :: 0 <= i < j < |items| ==> items[i].key != items[j].key)
    && (forall k :: k in entries && HasPrefix(k, prefix) ==> exists i :: 0 <= i < |items| && items[i].key == k)
  }

  /** The external key-value store (`kv` of the platform), with a log of its writes. */
  class KvStore {
    var entries: map<string, Value>
    ghost var writes: seq<KvItem>

    /** Every stored value sits in its own namespace. */
    ghost predicate Valid()
      reads this
    {
      Namespaced(entries)
    }

    constructor ()
      ensures entries == map[] && writes == [] && Valid()
    {
      entries := map[];
      writes := [];
    }

    /** `kv.get(key)`: `None` for a missing key. */
    function Get(key: string): (r: Option<Value>)
      reads this
    {
      if key in entries then Some(entries[key]) else None
    }

    /** `kv.set(key, value)`: replaces the whole value and logs the write. */
    method Set(key: string, v: Value)
      requires Valid() && InNamespace(key, v)
      modifies this
      ensures Valid()
      ensures entries == old(entries)[key := v]
      ensures writes == old(writes) + [KvItem(key, v)]
      ensures Get(key) == Some(v)
      ensures forall k :: k != key ==> Get(k) == old(Get(k))
    {
      entries := entries[key := v];
      writes := writes + [KvItem(key, v)];
    }
  }
}
