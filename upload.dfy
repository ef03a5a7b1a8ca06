/**
 * The resume upload page. Its handler is a chain of steps: upload the PDF,
 * convert it to an image, upload the image, write a draft record, ask the
 * model for feedback, write the final record and move to the resume page.
 * Each step shows a status line; the first step that fails shows its error
 * and nothing after it runs.
 */
module Upload {
  import opened Wrappers
  import opened Text
  import opened ModelOutput
  import opened Records

  const Uploading := "Uploading File..."
  const Converting := "Initializing conversion from pdf to image..."
  const UploadingImage := "Uploading the image..."
  const Gathering := "Gathering insights..."
  const GetReady := "Get Ready..."
  const Complete := "Analysis complete, redirecting..."

  const UploadFileFailed := "Error: Failed to upload file"
  const ConvertFailed := "Error: Failed to convert image"
  const UploadImageFailed := "Error: Failed to upload image"
  const FeedbackMissing := "Error: Failed to analyze"

  /** The three text fields of the form. */
  datatype Form = Form(companyName: string, jobTitle: string, jobDescription: string)

  /**
   * What the outside calls return, in call order: the uploaded PDF's path,
   * the converted image, the uploaded image's path, the generated id, the
   * model's reply and `JSON.parse` of its text (`None` where it throws).
   */
  datatype Outcomes = Outcomes(uploadedFile: Option<string>, imageFile: Option<string>,
                               uploadedImage: Option<string>, uuid: string,
                               reply: Option<Reply>, parseFeedback: string -> Option<ParsedFeedback>)

  /** The status lines shown, the store writes and the navigation, in order. */
  datatype Trace = Trace(statuses: seq<string>, writes: seq<KvItem>, navigation: Option<string>)

  function ResumePath(id: string): string
  {
    "/resume/" + id
  }

  /** The record written before the model call: both paths, the form, and no feedback yet. */
  function DraftRecord(f: Form, id: string, resumePath: string, imagePath: string): (r: ResumeRecord)
    ensures r.id == id && r.resumePath == resumePath && r.imagePath == imagePath
    ensures r.companyName == f.companyName && r.jobTitle == f.jobTitle && r.jobDescription == f.jobDescription
    ensures r.feedback == Pending
  {
    ResumeRecord(id, resumePath, imagePath, f.companyName, f.jobTitle, f.jobDescription, Pending)
  }

  /**
   * The feedback the reply yields: its text handed to JSON.parse as is (no
   * fence stripping here). No text, or blank text, fails to parse.
   */
  function FeedbackOf(o: Outcomes): (r: Option<ParsedFeedback>)
    ensures ReplyText(o.reply).None? ==> r.None?
    ensures ReplyText(o.reply).Some? && IsBlank(ReplyText(o.reply).value) ==> r.None?
    ensures ReplyText(o.reply).Some? && !IsBlank(ReplyText(o.reply).value) ==>
      r == o.parseFeedback(ReplyText(o.reply).value)
    ensures r.Some? ==> r == o.parseFeedback(ReplyText(o.reply).value)
  {
    var text := ReplyText(o.reply);
    if text.None? then None else ParseWith(o.parseFeedback, text.value)
  }

  /**
   * The part of `handleAnalyze` after both uploads: the draft write, the
   * model call and the final write. A missing reply shows the analysis
   * error; a reply whose text cannot be read or parsed throws, so the status
   * stays on "Get Ready..." and only the draft is stored.
   */
  function Scoring(f: Form, o: Outcomes, resumePath: string, imagePath: string): (t: Trace)
    ensures 2 <= |t.statuses| <= 3 && t.statuses[..2] == [Gathering, GetReady]
    ensures 1 <= |t.writes| <= 2
    ensures t.writes[0] == KvItem(ResumeKey(o.uuid), ResumeDoc(DraftRecord(f, o.uuid, resumePath, imagePath)))
  {
    var key := ResumeKey(o.uuid);
    var draft := DraftRecord(f, o.uuid, resumePath, imagePath);
    var first := KvItem(key, ResumeDoc(draft));
    if o.reply.None? then
      Trace([Gathering, GetReady, FeedbackMissing], [first], None)
    else if FeedbackOf(o).None? then
      Trace([Gathering, GetReady], [first], None)
    else
      var last := KvItem(key, ResumeDoc(draft.(feedback := Ready(FeedbackOf(o).value))));
      Trace([Gathering, GetReady, Complete], [first, last], Some(ResumePath(o.uuid)))
  }

  /** `handleAnalyze` as a trace: the three upload steps, then `Scoring`. */
  function Run(f: Form, o: Outcomes): (t: Trace)
    ensures 2 <= |t.statuses| <= 6 && t.statuses[0] == Uploading
    ensures |t.writes| <= 2
    ensures forall i :: 0 <= i < |t.writes| ==> t.writes[i].key == ResumeKey(o.uuid)
    ensures t.navigation.Some? <==> |t.writes| == 2
    ensures t.navigation.Some? ==> t.navigation.value == ResumePath(o.uuid) && t.statuses[|t.statuses| - 1] == Complete
  {
    if o.uploadedFile.None? then Trace([Uploading, UploadFileFailed], [], None)
    else if o.imageFile.None? then Trace([Uploading, Converting, ConvertFailed], [], None)
    else if o.uploadedImage.None? then Trace([Uploading, Converting, UploadingImage, UploadImageFailed], [], None)
    else
      var rest := Scoring(f, o, o.uploadedFile.value, o.uploadedImage.value);
      Trace([Uploading, Converting, UploadingImage] + rest.statuses, rest.writes, rest.navigation)
  }

  /** An empty reply text makes JSON.parse throw: the draft stays, the status stays on "Get Ready...". */
  lemma EmptyFeedbackFails(f: Form, o: Outcomes)
    requires o.uploadedFile.Some? && o.imageFile.Some? && o.uploadedImage.Some?
    requires o.reply == PlainReply("")
    ensures var t := Run(f, o);
      && t.statuses == [Uploading, Converting, UploadingImage, Gathering, GetReady]
      && |t.writes| == 1 && t.navigation.None?
  {
    assert AllWhitespace("");
  }

  /** Every step succeeding shows the six status lines in order, writes twice and navigates. */
  lemma FullSuccess(f: Form, o: Outcomes)
    requires o.uploadedFile.Some? && o.imageFile.Some? && o.uploadedImage.Some? && FeedbackOf(o).Some?
    ensures var t := Run(f, o);
      && t.statuses == [Uploading, Converting, UploadingImage, Gathering, GetReady, Complete]
      && |t.writes| == 2 && t.navigation == Some(ResumePath(o.uuid))
  {
  }

  /** The first failing step shows its own error last, after the statuses of the steps before it. */
  lemma FirstFailureHalts(f: Form, o: Outcomes)
    ensures o.uploadedFile.None? ==> Run(f, o).statuses == [Uploading, UploadFileFailed]
    ensures o.uploadedFile.Some? && o.imageFile.None? ==>
      Run(f, o).statuses == [Uploading, Converting, ConvertFailed]
    ensures o.uploadedFile.Some? && o.imageFile.Some? && o.uploadedImage.None? ==>
      Run(f, o).statuses == [Uploading, Converting, UploadingImage, UploadImageFailed]
    ensures o.uploadedFile.Some? && o.imageFile.Some? && o.uploadedImage.Some? && o.reply.None? ==>
      Run(f, o).statuses == [Uploading, Converting, UploadingImage, Gathering, GetReady, FeedbackMissing]
    ensures Run(f, o).navigation.None? <==>
      o.uploadedFile.None? || o.imageFile.None? || o.uploadedImage.None? || FeedbackOf(o).None?
  {
  }

  /** Nothing is written unless both uploads and the conversion succeeded. */
  lemma NoWriteBeforeImage(f: Form, o: Outcomes)
    ensures Run(f, o).writes == [] <==> o.uploadedFile.None? || o.imageFile.None? || o.uploadedImage.None?
  {
  }

  /**
   * The draft is written before the model is asked: the first write does not
   * depend on the model's reply, and it carries the id, both paths, the form
   * and no feedback.
   */
  lemma DraftBeforeModel(f: Form, o: Outcomes, reply: Option<Reply>, parse: string -> Option<ParsedFeedback>)
    requires o.uploadedFile.Some? && o.imageFile.Some? && o.uploadedImage.Some?
    ensures var o' := o.(reply := reply, parseFeedback := parse);
      && |Run(f, o).writes| >= 1 && |Run(f, o').writes| >= 1
      && Run(f, o).writes[0] == Run(f, o').writes[0]
      && Run(f, o).writes[0].value == ResumeDoc(DraftRecord(f, o.uuid, o.uploadedFile.value, o.uploadedImage.value))
  {
  }

  /** The final write reuses the draft's key and changes only the feedback. */
  lemma FinalWriteUpdatesDraft(f: Form, o: Outcomes)
    requires |Run(f, o).writes| == 2
    ensures var w := Run(f, o).writes;
      && w[0].key == w[1].key
      && w[0].value.ResumeDoc? && w[1].value.ResumeDoc?
      && w[0].value.resume.feedback == Pending && FeedbackOf(o).Some?
      && w[1].value.resume.feedback == Ready(FeedbackOf(o).value)
      && w[1].value.resume.(feedback := Pending) == w[0].value.resume
  {
  }

  /**
   * A reply that parses to JSON other than a feedback object is still stored
   * as the feedback, and the page still navigates to the record.
   */
  lemma OtherJsonStored(f: Form, o: Outcomes, json: string)
    requires o.uploadedFile.Some? && o.imageFile.Some? && o.uploadedImage.Some?
    requires ReplyText(o.reply).Some? && !IsBlank(ReplyText(o.reply).value)
    requires o.parseFeedback(ReplyText(o.reply).value) == Some(OtherJson(json))
    ensures var t := Run(f, o);
      && |t.writes| == 2 && t.writes[1].value.ResumeDoc?
      && t.writes[1].value.resume.feedback == Ready(OtherJson(json))
      && t.navigation == Some(ResumePath(o.uuid))
      && t.statuses[|t.statuses| - 1] == Complete
  {
  }

  /** A scoring failure after the draft leaves exactly one write, the draft, and no navigation. */
  lemma ScoringFailureKeepsDraft(f: Form, o: Outcomes)
    requires o.uploadedFile.Some? && o.imageFile.Some? && o.uploadedImage.Some? && FeedbackOf(o).None?
    ensures var t := Run(f, o);
      && |t.writes| == 1 && t.writes[0].value.resume.feedback == Pending && t.navigation.None?
  {
  }

  /** The page navigated to reads the very key that was written. */
  lemma NavigationMatchesKey(f: Form, o: Outcomes, id: string)
    requires Run(f, o).navigation == Some(ResumePath(id))
    ensures Run(f, o).writes[1].key == ResumeKey(id)
    ensures id == o.uuid
  {
    var t := Run(f, o);
    assert ResumePath(id)[|"/resume/"|..] == id;
    assert ResumePath(o.uuid)[|"/resume/"|..] == o.uuid;
  }

  /** The store after a sequence of writes. */
  function Applied(m: map<string, Value>, ws: seq<KvItem>): map<string, Value>
    decreases |ws|
  {
    if ws == [] then m else Applied(m[ws[0].key := ws[0].value], ws[1..])
  }

  lemma AppliedSteps(m: map<string, Value>, a: KvItem, b: KvItem)
    ensures Applied(m, []) == m
    ensures Applied(m, [a]) == m[a.key := a.value]
    ensures Applied(m, [a, b]) == m[a.key := a.value][b.key := b.value]
  {
    assert [a][1..] == [];
    assert [a, b][1..] == [b];
    assert Applied(m, [a, b]) == Applied(m[a.key := a.value], [b]);
  }

  class UploadPage {
    const kv: KvStore
    var isProcessing: bool
    var statusText: string
    /** Every status line shown, in order. */
    ghost var statusLog: seq<string>
    /** The selected file, by name. */
    var file: Option<string>
    var navigatedTo: Option<string>

    constructor (kv: KvStore)
      ensures this.kv == kv && !isProcessing && statusText == "" && statusLog == []
      ensures file == None && navigatedTo == None
    {
      this.kv := kv;
      isProcessing := false;
      statusText := "";
      statusLog := [];
      file := None;
      navigatedTo := None;
    }

    /** `handleFileSelect` */
    method SelectFile(f: Option<string>)
      modifies `file
      ensures file == f
    {
      file := f;
    }

    method Show(status: string)
      modifies `statusText, `statusLog
      ensures statusText == status && statusLog == old(statusLog) + [status]
    {
      statusText := status;
      statusLog := statusLog + [status];
    }

    /**
     * `handleAnalyze`: the statuses shown, the store writes and the
     * navigation are those of `Run`. The processing flag is set and never
     * cleared.
     */
    method HandleAnalyze(f: Form, o: Outcomes)
      requires kv.Valid()
      modifies `isProcessing, `statusText, `statusLog, `navigatedTo, kv
      ensures kv.Valid()
      ensures var t := Run(f, o);
        && isProcessing
        && statusLog == old(statusLog) + t.statuses
        && statusText == t.statuses[|t.statuses| - 1]
        && kv.writes == old(kv.writes) + t.writes
        && kv.entries == Applied(old(kv.entries), t.writes)
        && navigatedTo == (if t.navigation.Some? then t.navigation else old(navigatedTo))
    {
      ghost var log0 := statusLog;
      isProcessing := true;
      Show(Uploading);
      if o.uploadedFile.None? {
        Show(UploadFileFailed);
        assert statusLog == log0 + [Uploading, UploadFileFailed];
        return;
      }
      Show(Converting);
      if o.imageFile.None? {
        Show(ConvertFailed);
        assert statusLog == log0 + [Uploading, Converting, ConvertFailed];
        return;
      }
      Show(UploadingImage);
      if o.uploadedImage.None? {
        Show(UploadImageFailed);
        assert statusLog == log0 + [Uploading, Converting, UploadingImage, UploadImageFailed];
        return;
      }
      ghost var log1 := statusLog;
      Score(f, o, o.uploadedFile.value, o.uploadedImage.value);
      assert statusLog == log0 + ([Uploading, Converting, UploadingImage]
        + Scoring(f, o, o.uploadedFile.value, o.uploadedImage.value).statuses);
    }

    /** The steps after both uploads, as `Scoring` states them. */
    method Score(f: Form, o: Outcomes, resumePath: string, imagePath: string)
      requires kv.Valid()
      modifies `statusText, `statusLog, `navigatedTo, kv
      ensures kv.Valid()
      ensures var t := Scoring(f, o, resumePath, imagePath);
        && statusLog == old(statusLog) + t.statuses
        && statusText == t.statuses[|t.statuses| - 1]
        && kv.writes == old(kv.writes) + t.writes
        && kv.entries == Applied(old(kv.entries), t.writes)
        && navigatedTo == (if t.navigation.Some? then t.navigation else old(navigatedTo))
    {
      ghost var log0, entries0 := statusLog, kv.entries;
      Show(Gathering);
      var key := ResumeKey(o.uuid);
      KeysOfNamespaces(o.uuid, o.uuid);
      var data := DraftRecord(f, o.uuid, resumePath, imagePath);
      var first := KvItem(key, ResumeDoc(data));
      kv.Set(key, ResumeDoc(data));
      Show(GetReady);
      if o.reply.None? {
        Show(FeedbackMissing);
        AppliedSteps(entries0, first, first);
        assert statusLog == log0 + [Gathering, GetReady, FeedbackMissing];
        return;
      }
      var feedback := FeedbackOf(o);
      if feedback.None? {
        // reading or parsing the reply throws; the handler stops here
        AppliedSteps(entries0, first, first);
        assert statusLog == log0 + [Gathering, GetReady];
        return;
      }
      data := data.(feedback := Ready(feedback.value));
      kv.Set(key, ResumeDoc(data));
      AppliedSteps(entries0, first, KvItem(key, ResumeDoc(data)));
      Show(Complete);
      assert statusLog == log0 + [Gathering, GetReady, Complete];
      navigatedTo := Some(ResumePath(o.uuid));
    }

    /** `handleSubmit`: nothing happens without a selected file. */
    method HandleSubmit(f: Form, o: Outcomes)
      requires kv.Valid()
      modifies `isProcessing, `statusText, `statusLog, `navigatedTo, kv
      ensures kv.Valid()
      ensures file.None? ==>
        && isProcessing == old(isProcessing) && statusText == old(statusText) && statusLog == old(statusLog)
        && navigatedTo == old(navigatedTo) && kv.entries == old(kv.entries) && kv.writes == old(kv.writes)
      ensures file.Some? ==>
        var t := Run(f, o);
        && isProcessing && statusLog == old(statusLog) + t.statuses
        && statusText == t.statuses[|t.statuses| - 1]
        && kv.writes == old(kv.writes) + t.writes && kv.entries == Applied(old(kv.entries), t.writes)
        && navigatedTo == (if t.navigation.Some? then t.navigation else old(navigatedTo))
    {
      if file.None? {
        return;
      }
      HandleAnalyze(f, o);
    }
  }
}
