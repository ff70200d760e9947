/**
 * The upload page: submitting the form runs the analysis pipeline, which
 * uploads the resume, converts it to an image, uploads the image, stores a
 * record with empty feedback, asks the AI for feedback, stores the record
 * again with the parsed feedback and navigates to the review page.
 */
module Upload {

  import opened Wrappers
  import opened JsValue

  // ================================================================ data

  /** A file chosen by the user or produced by the converter. */
  datatype File = File(name: string, bytes: seq<bv8>)

  /** The handle the storage gateway returns for an uploaded file; `path` locates it. */
  datatype FsItem = FsItem(path: string)

  /** What the PDF converter returns: the image file when it succeeded, and an error text otherwise. */
  datatype Conversion = Conversion(file: Option<File>, error: Option<string>)

  /** The arguments of the instruction text sent with the resume (its wording is not modelled). */
  datatype Instructions = Instructions(jobTitle: string, jobDescription: string)

  /** The three text fields of the upload form. */
  datatype Form = Form(companyName: string, jobTitle: string, jobDescription: string)

  /** The persisted analysis record. */
  datatype Record = Record(
    id: string,
    resumePath: FsItem,
    imagePath: FsItem,
    companyName: string,
    jobTitle: string,
    jobDescription: string,
    feedback: Json)

  /** One `kv.set`. */
  datatype Write = Write(key: string, record: Record)

  /** What one run does that can be observed: status texts, store writes and navigation. */
  datatype Event = Status(text: string) | KvSet(write: Write) | Navigate(path: string)

  /**
   * The collaborators of one run, each a function of the arguments the run
   * passes to it: the storage upload, the PDF converter, the generated id,
   * the AI feedback call (giving `feedback.message.content`, `None` when it
   * returns nothing) and `JSON.parse` (`None` when it throws).
   */
  datatype Env = Env(
    upload: File -> Option<FsItem>,
    convert: File -> Conversion,
    uuid: string,
    analyze: (string, Instructions) -> Option<Json>,
    parse: string -> Option<Json>)

  /** How a run ends: one of its early returns, an uncaught exception, or the redirect. */
  datatype Exit = UploadFailed | ConversionFailed | ImageUploadFailed | AnalysisFailed | Crashed | Redirected

  datatype Run = Run(events: seq<Event>, exit: Exit)

  const Uploading := "Uploading file..."
  const UploadFailedText := "Upload failed..."
  const Converting := "Converting to image..."
  const ConvertFailedText := "Error: Failed to convert PDF file to image..."
  const UploadingImage := "Uploading image..."
  const ImageFailedText := "Error: Failed to upload image..."
  const Preparing := "Preparing the data...."
  const Analyzing := "Analyzing data..."
  const AnalyzeFailedText := "Error: Failed to analyze resume..."
  const Completed := "Analysis completed, redirecting..."

  /** The status texts of a run that succeeds, in order. */
  const Progress := [Uploading, Converting, UploadingImage, Preparing, Analyzing, Completed]

  /** The key-value key of the record with id `id`. */
  function Key(id: string): string {
    "resume:" + id
  }

  function ReviewPath(id: string): string {
    "/resume/" + id
  }

  /**
   * The feedback text: the content itself when it is a string, otherwise
   * the `text` of its first part; `None` where the code would throw instead.
   */
  function FeedbackText(content: Json): Option<string> {
    match content
    case JStr(s) => Some(s)
    case JArr(items) =>
      if |items| > 0 && Field(items[0], "text").Some? && Field(items[0], "text").value.JStr?
      then Some(Field(items[0], "text").value.s)
      else None
    case _ => None
  }

  /**
   * A string reply is parsed as it is; a reply that is neither a string nor
   * an array, or an array whose first part has no string `text`, throws.
   */
  lemma FeedbackTextByKind(content: Json)
    ensures content.JStr? ==> FeedbackText(content) == Some(content.s)
    ensures !content.JStr? && !content.JArr? ==> FeedbackText(content).None?
    ensures content.JArr? && content.items == [] ==> FeedbackText(content).None?
    ensures content.JArr? && content.items != [] ==>
      (FeedbackText(content).Some? <==> Field(content.items[0], "text").Some? && Field(content.items[0], "text").value.JStr?)
    ensures content.JArr? && content.items != [] && FeedbackText(content).Some? ==>
      FeedbackText(content).value == Field(content.items[0], "text").value.s
  {
  }

  // ================================================================ stages reached

  /** The two uploaded files: the resume and the page image made from it. */
  datatype Uploads = Uploads(resume: FsItem, image: FsItem)

  predicate ResumeUploaded(file: File, env: Env) {
    env.upload(file).Some?
  }

  predicate ImageConverted(file: File, env: Env) {
    ResumeUploaded(file, env) && env.convert(file).file.Some?
  }

  predicate ImageUploaded(file: File, env: Env) {
    ImageConverted(file, env) && env.upload(env.convert(file).file.value).Some?
  }

  function UploadsOf(file: File, env: Env): Uploads
    requires ImageUploaded(file, env)
  {
    Uploads(env.upload(file).value, env.upload(env.convert(file).file.value).value)
  }

  function InstructionsFor(form: Form): Instructions {
    Instructions(form.jobTitle, form.jobDescription)
  }

  /** The AI call on the uploaded resume returned content. */
  predicate Replied(form: Form, uploads: Uploads, env: Env) {
    env.analyze(uploads.resume.path, InstructionsFor(form)).Some?
  }

  /** The feedback text could be taken from the reply and parsed. */
  predicate ReplyParses(form: Form, uploads: Uploads, env: Env) {
    && Replied(form, uploads, env)
    && var content := env.analyze(uploads.resume.path, InstructionsFor(form)).value;
       FeedbackText(content).Some? && env.parse(FeedbackText(content).value).Some?
  }

  function ParsedReply(form: Form, uploads: Uploads, env: Env): Json
    requires ReplyParses(form, uploads, env)
  {
    env.parse(FeedbackText(env.analyze(uploads.resume.path, InstructionsFor(form)).value).value).value
  }

  predicate FeedbackReceived(form: Form, file: File, env: Env) {
    ImageUploaded(file, env) && Replied(form, UploadsOf(file, env), env)
  }

  predicate FeedbackParsed(form: Form, file: File, env: Env) {
    ImageUploaded(file, env) && ReplyParses(form, UploadsOf(file, env), env)
  }

  // ================================================================ the run

  /** How the upload stages end: with both files uploaded, or at an early return. */
  datatype UploadOutcome = Uploaded(uploads: Uploads) | StoppedAt(exit: Exit)

  datatype UploadRun = UploadRun(events: seq<Event>, outcome: UploadOutcome)

  /** The record stored before the AI is asked: all fields from the run, feedback empty. */
  function InitialRecord(id: string, uploads: Uploads, form: Form): Record {
    Record(id, uploads.resume, uploads.image, form.companyName, form.jobTitle, form.jobDescription, JStr(""))
  }

  /** Uploading the resume, converting it to an image and uploading the image. */
  function UploadStages(file: File, env: Env): UploadRun {
    match env.upload(file)
    case None => UploadRun([Status(Uploading), Status(UploadFailedText)], StoppedAt(UploadFailed))
    case Some(uploadedFile) =>
      match env.convert(file).file
      case None => UploadRun([Status(Uploading), Status(Converting), Status(ConvertFailedText)], StoppedAt(ConversionFailed))
      case Some(image) =>
        match env.upload(image)
        case None =>
          UploadRun([Status(Uploading), Status(Converting), Status(UploadingImage), Status(ImageFailedText)], StoppedAt(ImageUploadFailed))
        case Some(uploadedImage) =>
          UploadRun([Status(Uploading), Status(Converting), Status(UploadingImage)], Uploaded(Uploads(uploadedFile, uploadedImage)))
  }

  /** Storing the record, asking the AI, storing the feedback and redirecting. */
  function AnalysisStages(form: Form, uploads: Uploads, env: Env): Run {
    var data := InitialRecord(env.uuid, uploads, form);
    var stored := [Status(Preparing), KvSet(Write(Key(env.uuid), data)), Status(Analyzing)];
    match env.analyze(uploads.resume.path, InstructionsFor(form))
    case None => Run(stored + [Status(AnalyzeFailedText)], AnalysisFailed)
    case Some(content) =>
      match FeedbackText(content)
      case None => Run(stored, Crashed)
      case Some(text) =>
        match env.parse(text)
        case None => Run(stored, Crashed)
        case Some(feedback) =>
          Run(stored + [KvSet(Write(Key(env.uuid), data.(feedback := feedback))), Status(Completed), Navigate(ReviewPath(env.uuid))],
              Redirected)
  }

  /** `handleAnalyze` as the sequence of its observable effects. */
  function AnalyzeRun(form: Form, file: File, env: Env): Run {
    var u := UploadStages(file, env);
    match u.outcome
    case StoppedAt(exit) => Run(u.events, exit)
    case Uploaded(uploads) =>
      var a := AnalysisStages(form, uploads, env);
      Run(u.events + a.events, a.exit)
  }

  // ================================================================ reading a run

  function StatusOf(e: Event): seq<string> {
    if e.Status? then [e.text] else []
  }

  function WriteOf(e: Event): seq<Write> {
    if e.KvSet? then [e.write] else []
  }

  function NavigationOf(e: Event): seq<string> {
    if e.Navigate? then [e.path] else []
  }

  /** The status texts of a log, in order. */
  function Statuses(events: seq<Event>): seq<string> {
    if events == [] then [] else Statuses(events[..|events| - 1]) + StatusOf(events[|events| - 1])
  }

  /** The store writes of a log, in order. */
  function Writes(events: seq<Event>): seq<Write> {
    if events == [] then [] else Writes(events[..|events| - 1]) + WriteOf(events[|events| - 1])
  }

  /** The navigations of a log, in order. */
  function Navigations(events: seq<Event>): seq<string> {
    if events == [] then [] else Navigations(events[..|events| - 1]) + NavigationOf(events[|events| - 1])
  }

  /** The store after the writes `ws`, last write winning per key. */
  function ApplyWrites(kv: map<string, Record>, ws: seq<Write>): map<string, Record> {
    if ws == [] then kv else ApplyWrites(kv, ws[..|ws| - 1])[ws[|ws| - 1].key := ws[|ws| - 1].record]
  }

  /** How many status texts of `Progress` a run with this exit shows. */
  function StagesShown(exit: Exit): nat {
    match exit
    case UploadFailed => 1
    case ConversionFailed => 2
    case ImageUploadFailed => 3
    case AnalysisFailed => 5
    case Crashed => 5
    case Redirected => 6
  }

  /** The status text a failing early return sets, after the progress texts. */
  function FailureStatus(exit: Exit): seq<string> {
    match exit
    case UploadFailed => [UploadFailedText]
    case ConversionFailed => [ConvertFailedText]
    case ImageUploadFailed => [ImageFailedText]
    case AnalysisFailed => [AnalyzeFailedText]
    case Crashed => []
    case Redirected => []
  }

  /** The status text left on screen when a run with this exit is over. */
  function ShownStatus(exit: Exit): string {
    match exit
    case UploadFailed => UploadFailedText
    case ConversionFailed => ConvertFailedText
    case ImageUploadFailed => ImageFailedText
    case AnalysisFailed => AnalyzeFailedText
    case Crashed => Analyzing
    case Redirected => Completed
  }

  predicate BeforeAnyWrite(exit: Exit) {
    exit == UploadFailed || exit == ConversionFailed || exit == ImageUploadFailed
  }

  lemma {:induction false} Appended(events: seq<Event>, e: Event)
    ensures Statuses(events + [e]) == Statuses(events) + StatusOf(e)
    ensures Writes(events + [e]) == Writes(events) + WriteOf(e)
    ensures Navigations(events + [e]) == Navigations(events) + NavigationOf(e)
  {
    assert (events + [e])[..|events|] == events;
  }

  /** Reading a log commutes with concatenating logs. */
  lemma Concatenated(a: seq<Event>, b: seq<Event>)
    ensures Statuses(a + b) == Statuses(a) + Statuses(b)
    ensures Writes(a + b) == Writes(a) + Writes(b)
    ensures Navigations(a + b) == Navigations(a) + Navigations(b)
  {
    StatusesConcatenated(a, b);
    WritesConcatenated(a, b);
    NavigationsConcatenated(a, b);
  }

  /** Appending two logs one after the other is appending their concatenation. */
  lemma LogsAssociate(x: seq<Event>, y: seq<Event>, z: seq<Event>)
    ensures (x + y) + z == x + (y + z)
  {
  }

  lemma {:induction false} StatusesConcatenated(a: seq<Event>, b: seq<Event>)
    ensures Statuses(a + b) == Statuses(a) + Statuses(b)
    decreases |b|
  {
    if b == [] {
      assert a + b == a;
    } else {
      var init, e := b[..|b| - 1], b[|b| - 1];
      assert (a + b)[..|a + b| - 1] == a + init;
      assert (a + b)[|a + b| - 1] == e;
      StatusesConcatenated(a, init);
    }
  }

  lemma {:induction false} WritesConcatenated(a: seq<Event>, b: seq<Event>)
    ensures Writes(a + b) == Writes(a) + Writes(b)
    decreases |b|
  {
    if b == [] {
      assert a + b == a;
    } else {
      var init, e := b[..|b| - 1], b[|b| - 1];
      assert (a + b)[..|a + b| - 1] == a + init;
      assert (a + b)[|a + b| - 1] == e;
      WritesConcatenated(a, init);
    }
  }

  lemma {:induction false} NavigationsConcatenated(a: seq<Event>, b: seq<Event>)
    ensures Navigations(a + b) == Navigations(a) + Navigations(b)
    decreases |b|
  {
    if b == [] {
      assert a + b == a;
    } else {
      var init, e := b[..|b| - 1], b[|b| - 1];
      assert (a + b)[..|a + b| - 1] == a + init;
      assert (a + b)[|a + b| - 1] == e;
      NavigationsConcatenated(a, init);
    }
  }

  lemma {:induction false} One(x: Event)
    ensures Statuses([x]) == StatusOf(x) && Writes([x]) == WriteOf(x) && Navigations([x]) == NavigationOf(x)
  {
    assert [x][..0] == [];
  }

  lemma {:induction false} Two(x: Event, y: Event)
    ensures Statuses([x, y]) == StatusOf(x) + StatusOf(y)
    ensures Writes([x, y]) == WriteOf(x) + WriteOf(y)
    ensures Navigations([x, y]) == NavigationOf(x) + NavigationOf(y)
  {
    One(x);
    assert [x, y][..1] == [x];
  }

  lemma {:induction false} Three(x: Event, y: Event, z: Event)
    ensures Statuses([x, y, z]) == StatusOf(x) + StatusOf(y) + StatusOf(z)
    ensures Writes([x, y, z]) == WriteOf(x) + WriteOf(y) + WriteOf(z)
    ensures Navigations([x, y, z]) == NavigationOf(x) + NavigationOf(y) + NavigationOf(z)
  {
    Two(x, y);
    assert [x, y, z][..2] == [x, y];
  }

  lemma {:induction false} Four(w: Event, x: Event, y: Event, z: Event)
    ensures Statuses([w, x, y, z]) == StatusOf(w) + StatusOf(x) + StatusOf(y) + StatusOf(z)
    ensures Writes([w, x, y, z]) == WriteOf(w) + WriteOf(x) + WriteOf(y) + WriteOf(z)
    ensures Navigations([w, x, y, z]) == NavigationOf(w) + NavigationOf(x) + NavigationOf(y) + NavigationOf(z)
  {
    Three(w, x, y);
    assert [w, x, y, z][..3] == [w, x, y];
  }

  /** The upload stages write nothing and show the progress texts of the stages reached. */
  lemma {:induction false} UploadStagesEffects(file: File, env: Env)
    ensures var u := UploadStages(file, env);
      && (u.outcome.Uploaded? <==> ImageUploaded(file, env))
      && (u.outcome.Uploaded? ==> u.outcome.uploads == UploadsOf(file, env) && Statuses(u.events) == Progress[..3])
      && (u.outcome.StoppedAt? ==>
            && BeforeAnyWrite(u.outcome.exit)
            && Statuses(u.events) == Progress[..StagesShown(u.outcome.exit)] + FailureStatus(u.outcome.exit))
      && Writes(u.events) == []
      && Navigations(u.events) == []
  {
    var u := UploadStages(file, env);
    var u1, u2, u3 := Status(Uploading), Status(Converting), Status(UploadingImage);
    if !ResumeUploaded(file, env) {
      assert u.events == [u1, Status(UploadFailedText)];
      assert Statuses(u.events) == Progress[..1] + [UploadFailedText] && Writes(u.events) == [] && Navigations(u.events) == [] by {
        Two(u1, Status(UploadFailedText));
        assert Progress[..1] == [Uploading];
      }
    } else if !ImageConverted(file, env) {
      assert u.events == [u1, u2, Status(ConvertFailedText)];
      assert Statuses(u.events) == Progress[..2] + [ConvertFailedText] && Writes(u.events) == [] && Navigations(u.events) == [] by {
        Three(u1, u2, Status(ConvertFailedText));
        assert Progress[..2] == [Uploading, Converting];
      }
    } else if !ImageUploaded(file, env) {
      assert u.events == [u1, u2, u3, Status(ImageFailedText)];
      assert Statuses(u.events) == Progress[..3] + [ImageFailedText] && Writes(u.events) == [] && Navigations(u.events) == [] by {
        Four(u1, u2, u3, Status(ImageFailedText));
        assert Progress[..3] == [Uploading, Converting, UploadingImage];
      }
    } else {
      assert u.events == [u1, u2, u3];
      assert Statuses(u.events) == Progress[..3] && Writes(u.events) == [] && Navigations(u.events) == [] by {
        Three(u1, u2, u3);
        assert Progress[..3] == [Uploading, Converting, UploadingImage];
      }
    }
  }

  /** The analysis stages write the record first and show the remaining progress texts. */
  lemma {:induction false} AnalysisStagesEffects(form: Form, uploads: Uploads, env: Env)
    ensures var a := AnalysisStages(form, uploads, env);
      var first := Write(Key(env.uuid), InitialRecord(env.uuid, uploads, form));
      && !BeforeAnyWrite(a.exit)
      && (a.exit == AnalysisFailed <==> !Replied(form, uploads, env))
      && (a.exit == Redirected <==> ReplyParses(form, uploads, env))
      && Statuses(a.events) == Progress[3..StagesShown(a.exit)] + FailureStatus(a.exit)
      && Writes(a.events) == [first]
           + (if a.exit == Redirected then [Write(first.key, first.record.(feedback := ParsedReply(form, uploads, env)))] else [])
      && Navigations(a.events) == (if a.exit == Redirected then [ReviewPath(env.uuid)] else [])
  {
    if !Replied(form, uploads, env) {
      FailedAnalysisEffects(form, uploads, env);
    } else if !ReplyParses(form, uploads, env) {
      CrashedAnalysisEffects(form, uploads, env);
    } else {
      CompletedAnalysisEffects(form, uploads, env);
    }
  }

  lemma {:induction false} FailedAnalysisEffects(form: Form, uploads: Uploads, env: Env)
    requires !Replied(form, uploads, env)
    ensures var a := AnalysisStages(form, uploads, env);
      && a.exit == AnalysisFailed
      && Statuses(a.events) == Progress[3..5] + [AnalyzeFailedText]
      && Writes(a.events) == [Write(Key(env.uuid), InitialRecord(env.uuid, uploads, form))]
      && Navigations(a.events) == []
  {
    var w := KvSet(Write(Key(env.uuid), InitialRecord(env.uuid, uploads, form)));
    var stored, f := [Status(Preparing), w, Status(Analyzing)], Status(AnalyzeFailedText);
    assert AnalysisStages(form, uploads, env).events == stored + [f];
    Three(Status(Preparing), w, Status(Analyzing));
    Appended(stored, f);
    assert Progress[3..5] == [Preparing, Analyzing];
  }

  lemma {:induction false} CrashedAnalysisEffects(form: Form, uploads: Uploads, env: Env)
    requires Replied(form, uploads, env) && !ReplyParses(form, uploads, env)
    ensures var a := AnalysisStages(form, uploads, env);
      && a.exit == Crashed
      && Statuses(a.events) == Progress[3..5]
      && Writes(a.events) == [Write(Key(env.uuid), InitialRecord(env.uuid, uploads, form))]
      && Navigations(a.events) == []
  {
    var w := KvSet(Write(Key(env.uuid), InitialRecord(env.uuid, uploads, form)));
    assert AnalysisStages(form, uploads, env).events == [Status(Preparing), w, Status(Analyzing)];
    Three(Status(Preparing), w, Status(Analyzing));
    assert Progress[3..5] == [Preparing, Analyzing];
  }

  lemma {:induction false} CompletedAnalysisEffects(form: Form, uploads: Uploads, env: Env)
    requires ReplyParses(form, uploads, env)
    ensures var a := AnalysisStages(form, uploads, env);
      var first := Write(Key(env.uuid), InitialRecord(env.uuid, uploads, form));
      && a.exit == Redirected
      && Statuses(a.events) == Progress[3..6]
      && Writes(a.events) == [first, Write(first.key, first.record.(feedback := ParsedReply(form, uploads, env)))]
      && Navigations(a.events) == [ReviewPath(env.uuid)]
  {
    var data := InitialRecord(env.uuid, uploads, form);
    var p, w, s := Status(Preparing), KvSet(Write(Key(env.uuid), data)), Status(Analyzing);
    var w2 := KvSet(Write(Key(env.uuid), data.(feedback := ParsedReply(form, uploads, env))));
    var c, n := Status(Completed), Navigate(ReviewPath(env.uuid));
    assert AnalysisStages(form, uploads, env).events == [p, w, s] + [w2, c, n];
    Three(p, w, s);
    Three(w2, c, n);
    Concatenated([p, w, s], [w2, c, n]);
    assert Progress[3..6] == [Preparing, Analyzing, Completed];
  }

  /**
   * The store after the analysis stages: the record with empty feedback
   * under `resume:<id>`, replaced by the one with the parsed feedback when
   * the reply parses.
   */
  lemma {:induction false} AnalysisStore(form: Form, uploads: Uploads, env: Env, kv: map<string, Record>)
    ensures var k, data := Key(env.uuid), InitialRecord(env.uuid, uploads, form);
      ApplyWrites(kv, Writes(AnalysisStages(form, uploads, env).events)) ==
        if ReplyParses(form, uploads, env) then kv[k := data][k := data.(feedback := ParsedReply(form, uploads, env))]
        else kv[k := data]
  {
    var w1 := Write(Key(env.uuid), InitialRecord(env.uuid, uploads, form));
    assert ApplyWrites(kv, [w1]) == kv[w1.key := w1.record] by {
      assert [w1][..0] == [];
    }
    if ReplyParses(form, uploads, env) {
      CompletedAnalysisEffects(form, uploads, env);
      var w2 := Write(w1.key, w1.record.(feedback := ParsedReply(form, uploads, env)));
      assert [w1, w2][..1] == [w1];
    } else if Replied(form, uploads, env) {
      CrashedAnalysisEffects(form, uploads, env);
    } else {
      FailedAnalysisEffects(form, uploads, env);
    }
  }

  /** What a run shows, writes and navigates to, whichever stage it ends at. */
  lemma {:induction false} RunEffects(form: Form, file: File, env: Env)
    ensures var r := AnalyzeRun(form, file, env);
      && Statuses(r.events) == Progress[..StagesShown(r.exit)] + FailureStatus(r.exit)
      && (BeforeAnyWrite(r.exit) <==> !ImageUploaded(file, env))
      && (BeforeAnyWrite(r.exit) ==> Writes(r.events) == [])
      && (!BeforeAnyWrite(r.exit) ==>
            var first := Write(Key(env.uuid), InitialRecord(env.uuid, UploadsOf(file, env), form));
            Writes(r.events) == [first]
              + (if r.exit == Redirected
                 then [Write(first.key, first.record.(feedback := ParsedReply(form, UploadsOf(file, env), env)))]
                 else []))
      && Navigations(r.events) == (if r.exit == Redirected then [ReviewPath(env.uuid)] else [])
  {
    RunStatuses(form, file, env);
    RunWrites(form, file, env);
  }

  /** The status texts of a run: the progress texts of the stages reached, then the failing stage's text. */
  lemma {:induction false} RunStatuses(form: Form, file: File, env: Env)
    ensures var r := AnalyzeRun(form, file, env);
      Statuses(r.events) == Progress[..StagesShown(r.exit)] + FailureStatus(r.exit)
  {
    var r := AnalyzeRun(form, file, env);
    if !ImageUploaded(file, env) {
      var u := UploadStages(file, env);
      assert u.outcome.StoppedAt?
        && Statuses(u.events) == Progress[..StagesShown(u.outcome.exit)] + FailureStatus(u.outcome.exit)
      by {
        UploadStagesEffects(file, env);
      }
      assert r == Run(u.events, u.outcome.exit);
    } else {
      var a := AnalysisStages(form, UploadsOf(file, env), env);
      var k := StagesShown(a.exit);
      assert r.exit == a.exit && Statuses(r.events) == Progress[..3] + Statuses(a.events) by {
        AnalyzedRunEffects(form, file, env);
      }
      assert Statuses(a.events) == Progress[3..k] + FailureStatus(a.exit) by {
        AnalysisStagesEffects(form, UploadsOf(file, env), env);
      }
      assert Progress[..3] + (Progress[3..k] + FailureStatus(a.exit)) == Progress[..k] + FailureStatus(a.exit);
    }
  }

  /** The writes and navigations of a run, and which exits come before any write. */
  lemma {:induction false} RunWrites(form: Form, file: File, env: Env)
    ensures var r := AnalyzeRun(form, file, env);
      && (BeforeAnyWrite(r.exit) <==> !ImageUploaded(file, env))
      && (BeforeAnyWrite(r.exit) ==> Writes(r.events) == [])
      && (!BeforeAnyWrite(r.exit) ==>
            var first := Write(Key(env.uuid), InitialRecord(env.uuid, UploadsOf(file, env), form));
            Writes(r.events) == [first]
              + (if r.exit == Redirected
                 then [Write(first.key, first.record.(feedback := ParsedReply(form, UploadsOf(file, env), env)))]
                 else []))
      && Navigations(r.events) == (if r.exit == Redirected then [ReviewPath(env.uuid)] else [])
  {
    var r := AnalyzeRun(form, file, env);
    if !ImageUploaded(file, env) {
      var u := UploadStages(file, env);
      assert u.outcome.StoppedAt? && BeforeAnyWrite(u.outcome.exit)
        && Writes(u.events) == [] && Navigations(u.events) == []
      by {
        UploadStagesEffects(file, env);
      }
      assert r == Run(u.events, u.outcome.exit);
    } else {
      AnalyzedRunEffects(form, file, env);
      AnalysisStagesEffects(form, UploadsOf(file, env), env);
    }
  }

  /** A run whose uploads succeed has the analysis stages' effects after the three upload texts. */
  lemma {:induction false} AnalyzedRunEffects(form: Form, file: File, env: Env)
    requires ImageUploaded(file, env)
    ensures var r, a := AnalyzeRun(form, file, env), AnalysisStages(form, UploadsOf(file, env), env);
      && r.exit == a.exit
      && Statuses(r.events) == Progress[..3] + Statuses(a.events)
      && Writes(r.events) == Writes(a.events)
      && Navigations(r.events) == Navigations(a.events)
  {
    var u := UploadStages(file, env);
    var a := AnalysisStages(form, UploadsOf(file, env), env);
    assert u.outcome == Uploaded(UploadsOf(file, env))
      && Statuses(u.events) == Progress[..3] && Writes(u.events) == [] && Navigations(u.events) == []
    by {
      UploadStagesEffects(file, env);
    }
    assert AnalyzeRun(form, file, env) == Run(u.events + a.events, a.exit);
    Concatenated(u.events, a.events);
  }

  // ================================================================ properties of a run

  /** The run ends at the first stage that fails; the later stages do not run. */
  lemma ExitIsFirstFailingStage(form: Form, file: File, env: Env)
    ensures var exit := AnalyzeRun(form, file, env).exit;
      && (exit == UploadFailed <==> !ResumeUploaded(file, env))
      && (exit == ConversionFailed <==> ResumeUploaded(file, env) && !ImageConverted(file, env))
      && (exit == ImageUploadFailed <==> ImageConverted(file, env) && !ImageUploaded(file, env))
      && (exit == AnalysisFailed <==> ImageUploaded(file, env) && !FeedbackReceived(form, file, env))
      && (exit == Crashed <==> FeedbackReceived(form, file, env) && !FeedbackParsed(form, file, env))
      && (exit == Redirected <==> FeedbackParsed(form, file, env))
  {
  }

  /**
   * The status texts appear in stage order: the progress texts of the
   * stages reached, then the failing stage's own text, and nothing after.
   */
  lemma StatusesInStageOrder(form: Form, file: File, env: Env)
    ensures var r := AnalyzeRun(form, file, env);
      Statuses(r.events) == Progress[..StagesShown(r.exit)] + FailureStatus(r.exit)
    ensures AnalyzeRun(form, file, env).exit == Redirected ==> Statuses(AnalyzeRun(form, file, env).events) == Progress
  {
    RunEffects(form, file, env);
  }

  /** A failing upload, conversion or image upload happens before any record is written. */
  lemma NoRecordBeforeUploads(form: Form, file: File, env: Env)
    ensures var r := AnalyzeRun(form, file, env);
      Writes(r.events) == [] <==> BeforeAnyWrite(r.exit)
  {
    RunEffects(form, file, env);
  }

  /** The first write stores the run's record, with empty feedback, under the key of its own id. */
  lemma FirstWriteIsEmptyRecord(form: Form, file: File, env: Env)
    requires ImageUploaded(file, env)
    ensures var ws := Writes(AnalyzeRun(form, file, env).events);
      && |ws| >= 1
      && ws[0].key == Key(ws[0].record.id)
      && ws[0].record.id == env.uuid
      && ws[0].record == Record(env.uuid, env.upload(file).value, env.upload(env.convert(file).file.value).value,
                                form.companyName, form.jobTitle, form.jobDescription, JStr(""))
  {
    RunEffects(form, file, env);
  }

  /** When the AI call fails or its reply cannot be parsed, the empty-feedback record stays and nothing more happens. */
  lemma FailedAnalysisKeepsEmptyRecord(form: Form, file: File, env: Env)
    requires ImageUploaded(file, env) && !FeedbackParsed(form, file, env)
    ensures var r := AnalyzeRun(form, file, env);
      && |Writes(r.events)| == 1
      && Writes(r.events)[0].record.feedback == JStr("")
      && Navigations(r.events) == []
  {
    RunEffects(form, file, env);
  }

  /** The second write uses the same key, and its record differs from the first only in the parsed feedback. */
  lemma SecondWriteOnlyAddsFeedback(form: Form, file: File, env: Env)
    ensures var ws := Writes(AnalyzeRun(form, file, env).events);
      && |ws| <= 2
      && (|ws| == 2 <==> FeedbackParsed(form, file, env))
      && (|ws| == 2 ==>
            && ws[1].key == ws[0].key
            && ws[1].record == ws[0].record.(feedback := ParsedReply(form, UploadsOf(file, env), env)))
  {
    if !ImageUploaded(file, env) {
      UploadStagesEffects(file, env);
    } else {
      AnalyzedRunEffects(form, file, env);
      var uploads := UploadsOf(file, env);
      if !Replied(form, uploads, env) {
        FailedAnalysisEffects(form, uploads, env);
      } else if !ReplyParses(form, uploads, env) {
        CrashedAnalysisEffects(form, uploads, env);
      } else {
        CompletedAnalysisEffects(form, uploads, env);
      }
    }
  }

  /** The review page is opened, once, exactly when the second write happened, and it is the last event. */
  lemma NavigationAfterSecondWrite(form: Form, file: File, env: Env)
    ensures var r := AnalyzeRun(form, file, env);
      && (Navigations(r.events) != [] <==> |Writes(r.events)| == 2)
      && (Navigations(r.events) != [] ==>
            && Navigations(r.events) == [ReviewPath(env.uuid)]
            && r.events[|r.events| - 1] == Navigate(ReviewPath(env.uuid))
            && Writes(r.events[..|r.events| - 1]) == Writes(r.events))
  {
    if !ImageUploaded(file, env) {
      UploadStagesEffects(file, env);
    } else {
      AnalyzedRunEffects(form, file, env);
      var uploads := UploadsOf(file, env);
      if !Replied(form, uploads, env) {
        FailedAnalysisEffects(form, uploads, env);
      } else if !ReplyParses(form, uploads, env) {
        CrashedAnalysisEffects(form, uploads, env);
      } else {
        CompletedAnalysisEffects(form, uploads, env);
        CompletedRunEndsWithReview(form, file, env);
      }
    }
  }

  lemma {:induction false} CompletedRunEndsWithReview(form: Form, file: File, env: Env)
    requires FeedbackParsed(form, file, env)
    ensures var r := AnalyzeRun(form, file, env);
      |r.events| > 0 && r.events[|r.events| - 1] == Navigate(ReviewPath(env.uuid))
  {
    var r, u, a := AnalyzeRun(form, file, env), UploadStages(file, env), AnalysisStages(form, UploadsOf(file, env), env);
    assert u.outcome == Uploaded(UploadsOf(file, env)) by {
      UploadStagesEffects(file, env);
    }
    assert r.events == u.events + a.events;
    assert a.events[|a.events| - 1] == Navigate(ReviewPath(env.uuid));
  }

  /** After a completed run the store holds the record with the parsed feedback under `resume:<id>`. */
  lemma CompletedRunStoresFeedback(form: Form, file: File, env: Env, kv: map<string, Record>)
    requires FeedbackParsed(form, file, env)
    ensures var store := ApplyWrites(kv, Writes(AnalyzeRun(form, file, env).events));
      && Key(env.uuid) in store
      && store[Key(env.uuid)].id == env.uuid
      && store[Key(env.uuid)].feedback == ParsedReply(form, UploadsOf(file, env), env)
  {
    RunEffects(form, file, env);
    var ws := Writes(AnalyzeRun(form, file, env).events);
    assert ws[..1][..0] == [];
  }

  /** After an AI failure the store holds the record with empty feedback under `resume:<id>`. */
  lemma FailedRunStoresEmptyFeedback(form: Form, file: File, env: Env, kv: map<string, Record>)
    requires ImageUploaded(file, env) && !FeedbackParsed(form, file, env)
    ensures var store := ApplyWrites(kv, Writes(AnalyzeRun(form, file, env).events));
      && Key(env.uuid) in store
      && store[Key(env.uuid)] == InitialRecord(env.uuid, UploadsOf(file, env), form)
  {
    RunEffects(form, file, env);
    var ws := Writes(AnalyzeRun(form, file, env).events);
    assert ws[..0] == [];
  }

  /** A run that stops in the upload stages is those stages, and writes nothing. */
  lemma StoppedRun(form: Form, file: File, env: Env)
    requires UploadStages(file, env).outcome.StoppedAt?
    ensures AnalyzeRun(form, file, env) == Run(UploadStages(file, env).events, UploadStages(file, env).outcome.exit)
    ensures Writes(AnalyzeRun(form, file, env).events) == []
  {
    UploadStagesEffects(file, env);
  }

  /** A run whose uploads succeed is the upload stages followed by the analysis stages, whose writes are all of the run's. */
  lemma ContinuedRun(form: Form, file: File, env: Env)
    requires UploadStages(file, env).outcome.Uploaded?
    ensures var u := UploadStages(file, env);
      var a := AnalysisStages(form, u.outcome.uploads, env);
      && AnalyzeRun(form, file, env) == Run(u.events + a.events, a.exit)
      && Writes(AnalyzeRun(form, file, env).events) == Writes(a.events)
  {
    var u := UploadStages(file, env);
    var a := AnalysisStages(form, u.outcome.uploads, env);
    assert Writes(u.events) == [] by {
      UploadStagesEffects(file, env);
    }
    Concatenated(u.events, a.events);
  }

  // ================================================================ the page

  /** The upload page's state, with the key-value store and the log of what it did. */
  class UploadPage {
    var isProcessing: bool
    var statusText: string
    var file: Option<File>
    var kv: map<string, Record>
    var log: seq<Event>

    constructor (kv: map<string, Record>)
      ensures !isProcessing && statusText == "" && file == None && this.kv == kv && log == []
    {
      isProcessing := false;
      statusText := "";
      file := None;
      this.kv := kv;
      log := [];
    }

    /** The form is rendered only while nothing is being processed. */
    predicate FormShown()
      reads this
    {
      !isProcessing
    }

    method HandleFileSelect(selected: Option<File>)
      modifies this
      ensures file == selected
      ensures isProcessing == old(isProcessing) && statusText == old(statusText) && kv == old(kv) && log == old(log)
    {
      file := selected;
    }

    method SetStatus(text: string)
      modifies this
      ensures statusText == text && log == old(log) + [Status(text)]
      ensures isProcessing == old(isProcessing) && file == old(file) && kv == old(kv)
    {
      statusText := text;
      log := log + [Status(text)];
    }

    method SetRecord(key: string, record: Record)
      modifies this
      ensures kv == old(kv)[key := record] && log == old(log) + [KvSet(Write(key, record))]
      ensures isProcessing == old(isProcessing) && statusText == old(statusText) && file == old(file)
    {
      kv := kv[key := record];
      log := log + [KvSet(Write(key, record))];
    }

    method NavigateTo(path: string)
      modifies this
      ensures log == old(log) + [Navigate(path)]
      ensures isProcessing == old(isProcessing) && statusText == old(statusText) && file == old(file) && kv == old(kv)
    {
      log := log + [Navigate(path)];
    }

    /** The first half of `handleAnalyze`: the resume upload, the conversion and the image upload. */
    method UploadFiles(resume: File, env: Env) returns (outcome: UploadOutcome)
      modifies this
      ensures outcome == UploadStages(resume, env).outcome
      ensures log == old(log) + UploadStages(resume, env).events
      ensures statusText == if outcome.StoppedAt? then ShownStatus(outcome.exit) else UploadingImage
      ensures isProcessing == old(isProcessing) && file == old(file) && kv == old(kv)
    {
      SetStatus(Uploading);
      var uploadedFile := env.upload(resume);
      if uploadedFile.None? {
        SetStatus(UploadFailedText);
        return StoppedAt(UploadFailed);
      }
      SetStatus(Converting);
      var imageFile := env.convert(resume);
      if imageFile.file.None? {
        SetStatus(ConvertFailedText);
        return StoppedAt(ConversionFailed);
      }
      SetStatus(UploadingImage);
      var uploadedImage := env.upload(imageFile.file.value);
      if uploadedImage.None? {
        SetStatus(ImageFailedText);
        return StoppedAt(ImageUploadFailed);
      }
      outcome := Uploaded(Uploads(uploadedFile.value, uploadedImage.value));
    }

    /** The second half of `handleAnalyze`: storing the record, the AI call, the final write and the redirect. */
    method StoreAndAnalyze(form: Form, uploads: Uploads, env: Env) returns (exit: Exit)
      modifies this
      ensures exit == AnalysisStages(form, uploads, env).exit
      ensures log == old(log) + AnalysisStages(form, uploads, env).events
      ensures kv == ApplyWrites(old(kv), Writes(AnalysisStages(form, uploads, env).events))
      ensures statusText == ShownStatus(exit)
      ensures isProcessing == old(isProcessing) && file == old(file)
    {
      ghost var run := AnalysisStages(form, uploads, env);
      AnalysisStore(form, uploads, env, kv);
      var uuid := env.uuid;
      var data := StoreInitialRecord(uuid, uploads, form);
      ghost var stored := [Status(Preparing), KvSet(Write(Key(uuid), data)), Status(Analyzing)];
      var feedback := env.analyze(uploads.resume.path, InstructionsFor(form));
      if feedback.None? {
        SetStatus(AnalyzeFailedText);
        assert run == Run(stored + [Status(AnalyzeFailedText)], AnalysisFailed);
        return AnalysisFailed;
      }
      var feedbackText := FeedbackText(feedback.value);
      if feedbackText.None? {
        assert run == Run(stored, Crashed);
        return Crashed;
      }
      var parsed := env.parse(feedbackText.value);
      if parsed.None? {
        assert run == Run(stored, Crashed);
        return Crashed;
      }
      data := data.(feedback := parsed.value);
      StoreFeedback(uuid, data);
      assert run == Run(stored + [KvSet(Write(Key(uuid), data)), Status(Completed), Navigate(ReviewPath(uuid))], Redirected);
      exit := Redirected;
    }

    /** The record with empty feedback is stored between the "Preparing" and "Analyzing" texts. */
    method StoreInitialRecord(uuid: string, uploads: Uploads, form: Form) returns (data: Record)
      modifies this
      ensures data == InitialRecord(uuid, uploads, form)
      ensures log == old(log) + [Status(Preparing), KvSet(Write(Key(uuid), data)), Status(Analyzing)]
      ensures kv == old(kv)[Key(uuid) := data] && statusText == Analyzing
      ensures isProcessing == old(isProcessing) && file == old(file)
    {
      SetStatus(Preparing);
      data := InitialRecord(uuid, uploads, form);
      SetRecord(Key(uuid), data);
      SetStatus(Analyzing);
    }

    /** The record with the parsed feedback is stored again, then the page moves to the review. */
    method StoreFeedback(uuid: string, data: Record)
      modifies this
      ensures log == old(log) + [KvSet(Write(Key(uuid), data)), Status(Completed), Navigate(ReviewPath(uuid))]
      ensures kv == old(kv)[Key(uuid) := data] && statusText == Completed
      ensures isProcessing == old(isProcessing) && file == old(file)
    {
      SetRecord(Key(uuid), data);
      SetStatus(Completed);
      NavigateTo(ReviewPath(uuid));
    }

    /** One analysis run of the resume `resume` with the form's fields; the page stays in the processing state. */
    method HandleAnalyze(form: Form, resume: File, env: Env) returns (exit: Exit)
      modifies this
      ensures exit == AnalyzeRun(form, resume, env).exit
      ensures log == old(log) + AnalyzeRun(form, resume, env).events
      ensures kv == ApplyWrites(old(kv), Writes(AnalyzeRun(form, resume, env).events))
      ensures statusText == ShownStatus(exit)
      ensures isProcessing && !FormShown() && file == old(file)
    {
      isProcessing := true;
      var outcome := UploadFiles(resume, env);
      if outcome.StoppedAt? {
        StoppedRun(form, resume, env);
        return outcome.exit;
      }
      exit := StoreAndAnalyze(form, outcome.uploads, env);
      ContinuedRun(form, resume, env);
      LogsAssociate(old(log), UploadStages(resume, env).events, AnalysisStages(form, outcome.uploads, env).events);
    }

    /**
     * A form submission: no analysis starts without an enclosing form or
     * without a selected file.
     */
    method HandleSubmit(form: Option<Form>, env: Env) returns (exit: Option<Exit>)
      modifies this
      ensures (form.None? || old(file).None?) ==>
        && exit == None
        && isProcessing == old(isProcessing) && statusText == old(statusText) && kv == old(kv) && log == old(log)
        && file == old(file)
      ensures form.Some? && old(file).Some? ==>
        && exit == Some(AnalyzeRun(form.value, old(file).value, env).exit)
        && log == old(log) + AnalyzeRun(form.value, old(file).value, env).events
        && kv == ApplyWrites(old(kv), Writes(AnalyzeRun(form.value, old(file).value, env).events))
        && isProcessing && !FormShown() && statusText == ShownStatus(exit.value) && file == old(file)
    {
      if form.None? {
        return None;
      }
      if file.None? {
        return None;
      }
      var e := HandleAnalyze(form.value, file.value, env);
      exit := Some(e);
    }
  }

}
