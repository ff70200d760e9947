/**
 * The review page for one stored analysis: loading the record and the two
 * files it names, the rules that decide what is rendered, the ATS
 * defaults, the profile initials and the redirect for signed-out users.
 */
module Resume {

  import opened Wrappers
  import opened JsValue
  import opened JsString
  import opened Upload

  /** File contents as the storage gateway returns them, with a MIME type. */
  datatype Blob = Blob(bytes: seq<bv8>, mime: string)

  datatype User = User(username: string)

  /** The page state that `loadResume` sets; `feedback` is `None` while it is `null`. */
  datatype View = View(resumeUrl: string, imageUrl: string, feedback: Option<Json>)

  const Blank := View("", "", None)

  /** The resume file re-wrapped as a PDF before a URL is made for it. */
  function AsPdf(b: Blob): Blob {
    Blob(b.bytes, "application/pdf")
  }

  /**
   * `loadResume`: look the record up under `resume:<id>`, read the resume,
   * set its URL, read the image, set its URL and the feedback; each
   * missing piece ends the chain with what was set so far.
   */
  function Load(v: View, id: string, kv: map<string, Record>, read: FsItem -> Option<Blob>, createUrl: Blob -> string): (r: View)
    ensures r == v || Key(id) in kv
    ensures r.feedback == v.feedback || (Key(id) in kv && r.feedback == Some(kv[Key(id)].feedback))
  {
    if Key(id) !in kv then v
    else
      var data := kv[Key(id)];
      match read(data.resumePath)
      case None => v
      case Some(resumeBlob) =>
        var withResume := v.(resumeUrl := createUrl(AsPdf(resumeBlob)));
        match read(data.imagePath)
        case None => withResume
        case Some(imageBlob) => withResume.(imageUrl := createUrl(imageBlob), feedback := Some(data.feedback))
  }

  /** The preview is rendered when both URLs are non-empty. */
  predicate PreviewShown(v: View) {
    v.imageUrl != "" && v.resumeUrl != ""
  }

  /** The review is rendered when the feedback is truthy; otherwise the placeholder animation is. */
  predicate ReviewShown(v: View) {
    v.feedback.Some? && Truthy(v.feedback.value)
  }

  // ---------------------------------------------------------------- loading

  /** Without a stored record nothing is set. */
  lemma MissingRecordSetsNothing(v: View, id: string, kv: map<string, Record>, read: FsItem -> Option<Blob>, createUrl: Blob -> string)
    requires Key(id) !in kv
    ensures Load(v, id, kv, read, createUrl) == v
  {
  }

  /** A failed resume read sets nothing; a failed image read sets only the resume URL. */
  lemma FailedReadsSetPrefix(v: View, id: string, kv: map<string, Record>, read: FsItem -> Option<Blob>, createUrl: Blob -> string)
    requires Key(id) in kv
    ensures read(kv[Key(id)].resumePath).None? ==> Load(v, id, kv, read, createUrl) == v
    ensures read(kv[Key(id)].resumePath).Some? && read(kv[Key(id)].imagePath).None? ==>
      Load(v, id, kv, read, createUrl) == v.(resumeUrl := createUrl(AsPdf(read(kv[Key(id)].resumePath).value)))
  {
  }

  /** The feedback changes only when the record and both files could be read, and then it is the record's. */
  lemma FeedbackAfterBothReads(v: View, id: string, kv: map<string, Record>, read: FsItem -> Option<Blob>, createUrl: Blob -> string)
    ensures var w := Load(v, id, kv, read, createUrl);
      && (w.feedback != v.feedback ==> Key(id) in kv && read(kv[Key(id)].resumePath).Some? && read(kv[Key(id)].imagePath).Some?)
      && (Key(id) in kv && read(kv[Key(id)].resumePath).Some? && read(kv[Key(id)].imagePath).Some? ==>
            w.feedback == Some(kv[Key(id)].feedback))
      && (w.imageUrl != v.imageUrl ==> w.feedback == Some(kv[Key(id)].feedback))
  {
  }

  /** A complete load onto a blank page shows the preview when the gateway's URLs are non-empty. */
  lemma CompleteLoadShowsPreview(id: string, kv: map<string, Record>, read: FsItem -> Option<Blob>, createUrl: Blob -> string)
    requires Key(id) in kv && read(kv[Key(id)].resumePath).Some? && read(kv[Key(id)].imagePath).Some?
    requires createUrl(AsPdf(read(kv[Key(id)].resumePath).value)) != ""
    requires createUrl(read(kv[Key(id)].imagePath).value) != ""
    ensures PreviewShown(Load(Blank, id, kv, read, createUrl))
  {
  }

  /** An incomplete load onto a blank page shows neither the preview nor the review. */
  lemma IncompleteLoadShowsPlaceholders(id: string, kv: map<string, Record>, read: FsItem -> Option<Blob>, createUrl: Blob -> string)
    requires !(Key(id) in kv && read(kv[Key(id)].resumePath).Some? && read(kv[Key(id)].imagePath).Some?)
    ensures !PreviewShown(Load(Blank, id, kv, read, createUrl))
    ensures !ReviewShown(Load(Blank, id, kv, read, createUrl))
  {
  }

  // ---------------------------------------------------------------- after an analysis run

  /** The review page of a completed run shows the parsed feedback once both files can be read. */
  lemma CompletedRunIsReviewed(form: Form, file: File, env: Env, kv: map<string, Record>,
                               read: FsItem -> Option<Blob>, createUrl: Blob -> string)
    requires FeedbackParsed(form, file, env)
    requires read(env.upload(file).value).Some?
    requires read(env.upload(env.convert(file).file.value).value).Some?
    ensures var store := ApplyWrites(kv, Writes(AnalyzeRun(form, file, env).events));
      Load(Blank, env.uuid, store, read, createUrl).feedback == Some(ParsedReply(form, UploadsOf(file, env), env))
  {
    RunEffects(form, file, env);
    CompletedRunStoresFeedback(form, file, env, kv);
    var store := ApplyWrites(kv, Writes(AnalyzeRun(form, file, env).events));
    var ws := Writes(AnalyzeRun(form, file, env).events);
    assert ws[..1][..0] == [];
    assert store[Key(env.uuid)].resumePath == env.upload(file).value;
    assert store[Key(env.uuid)].imagePath == env.upload(env.convert(file).file.value).value;
  }

  /**
   * The review page of a run whose analysis failed or could not be parsed
   * never shows a review: the stored feedback is the empty string.
   */
  lemma FailedRunShowsPlaceholder(form: Form, file: File, env: Env, kv: map<string, Record>,
                                  read: FsItem -> Option<Blob>, createUrl: Blob -> string)
    requires ImageUploaded(file, env) && !FeedbackParsed(form, file, env)
    ensures var store := ApplyWrites(kv, Writes(AnalyzeRun(form, file, env).events));
      !ReviewShown(Load(Blank, env.uuid, store, read, createUrl))
  {
    FailedRunStoresEmptyFeedback(form, file, env, kv);
  }

  // ---------------------------------------------------------------- ATS defaults

  /** The arguments of the ATS panel. */
  datatype AtsProps = AtsProps(score: Json, tips: Json)

  /**
   * `feedback.ATS.score || 0` and `feedback.ATS.tips || []`; `None` where
   * reading `score` of a missing or `null` ATS entry throws.
   */
  function Ats(feedback: Json): (r: Option<AtsProps>)
    ensures r.Some? <==> Field(feedback, "ATS").Some? && !Field(feedback, "ATS").value.JNull?
    ensures r.Some? ==> Truthy(r.value.tips)
  {
    match Field(feedback, "ATS")
    case None => None
    case Some(ats) =>
      if ats.JNull? then None
      else Some(AtsProps(OrElse(Field(ats, "score"), JNum(0.0)), OrElse(Field(ats, "tips"), JArr([]))))
  }

  /** A truthy score or tips entry is passed on as is; a missing or falsy one becomes 0 or []. */
  lemma AtsDefaults(feedback: Json)
    requires Field(feedback, "ATS").Some? && !Field(feedback, "ATS").value.JNull?
    ensures var ats, props := Field(feedback, "ATS").value, Ats(feedback).value;
      && (Field(ats, "score").Some? && Truthy(Field(ats, "score").value) ==> props.score == Field(ats, "score").value)
      && (!(Field(ats, "score").Some? && Truthy(Field(ats, "score").value)) ==> props.score == JNum(0.0))
      && (Field(ats, "tips").Some? && Truthy(Field(ats, "tips").value) ==> props.tips == Field(ats, "tips").value)
      && (!(Field(ats, "tips").Some? && Truthy(Field(ats, "tips").value)) ==> props.tips == JArr([]))
  {
  }

  /** The panel never receives a falsy score other than 0, nor falsy tips. */
  lemma AtsPropsSettled(feedback: Json)
    requires Ats(feedback).Some?
    ensures Truthy(Ats(feedback).value.score) || Ats(feedback).value.score == JNum(0.0)
    ensures Truthy(Ats(feedback).value.tips)
  {
  }

  // ---------------------------------------------------------------- initials

  /**
   * The profile initials: first characters of the whitespace-separated
   * pieces of the username, at most two, upper-cased; "U" without a user.
   */
  function Initials(user: Option<User>): (r: string)
    ensures |r| <= 2
    ensures HasNoLowerAscii(r)
    ensures user.None? ==> r == "U"
  {
    match user
    case None => "U"
    case Some(u) => Upper(Take(FirstChars(SplitWhiteSpace(u.username)), 2))
  }

  /** The initials are the upper-cased first two word starts of the username: no white space, no empty pieces. */
  lemma InitialsAreWordStarts(username: string)
    ensures Initials(Some(User(username))) == Upper(Take(WordStarts(username, true), 2))
    ensures NoWhiteSpace(Initials(Some(User(username))))
  {
    FirstCharsOfSplit(username);
    var starts := WordStarts(username, true);
    WordStartsAreWordChars(username, true);
    var r := Initials(Some(User(username)));
    forall i | 0 <= i < |r| ensures !IsWhiteSpace(r[i]) {
      assert r[i] == UpperChar(starts[i]);
    }
  }

  /** Which usernames give which initials at the edges: a blank name gives none, a lone word one. */
  lemma InitialsEdgeCases(word: string)
    requires word != "" && NoWhiteSpace(word)
    ensures Initials(Some(User(""))) == ""
    ensures Initials(Some(User(" " + word))) == [UpperChar(word[0])]
    ensures Initials(Some(User(word))) == [UpperChar(word[0])]
  {
    InitialsAreWordStarts("");
    InitialsAreWordStarts(" " + word);
    InitialsAreWordStarts(word);
    WordStartsOfGap(" ", word, true);
    WordStartsOfWord(word, "", true);
    WordStartsOfWord(word, "", false);
    assert word + "" == word;
  }

  // ---------------------------------------------------------------- sign-in redirect

  /** The sign-in redirect while the store is or is not loading and the user is or is not signed in. */
  function AuthRedirect(isLoading: bool, isAuthenticated: bool, id: string): (r: Option<string>)
    ensures r.Some? <==> !isLoading && !isAuthenticated
  {
    if !isLoading && !isAuthenticated then Some("/auth?next=/resume/" + id) else None
  }

  /** After signing in, the user is sent back to the review page the upload navigated to. */
  lemma RedirectReturnsToReview(id: string)
    ensures AuthRedirect(false, false, id) == Some("/auth?next=" + ReviewPath(id))
  {
    assert "/auth?next=/resume/" + id == "/auth?next=" + ("/resume/" + id);
  }

  // ---------------------------------------------------------------- the page

  class ResumePage {
    const id: string
    var resumeUrl: string
    var imageUrl: string
    var feedback: Option<Json>

    constructor (id: string)
      ensures this.id == id && State() == Blank
    {
      this.id := id;
      resumeUrl := "";
      imageUrl := "";
      feedback := None;
    }

    function State(): View
      reads this
    {
      View(resumeUrl, imageUrl, feedback)
    }

    /** One run of `loadResume` against the store and the file gateway. */
    method LoadResume(kv: map<string, Record>, read: FsItem -> Option<Blob>, createUrl: Blob -> string)
      modifies this
      ensures State() == Load(old(State()), id, kv, read, createUrl)
    {
      if Key(id) !in kv {
        return;
      }
      var data := kv[Key(id)];
      var resumeBlob := read(data.resumePath);
      if resumeBlob.None? {
        return;
      }
      var pdfBlob := AsPdf(resumeBlob.value);
      resumeUrl := createUrl(pdfBlob);
      var imageBlob := read(data.imagePath);
      if imageBlob.None? {
        return;
      }
      imageUrl := createUrl(imageBlob.value);
      feedback := Some(data.feedback);
    }
  }

}
