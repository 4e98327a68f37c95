/**
 * The session state kept across reruns of the page script, and one run of
 * the script: record a new upload, optionally analyse it, then choose the
 * pane to show and honour the "Clear Results" button.
 *
 * The pure functions on `State` say what each event does; the `Session`
 * class holds the two fields the script assigns in place, and each of its
 * methods is proved to move the fields exactly as the matching function says.
 */
module Session {
  import opened Wrappers
  import opened Text
  import opened Prompt
  import opened FileHint
  import opened Classifier

  /** The stored analysis text and the name of the last uploaded file. */
  datatype State = State(result: Option<string>, lastFile: Option<string>)

  /** Both fields start out as None. */
  const Initial: State := State(None, None)

  /** Python truthiness of the stored result: present and not the empty string. */
  predicate Displayable(s: State)
  {
    s.result.Some? && s.result.value != ""
  }

  /**
   * What holds between runs: a result is stored only while a file name is
   * recorded, and a stored result never contains either error code.
   */
  predicate Inv(s: State)
  {
    s.result.Some? ==> s.lastFile.Some? && Classify(s.result.value) == Clean
  }

  /** A file whose name differs from the recorded one drops the stored result. */
  function AfterUpload(s: State, name: string): State
  {
    if Some(name) != s.lastFile then State(None, Some(name)) else s
  }

  /** Only a clean response is stored; alerts leave the state alone. */
  function AfterAnalysis(s: State, call: CallOutcome): State
  {
    if call.Reply? && Classify(call.content) == Clean then s.(result := Some(call.content)) else s
  }

  /** The "Clear Results" button. */
  function AfterClear(s: State): State
  {
    s.(result := None)
  }

  /** The bottom of the page: the stored report, the upload prompt, or nothing. */
  datatype Pane = ResultPane(report: string) | UploadPrompt | NoPane

  /**
   * The report is shown exactly when the stored result is truthy, and it is
   * the stored text; the upload prompt appears exactly when there is no
   * report and no file is uploaded.
   */
  function PaneFor(s: State, uploaded: bool): (p: Pane)
    ensures p.ResultPane? <==> Displayable(s)
    ensures p.ResultPane? ==> s.result == Some(p.report)
    ensures p == UploadPrompt <==> !Displayable(s) && !uploaded
  {
    if Displayable(s) then ResultPane(s.result.value)
    else if !uploaded then UploadPrompt
    else NoPane
  }

  /**
   * The inputs of one run of the script: the selected mode, the file in the
   * uploader (by name), whether the analyse button and the clear button were
   * clicked, and what the external model call yields if it is made.
   */
  datatype Interaction = Interaction(mode: string, upload: Option<string>, analyze: bool, call: CallOutcome, clear: bool)

  /**
   * What one run shows: whether the file-name tip appears, the query built
   * for the model call (present whenever the analyse button is handled), the
   * error banner and its text, the pane, and whether the run ends by asking
   * for a rerun after clearing.
   */
  datatype Page = Page(tip: bool, sent: Option<string>, alert: Option<Alert>, banner: Option<string>, pane: Pane, rerun: bool)

  /** The text of the banner shown, if any. */
  function BannerText(alert: Option<Alert>): Option<string>
  {
    match alert
    case None => None
    case Some(a) => Some(Message(a))
  }

  /** The state after the upload block of a run, before the result pane. */
  function Processed(s: State, ev: Interaction): State
  {
    match ev.upload
    case None => s
    case Some(name) =>
      var t := AfterUpload(s, name);
      if ev.analyze then AfterAnalysis(t, ev.call) else t
  }

  /** The state at the end of a run. */
  function RunState(s: State, ev: Interaction): State
  {
    var t := Processed(s, ev);
    if Displayable(t) && ev.clear then AfterClear(t) else t
  }

  /** The page a run shows. */
  function RunPage(s: State, ev: Interaction): Page
  {
    var t := Processed(s, ev);
    var analyzing := ev.upload.Some? && ev.analyze;
    var alert := if analyzing then AlertFor(ev.call) else None;
    Page(ev.upload.Some? && ShowTip(ev.upload.value),
         if analyzing then Some(BuildQuery(ev.mode)) else None,
         alert,
         BannerText(alert),
         PaneFor(t, ev.upload.Some?),
         Displayable(t) && ev.clear)
  }

  class Session {
    var analysisResult: Option<string>
    var lastFileName: Option<string>

    /** The two fields as a value. */
    function Snapshot(): State
      reads this
    {
      State(analysisResult, lastFileName)
    }

    predicate Valid()
      reads this
    {
      Inv(Snapshot())
    }

    /** The first run of a session initialises both fields to None. */
    constructor ()
      ensures Valid() && Snapshot() == Initial
    {
      analysisResult := None;
      lastFileName := None;
    }

    method Upload(name: string)
      requires Valid()
      modifies this
      ensures Valid() && Snapshot() == AfterUpload(old(Snapshot()), name)
    {
      if Some(name) != lastFileName {
        analysisResult := None;
        lastFileName := Some(name);
      }
    }

    /** Handles the outcome of the model call; reachable only after an upload in the same run. */
    method Analyze(call: CallOutcome) returns (alert: Option<Alert>)
      requires Valid() && lastFileName.Some?
      modifies this
      ensures Valid() && Snapshot() == AfterAnalysis(old(Snapshot()), call)
      ensures alert == AlertFor(call)
    {
      match call
      case Reply(text) =>
        var verdict := Classify(text);
        if verdict == RateLimited {
          alert := Some(RateLimitAlert(ResponsePath));
        } else if verdict == NotFound {
          alert := Some(NotFoundAlert(ResponsePath));
        } else {
          analysisResult := Some(text);
          alert := None;
        }
      case Raised(error) =>
        var verdict := Classify(error);
        if verdict == RateLimited {
          alert := Some(RateLimitAlert(ExceptionPath));
        } else if verdict == NotFound {
          alert := Some(NotFoundAlert(ExceptionPath));
        } else {
          alert := Some(TechnicalAlert(error));
        }
    }

    method Clear()
      requires Valid()
      modifies this
      ensures Valid() && Snapshot() == AfterClear(old(Snapshot()))
    {
      analysisResult := None;
    }

    /** One run of the page script. */
    method Run(ev: Interaction) returns (page: Page)
      requires Valid()
      modifies this
      ensures Valid() && Snapshot() == RunState(old(Snapshot()), ev)
      ensures page == RunPage(old(Snapshot()), ev)
    {
      var query := BuildQuery(ev.mode);
      var tip, sent, alert := false, None, None;
      if ev.upload.Some? {
        var name := ev.upload.value;
        Upload(name);
        tip := ShowTip(name);
        if ev.analyze {
          sent := Some(query);
          alert := Analyze(ev.call);
        }
      }
      var pane := PaneFor(Snapshot(), ev.upload.Some?);
      var rerun := false;
      if pane.ResultPane? && ev.clear {
        Clear();
        rerun := true;
      }
      page := Page(tip, sent, alert, BannerText(alert), pane, rerun);
    }
  }

  /** A new file name drops the stored result and records the name. */
  lemma UploadNewName(s: State, name: string)
    requires Some(name) != s.lastFile
    ensures AfterUpload(s, name) == State(None, Some(name))
  {
  }

  /** Re-uploading the recorded name changes nothing. */
  lemma UploadSameName(s: State, name: string)
    requires s.lastFile == Some(name)
    ensures AfterUpload(s, name) == s
  {
  }

  /** Uploading the same name twice is uploading it once. */
  lemma UploadIdempotent(s: State, name: string)
    ensures AfterUpload(AfterUpload(s, name), name) == AfterUpload(s, name)
  {
  }

  /**
   * The analysis keeps the file name, and sets the result, to exactly the
   * response text, only when that text holds neither error code.
   */
  lemma AnalysisStoresOnlyClean(s: State, call: CallOutcome)
    ensures AfterAnalysis(s, call).lastFile == s.lastFile
    ensures call.Reply? && !Occurs(RateLimitCode, call.content) && !Occurs(NotFoundCode, call.content)
      ==> AfterAnalysis(s, call).result == Some(call.content)
    ensures !(call.Reply? && !Occurs(RateLimitCode, call.content) && !Occurs(NotFoundCode, call.content))
      ==> AfterAnalysis(s, call) == s
  {
  }

  /** Every analysis either stores the response or shows a banner, never both. */
  lemma StoreOrAlert(s: State, call: CallOutcome)
    ensures AlertFor(call).None? <==> call.Reply? && Classify(call.content) == Clean
    ensures AlertFor(call).Some? ==> AfterAnalysis(s, call) == s
    ensures AlertFor(call).None? ==> AfterAnalysis(s, call).result == Some(call.content)
  {
  }

  /** Clearing drops the result, keeps the file name, and brings back the upload prompt once no file is uploaded. */
  lemma ClearKeepsFile(s: State)
    ensures AfterClear(s).result == None && AfterClear(s).lastFile == s.lastFile
    ensures PaneFor(AfterClear(s), false) == UploadPrompt
    ensures PaneFor(AfterClear(s), true) == NoPane
  {
  }

  /** Each event keeps the invariant; the analysis needs a recorded file name. */
  lemma EventsKeepInv(s: State, name: string, call: CallOutcome)
    requires Inv(s)
    ensures Inv(AfterUpload(s, name))
    ensures Inv(AfterClear(s))
    ensures s.lastFile.Some? ==> Inv(AfterAnalysis(s, call))
  {
  }

  /** A whole run keeps the invariant. */
  lemma RunKeepsInv(s: State, ev: Interaction)
    requires Inv(s)
    ensures Inv(RunState(s, ev))
  {
  }

  /** A displayed report never contains either error code. */
  lemma ShownReportIsClean(s: State, uploaded: bool)
    requires Inv(s) && PaneFor(s, uploaded).ResultPane?
    ensures !Occurs(RateLimitCode, PaneFor(s, uploaded).report)
    ensures !Occurs(NotFoundCode, PaneFor(s, uploaded).report)
  {
  }

  /** Without a file in the uploader, only the clear button can change the state, and nothing is sent. */
  lemma NoUploadTouchesNothing(s: State, ev: Interaction)
    requires ev.upload.None?
    ensures RunState(s, ev) == if Displayable(s) && ev.clear then AfterClear(s) else s
    ensures !RunPage(s, ev).tip && RunPage(s, ev).sent.None? && RunPage(s, ev).alert.None?
    ensures RunPage(s, ev).pane == if Displayable(s) then ResultPane(s.result.value) else UploadPrompt
  {
  }

  /** After a run with a newly named file, any stored result is the response of that same run. */
  lemma NewFileDropsOldResult(s: State, ev: Interaction)
    requires ev.upload.Some? && Some(ev.upload.value) != s.lastFile
    ensures RunState(s, ev).lastFile == ev.upload
    ensures RunState(s, ev).result.Some? ==> ev.analyze && ev.call.Reply? && RunState(s, ev).result == Some(ev.call.content)
  {
  }

  /**
   * An analysed exception whose text holds neither code shows the generic
   * banner, whose text ends with the raw error; the coded banners show fixed
   * texts that depend only on the path.
   */
  lemma BannerShown(s: State, ev: Interaction)
    requires ev.upload.Some? && ev.analyze
    ensures ev.call.Raised? && Classify(ev.call.error) == Clean ==>
      && RunPage(s, ev).banner.Some?
      && var b := RunPage(s, ev).banner.value;
         |ev.call.error| <= |b| && b[|b| - |ev.call.error|..] == ev.call.error
    ensures RunPage(s, ev).banner.None? <==> ev.call.Reply? && Classify(ev.call.content) == Clean
  {
  }

  /** The query built for the model call is the base query plus the suffix of the selected mode, and it is built only when an uploaded file is analysed. */
  lemma SentQuery(s: State, ev: Interaction)
    ensures RunPage(s, ev).sent.Some? <==> ev.upload.Some? && ev.analyze
    ensures RunPage(s, ev).sent.Some? ==> BaseQuery <= RunPage(s, ev).sent.value
    ensures RunPage(s, ev).sent.Some? ==> (EndsWith(RunPage(s, ev).sent.value, ClinicalSuffix) <==> ev.mode == ClinicalMode)
    ensures RunPage(s, ev).sent.Some? ==> (EndsWith(RunPage(s, ev).sent.value, LaySuffix) <==> ev.mode != ClinicalMode)
    ensures RunPage(s, ev).sent.Some? ==>
      RunPage(s, ev).sent.value == BaseQuery + (if ev.mode == ClinicalMode then ClinicalSuffix else LaySuffix)
  {
    if RunPage(s, ev).sent.Some? {
      QuerySplits(ev.mode);
    }
  }

  /** An empty response is stored but, being falsy, is not shown. */
  lemma EmptyReportNotShown(s: State, name: string)
    requires s.lastFile == Some(name)
    ensures AfterAnalysis(s, Reply("")).result == Some("")
    ensures PaneFor(AfterAnalysis(s, Reply("")), true) == NoPane
  {
    MissingChar(RateLimitCode, "", 0);
    MissingChar(NotFoundCode, "", 0);
  }

  /**
   * A user uploads a file and analyses it; the clean report is stored and
   * shown. Clearing keeps the file in the uploader, so the page then shows
   * neither report nor upload prompt until the file is removed.
   */
  lemma AnalyseThenClear(mode: string, name: string, report: string, other: CallOutcome)
    requires Classify(report) == Clean && report != ""
    ensures var e1 := Interaction(mode, Some(name), true, Reply(report), false);
            var s1 := RunState(Initial, e1);
            var e2 := Interaction(mode, Some(name), false, other, true);
            var s2 := RunState(s1, e2);
            var e3 := Interaction(mode, None, false, other, false);
            && s1 == State(Some(report), Some(name))
            && RunPage(Initial, e1).pane == ResultPane(report)
            && RunPage(Initial, e1).alert == None
            && s2 == State(None, Some(name))
            && RunPage(s1, e2).rerun
            && PaneFor(s2, true) == NoPane
            && RunPage(s2, e3).pane == UploadPrompt
  {
  }

  /** The file name of the walkthrough, scan1.png, suppresses the tip. */
  lemma ScanFileNoTip()
    ensures !ShowTip("scan1.png")
  {
    assert "" + Keywords[5] + "1.png" == "scan1.png";
    KeywordSuppressesTip("", 5, "1.png");
  }
}
