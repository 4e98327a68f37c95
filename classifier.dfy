/**
 * Sorting the outcome of the model call. The same substring rule runs on the
 * text of a returned response and on the text of a raised exception: "429"
 * means the rate limit was hit, otherwise "404" means the model was not
 * found, otherwise the text is clean.
 */
module Classifier {
  import opened Wrappers
  import opened Text

  const RateLimitCode: string := "429"
  const NotFoundCode: string := "404"

  datatype Verdict = RateLimited | NotFound | Clean

  /** What the external model call produced: a response's text content, or the text of the exception it raised. */
  datatype CallOutcome = Reply(content: string) | Raised(error: string)

  /** Which of the two handlers raised an alert. */
  datatype Path = ResponsePath | ExceptionPath

  /** The error banner selected after an analysis. */
  datatype Alert = RateLimitAlert(path: Path) | NotFoundAlert(path: Path) | TechnicalAlert(detail: string)

  /** The rule shared by both paths, with "429" taking priority over "404". */
  function Classify(text: string): (v: Verdict)
    ensures v == RateLimited <==> Occurs(RateLimitCode, text)
    ensures v == NotFound <==> Occurs(NotFoundCode, text) && !Occurs(RateLimitCode, text)
    ensures v == Clean <==> !Occurs(RateLimitCode, text) && !Occurs(NotFoundCode, text)
  {
    ContainsOccurs(text, RateLimitCode);
    ContainsOccurs(text, NotFoundCode);
    if Contains(text, RateLimitCode) then RateLimited
    else if Contains(text, NotFoundCode) then NotFound
    else Clean
  }

  /**
   * The banner shown after the model call: an alert for either error code on
   * either path, a generic technical alert carrying the raw text for any other
   * exception, and no banner for a clean response.
   */
  function AlertFor(call: CallOutcome): (a: Option<Alert>)
    ensures a.None? <==> call.Reply? && Classify(call.content) == Clean
    ensures a.Some? && a.value.TechnicalAlert? <==> call.Raised? && Classify(call.error) == Clean
    ensures a.Some? && a.value.TechnicalAlert? ==> a.value.detail == call.error
    ensures call.Reply? && Occurs(RateLimitCode, call.content) ==> a == Some(RateLimitAlert(ResponsePath))
    ensures call.Reply? && Occurs(NotFoundCode, call.content) && !Occurs(RateLimitCode, call.content)
      ==> a == Some(NotFoundAlert(ResponsePath))
    ensures call.Raised? && Occurs(RateLimitCode, call.error) ==> a == Some(RateLimitAlert(ExceptionPath))
    ensures call.Raised? && Occurs(NotFoundCode, call.error) && !Occurs(RateLimitCode, call.error)
      ==> a == Some(NotFoundAlert(ExceptionPath))
  {
    match call
    case Reply(text) =>
      (match Classify(text)
       case RateLimited => Some(RateLimitAlert(ResponsePath))
       case NotFound => Some(NotFoundAlert(ResponsePath))
       case Clean => None)
    case Raised(text) =>
      match Classify(text)
      case RateLimited => Some(RateLimitAlert(ExceptionPath))
      case NotFound => Some(NotFoundAlert(ExceptionPath))
      case Clean => Some(TechnicalAlert(text))
  }

  /** The text of each banner; only the generic one repeats the raw error text, at its end. */
  function Message(a: Alert): (m: string)
    ensures a.TechnicalAlert? ==> |a.detail| <= |m| && m[|m| - |a.detail|..] == a.detail
  {
    match a
    case RateLimitAlert(ResponsePath) => "\U{1F6A8} Batas permintaan tercapai (Rate Limit). Tunggu 60 detik."
    case NotFoundAlert(ResponsePath) => "\U{1F6A8} Model AI tidak ditemukan (404). Coba ganti Model ID."
    case RateLimitAlert(ExceptionPath) => "\U{1F6A8} Terlalu banyak permintaan! Google membatasi akses gratis. Coba lagi dalam 1 menit."
    case NotFoundAlert(ExceptionPath) => "\U{274C} Model API tidak merespon (404). Pastikan library 'agno' terbaru."
    case TechnicalAlert(detail) => "\U{274C} Terjadi kesalahan teknis: " + detail
  }

  /** A text holding both codes is a rate-limit case, on either path. */
  lemma RateLimitWins(text: string)
    requires Occurs(RateLimitCode, text) && Occurs(NotFoundCode, text)
    ensures AlertFor(Reply(text)) == Some(RateLimitAlert(ResponsePath))
    ensures AlertFor(Raised(text)) == Some(RateLimitAlert(ExceptionPath))
  {
  }

  /**
   * Both paths classify a text the same way: for the same text, the response
   * path raises a coded alert exactly when the exception path raises the same
   * kind of alert.
   */
  lemma PathsAgree(text: string)
    ensures AlertFor(Reply(text)) == Some(RateLimitAlert(ResponsePath)) <==> AlertFor(Raised(text)) == Some(RateLimitAlert(ExceptionPath))
    ensures AlertFor(Reply(text)) == Some(NotFoundAlert(ResponsePath)) <==> AlertFor(Raised(text)) == Some(NotFoundAlert(ExceptionPath))
    ensures AlertFor(Reply(text)) == None <==> AlertFor(Raised(text)) == Some(TechnicalAlert(text))
  {
  }

  /** The two coded banners never show the raw text, so a distinct raw text cannot change them. */
  lemma CodedBannersIgnoreText(t1: string, t2: string, p: Path)
    requires Classify(t1) == Classify(t2) != Clean
    ensures AlertFor(if p == ResponsePath then Reply(t1) else Raised(t1)) == AlertFor(if p == ResponsePath then Reply(t2) else Raised(t2))
  {
  }

  /** An error text that names both codes is a rate-limit case. */
  lemma BothCodesExample()
    ensures Classify("Error " + RateLimitCode + ": quota exceeded (see " + NotFoundCode + " page)") == RateLimited
  {
    OccursBetween("Error ", RateLimitCode, ": quota exceeded (see " + NotFoundCode + " page)");
    assert "Error " + RateLimitCode + ": quota exceeded (see " + NotFoundCode + " page)"
      == "Error " + RateLimitCode + (": quota exceeded (see " + NotFoundCode + " page)");
  }

  /** An error text with only "404" is a not-found case. */
  lemma NotFoundExample()
    ensures Classify(NotFoundCode + " models/gemini not found") == NotFound
  {
    OccursBetween("", NotFoundCode, " models/gemini not found");
    assert "" + NotFoundCode + " models/gemini not found" == NotFoundCode + " models/gemini not found";
    MissingChar(RateLimitCode, NotFoundCode + " models/gemini not found", 1);
  }

  /** A report without either code is clean. */
  lemma CleanExample()
    ensures Classify("Diagnosis: no fracture") == Clean
  {
    MissingChar(RateLimitCode, "Diagnosis: no fracture", 0);
    MissingChar(NotFoundCode, "Diagnosis: no fracture", 0);
  }
}
