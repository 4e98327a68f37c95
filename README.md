# Medical image analysis page: a Dafny model of its decision core

The original program is a single Streamlit page (`app.py`). A user picks an
explanation mode, uploads a medical image, and asks an external multimodal
model (Gemini, through the `agno` agent library) to analyse it. The page
then shows the returned report. Around the UI and network glue sits a small
decision core, and this project models it:

- **Prompt** (`prompt.dfy`): the query is the fixed base instruction
  followed by one of two suffixes. The clinical suffix is used when the mode
  is "Tenaga Medis", the plain-language suffix for any other mode.
- **FileHint** (`filehint.dfy`): the uploaded file name is lower-cased and
  checked against seven imaging keywords by substring. When none occurs, an
  informational tip is shown.
- **Classifier** (`classifier.dfy`): the text of the model's response, or of
  the exception it raised, is sorted into rate-limited ("429"), not-found
  ("404", and no "429") or clean. Each case selects a banner. A clean
  exception gets the generic technical banner with the raw error text.
- **Session** (`session.dfy`): the two session-state fields
  `analysis_result` and `last_file_name`, and one run of the page script.
  The fields are held by the class `Session.Session`. Its methods `Upload`,
  `Analyze`, `Clear` and `Run` update them in place. Each method
  is proved to match a pure function on the `State` datatype, and the
  properties are lemmas about those functions.
- **Text** (`text.dfy`): Python's substring test `k in s`, proved equal to
  "k occurs at some position of s", and ASCII lower-casing.
- **Wrappers** (`wrappers.dfy`): `Option`, standing for Python's `None` or a
  value.

The model follows the code where the code and the app's intended behaviour
differ:

- After "Clear Results", the upload prompt comes back only once the file is
  removed from the uploader (`app.py:147-149`). While the file stays
  uploaded, the page shows neither report nor prompt.
  `Session.AnalyseThenClear` states this.
- The temporary image is meant to be removed after every analysis. The code
  removes it only on the path without an exception (`app.py:122-124`, no
  `finally`). The model makes no claim about clean-up (see Left out).

## Model

| member | source | states |
|---|---|---|
| `Text.ContainsOccurs` | app.py:96 | The left-to-right substring scan succeeds exactly when the keyword occurs at some position of the text, which is the meaning of Python's `k in s`. |
| `Text.LowerChar` | app.py:94 | An ASCII capital becomes the letter 32 code points higher, every other character stays, and the result is never a capital. |
| `Text.Lower` | app.py:94 | The lower-cased name has the same length, holds no ASCII capital, lower-cases each character in place, and a name without capitals comes back unchanged. |
| `Text.LowerIdempotent` | app.py:94 | Lower-casing an already lower-cased file name changes nothing. |
| `Prompt.SuffixesExclusive` | app.py:74 | No string ends with both the clinical and the plain-language suffix. |
| `Prompt.BuildQuery` | app.py:74 | The query starts with the base query verbatim. It ends with the clinical suffix exactly when the mode is "Tenaga Medis", and with the plain-language suffix exactly when it is any other mode. |
| `Prompt.QuerySplits` | app.py:74 | After the base query, the query is exactly the suffix of the mode. |
| `Prompt.QueryDeterminesAudience` | app.py:74 | Two modes give the same query if and only if both or neither are "Tenaga Medis". |
| `Prompt.RadioOptionsDiffer` | app.py:73-74 | The two radio options produce different queries, each ending with its own suffix. |
| `FileHint.AnyKeywordOccurs` | app.py:96 | The `any(...)` scan over the keyword list succeeds exactly when some keyword occurs in the name. |
| `FileHint.ShowTip` | app.py:94-97 | The tip is shown exactly when none of the seven keywords occurs as a substring of the lower-cased file name. |
| `FileHint.TipIgnoresCase` | app.py:94 | Lower-casing the name first does not change whether the tip is shown. |
| `FileHint.KeywordSuppressesTip` | app.py:95-96 | Any name holding a keyword anywhere, even inside a longer word, gets no tip. |
| `FileHint.SubstringNotWord` | app.py:95-96 | "doctor.png" gets no tip, because it contains "ct". |
| `FileHint.UpperCaseKeyword` | app.py:94-96 | "CHEST_XRAY.PNG" gets no tip, because matching is done on the lower-cased name. |
| `FileHint.PlainNameGetsTip` | app.py:96-97 | "photo.png" holds no keyword and gets the tip. |
| `Classifier.Classify` | app.py:115-119 | Rate-limited exactly when the text contains "429". Not-found exactly when it contains "404" and not "429". Clean exactly when it contains neither. |
| `Classifier.AlertFor` | app.py:114-133 | A text containing "429" gets the rate-limit banner of its own path. A text containing "404" but not "429" gets the not-found banner of its own path. No banner exactly when the response text is clean. The generic technical banner appears exactly when an exception's text is clean, and it carries that text. |
| `Classifier.Message` | app.py:116-133 | The generic technical banner ends with the raw error text it reports (the coded banners are fixed texts chosen by `AlertFor`). |
| `Classifier.RateLimitWins` | app.py:115-131 | A text with both codes gives the rate-limit banner on the response path and on the exception path. |
| `Classifier.PathsAgree` | app.py:114-133 | The same text gets the same kind of banner on both paths, and a clean text gives no banner as a response but the technical banner as an exception. |
| `Classifier.CodedBannersIgnoreText` | app.py:115-131 | The two coded banners do not depend on the raw text, so the raw text is never shown in them. |
| `Classifier.BothCodesExample` | app.py:115-116 | An error text naming both 429 and 404 is rate-limited. |
| `Classifier.NotFoundExample` | app.py:117-118 | An error text naming only 404 is not-found. |
| `Classifier.CleanExample` | app.py:119 | A report with neither code is clean. |
| `Session.PaneFor` | app.py:138-149 | The report pane is shown exactly when the stored result is truthy (present and non-empty), and it shows that text. The upload prompt appears exactly when there is no report and no file is uploaded. |
| `Session.Session.constructor` | app.py:65-68 | A new session has both fields set to None, and the session invariant holds. |
| `Session.Session.Upload` | app.py:86-88 | A different name clears the result and records the name. The same name leaves both fields as they were. The invariant is kept. |
| `Session.Session.Analyze` | app.py:102-133 | The fields change only as `AfterAnalysis` says: a clean response is stored, and nothing else is. The banner returned is the one `AlertFor` selects. The invariant is kept. |
| `Session.Session.Clear` | app.py:144-145 | The result becomes None and the file name is kept. |
| `Session.Session.Run` | app.py:73-149 | One run of the script moves the fields as `RunState` says and shows the page `RunPage` describes. The invariant is kept. |
| `Session.UploadNewName` | app.py:86-88 | Uploading a name other than the recorded one gives an empty result and records the new name. |
| `Session.UploadSameName` | app.py:86 | Re-uploading the recorded name leaves both fields unchanged. |
| `Session.UploadIdempotent` | app.py:86-88 | Uploading the same name twice has the effect of uploading it once. |
| `Session.AnalysisStoresOnlyClean` | app.py:114-120 | The analysis never changes the file name. It sets the result to exactly the response text when that text has neither code, and otherwise leaves the state unchanged, on every exception path too. |
| `Session.StoreOrAlert` | app.py:114-133 | Each analysis either stores the response or shows a banner, never both. A banner always leaves the state unchanged. |
| `Session.ClearKeepsFile` | app.py:144-149 | Clearing drops the result and keeps the file name. The upload prompt comes back when no file is uploaded, and no pane is shown while a file stays. |
| `Session.EventsKeepInv` | app.py:86-145 | Upload, clear and (with a recorded file) analysis keep the invariant. The invariant: a stored result implies a recorded file name, and a stored result holds no error code. |
| `Session.RunKeepsInv` | app.py:84-149 | A whole run keeps the invariant. |
| `Session.ShownReportIsClean` | app.py:115-141 | A displayed report never contains "429" or "404". |
| `Session.NoUploadTouchesNothing` | app.py:84-149 | With no file uploaded, no tip, no query and no banner appear. Only the clear button can change the state. The pane is the stored report or the upload prompt. |
| `Session.NewFileDropsOldResult` | app.py:86-120 | After a run with a newly named file, the name is recorded. Any stored result is the response of that same run, never one from an earlier file. |
| `Session.SentQuery` | app.py:74-111 | The query built for the model call is present exactly when an uploaded file is analysed. It is the base query followed directly by the clinical suffix when the mode is "Tenaga Medis" and by the plain-language suffix otherwise. |
| `Session.BannerShown` | app.py:114-133 | After an analysis, no banner text is shown exactly when the response is clean. An exception whose text holds neither code shows a banner whose text ends with the raw error. |
| `Session.EmptyReportNotShown` | app.py:119-138 | An empty response is stored but is falsy, so no report is shown. |
| `Session.AnalyseThenClear` | app.py:84-149 | Upload, analyse, clear, then remove the file: the clean report is stored and shown. Clearing keeps the name and shows no pane while the file stays. The upload prompt returns once the file is gone. |
| `Session.ScanFileNoTip` | app.py:94-97 | "scan1.png" contains "scan" and gets no tip. |

## Left out

- Streamlit rendering is left out: title, warning, image preview, spinner, divider and markdown rendering. The model only says which tip, banner and pane a run selects. `Classifier.Message` keeps the banner texts; the wording of the tip and of the upload prompt is not kept.
- `st.rerun()` is reduced to the `rerun` flag of a page. The rerun itself is the next call of `Session.Session.Run`.
- Loading the API key (`load_dotenv`, `os.getenv`) and the `st.stop()` halt when it is missing (`app.py:16-21`) are environment I/O and are left out. Every run is modelled as if the key is present.
- The `agno` agent and the Gemini call (`app.py:26-32`, `app.py:111`) are a foreign network client. Their result is the `CallOutcome` input: `Reply` carries the text `str(response.content)`, and `Raised` carries the text `str(e)`.
- PIL decoding, saving the temporary image and removing it (`app.py:104-106`, `app.py:122-124`) are file-system I/O and are left out. The code removes the file only when no exception is raised, so the model makes no clean-up claim.
- Session.Session.Analyze: an exception raised after a clean response has been stored (from `os.path.exists` or `os.remove`, `app.py:123-124`) would show the technical banner with the result already stored. The model treats every exception as raised before classification, so an exception never changes the state.
- Text.LowerChar, Text.Lower, FileHint.ShowTip: lower-case ASCII letters only. Python's Unicode `str.lower()` on other letters is not modelled, and it can change the length of a name ("MRİ.png" has 7 characters, its Python lower-case 8), so the same-length clause of `Text.Lower` holds only for this ASCII model.
- Session.SentQuery: `sent` is the query built for the call, not proof that the call was made. A failure of PIL decoding or saving (`app.py:105-106`) comes before the call at `app.py:111` and sends nothing; the model folds it into the `Raised` outcome while `sent` still holds the query.
- The two buttons are modelled as independent inputs of a run. Streamlit reports at most one click per run, and the model does not rely on that.
