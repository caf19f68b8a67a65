# Report triage of the lab-report digitiser

The web application takes an uploaded lab, MRI, ECG or EEG report,
reads its text by OCR and shows a triage page. The only logic in it is the
keyword triage of that text, and this project models that triage in Dafny:

- the router of the `analyze` route. It lower-cases the text and tests
  three keyword lists in a fixed order: MRI (`mri`, `hippocampi`,
  `ventricles`, `atrophy`), then ECG (`ecg`, `qrs`, `t wave`,
  `heart rate`), then EEG (`eeg`, `spikes`, `alpha`,
  `electroencephalogram`). If no list matches, the type is "Lab Report".
- the four analysers. Each returns the extracted fields, the summary text,
  an overall status (`attention` or `normal`) and the chart rows. The
  source joins the summary lines with newlines inside each analyser. The
  model keeps the lines in the analyser result and joins them when the page
  is built (`Router.Analyze`). `Text.SplitJoin` proves that splitting the
  joined text gives the lines back, so nothing is lost.
  - `analyze_lab_report` uses a constant table and one hemoglobin
    threshold test.
  - `analyze_mri_report`, `analyze_ecg_report` and `analyze_eeg_report`
    choose fixed sentences by keyword.
- the page values the route renders. These are the report type's name
  ("MRI Report" and so on), the summary lines joined by newlines, the status
  word and the chart rows.

The modules:

- `Text` (text.dfy) holds ASCII lower-casing and substring search. It gives
  Python's `k in s` both as a recursive scan (`Contains`) and as a
  specification (`Occurs`: some suffix of `s` starts with `k`). It also
  holds `"\n".join` and the matching split.
- `Report` (report.dfy) holds the report type, the status, the extracted
  field values, the chart rows and the analyser result.
- `Sentences` and `SentenceFacts` (sentences.dfy) hold the eleven fixed
  sentences, copied character for character, and the facts about their
  characters that the status tests depend on.
- `Analyzers` (analyzers.dfy) holds the four analysers.
- `Router` (router.dfy) holds type detection, dispatch, the rendered page
  and the properties of the whole triage.

The status of each analyser is computed the way the source computes it.
The lab status tests for "low" in the lower-cased summary text. The MRI
status tests whether there is more than one line. The ECG status tests for
"possible" in the sentence, and the EEG status tests for "abnormal" in the
sentence. The contracts then say what this means in terms of the input
keywords. For example, the EEG fallback sentence "no clear abnormalities"
contains "abnormal", so only the alpha-rhythm branch reads "normal". An
MRI report that names only one of the two findings reads "normal".

The routing order modelled is the code's: MRI before ECG before EEG.

## Model

| member | source | states |
|---|---|---|
| Text.Lower | app.py:102 | An ASCII model of `str.lower()`. The length is kept, each of `A`-`Z` becomes its lower-case letter, and every other character is unchanged. |
| Text.Contains | app.py:48 | The left-to-right scan for a key answers true exactly when the key occurs at some position of the string, which is Python's `in`. |
| Text.ContainsAny | app.py:105 | `any(word in lowered for word in list)` is true exactly when some keyword of the list occurs in the text. |
| Text.CaseChangesAreCaseOnly | app.py:102 | ASCII upper- and lower-casing change a string only in ASCII letter case, and lower-casing is idempotent. |
| Text.SameIgnoringCaseLower | app.py:102 | Two texts that differ only in ASCII letter case have the same lower-cased form, which is all the triage reads. |
| Text.Join | app.py:33 | `"\n".join(lines)`: the first line is a prefix of the joined text. `Text.SplitJoin` is its inverse on newline-free lines. |
| Text.SplitJoin | app.py:33 | Splitting the newline-joined summary text on newlines gives back the summary lines when no line holds a newline, so the rendered text loses no line. |
| Report.TypeName | app.py:103-112 | The four names the route renders, one per report type. The name is "Lab Report", the route's default, exactly for the lab type. `Report.TypeNameInjective` is its partner. |
| Report.TypeNameInjective | app.py:103-112 | Distinct report types have distinct names, so the rendered name determines the type. |
| Report.StatusName | app.py:34 | The status word is "normal" exactly for the normal status and "attention" exactly for the attention status. |
| Report.TypeOnly | app.py:54 | The extracted dictionary of a non-lab analyser has the single key "Type", and its value is the report type's name. |
| SentenceFacts.LowHemoglobinSaysLow | app.py:28 | The lower-cased low-hemoglobin sentence contains "low". |
| SentenceFacts.LabNormalSaysNoLow | app.py:31 | The lower-cased all-normal lab sentence does not contain "low". |
| SentenceFacts.IschemicSaysPossible | app.py:60 | The ischemic ECG sentence contains "possible". |
| SentenceFacts.OtherEcgSaysNoPossible | app.py:62-64 | Neither the sinus-rhythm sentence nor the default ECG sentence contains "possible". |
| SentenceFacts.SpikeSaysAbnormal | app.py:71 | The spike EEG sentence contains "abnormal". |
| SentenceFacts.AlphaSaysNoAbnormal | app.py:73 | The alpha-rhythm EEG sentence does not contain "abnormal". |
| SentenceFacts.FallbackSaysAbnormal | app.py:75 | The fallback EEG sentence contains "abnormal", inside "abnormalities". |
| SentenceFacts.SentencesAreLines | app.py:28-75 | No summary sentence holds a newline. |
| Analyzers.LabVerdict | app.py:26-34 | There is exactly one summary line. It is the low-hemoglobin sentence exactly when hemoglobin is below 13.5, and otherwise the all-normal sentence. The status derived from "low" in the text is `attention` exactly when hemoglobin is below 13.5. |
| Analyzers.AnalyzeLab | app.py:18-43 | The extracted keys are Hemoglobin, Creatinine and Blood Urea. Because 12.0 < 13.5, the summary is always the low-hemoglobin sentence and the status always `attention`. There are three chart rows. Each row's value equals the extracted value under its name, and the Hemoglobin row's low bound is the threshold the summary uses. |
| Analyzers.LabIgnoresText | app.py:18-43 | The lab analyser returns the same result for every input text. |
| Analyzers.AnalyzeMri | app.py:46-54 | There are one or two lines. The hippocampi line is present exactly when "hippocampi" occurs, and the ventricles line exactly when "ventricles" occurs. When both are present the hippocampi line comes first. The normal line is the whole summary exactly when neither keyword occurs. The status is `attention` exactly when both keywords occur. Type is "MRI Report" and the chart is empty. |
| Analyzers.AnalyzeEcg | app.py:57-65 | There is exactly one line. It is the ischemic sentence exactly when "t wave inversion" or "st depression" occurs. It is the sinus sentence exactly when neither occurs and "sinus rhythm" does. Otherwise it is the default sentence. The status is `attention` exactly when the ischemic sentence was chosen. Type is "ECG Report" and the chart is empty. |
| Analyzers.AnalyzeEeg | app.py:68-76 | There is exactly one line. It is the spike sentence exactly when "spike" or "epileptiform" occurs. It is the alpha sentence exactly when neither occurs and "alpha" does. Otherwise it is the fallback sentence. The status is `normal` exactly when the alpha sentence was chosen. Type is "EEG Report" and the chart is empty. |
| Router.DetectType | app.py:102-113 | The type is MRI exactly when an MRI keyword occurs in the lower-cased text. It is ECG exactly when no MRI keyword occurs and an ECG keyword does. It is EEG exactly when only EEG keywords occur. It is Lab exactly when no keyword of any list occurs. |
| Router.RunAnalyser | app.py:105-115 | The dispatched analyser fills "Type" in the extracted fields exactly for the non-lab types, with that type's name. Non-lab types get an empty chart. The lab type gets the constant lab result. Every summary has one or two lines, none holding a newline. |
| Router.Analyze | app.py:102-123 | The page shows the detected type's name. The chart is empty exactly when that name is not "Lab Report". A lab page always shows the low-hemoglobin sentence with `attention`. |
| Router.PageNameDeterminesType | app.py:103-123 | Two texts get the same rendered type name exactly when they are routed to the same analyser. |
| Router.SummaryTextKeepsLines | app.py:102-123 | The page's summary text splits back into the chosen analyser's summary lines. |
| Router.StatusReadsNormal | app.py:102-123 | The status is `normal` exactly in three cases: an MRI report without both findings, an ECG report without ischemic keywords, or an EEG report whose only sentence keyword is "alpha". Every other report, every lab report included, gets `attention`. |
| Router.DetectTypeIgnoresCase | app.py:102-113 | Two texts that differ only in ASCII letter case get the same report type. |
| Router.RunAnalyserIgnoresCase | app.py:46-76 | Each analyser gives the same result for two texts that differ only in ASCII letter case. |
| Router.AnalyzeIgnoresCase | app.py:102-115 | Two texts that differ only in ASCII letter case get the same page. |
| Router.AnalyzeIgnoresUpperCase | app.py:102-115 | ASCII upper-casing a report does not change its page. |
| Router.LabPageIsConstant | app.py:114-115 | Every text routed to the lab analyser gets the same page. |
| Router.SingleMriFindingReadsNormal | app.py:47-54 | A text that names exactly one of "hippocampi" and "ventricles" is an MRI report with a one-line summary and status `normal`. |
| Router.TWaveInversionNeedsAttention | app.py:108-110 | A text with "t wave inversion" and no MRI keyword is an ECG report with status `attention`, because "t wave inversion" contains the ECG keyword "t wave". |
| Router.EegSpikesNeedAttention | app.py:111-113 | A text with "spikes" and no MRI or ECG keyword is an EEG report with status `attention`, because "spikes" contains the spike keyword "spike". |
| Router.EegFallbackNeedsAttention | app.py:74-76 | A text routed to EEG that has none of "spike", "epileptiform" or "alpha" shows the fallback sentence with status `attention`, although the sentence calls the EEG normal. |

## Left out

- The Flask application, its routes and the `render_template` calls (app.py:9, app.py:80-89, app.py:117-127). They are web I/O. The values passed to the template are modelled as `Router.Page`.
- The file-upload check that returns "No file uploaded!" with status 400 (app.py:87-89). It is request handling, not triage.
- PDF rasterisation, image decoding and Tesseract OCR (app.py:94-100). These are foreign library calls. The OCR text is the input of `Router.Analyze`.
- The uploads directory and the Tesseract executable path (app.py:10-14). They are filesystem configuration.
- Text.Lower: models `str.lower()` on ASCII only. Python also lower-cases non-ASCII capitals, some of them to ASCII letters, and a few change the string's length. So the routing differs for such input. In Python, "MRİ" lower-cases to "mri" followed by a combining dot, so it contains the keyword "mri" and is an MRI report; the model leaves "İ" unchanged and calls it a lab report. The Kelvin sign U+212A lower-cases to "k", so "SPI" + U+212A + "ES" is an EEG report in Python and not in the model. For the same reason the case-insensitivity lemmas hold for ASCII letter case only. Python's program is not case-insensitive for Unicode case: "mrı" with a dotless ı is a lab report, while its upper-case form "MRI" is an MRI report.
- Floating point. The lab values and chart bounds are modelled as reals. The one comparison, 12.0 < 13.5, gives the same answer in binary floating point. The chart's integer bounds 20 and 40 are written as 20.0 and 40.0.
- The extracted dictionary on the page. The route computes it but does not render it, so `Router.Page` omits it. `Router.RunAnalyser` states its contents.
- Numeric extraction from the text, a test catalogue, plausibility filtering and reference-range classification. The code has none of these: the lab values are hard-coded.
