/**
 The report triage of the `analyze` route in app.py: the report type is
 chosen from keyword lists tested in a fixed order (MRI, then ECG, then
 EEG, else lab), the matching analyser runs, and the page shows the type,
 the summary lines joined by newlines, the status and the chart rows.
 */
module Router {
  import opened Text
  import opened Report
  import opened Sentences
  import opened SentenceFacts
  import opened Analyzers

  const MriKeywords: seq<string> := ["mri", "hippocampi", "ventricles", "atrophy"]
  const EcgKeywords: seq<string> := ["ecg", "qrs", "t wave", "heart rate"]
  const EegKeywords: seq<string> := ["eeg", "spikes", "alpha", "electroencephalogram"]

  /** Some keyword of `ks` occurs in the lower-cased text. */
  ghost predicate MentionsAny(text: string, ks: seq<string>) {
    exists j :: 0 <= j < |ks| && Mentions(text, ks[j])
  }

  /** The report type: the first keyword list, in the order MRI, ECG, EEG,
      with a keyword in the lower-cased text; "Lab Report" when none has. */
  function DetectType(text: string): (t: ReportType)
    ensures t == Mri <==> MentionsAny(text, MriKeywords)
    ensures t == Ecg <==> !MentionsAny(text, MriKeywords) && MentionsAny(text, EcgKeywords)
    ensures t == Eeg <==>
              !MentionsAny(text, MriKeywords) && !MentionsAny(text, EcgKeywords)
              && MentionsAny(text, EegKeywords)
    ensures t == Lab <==>
              !MentionsAny(text, MriKeywords) && !MentionsAny(text, EcgKeywords)
              && !MentionsAny(text, EegKeywords)
  {
    var lowered := Lower(text);
    if ContainsAny(lowered, MriKeywords) then Mri
    else if ContainsAny(lowered, EcgKeywords) then Ecg
    else if ContainsAny(lowered, EegKeywords) then Eeg
    else Lab
  }

  /** The analyser the route calls for a report type. */
  function RunAnalyser(t: ReportType, text: string): (a: Analysis)
    ensures "Type" in a.extracted <==> t != Lab
    ensures t != Lab ==> a.extracted == TypeOnly(t) && a.chart == []
    ensures t == Lab ==> a == AnalyzeLab("")
    ensures 1 <= |a.summary| <= 2
    ensures forall j :: 0 <= j < |a.summary| ==> IsLine(a.summary[j])
  {
    SentencesAreLines();
    LabIgnoresText(text, "");
    match t
    case Mri => AnalyzeMri(text)
    case Ecg => AnalyzeEcg(text)
    case Eeg => AnalyzeEeg(text)
    case Lab => AnalyzeLab(text)
  }

  /** What the result page is rendered with: the report type's name, the
      summary text, the status word and the chart rows. */
  datatype Page = Page(reportType: string, summaryText: string, status: string, chart: seq<ChartRow>)

  /** The triage outcome is "normal": an MRI report with at most one of
      the two findings, an ECG report without ischemic keywords, or an EEG
      report whose only match is "alpha". */
  ghost predicate ReadsNormal(text: string) {
    || (DetectType(text) == Mri && !(Mentions(text, "hippocampi") && Mentions(text, "ventricles")))
    || (DetectType(text) == Ecg && !Mentions(text, "t wave inversion") && !Mentions(text, "st depression"))
    || (DetectType(text) == Eeg && !Mentions(text, "spike") && !Mentions(text, "epileptiform")
        && Mentions(text, "alpha"))
  }

  /** Lines 102-115 of the route and the values it renders: the detected
      type, the chosen analyser's summary joined by newlines, its status
      and its chart rows. */
  function Analyze(text: string): (p: Page)
    ensures p.reportType == TypeName(DetectType(text))
    ensures p.chart == [] <==> p.reportType != "Lab Report"
    ensures p.reportType == "Lab Report" ==> p.summaryText == LowHemoglobinLine && p.status == "attention"
  {
    var t := DetectType(text);
    var a := RunAnalyser(t, text);
    Page(TypeName(t), Join(a.summary), StatusName(a.status), a.chart)
  }

  /** The name the page shows determines the report type: two texts get
      the same name exactly when they are routed to the same analyser. */
  lemma PageNameDeterminesType(a: string, b: string)
    ensures Analyze(a).reportType == Analyze(b).reportType <==> DetectType(a) == DetectType(b)
  {
    TypeNameInjective(DetectType(a), DetectType(b));
  }

  /** The page's summary text splits back into the chosen analyser's
      summary lines. */
  lemma SummaryTextKeepsLines(text: string)
    ensures Split(Analyze(text).summaryText) == RunAnalyser(DetectType(text), text).summary
  {
    SplitJoin(RunAnalyser(DetectType(text), text).summary);
  }

  /** The page reads "normal" exactly in the three cases of ReadsNormal. */
  lemma StatusReadsNormal(text: string)
    ensures Analyze(text).status == "normal" <==> ReadsNormal(text)
  {
  }

  /** Routing reads the text only through its lower-cased form. */
  lemma DetectTypeIgnoresCase(a: string, b: string)
    requires SameIgnoringCase(a, b)
    ensures DetectType(a) == DetectType(b)
  {
    SameIgnoringCaseLower(a, b);
  }

  /** Each analyser reads the text only through its lower-cased form. */
  lemma RunAnalyserIgnoresCase(t: ReportType, a: string, b: string)
    requires SameIgnoringCase(a, b)
    ensures RunAnalyser(t, a) == RunAnalyser(t, b)
  {
    SameIgnoringCaseLower(a, b);
  }

  /** The triage depends on the text only up to letter case. */
  lemma AnalyzeIgnoresCase(a: string, b: string)
    requires SameIgnoringCase(a, b)
    ensures Analyze(a) == Analyze(b)
  {
    DetectTypeIgnoresCase(a, b);
    RunAnalyserIgnoresCase(DetectType(a), a, b);
  }

  /** In particular, upper-casing a report does not change its triage. */
  lemma AnalyzeIgnoresUpperCase(text: string)
    ensures Analyze(Upper(text)) == Analyze(text)
  {
    CaseChangesAreCaseOnly(text);
    AnalyzeIgnoresCase(Upper(text), text);
  }

  /** Every text routed to the lab analyser gets the same page. */
  lemma LabPageIsConstant(a: string, b: string)
    requires DetectType(a) == Lab && DetectType(b) == Lab
    ensures Analyze(a) == Analyze(b)
  {
  }

  /** An MRI report naming exactly one of the two findings reads "normal". */
  lemma SingleMriFindingReadsNormal(text: string)
    requires Mentions(text, "hippocampi") != Mentions(text, "ventricles")
    ensures Analyze(text).reportType == "MRI Report"
    ensures Analyze(text).status == "normal"
    ensures |Split(Analyze(text).summaryText)| == 1
  {
    assert MriKeywords[1] == "hippocampi" && MriKeywords[2] == "ventricles";
    SummaryTextKeepsLines(text);
  }

  /** "t wave inversion" contains the ECG keyword "t wave", so a report with
      it and no MRI keyword is an ECG report and needs attention. */
  lemma TWaveInversionNeedsAttention(text: string)
    requires Mentions(text, "t wave inversion")
    requires !MentionsAny(text, MriKeywords)
    ensures Analyze(text).reportType == "ECG Report"
    ensures Analyze(text).status == "attention"
  {
    OccursPrefix(Lower(text), "t wave inversion", "t wave");
    assert EcgKeywords[2] == "t wave";
  }

  /** "spikes" is an EEG keyword that contains "spike", so a report with
      it and no MRI or ECG keyword is an EEG report that needs attention. */
  lemma EegSpikesNeedAttention(text: string)
    requires Mentions(text, "spikes")
    requires !MentionsAny(text, MriKeywords) && !MentionsAny(text, EcgKeywords)
    ensures Analyze(text).reportType == "EEG Report"
    ensures Analyze(text).status == "attention"
  {
    assert EegKeywords[1] == "spikes";
    OccursPrefix(Lower(text), "spikes", "spike");
  }

  /** An EEG report that names none of "spike", "epileptiform" and "alpha"
      gets the fallback sentence, which says "abnormalities", and so needs
      attention although the sentence calls the EEG normal. */
  lemma EegFallbackNeedsAttention(text: string)
    requires !MentionsAny(text, MriKeywords) && !MentionsAny(text, EcgKeywords)
    requires MentionsAny(text, EegKeywords)
    requires !Mentions(text, "spike") && !Mentions(text, "epileptiform") && !Mentions(text, "alpha")
    ensures Analyze(text).summaryText == EegDefaultLine
    ensures Analyze(text).status == "attention"
  {
  }
}
