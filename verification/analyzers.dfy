/**
 The four per-category analysers of app.py: a constant lab table with one
 threshold test, and keyword-driven MRI, ECG and EEG summarisers that pick
 fixed sentences and derive the overall status from them.
 */
module Analyzers {
  import opened Text
  import opened Report
  import opened Sentences
  import opened SentenceFacts

  /** The text, lower-cased, contains the keyword `k`. */
  ghost predicate Mentions(text: string, k: string) {
    Occurs(Lower(text), k)
  }

  // ---------------------------------------------------------------- lab

  /** Hemoglobin below this many g/dL is reported as low. */
  const HemoglobinLow: real := 13.5

  /** The hard-coded lab values. */
  const LabValues: map<string, Field> :=
    map["Hemoglobin" := Num(12.0), "Creatinine" := Num(0.9), "Blood Urea" := Num(36.0)]

  /** The hard-coded chart rows: value, low and high bound per test. */
  const LabChart: seq<ChartRow> := [
    ChartRow("Hemoglobin", 12.0, 13.5, 17.5),
    ChartRow("Creatinine", 0.9, 0.6, 1.3),
    ChartRow("Blood Urea", 36.0, 20.0, 40.0)
  ]

  /** The lab summary lines together with the status read off them. */
  datatype Verdict = Verdict(lines: seq<string>, status: Status)

  /** The lab summary sentence for a hemoglobin value, and the status read
      off the summary text ("attention" when it mentions "low"). */
  function LabVerdict(hemoglobin: real): (v: Verdict)
    ensures |v.lines| == 1
    ensures v.lines[0] == LowHemoglobinLine <==> hemoglobin < HemoglobinLow
    ensures v.lines[0] == LabNormalLine <==> hemoglobin >= HemoglobinLow
    ensures v.status == Attention <==> hemoglobin < HemoglobinLow
  {
    var lines := if hemoglobin < HemoglobinLow then [LowHemoglobinLine] else [LabNormalLine];
    LowHemoglobinSaysLow();
    LabNormalSaysNoLow();
    var status := if Contains(Lower(Join(lines)), "low") then Attention else Normal;
    Verdict(lines, status)
  }

  /** `analyze_lab_report`: the constant table, the hemoglobin test against
      13.5, and the constant chart; the text is not read. */
  function AnalyzeLab(text: string): (a: Analysis)
    ensures a.extracted.Keys == {"Hemoglobin", "Creatinine", "Blood Urea"}
    ensures a.summary == [LowHemoglobinLine]
    ensures a.status == Attention
    ensures |a.chart| == 3
    ensures forall j :: 0 <= j < |a.chart| ==>
              a.chart[j].name in a.extracted && a.extracted[a.chart[j].name] == Num(a.chart[j].value)
    ensures a.chart[0].name == "Hemoglobin" && a.chart[0].low == HemoglobinLow
  {
    var hemoglobin := LabValues["Hemoglobin"].number;
    var v := LabVerdict(hemoglobin);
    Analysis(LabValues, v.lines, v.status, LabChart)
  }

  /** The lab analyser's result does not depend on the report text. */
  lemma LabIgnoresText(t1: string, t2: string)
    ensures AnalyzeLab(t1) == AnalyzeLab(t2)
  {
  }

  // ---------------------------------------------------------------- MRI

  /** `analyze_mri_report`: one sentence per finding keyword, hippocampi
      first, or the normal sentence when neither occurs; "attention" only
      when there is more than one sentence. */
  function AnalyzeMri(text: string): (a: Analysis)
    ensures 1 <= |a.summary| <= 2
    ensures HippocampiLine in a.summary <==> Mentions(text, "hippocampi")
    ensures VentriclesLine in a.summary <==> Mentions(text, "ventricles")
    ensures a.summary == [MriNormalLine] <==> !Mentions(text, "hippocampi") && !Mentions(text, "ventricles")
    ensures |a.summary| == 2 ==> a.summary == [HippocampiLine, VentriclesLine]
    ensures a.status == Attention <==> Mentions(text, "hippocampi") && Mentions(text, "ventricles")
    ensures a.extracted == TypeOnly(Mri)
    ensures a.chart == []
  {
    var lowered := Lower(text);
    var found := (if Contains(lowered, "hippocampi") then [HippocampiLine] else [])
               + (if Contains(lowered, "ventricles") then [VentriclesLine] else []);
    var lines := if found == [] then [MriNormalLine] else found;
    Analysis(TypeOnly(Mri), lines, if |lines| > 1 then Attention else Normal, [])
  }

  // ---------------------------------------------------------------- ECG

  /** `analyze_ecg_report`: exactly one sentence, ischemic keywords before
      "sinus rhythm"; "attention" when the sentence says "possible". */
  function AnalyzeEcg(text: string): (a: Analysis)
    ensures |a.summary| == 1
    ensures a.summary[0] == IschemicLine <==>
              Mentions(text, "t wave inversion") || Mentions(text, "st depression")
    ensures a.summary[0] == SinusLine <==>
              !Mentions(text, "t wave inversion") && !Mentions(text, "st depression")
              && Mentions(text, "sinus rhythm")
    ensures a.summary[0] == EcgDefaultLine <==>
              !Mentions(text, "t wave inversion") && !Mentions(text, "st depression")
              && !Mentions(text, "sinus rhythm")
    ensures a.status == Attention <==> a.summary[0] == IschemicLine
    ensures a.extracted == TypeOnly(Ecg)
    ensures a.chart == []
  {
    var lowered := Lower(text);
    var line :=
      if Contains(lowered, "t wave inversion") || Contains(lowered, "st depression") then IschemicLine
      else if Contains(lowered, "sinus rhythm") then SinusLine
      else EcgDefaultLine;
    IschemicSaysPossible();
    OtherEcgSaysNoPossible();
    Analysis(TypeOnly(Ecg), [line], if Contains(line, "possible") then Attention else Normal, [])
  }

  // ---------------------------------------------------------------- EEG

  /** `analyze_eeg_report`: exactly one sentence, spike keywords before
      "alpha"; "attention" when the sentence says "abnormal", which the
      fallback sentence does too, so only the alpha sentence is "normal". */
  function AnalyzeEeg(text: string): (a: Analysis)
    ensures |a.summary| == 1
    ensures a.summary[0] == SpikeLine <==>
              Mentions(text, "spike") || Mentions(text, "epileptiform")
    ensures a.summary[0] == AlphaLine <==>
              !Mentions(text, "spike") && !Mentions(text, "epileptiform") && Mentions(text, "alpha")
    ensures a.summary[0] == EegDefaultLine <==>
              !Mentions(text, "spike") && !Mentions(text, "epileptiform") && !Mentions(text, "alpha")
    ensures a.status == Normal <==> a.summary[0] == AlphaLine
    ensures a.extracted == TypeOnly(Eeg)
    ensures a.chart == []
  {
    var lowered := Lower(text);
    var line :=
      if Contains(lowered, "spike") || Contains(lowered, "epileptiform") then SpikeLine
      else if Contains(lowered, "alpha") then AlphaLine
      else EegDefaultLine;
    SpikeSaysAbnormal();
    AlphaSaysNoAbnormal();
    FallbackSaysAbnormal();
    Analysis(TypeOnly(Eeg), [line], if Contains(line, "abnormal") then Attention else Normal, [])
  }
}
