/**
 The records an analysis produces: the report category, the overall
 status, the extracted fields, the chart rows and the analyser result.
 */
module Report {

  /** The four report categories the triage distinguishes. */
  datatype ReportType = Mri | Ecg | Eeg | Lab

  /** The display name of a report category, as rendered on the result page
      and stored under the "Type" key by the non-lab analysers. */
  function TypeName(t: ReportType): (n: string)
    ensures n == "Lab Report" <==> t == Lab
  {
    match t
    case Mri => "MRI Report"
    case Ecg => "ECG Report"
    case Eeg => "EEG Report"
    case Lab => "Lab Report"
  }

  /** Distinct report categories have distinct display names. */
  lemma TypeNameInjective(t: ReportType, u: ReportType)
    ensures TypeName(t) == TypeName(u) ==> t == u
  {
  }

  /** The overall status: "attention" or "normal". */
  datatype Status = Attention | Normal

  /** The status as the page renders it. */
  function StatusName(s: Status): (n: string)
    ensures n == "normal" <==> s == Normal
    ensures n == "attention" <==> s == Attention
  {
    match s
    case Attention => "attention"
    case Normal => "normal"
  }

  /** A value in the `extracted` dictionary: the lab analyser stores
      numbers, the other analysers store the report type's name. */
  datatype Field = Num(number: real) | Str(str: string)

  /** One row of the chart data: a value with its reference bounds. */
  datatype ChartRow = ChartRow(name: string, value: real, low: real, high: real)

  /** The four-tuple an analyser returns: extracted fields, the summary
      (kept as its lines; the text is the lines joined by newlines), the
      overall status and the chart rows. */
  datatype Analysis = Analysis(
    extracted: map<string, Field>,
    summary: seq<string>,
    status: Status,
    chart: seq<ChartRow>)

  /** The extracted dictionary of a non-lab analyser: the single "Type" key. */
  function TypeOnly(t: ReportType): (m: map<string, Field>)
    ensures m.Keys == {"Type"}
    ensures m["Type"] == Str(TypeName(t))
  {
    map["Type" := Str(TypeName(t))]
  }
}
