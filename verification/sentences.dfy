/**
 The fixed summary sentences of the four analysers.

 Each sentence is written as a concatenation of short pieces, split around
 the keyword a status test looks for where there is one, so that the
 verifier can inspect its characters cheaply; the value is the sentence of
 the source, character for character.
 */
module Sentences {
  // ---------------------------------------------------------------- lab

  const LowHemoglobinLine: string :=
    "Hemoglobin is" + " slightly " + "low"
    + (" (12.0 g/dL)." + " It may" + " indicate" + " anemia." + " Eat iron-rich"
       + " foods and" + " consult your" + " doctor.")
  const LabNormalLine: string :=
    "All lab" + " values appear" + " normal. No" + " immediate" + " concern found."

  // ---------------------------------------------------------------- MRI

  const HippocampiLine: string :=
    "MRI shows" + " reduced" + " hippocampal" + " volume" + " — possible"
    + " early" + " memory-related" + " change."
  const VentriclesLine: string :=
    "Enlarged" + " ventricles" + " detected" + " — may" + " indicate"
    + " mild brain" + " atrophy."
  const MriNormalLine: string :=
    "MRI appears" + " normal." + " No significant" + " abnormality" + " detected."

  // ---------------------------------------------------------------- ECG

  const IschemicLine: string :=
    "ECG shows " + "possible"
    + (" ischemic" + " changes." + " Please" + " consult a" + " cardiologist.")
  const SinusLine: string :=
    "ECG shows" + " normal sinus" + " rhythm. No" + " abnormalities" + " detected."
  const EcgDefaultLine: string :=
    "ECG analyzed." + " No major" + " issues found."

  // ---------------------------------------------------------------- EEG

  const SpikeLine: string :=
    "EEG shows " + "abnormal" + (" spikes" + " — possible" + " seizure" + " tendency.")
  const AlphaLine: string :=
    "EEG shows" + " normal alpha" + " rhythm —" + " relaxed" + " awake state."
  const EegDefaultLine: string :=
    ("EEG appears" + " normal with" + " no clear ") + "abnormal" + "ities detected."
}

/**
 Facts about the characters of the summary sentences that the status tests
 depend on.
 */
module SentenceFacts {
  import opened Text
  import opened Sentences

  /** "low" occurs in the lower-cased low-hemoglobin sentence. */
  lemma LowHemoglobinSaysLow()
    ensures Occurs(Lower(LowHemoglobinLine), "low")
  {
    LowHemoglobinContainsLow();
    LowIsLowerCase();
    OccursLowerKey(LowHemoglobinLine, "low");
  }

  lemma LowHemoglobinContainsLow()
    ensures Occurs(LowHemoglobinLine, "low")
  {
    OccursBetween("Hemoglobin is" + " slightly ", "low",
      " (12.0 g/dL)." + " It may" + " indicate" + " anemia." + " Eat iron-rich"
      + " foods and" + " consult your" + " doctor.");
  }

  lemma LowIsLowerCase()
    ensures Lower("low") == "low"
  {
  }

  /** The all-normal lab sentence has no "w" in either case. */
  lemma LabNormalHasNoW()
    ensures 'w' !in LabNormalLine && 'W' !in LabNormalLine
  {
  }

  /** "low" does not occur in the lower-cased all-normal lab sentence. */
  lemma LabNormalSaysNoLow()
    ensures !Occurs(Lower(LabNormalLine), "low")
  {
    LabNormalHasNoW();
    forall i | 0 <= i < |LabNormalLine|
      ensures Lower(LabNormalLine)[i] != 'w'
    {
      LowerCharPreimage(LabNormalLine[i], 'w');
    }
    OccursHasChars(Lower(LabNormalLine), "low", 2);
  }

  /** "possible" occurs in the ischemic sentence. */
  lemma IschemicSaysPossible()
    ensures Occurs(IschemicLine, "possible")
  {
    OccursBetween("ECG shows ", "possible",
      " ischemic" + " changes." + " Please" + " consult a" + " cardiologist.");
  }

  /** "possible" occurs in neither of the other ECG sentences: they have no "p". */
  lemma OtherEcgSaysNoPossible()
    ensures !Occurs(SinusLine, "possible")
    ensures !Occurs(EcgDefaultLine, "possible")
  {
    assert 'p' !in SinusLine;
    OccursHasChars(SinusLine, "possible", 0);
    assert 'p' !in EcgDefaultLine;
    OccursHasChars(EcgDefaultLine, "possible", 0);
  }

  /** "abnormal" occurs in the spike sentence. */
  lemma SpikeSaysAbnormal()
    ensures Occurs(SpikeLine, "abnormal")
  {
    OccursBetween("EEG shows ", "abnormal", " spikes" + " — possible" + " seizure" + " tendency.");
  }

  /** "abnormal" does not occur in the alpha sentence: it has no "b". */
  lemma AlphaSaysNoAbnormal()
    ensures !Occurs(AlphaLine, "abnormal")
  {
    assert 'b' !in AlphaLine;
    OccursHasChars(AlphaLine, "abnormal", 1);
  }

  /** "abnormal" occurs in the fallback sentence, inside "abnormalities". */
  lemma FallbackSaysAbnormal()
    ensures Occurs(EegDefaultLine, "abnormal")
  {
    OccursBetween("EEG appears" + " normal with" + " no clear ", "abnormal", "ities detected.");
  }

  // ---------------------------------------------------------- newlines

  // No summary sentence holds a newline, so each is one line of the
  // summary text.

  lemma LowHemoglobinIsLine() ensures IsLine(LowHemoglobinLine) {}
  lemma LabNormalIsLine() ensures IsLine(LabNormalLine) {}
  lemma HippocampiIsLine() ensures IsLine(HippocampiLine) {}
  lemma VentriclesIsLine() ensures IsLine(VentriclesLine) {}
  lemma MriNormalIsLine() ensures IsLine(MriNormalLine) {}
  lemma IschemicIsLine() ensures IsLine(IschemicLine) {}
  lemma SinusIsLine() ensures IsLine(SinusLine) {}
  lemma EcgDefaultIsLine() ensures IsLine(EcgDefaultLine) {}
  lemma SpikeIsLine() ensures IsLine(SpikeLine) {}
  lemma AlphaIsLine() ensures IsLine(AlphaLine) {}
  lemma EegDefaultIsLine() ensures IsLine(EegDefaultLine) {}

  /** Every sentence an analyser can emit is a line. */
  lemma SentencesAreLines()
    ensures IsLine(LowHemoglobinLine) && IsLine(LabNormalLine)
    ensures IsLine(HippocampiLine) && IsLine(VentriclesLine) && IsLine(MriNormalLine)
    ensures IsLine(IschemicLine) && IsLine(SinusLine) && IsLine(EcgDefaultLine)
    ensures IsLine(SpikeLine) && IsLine(AlphaLine) && IsLine(EegDefaultLine)
  {
    LowHemoglobinIsLine();
    LabNormalIsLine();
    HippocampiIsLine();
    VentriclesIsLine();
    MriNormalIsLine();
    IschemicIsLine();
    SinusIsLine();
    EcgDefaultIsLine();
    SpikeIsLine();
    AlphaIsLine();
    EegDefaultIsLine();
  }
}
