/**
 * The diagnosis workflow (src/pages/Diagnosis.jsx): a four-step controller (intake,
 * upload, confirm, result), the prompt sent to the classifier, and the reconciliation
 * that turns the classifier's answer into a stored report. Backend calls are given to
 * the model as their outcomes: a value on success, `Failure` when the call throws.
 */
module Diagnosis {
  import opened Wrappers
  import opened JsText
  import opened Seqs
  import opened Dom
  import opened PatientForm

  // ---------------------------------------------------------------- entities

  datatype AnalysisType = Fundus | Erg

  datatype Severity = Mild | Moderate | Severe | Critical

  /** A catalogue entry of `DiseaseInfo`. */
  datatype DiseaseInfo = DiseaseInfo(name: string, description: string, precaution: string)

  /** The structured answer of the classifier, in the shape its response schema demands. */
  datatype LlmResult = LlmResult(diseaseName: string, confidenceScore: real, justification: string)

  /** The record handed to `DiagnosisReport.create`. */
  datatype ReportData = ReportData(
    patientId: string,
    analysisType: AnalysisType,
    diagnosis: string,
    confidenceScore: real,
    detectedConditions: seq<string>,
    severity: Severity,
    recommendations: string,
    doctorReviewRequired: bool,
    detailedFindings: string,
    fundusImageUrl: Option<string>,
    ergReportUrl: Option<string>)

  /** What the result step shows: the report, with the diagnosis text replaced by a headline. */
  datatype DiagnosisResult = DiagnosisResult(
    report: ReportData,
    patientName: Option<FieldValue>,
    reportId: string,
    diagnosis: string,
    recommendations: string)

  /** The values an analysis run reads, fixed when it starts. */
  datatype Request = Request(patientData: Record, fileUrl: string, analysisType: AnalysisType)

  const UploadError: string :=
    "Failed to upload file. " + "Please try again."

  const AnalysisError: string :=
    "Failed to analyze the file. " + "The AI system encountered "
    + "an issue. Please check the " + "file format or try again."

  /** The mount effect: the `type` query parameter selects ERG analysis, anything else fundus. */
  function AnalysisTypeOf(typeParam: Option<string>): (t: AnalysisType)
    ensures t == Erg <==> typeParam == Some("erg")
  {
    if typeParam == Some("erg") then Erg else Fundus
  }

  // ---------------------------------------------------------------- prompt

  /** `record.field`, `undefined` when the key is missing. */
  function Lookup(record: Record, f: Field): Option<FieldValue> {
    if f in record then Some(record[f]) else None
  }

  /** How a template literal prints a field value. */
  function Printed(v: Option<FieldValue>): string {
    match v
    case None => "undefined"
    case Some(Text(s)) => s
    case Some(Number(n)) => IntToString(n)
    case Some(NaN) => "NaN"
  }

  /** JavaScript truthiness of a field value. */
  predicate Truthy(v: Option<FieldValue>) {
    match v
    case None => false
    case Some(Text(s)) => s != ""
    case Some(Number(n)) => n != 0
    case Some(NaN) => false
  }

  /** `value || fallback` inside a template literal. */
  function PrintedOr(v: Option<FieldValue>, fallback: string): (r: string)
    ensures !Truthy(v) ==> r == fallback
    ensures Truthy(v) ==> r == Printed(v) && r != ""
  {
    if Truthy(v) then Printed(v) else fallback
  }

  function GenderText(data: Record): string {
    PrintedOr(Lookup(data, Gender), "Not specified")
  }

  function HistoryText(data: Record): string {
    PrintedOr(Lookup(data, MedicalHistory), "No significant history provided")
  }

  function SymptomsText(data: Record): string {
    PrintedOr(Lookup(data, Symptoms), "No specific symptoms reported")
  }

  /** The indentation of the template lines: the ERG template sits four columns deeper. */
  function Indent(t: AnalysisType): string {
    if t == Erg then "            " else "        "
  }

  /** One line of the context block: indentation, caption, value. */
  function ContextLine(ind: string, caption: string, value: string): string {
    ind + caption + value + "\n"
  }

  lemma ContextLineStates(ind: string, caption: string, value: string)
    ensures Includes(ContextLine(ind, caption, value), caption + value)
  {
    assert ContextLine(ind, caption, value) == ind + (caption + value) + "\n";
    IncludesMiddle(ind, caption + value, "\n");
  }

  /** The "Patient Context" block both templates share, at the given indentation. */
  function ContextBlock(data: Record, ind: string): string {
    ind + "Patient Context:\n"
    + ContextLine(ind, "- Name: ", Printed(Lookup(data, FullName)))
    + ContextLine(ind, "- Age: ", Printed(Lookup(data, Age)))
    + ContextLine(ind, "- Gender: ", GenderText(data))
    + ContextLine(ind, "- Medical History: ", HistoryText(data))
    + ContextLine(ind, "- Current Symptoms: ", SymptomsText(data))
  }

  // The template texts are written as short pieces: a long string literal is costly for
  // the verifier, and the pieces concatenate to the same text.
  function ErgHeader(ind: string): string {
    "\n" + ind + "You are an expert " + "neurophysiologist " + "specializing in "
      + "electroretinography (ERG).\n"
    + ind + "Analyze the provided ERG " + "report data for a " + "patient.\n\n"
  }

  function ErgFooter(ind: string): string {
    "\n" + ind + "Based on the ERG data, provide:\n"
    + ind + "1.  A primary diagnosis of " + "retinal function (e.g., "
      + "normal, rod-cone dystrophy, " + "macular dysfunction).\n"
    + ind + "2.  A list of detected " + "conditions or patterns " + "(e.g., reduced b-wave "
      + "amplitude, prolonged " + "implicit times).\n"
    + ind + "3.  An overall severity " + "assessment (mild, moderate, " + "severe, critical).\n"
    + ind + "4.  A confidence score for " + "your analysis (0-100).\n"
    + ind + "5.  Detailed clinical " + "recommendations and " + "suggested next steps.\n"
    + ind + "6.  Indicate if a follow-up " + "with a retinal specialist " + "is required.\n"
    + ind + "7.  Provide detailed " + "findings from the ERG " + "waveforms.\n"
    + ind
  }

  function FundusIntro(ind: string): string {
    "\n" + ind
    + "You are an expert " + "ophthalmologist AI. Your " + "task is to analyze the "
      + "provided fundus image and " + "classify it into one of the " + "following categories: "
  }

  function FundusFooter(ind: string): string {
    "\n" + ind + "Based on the fundus image, provide:\n"
    + ind + "1. The most likely disease " + "classification from the " + "provided list.\n"
    + ind + "2. A confidence score for " + "your classification " + "(0-100).\n"
    + ind + "3. A brief, one-sentence " + "justification for your " + "choice.\n"
    + ind
  }

  /** The fundus template around the joined category list and the context block. */
  function FundusPrompt(ind: string, categories: string, block: string): string {
    FundusIntro(ind) + categories + ".\n\n" + block + FundusFooter(ind)
  }

  /** `getAnalysisPrompt(diseaseList)` with the analysis type and patient record it closes over. */
  function GetAnalysisPrompt(t: AnalysisType, data: Record, diseaseList: seq<string>): string {
    var ind := Indent(t);
    if t == Erg then ErgHeader(ind) + ContextBlock(data, ind) + ErgFooter(ind)
    else FundusPrompt(ind, Join(diseaseList, ", "), ContextBlock(data, ind))
  }

  /** Whatever the category list contains, the fundus prompt contains. */
  lemma FundusPromptCarriesCategories(ind: string, categories: string, block: string, name: string)
    requires Includes(categories, name)
    ensures Includes(FundusPrompt(ind, categories, block), name)
  {
    IncludesAfter(FundusIntro(ind), categories, name);
    IncludesBefore(FundusIntro(ind) + categories, ".\n\n", name);
    IncludesBefore(FundusIntro(ind) + categories + ".\n\n", block, name);
    IncludesBefore(FundusIntro(ind) + categories + ".\n\n" + block, FundusFooter(ind), name);
  }

  /** The fundus prompt names every catalogue entry as a category. */
  lemma FundusPromptListsEveryDisease(t: AnalysisType, data: Record, diseaseList: seq<string>, i: nat)
    requires t == Fundus && i < |diseaseList|
    ensures Includes(GetAnalysisPrompt(t, data, diseaseList), diseaseList[i])
  {
    JoinIncludesEveryPart(diseaseList, ", ", i);
    FundusPromptCarriesCategories(Indent(t), Join(diseaseList, ", "), ContextBlock(data, Indent(t)), diseaseList[i]);
  }

  /** The ERG prompt does not depend on the catalogue. */
  lemma ErgPromptIgnoresCatalogue(data: Record, a: seq<string>, b: seq<string>)
    ensures GetAnalysisPrompt(Erg, data, a) == GetAnalysisPrompt(Erg, data, b)
  {
  }

  lemma ErgCarriesContext(t: AnalysisType, data: Record, diseaseList: seq<string>)
    requires t == Erg
    ensures Includes(GetAnalysisPrompt(t, data, diseaseList), ContextBlock(data, Indent(t)))
  {
    IncludesMiddle(ErgHeader(Indent(t)), ContextBlock(data, Indent(t)), ErgFooter(Indent(t)));
  }

  /** The fundus template holds the context block it is given. */
  lemma FundusPromptCarriesBlock(ind: string, categories: string, block: string)
    ensures Includes(FundusPrompt(ind, categories, block), block)
  {
    IncludesMiddle(FundusIntro(ind) + categories + ".\n\n", block, FundusFooter(ind));
  }

  lemma FundusCarriesContext(t: AnalysisType, data: Record, diseaseList: seq<string>)
    requires t == Fundus
    ensures Includes(GetAnalysisPrompt(t, data, diseaseList), ContextBlock(data, Indent(t)))
  {
    FundusPromptCarriesBlock(Indent(t), Join(diseaseList, ", "), ContextBlock(data, Indent(t)));
  }

  /** Both prompts carry the patient context block. */
  lemma PromptCarriesContext(t: AnalysisType, data: Record, diseaseList: seq<string>)
    ensures Includes(GetAnalysisPrompt(t, data, diseaseList), ContextBlock(data, Indent(t)))
  {
    if t == Erg {
      ErgCarriesContext(t, data, diseaseList);
    } else {
      FundusCarriesContext(t, data, diseaseList);
    }
  }

  /** The context block states the gender, history and symptom lines, with their fallbacks. */
  lemma ContextBlockStatesLines(data: Record, ind: string)
    ensures Includes(ContextBlock(data, ind), "- Gender: " + GenderText(data))
    ensures Includes(ContextBlock(data, ind), "- Medical History: " + HistoryText(data))
    ensures Includes(ContextBlock(data, ind), "- Current Symptoms: " + SymptomsText(data))
  {
    var block := ContextBlock(data, ind);
    var lead := ind + "Patient Context:\n"
                + ContextLine(ind, "- Name: ", Printed(Lookup(data, FullName)))
                + ContextLine(ind, "- Age: ", Printed(Lookup(data, Age)));
    var g := ContextLine(ind, "- Gender: ", GenderText(data));
    var h := ContextLine(ind, "- Medical History: ", HistoryText(data));
    var s := ContextLine(ind, "- Current Symptoms: ", SymptomsText(data));
    IncludesMiddle(lead, g, h);
    IncludesBefore(lead + g + h, s, g);
    ContextLineStates(ind, "- Gender: ", GenderText(data));
    IncludesTrans(block, g, "- Gender: " + GenderText(data));
    IncludesMiddle(lead + g, h, s);
    ContextLineStates(ind, "- Medical History: ", HistoryText(data));
    IncludesTrans(block, h, "- Medical History: " + HistoryText(data));
    assert s[0..|s|] == s;
    assert OccursAt(s, s, 0);
    IncludesAfter(lead + g + h, s, s);
    ContextLineStates(ind, "- Current Symptoms: ", SymptomsText(data));
    IncludesTrans(block, s, "- Current Symptoms: " + SymptomsText(data));
  }

  /** Both prompts state the patient's gender, history and symptoms, with their fallbacks. */
  lemma PromptStatesContextLines(t: AnalysisType, data: Record, diseaseList: seq<string>)
    ensures Includes(GetAnalysisPrompt(t, data, diseaseList), "- Gender: " + GenderText(data))
    ensures Includes(GetAnalysisPrompt(t, data, diseaseList), "- Medical History: " + HistoryText(data))
    ensures Includes(GetAnalysisPrompt(t, data, diseaseList), "- Current Symptoms: " + SymptomsText(data))
  {
    var prompt := GetAnalysisPrompt(t, data, diseaseList);
    var block := ContextBlock(data, Indent(t));
    PromptCarriesContext(t, data, diseaseList);
    ContextBlockStatesLines(data, Indent(t));
    IncludesTrans(prompt, block, "- Gender: " + GenderText(data));
    IncludesTrans(prompt, block, "- Medical History: " + HistoryText(data));
    IncludesTrans(prompt, block, "- Current Symptoms: " + SymptomsText(data));
  }

  /** `diseaseInfos.map(d => d.name)`: the category names, in catalogue order. */
  function DiseaseNames(catalogue: seq<DiseaseInfo>): (names: seq<string>)
    ensures |names| == |catalogue|
    ensures forall i :: 0 <= i < |catalogue| ==> names[i] == catalogue[i].name
  {
    seq(|catalogue|, i requires 0 <= i < |catalogue| => catalogue[i].name)
  }

  /** What `InvokeLLM` is sent: the prompt, the uploaded file's URL, and the labels its schema allows. */
  datatype ClassifierRequest = ClassifierRequest(prompt: string, fileUrls: seq<string>, allowedLabels: seq<string>)

  /** The classifier request of a run whose catalogue call returned `catalogue`. */
  function ClassifierRequestFor(req: Request, catalogue: seq<DiseaseInfo>): ClassifierRequest {
    var names := DiseaseNames(catalogue);
    ClassifierRequest(GetAnalysisPrompt(req.analysisType, req.patientData, names), [req.fileUrl], names)
  }

  /** Every name in `DiseaseNames(catalogue)` is the name of some catalogue entry. */
  lemma NamesComeFromCatalogue(catalogue: seq<DiseaseInfo>)
    ensures forall l :: l in DiseaseNames(catalogue) ==> exists i :: 0 <= i < |catalogue| && catalogue[i].name == l
  {
    var names := DiseaseNames(catalogue);
    forall l | l in names
      ensures exists i :: 0 <= i < |catalogue| && catalogue[i].name == l
    {
      var k :| 0 <= k < |names| && names[k] == l;
      assert catalogue[k].name == l;
    }
  }

  /** The request sends the captured file alone, and the schema allows exactly the catalogue's names. */
  lemma RequestCarriesFileAndLabels(req: Request, catalogue: seq<DiseaseInfo>)
    ensures ClassifierRequestFor(req, catalogue).fileUrls == [req.fileUrl]
    ensures forall i :: 0 <= i < |catalogue| ==> catalogue[i].name in ClassifierRequestFor(req, catalogue).allowedLabels
    ensures forall l :: l in ClassifierRequestFor(req, catalogue).allowedLabels ==>
              exists i :: 0 <= i < |catalogue| && catalogue[i].name == l
  {
    var r := ClassifierRequestFor(req, catalogue);
    assert r.allowedLabels == DiseaseNames(catalogue);
    forall i | 0 <= i < |catalogue|
      ensures catalogue[i].name in r.allowedLabels
    {
      assert r.allowedLabels[i] == catalogue[i].name;
    }
    NamesComeFromCatalogue(catalogue);
  }

  /** The request's prompt carries the context block of the record the run captured. */
  lemma RequestCarriesContext(req: Request, catalogue: seq<DiseaseInfo>)
    ensures Includes(ClassifierRequestFor(req, catalogue).prompt, ContextBlock(req.patientData, Indent(req.analysisType)))
  {
    PromptCarriesContext(req.analysisType, req.patientData, DiseaseNames(catalogue));
  }

  /** A fundus request's prompt names every label its schema allows. */
  lemma FundusRequestNamesEveryLabel(req: Request, catalogue: seq<DiseaseInfo>, i: nat)
    requires req.analysisType == Fundus && i < |catalogue|
    ensures Includes(ClassifierRequestFor(req, catalogue).prompt, catalogue[i].name)
  {
    FundusPromptListsEveryDisease(req.analysisType, req.patientData, DiseaseNames(catalogue), i);
  }

  // ---------------------------------------------------------------- reconciliation

  /** `diseaseInfos.find(d => d.name.toLowerCase() === classifiedDiseaseName)`. */
  function LookupDisease(catalogue: seq<DiseaseInfo>, returnedName: string): (r: Option<DiseaseInfo>)
    ensures r.None? <==> forall i :: 0 <= i < |catalogue| ==>
                           ToLowerCase(catalogue[i].name) != ToLowerCase(returnedName)
    ensures r.Some? ==> exists i :: 0 <= i < |catalogue| && catalogue[i] == r.value &&
                           ToLowerCase(catalogue[i].name) == ToLowerCase(returnedName) &&
                           forall j :: 0 <= j < i ==> ToLowerCase(catalogue[j].name) != ToLowerCase(returnedName)
  {
    Find(catalogue, (d: DiseaseInfo) => ToLowerCase(d.name) == ToLowerCase(returnedName))
  }

  /** The labels the code lists as severe, compared against the lower-cased label. */
  const SevereLabels: seq<string> := ["glaucoma", "ARMD", "diabetic retinopathy"]

  /**
   * The severity a classification receives: a confidence below 70 means mild; otherwise
   * glaucoma and diabetic retinopathy (in any case) are severe, a normal fundus is mild and
   * every other label is moderate. ARMD is therefore moderate, and nothing is critical.
   */
  function SeverityFor(diseaseName: string, confidenceScore: real): (s: Severity)
    ensures s != Critical
    ensures s == Mild <==> confidenceScore < 70.0 || ToLowerCase(diseaseName) == "normal fundus"
    ensures s == Severe <==> confidenceScore >= 70.0 &&
                             ToLowerCase(diseaseName) in ["glaucoma", "diabetic retinopathy"]
  {
    var lowered := ToLowerCase(diseaseName);
    if confidenceScore < 70.0 then Mild
    else if lowered == "glaucoma" || lowered == "diabetic retinopathy" then Severe
    else if lowered == "normal fundus" then Mild
    else Moderate
  }

  /** The upper-case "ARMD" entry of the severe list can never equal a lower-cased label. */
  lemma ArmdEntryUnreachable(diseaseName: string)
    ensures ToLowerCase(diseaseName) != "ARMD"
  {
    var lowered := ToLowerCase(diseaseName);
    LowerHasNoUpper(diseaseName);
    assert lowered == [] || !IsUpper(lowered[0]);
    assert IsUpper("ARMD"[0]);
  }

  /** So an ARMD classification, spelt in any case, is moderate, or mild below 70. */
  lemma ArmdIsNeverSevere(diseaseName: string, confidenceScore: real)
    requires ToLowerCase(diseaseName) == "armd"
    ensures SeverityFor(diseaseName, confidenceScore) == if confidenceScore < 70.0 then Mild else Moderate
  {
    assert "armd" != "normal fundus" && "armd" != "glaucoma" && "armd" != "diabetic retinopathy";
  }

  /** The `let severity` sequence of the source: start moderate, then three overriding tests. */
  method ComputeSeverity(diseaseName: string, confidenceScore: real) returns (severity: Severity)
    ensures severity == SeverityFor(diseaseName, confidenceScore)
  {
    var classified := ToLowerCase(diseaseName);
    severity := Moderate;
    if classified == "normal fundus" {
      severity := Mild;
    }
    ArmdEntryUnreachable(diseaseName);
    if classified in SevereLabels {
      severity := Severe;
    }
    if confidenceScore < 70.0 {
      severity := Mild;
    }
  }

  /** `confidence_score || 85`: a score of 0 is replaced by 85 like a missing one. */
  function StoredConfidence(score: real): (r: real)
    ensures score != 0.0 ==> r == score
    ensures score == 0.0 ==> r == 85.0
  {
    if score != 0.0 then score else 85.0
  }

  /** The `reportData` record built from a matched catalogue entry. */
  function BuildReport(patientId: string, req: Request, disease: DiseaseInfo, llm: LlmResult): (r: ReportData)
    ensures r.doctorReviewRequired <==> r.severity != Mild
    ensures r.severity == SeverityFor(llm.diseaseName, llm.confidenceScore) && r.severity != Critical
    ensures r.fundusImageUrl.Some? <==> req.analysisType == Fundus
    ensures r.ergReportUrl.Some? <==> req.analysisType == Erg
    ensures r.fundusImageUrl.Some? ==> r.fundusImageUrl.value == req.fileUrl
    ensures r.ergReportUrl.Some? ==> r.ergReportUrl.value == req.fileUrl
    ensures r.confidenceScore == StoredConfidence(llm.confidenceScore)
    ensures r.detectedConditions == [disease.name]
    ensures r.diagnosis == disease.description && r.recommendations == disease.precaution
    ensures r.detailedFindings == llm.justification && r.patientId == patientId
    ensures r.analysisType == req.analysisType
  {
    var severity := SeverityFor(llm.diseaseName, llm.confidenceScore);
    ReportData(
      patientId, req.analysisType, disease.description, StoredConfidence(llm.confidenceScore),
      [disease.name], severity, disease.precaution, severity != Mild, llm.justification,
      if req.analysisType == Fundus then Some(req.fileUrl) else None,
      if req.analysisType == Fundus then None else Some(req.fileUrl))
  }

  /**
   * The statements that build `reportData`: the severity sequence, the score fallback,
   * and the image or ERG URL field chosen by the analysis type.
   */
  method AssembleReport(patientId: string, req: Request, disease: DiseaseInfo, llm: LlmResult)
    returns (report: ReportData)
    ensures report == BuildReport(patientId, req, disease, llm)
  {
    var severity := ComputeSeverity(llm.diseaseName, llm.confidenceScore);
    report := ReportData(
      patientId, req.analysisType, disease.description,
      if llm.confidenceScore != 0.0 then llm.confidenceScore else 85.0,
      [disease.name], severity, disease.precaution, severity != Mild, llm.justification,
      None, None);
    if req.analysisType == Fundus {
      report := report.(fundusImageUrl := Some(req.fileUrl));
    } else {
      report := report.(ergReportUrl := Some(req.fileUrl));
    }
  }

  /** The headline the result step shows instead of the bare description. */
  function Headline(disease: DiseaseInfo): (h: string)
    ensures StartsWith(h, "**Prediction: " + disease.name + "**")
    ensures EndsWith(h, disease.description)
  {
    "**Prediction: " + disease.name + "**\n\n" + disease.description
  }

  /** How an analysis run ends. */
  datatype AnalysisEnd =
    | NoAnswer                                        // a call up to and including the classifier failed
    | UnknownDisease                                  // the classifier named no catalogue entry
    | NotSaved(report: ReportData)                    // the report was built but creating it failed
    | Saved(report: ReportData, result: DiagnosisResult)

  /** The try block of `performDiagnosis`, as a function of the outcomes of its backend calls. */
  function RunAnalysis(req: Request, patient: Outcome<string>, catalogue: Outcome<seq<DiseaseInfo>>,
                       llm: Outcome<LlmResult>, created: Outcome<string>): (end: AnalysisEnd)
    ensures end.NoAnswer? <==> patient.Failure? || catalogue.Failure? || llm.Failure?
    ensures end.UnknownDisease? <==>
              && patient.Success? && catalogue.Success? && llm.Success?
              && forall i :: 0 <= i < |catalogue.value| ==>
                   ToLowerCase(catalogue.value[i].name) != ToLowerCase(llm.value.diseaseName)
    ensures end.Saved? ==> created.Success?
    ensures end.NotSaved? ==> created.Failure?
    ensures (end.Saved? || end.NotSaved?) ==>
              && patient.Success? && catalogue.Success? && llm.Success?
              && exists i :: && 0 <= i < |catalogue.value|
                             && ToLowerCase(catalogue.value[i].name) == ToLowerCase(llm.value.diseaseName)
                             && (forall j :: 0 <= j < i ==>
                                   ToLowerCase(catalogue.value[j].name) != ToLowerCase(llm.value.diseaseName))
                             && end.report == BuildReport(patient.value, req, catalogue.value[i], llm.value)
                             && (end.Saved? ==> && created.Success?
                                                && end.result == DiagnosisResult(
                                                     end.report, Lookup(req.patientData, FullName), created.value,
                                                     Headline(catalogue.value[i]), catalogue.value[i].precaution))
  {
    if patient.Failure? || catalogue.Failure? || llm.Failure? then NoAnswer
    else
      var matched := LookupDisease(catalogue.value, llm.value.diseaseName);
      if matched.None? then UnknownDisease
      else
        var report := BuildReport(patient.value, req, matched.value, llm.value);
        if created.Failure? then NotSaved(report)
        else Saved(report, DiagnosisResult(report, Lookup(req.patientData, FullName), created.value,
                                           Headline(matched.value), matched.value.precaution))
  }

  /** A label that no catalogue entry spells, in any case, never produces a report. */
  lemma UnknownDiseaseBuildsNothing(req: Request, patient: Outcome<string>, catalogue: seq<DiseaseInfo>,
                                    llm: LlmResult, created: Outcome<string>)
    requires patient.Success?
    requires forall i :: 0 <= i < |catalogue| ==> ToLowerCase(catalogue[i].name) != ToLowerCase(llm.diseaseName)
    ensures RunAnalysis(req, patient, Success(catalogue), Success(llm), created) == UnknownDisease
  {
  }

  // ---------------------------------------------------------------- progress

  /** One tick of the progress interval. */
  function NextProgress(p: int): (q: int)
    ensures p <= 90 ==> p <= q <= 90
    ensures q == if p + 8 < 90 then p + 8 else 90
  {
    if p + 8 < 90 then p + 8 else 90
  }

  /** The progress shown after `k` ticks, starting from 0. */
  function ProgressAfter(k: nat): (p: int)
    ensures 0 <= p <= 90
    ensures k > 0 ==> 8 <= p && ProgressAfter(k - 1) <= p
  {
    if k == 0 then 0 else NextProgress(ProgressAfter(k - 1))
  }

  /** After `k` ticks the bar shows `8k`, capped at 90; it never shows more while waiting. */
  lemma {:induction false} ProgressAfterTicks(k: nat)
    ensures ProgressAfter(k) == if 8 * k < 90 then 8 * k else 90
  {
    if k > 0 {
      ProgressAfterTicks(k - 1);
    }
  }

  // ---------------------------------------------------------------- controller

  class DiagnosisPage {
    var currentStep: int
    var analysisType: AnalysisType
    var patientData: Record
    var uploadedFile: Option<File>
    var fileUrl: Option<string>
    var isAnalyzing: bool
    var analysisProgress: int
    var diagnosisResult: Option<DiagnosisResult>
    var error: Option<string>
    /** The request of the analysis run in flight, as its closure captured it. */
    var inFlight: Option<Request>

    ghost predicate Valid()
      reads this
    {
      && 1 <= currentStep <= 4
      && 0 <= analysisProgress <= 100
      && (isAnalyzing <==> inFlight.Some?)
      && (isAnalyzing ==> analysisProgress <= 90)
      && (currentStep == 3 ==> fileUrl.Some? && uploadedFile.Some?)
      && (currentStep == 4 ==> diagnosisResult.Some?)
    }

    /** The fields `resetDiagnosis` clears are at their reset values. */
    predicate Cleared()
      reads this
    {
      && currentStep == 1 && patientData == map[] && uploadedFile == None && fileUrl == None
      && diagnosisResult == None && error == None && analysisProgress == 0
    }

    /** The page after mounting with query parameter `type`. */
    constructor (typeParam: Option<string>)
      ensures Valid()
      ensures currentStep == 1 && analysisType == AnalysisTypeOf(typeParam)
      ensures patientData == map[] && uploadedFile == None && fileUrl == None
      ensures !isAnalyzing && analysisProgress == 0 && diagnosisResult == None && error == None
      ensures inFlight == None
    {
      currentStep := 1;
      analysisType := if typeParam == Some("erg") then Erg else Fundus;
      patientData := map[];
      uploadedFile := None;
      fileUrl := None;
      isAnalyzing := false;
      analysisProgress := 0;
      diagnosisResult := None;
      error := None;
      inFlight := None;
    }

    /** `handlePatientSubmit(data)`: store the record, go to the upload step, clear the error. */
    method HandlePatientSubmit(data: Record)
      requires Valid()
      modifies this
      ensures Valid()
      ensures patientData == data && currentStep == 2 && error == None
      ensures uploadedFile == old(uploadedFile) && fileUrl == old(fileUrl)
      ensures isAnalyzing == old(isAnalyzing) && analysisProgress == old(analysisProgress)
      ensures diagnosisResult == old(diagnosisResult) && inFlight == old(inFlight)
      ensures analysisType == old(analysisType)
    {
      patientData := data;
      currentStep := 2;
      error := None;
    }

    /**
     * `handleFileUpload(file)` once `UploadFile` settles: on success the file and its URL
     * are kept and the confirm step opens; on failure only the error changes.
     */
    method HandleFileUpload(file: File, upload: Outcome<string>)
      requires Valid()
      modifies this
      ensures Valid()
      ensures upload.Success? ==> && uploadedFile == Some(file) && fileUrl == Some(upload.value)
                                  && currentStep == 3 && error == None
      ensures upload.Failure? ==> && uploadedFile == old(uploadedFile) && fileUrl == old(fileUrl)
                                  && currentStep == old(currentStep) && error == Some(UploadError)
      ensures patientData == old(patientData) && isAnalyzing == old(isAnalyzing)
      ensures analysisProgress == old(analysisProgress) && diagnosisResult == old(diagnosisResult)
      ensures inFlight == old(inFlight) && analysisType == old(analysisType)
    {
      error := None;
      match upload {
        case Success(url) =>
          uploadedFile := Some(file);
          fileUrl := Some(url);
          currentStep := 3;
        case Failure =>
          error := Some(UploadError);
      }
    }

    /** The "Change File" button, disabled while an analysis runs: back to the upload step. */
    method ChangeFile()
      requires Valid() && !isAnalyzing
      modifies this
      ensures Valid()
      ensures currentStep == 2
      ensures patientData == old(patientData) && uploadedFile == old(uploadedFile) && fileUrl == old(fileUrl)
      ensures isAnalyzing == old(isAnalyzing) && analysisProgress == old(analysisProgress)
      ensures diagnosisResult == old(diagnosisResult) && error == old(error)
      ensures inFlight == old(inFlight) && analysisType == old(analysisType)
    {
      currentStep := 2;
    }

    /**
     * The synchronous start of `performDiagnosis`, reached through a button that is
     * disabled while an analysis runs. Without a (non-empty) file URL nothing happens.
     */
    method BeginDiagnosis() returns (started: bool)
      requires Valid() && !isAnalyzing
      modifies this
      ensures Valid()
      ensures started <==> old(fileUrl).Some? && old(fileUrl).value != ""
      ensures started ==> && isAnalyzing && analysisProgress == 0 && error == None
                          && inFlight == Some(Request(old(patientData), old(fileUrl).value, old(analysisType)))
      ensures !started ==> && isAnalyzing == old(isAnalyzing) && analysisProgress == old(analysisProgress)
                           && error == old(error) && inFlight == old(inFlight)
      ensures currentStep == old(currentStep) && patientData == old(patientData)
      ensures uploadedFile == old(uploadedFile) && fileUrl == old(fileUrl)
      ensures diagnosisResult == old(diagnosisResult) && analysisType == old(analysisType)
    {
      if fileUrl.None? || fileUrl.value == "" {
        return false;
      }
      isAnalyzing := true;
      analysisProgress := 0;
      error := None;
      inFlight := Some(Request(patientData, fileUrl.value, analysisType));
      started := true;
    }

    /** One firing of the progress interval while the run waits. */
    method Tick()
      requires Valid() && isAnalyzing
      modifies this
      ensures Valid()
      ensures analysisProgress == NextProgress(old(analysisProgress)) && analysisProgress <= 90
      ensures currentStep == old(currentStep) && patientData == old(patientData)
      ensures uploadedFile == old(uploadedFile) && fileUrl == old(fileUrl)
      ensures isAnalyzing == old(isAnalyzing) && diagnosisResult == old(diagnosisResult)
      ensures error == old(error) && inFlight == old(inFlight) && analysisType == old(analysisType)
    {
      analysisProgress := if analysisProgress + 8 < 90 then analysisProgress + 8 else 90;
    }

    /**
     * The asynchronous rest of `performDiagnosis`, given the outcomes of `Patient.create`,
     * `DiseaseInfo.list`, `InvokeLLM` and `DiagnosisReport.create`. Returns the request
     * sent to `InvokeLLM` and the record handed to `DiagnosisReport.create`, for runs that
     * got that far.
     */
    method FinishDiagnosis(patient: Outcome<string>, catalogue: Outcome<seq<DiseaseInfo>>,
                           llm: Outcome<LlmResult>, created: Outcome<string>)
      returns (sent: Option<ClassifierRequest>, submitted: Option<ReportData>)
      requires Valid() && isAnalyzing
      modifies this
      ensures Valid()
      ensures !isAnalyzing && inFlight == None
      ensures var end := RunAnalysis(old(inFlight).value, patient, catalogue, llm, created);
              end.Saved? ==> currentStep == 4 && diagnosisResult == Some(end.result) && error == old(error)
      ensures var end := RunAnalysis(old(inFlight).value, patient, catalogue, llm, created);
              !end.Saved? ==> && currentStep == old(currentStep) && diagnosisResult == old(diagnosisResult)
                              && error == Some(AnalysisError)
      ensures var end := RunAnalysis(old(inFlight).value, patient, catalogue, llm, created);
              analysisProgress == if end.NoAnswer? then old(analysisProgress) else 100
      ensures sent == if patient.Success? && catalogue.Success?
                       then Some(ClassifierRequestFor(old(inFlight).value, catalogue.value)) else None
      ensures var end := RunAnalysis(old(inFlight).value, patient, catalogue, llm, created);
              submitted == if end.Saved? || end.NotSaved? then Some(end.report) else None
      ensures patientData == old(patientData) && uploadedFile == old(uploadedFile) && fileUrl == old(fileUrl)
      ensures analysisType == old(analysisType)
    {
      var req := inFlight.value;
      sent := None;
      if patient.Success? && catalogue.Success? {
        sent := Some(ClassifierRequestFor(req, catalogue.value));
      }
      var end := RunAnalysis(req, patient, catalogue, llm, created);
      submitted := Settle(end);
    }

    /** The state updates that end a run: progress, result or error, and the cleared flag. */
    method Settle(end: AnalysisEnd) returns (submitted: Option<ReportData>)
      requires Valid() && isAnalyzing
      modifies this
      ensures Valid()
      ensures !isAnalyzing && inFlight == None
      ensures end.Saved? ==> currentStep == 4 && diagnosisResult == Some(end.result) && error == old(error)
      ensures !end.Saved? ==> && currentStep == old(currentStep) && diagnosisResult == old(diagnosisResult)
                              && error == Some(AnalysisError)
      ensures analysisProgress == if end.NoAnswer? then old(analysisProgress) else 100
      ensures submitted == if end.Saved? || end.NotSaved? then Some(end.report) else None
      ensures patientData == old(patientData) && uploadedFile == old(uploadedFile) && fileUrl == old(fileUrl)
      ensures analysisType == old(analysisType)
    {
      if !end.NoAnswer? {
        analysisProgress := 100;
      }
      submitted := None;
      match end {
        case Saved(report, result) =>
          submitted := Some(report);
          diagnosisResult := Some(result);
          currentStep := 4;
        case NotSaved(report) =>
          submitted := Some(report);
          error := Some(AnalysisError);
        case _ =>
          error := Some(AnalysisError);
      }
      isAnalyzing := false;
      inFlight := None;
    }

    /**
     * `resetDiagnosis`: back to the intake step with an empty record and no file, result,
     * error or progress. The analysis flag and a run in flight are left alone.
     */
    method ResetDiagnosis()
      requires Valid()
      modifies this
      ensures Valid()
      ensures currentStep == 1 && patientData == map[] && uploadedFile == None && fileUrl == None
      ensures diagnosisResult == None && error == None && analysisProgress == 0
      ensures isAnalyzing == old(isAnalyzing) && inFlight == old(inFlight) && analysisType == old(analysisType)
      ensures Cleared()
      ensures old(Cleared()) ==> unchanged(this)
    {
      currentStep := 1;
      patientData := map[];
      uploadedFile := None;
      fileUrl := None;
      diagnosisResult := None;
      error := None;
      analysisProgress := 0;
    }
  }
}
