/** What the result view shows for one analysis: the badge colour and label of the
    document type, and which sections appear, with which rows, in which order. */
module AnalysisView {
  import opened Wrappers
  import opened Types
  import opened JsBuiltins

  const PurpleBadge := "bg-purple-100 text-purple-700"
  const AmberBadge := "bg-amber-100 text-amber-700"
  const EmeraldBadge := "bg-emerald-100 text-emerald-700"
  const BlueBadge := "bg-blue-100 text-blue-700"

  const DisclaimerText :=
    "Medical Disclaimer: Not a substitute for professional advice. Consult your doctor before changing medications."

  /** The badge classes for a document-type string: prescriptions purple, hospital bills
      amber, lab reports emerald, and any other string at all blue. */
  function DocTypeColor(t: string): (r: string)
    ensures AsDocumentType(t) == Some(Prescription) ==> r == PurpleBadge
    ensures AsDocumentType(t) == Some(HospitalBill) ==> r == AmberBadge
    ensures AsDocumentType(t) == Some(LabReport) ==> r == EmeraldBadge
    ensures AsDocumentType(t) !in {Some(Prescription), Some(HospitalBill), Some(LabReport)} ==> r == BlueBadge
    ensures r == PurpleBadge <==> AsDocumentType(t) == Some(Prescription)
    ensures r == AmberBadge <==> AsDocumentType(t) == Some(HospitalBill)
    ensures r == EmeraldBadge <==> AsDocumentType(t) == Some(LabReport)
  {
    BadgesDistinct();
    if t == DocumentTypeName(Prescription) then PurpleBadge
    else if t == DocumentTypeName(HospitalBill) then AmberBadge
    else if t == DocumentTypeName(LabReport) then EmeraldBadge
    else BlueBadge
  }

  /** The four badge colours differ, so the colour tells the three highlighted kinds apart
      from each other and from everything else. */
  lemma BadgesDistinct()
    ensures PurpleBadge != AmberBadge && PurpleBadge != EmeraldBadge && PurpleBadge != BlueBadge
    ensures AmberBadge != EmeraldBadge && AmberBadge != BlueBadge && EmeraldBadge != BlueBadge
  {
    assert PurpleBadge[3] == 'p' && AmberBadge[3] == 'a' && EmeraldBadge[3] == 'e' && BlueBadge[3] == 'b';
  }

  /** The label shown for a document-type string: its first '_' becomes a space. */
  function TypeLabel(t: string): (r: string)
    ensures |r| == |t|
    ensures '_' !in t ==> r == t
  {
    ReplaceFirst(t, '_', ' ')
  }

  /** A name made of a head without '_', one '_' and any tail is labelled with that '_'
      turned into a space and the tail kept as it is. */
  lemma LabelOfJoinedName(name: string, head: string, tail: string)
    requires '_' !in head && name == head + ['_'] + tail
    ensures TypeLabel(name) == head + [' '] + tail
  {
    ReplaceFirstJoined(head, '_', ' ', tail);
  }

  /** The one-word kind names are shown as they are. */
  lemma OneWordKindLabels(name: string)
    requires name == DocumentTypeName(Prescription) || name == DocumentTypeName(Unknown)
    ensures TypeLabel(name) == name
  {
    assert '_' !in name;
  }

  /** The two-word kind names are the two words joined by one '_', so their labels are the
      two words joined by a space: "HOSPITAL BILL", "LAB REPORT", "INSURANCE REJECTION". */
  lemma TwoWordKindNames()
    ensures DocumentTypeName(HospitalBill) == "HOSPITAL" + ['_'] + "BILL"
    ensures DocumentTypeName(LabReport) == "LAB" + ['_'] + "REPORT"
    ensures DocumentTypeName(InsuranceRejection) == "INSURANCE" + ['_'] + "REJECTION"
    ensures '_' !in "HOSPITAL" && '_' !in "LAB" && '_' !in "INSURANCE"
  {
  }

  /** The hospital-bill kind is labelled "HOSPITAL BILL". */
  lemma HospitalBillLabel(name: string)
    requires name == DocumentTypeName(HospitalBill)
    ensures TypeLabel(name) == "HOSPITAL BILL"
  {
    TwoWordKindNames();
    LabelOfJoinedName(name, "HOSPITAL", "BILL");
  }

  /** The lab-report kind is labelled "LAB REPORT". */
  lemma LabReportLabel(name: string)
    requires name == DocumentTypeName(LabReport)
    ensures TypeLabel(name) == "LAB REPORT"
  {
    TwoWordKindNames();
    LabelOfJoinedName(name, "LAB", "REPORT");
  }

  /** The insurance-rejection kind is labelled "INSURANCE REJECTION". */
  lemma InsuranceRejectionLabel(name: string)
    requires name == DocumentTypeName(InsuranceRejection)
    ensures TypeLabel(name) == "INSURANCE REJECTION"
  {
    TwoWordKindNames();
    LabelOfJoinedName(name, "INSURANCE", "REJECTION");
  }

  /** One row of the generic-savings list. */
  datatype SavingsCard = SavingsCard(
    brandedName: string, genericName: string, brandedPrice: string, genericPrice: string, badge: string)

  /** One decoded-jargon card. */
  datatype JargonCard = JargonCard(jargon: string, meaning: string, impact: string)

  /** One critical-observation card. */
  datatype FindingCard = FindingCard(issue: string, description: string, action: string)

  /** The overcharge banner quotes the billed amount, which may be missing (then it shows nothing). */
  datatype HighCostWarning = HighCostWarning(billedAmount: Option<string>)

  datatype Section =
    | Disclaimer(text: string)
    | Header(badgeClass: string, typeLabel: string, summary: string)
    | GenericSavings(savings: seq<SavingsCard>)
    | CostBenchmark(
        procedureName: string, tierComparison: string,
        privateLow: string, privateHigh: string, government: string,
        warning: Option<HighCostWarning>)
    | DecodedJargon(terms: seq<JargonCard>)
    | CriticalObservations(findings: seq<FindingCard>)

  function SavingsCardOf(g: GenericAlternative): SavingsCard
  {
    SavingsCard(g.brandedName, g.genericName, g.approxBrandedPrice, g.approxGenericPrice, "Save " + g.savingsPercentage)
  }

  function JargonCardOf(t: SimplifiedTerm): JargonCard
  {
    JargonCard(t.jargon, t.meaning, "Impact: " + t.importance)
  }

  function FindingCardOf(f: CriticalFinding): FindingCard
  {
    FindingCard(f.issue, f.description, "Action: " + f.action)
  }

  predicate ShowsGenericSavings(a: MedicalAnalysis)
  {
    a.genericAlternatives.Some? && |a.genericAlternatives.value| > 0
  }

  predicate ShowsCostBenchmark(a: MedicalAnalysis)
  {
    a.costInsights.Some?
  }

  function CostSection(c: CostInsight): Section
  {
    CostBenchmark(
      c.procedureName, c.tierComparison,
      c.expectedRange.privateLow, c.expectedRange.privateHigh, c.expectedRange.government,
      if c.isOvercharged then Some(HighCostWarning(c.billedAmount)) else None)
  }

  /** The sections of the view, top to bottom: the disclaimer, the header, the optional
      generic-savings and cost-benchmark sections, then the jargon and the findings. */
  function Render(a: MedicalAnalysis): (v: seq<Section>)
    ensures 4 <= |v| <= 6
    ensures v[0] == Disclaimer(DisclaimerText)
    ensures v[1] == Header(DocTypeColor(a.documentType), TypeLabel(a.documentType), a.summary)
    ensures v[|v| - 2] == DecodedJargon(Map(JargonCardOf, a.simplifiedTerms))
    ensures v[|v| - 1] == CriticalObservations(Map(FindingCardOf, a.criticalFindings))
    ensures v == v[..2] + OptionalSections(a) + v[|v| - 2..]
  {
    var head := [Disclaimer(DisclaimerText), Header(DocTypeColor(a.documentType), TypeLabel(a.documentType), a.summary)];
    var optional := OptionalSections(a);
    var tail := [DecodedJargon(Map(JargonCardOf, a.simplifiedTerms)),
                 CriticalObservations(Map(FindingCardOf, a.criticalFindings))];
    var v := head + optional + tail;
    assert v[..2] == head && v[|v| - 2..] == tail;
    v
  }

  /** The sections between the header and the jargon, each shown only when its data is there. */
  function OptionalSections(a: MedicalAnalysis): (m: seq<Section>)
    ensures |m| == (if ShowsGenericSavings(a) then 1 else 0) + (if ShowsCostBenchmark(a) then 1 else 0)
    ensures forall s :: s in m && s.GenericSavings? ==>
      ShowsGenericSavings(a) && s == GenericSavings(Map(SavingsCardOf, a.genericAlternatives.value))
    ensures forall s :: s in m && s.CostBenchmark? ==>
      ShowsCostBenchmark(a) && s == CostSection(a.costInsights.value)
    ensures ShowsGenericSavings(a) ==> m[0] == GenericSavings(Map(SavingsCardOf, a.genericAlternatives.value))
    ensures ShowsCostBenchmark(a) ==> m[|m| - 1] == CostSection(a.costInsights.value)
  {
    (if ShowsGenericSavings(a) then [GenericSavings(Map(SavingsCardOf, a.genericAlternatives.value))] else [])
    + (if ShowsCostBenchmark(a) then [CostSection(a.costInsights.value)] else [])
  }

  /** A section of a kind that only the optional part produces is in the view iff it is
      in the optional part. */
  lemma OptionalKindsComeFromOptionalSections(a: MedicalAnalysis, s: Section)
    requires s.GenericSavings? || s.CostBenchmark?
    ensures s in Render(a) <==> s in OptionalSections(a)
  {
    var v := Render(a);
    assert v == v[..2] + OptionalSections(a) + v[|v| - 2..];
    assert s !in v[..2] && s !in v[|v| - 2..];
  }

  /** The generic-savings section is shown iff the analysis carries a non-empty list of
      alternatives, and then with one card per alternative, in input order. */
  lemma GenericSavingsShownIffNonEmpty(a: MedicalAnalysis)
    ensures (exists s :: s in Render(a) && s.GenericSavings?) <==> ShowsGenericSavings(a)
    ensures forall s :: s in Render(a) && s.GenericSavings? ==>
      var alts := a.genericAlternatives.value;
      && |s.savings| == |alts|
      && forall i :: 0 <= i < |alts| ==> s.savings[i] == SavingsCardOf(alts[i])
  {
    var m := OptionalSections(a);
    forall s: Section | s.GenericSavings? ensures s in Render(a) <==> s in m {
      OptionalKindsComeFromOptionalSections(a, s);
    }
    if ShowsGenericSavings(a) {
      assert m[0] in m;
    }
  }

  /** The cost-benchmark section is shown iff the analysis carries cost insights, and then
      with the procedure, the tier comparison and all three bounds of the expected range. */
  lemma CostBenchmarkShownIffPresent(a: MedicalAnalysis)
    ensures (exists s :: s in Render(a) && s.CostBenchmark?) <==> ShowsCostBenchmark(a)
    ensures forall s :: s in Render(a) && s.CostBenchmark? ==> s == CostSection(a.costInsights.value)
  {
    var m := OptionalSections(a);
    forall s: Section | s.CostBenchmark? ensures s in Render(a) <==> s in m {
      OptionalKindsComeFromOptionalSections(a, s);
    }
    if ShowsCostBenchmark(a) {
      assert m[|m| - 1] in m;
    }
  }

  /** The high-cost warning appears iff the benchmark is shown and flags an overcharge. */
  lemma HighCostWarningShownIffOvercharged(a: MedicalAnalysis)
    ensures (exists s :: s in Render(a) && s.CostBenchmark? && s.warning.Some?)
        <==> (a.costInsights.Some? && a.costInsights.value.isOvercharged)
    ensures forall s :: s in Render(a) && s.CostBenchmark? && s.warning.Some? ==>
      s.warning.value.billedAmount == a.costInsights.value.billedAmount
  {
    CostBenchmarkShownIffPresent(a);
  }

  /** Every jargon term and every finding is shown once, in input order, as its own card. */
  lemma EveryTermAndFindingShownInOrder(a: MedicalAnalysis)
    ensures
      var v := Render(a);
      && |v[|v| - 2].terms| == |a.simplifiedTerms|
      && (forall i | 0 <= i < |a.simplifiedTerms| ::
            v[|v| - 2].terms[i] == JargonCard(a.simplifiedTerms[i].jargon, a.simplifiedTerms[i].meaning,
                                              "Impact: " + a.simplifiedTerms[i].importance))
    ensures
      var v := Render(a);
      && |v[|v| - 1].findings| == |a.criticalFindings|
      && (forall j | 0 <= j < |a.criticalFindings| ::
            v[|v| - 1].findings[j] == FindingCard(a.criticalFindings[j].issue, a.criticalFindings[j].description,
                                                  "Action: " + a.criticalFindings[j].action))
  {
  }

  /** The bill analysis, the insurance insights, the next steps, the id and the timestamp
      never influence what this view shows. */
  lemma RenderIgnoresUnshownFields(
    a: MedicalAnalysis, id: Option<string>, timestamp: Option<int>,
    bill: Option<BillAnalysis>, insurance: Option<InsuranceInsights>, steps: seq<string>)
    ensures Render(a) == Render(a.(id := id, timestamp := timestamp, billAnalysis := bill,
                                   insuranceInsights := insurance, nextSteps := steps))
  {
  }
}
