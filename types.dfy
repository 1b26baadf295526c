/** The data model: the document kinds, the analysis record and its sections,
    the signed-in user and the per-document analysis state. */
module Types {
  import opened Wrappers

  /** The five declared document kinds. On the wire each is its own name as a string. */
  datatype DocumentType = Prescription | LabReport | HospitalBill | InsuranceRejection | Unknown

  const AllDocumentTypes: set<DocumentType> :=
    {Prescription, LabReport, HospitalBill, InsuranceRejection, Unknown}

  /** The string value of each enum member. */
  function DocumentTypeName(d: DocumentType): string
  {
    match d
    case Prescription => "PRESCRIPTION"
    case LabReport => "LAB_REPORT"
    case HospitalBill => "HOSPITAL_BILL"
    case InsuranceRejection => "INSURANCE_REJECTION"
    case Unknown => "UNKNOWN"
  }

  /** The enum member a wire string denotes, if it denotes one. */
  function AsDocumentType(s: string): (r: Option<DocumentType>)
    ensures r.Some? ==> DocumentTypeName(r.value) == s
    ensures r.None? ==> forall d :: DocumentTypeName(d) != s
  {
    if s == "PRESCRIPTION" then Some(Prescription)
    else if s == "LAB_REPORT" then Some(LabReport)
    else if s == "HOSPITAL_BILL" then Some(HospitalBill)
    else if s == "INSURANCE_REJECTION" then Some(InsuranceRejection)
    else if s == "UNKNOWN" then Some(Unknown)
    else None
  }

  /** There are exactly five document kinds, each named by a different string. */
  lemma DocumentTypesAreFive()
    ensures |AllDocumentTypes| == 5
    ensures forall d :: d in AllDocumentTypes
    ensures forall d :: AsDocumentType(DocumentTypeName(d)) == Some(d)
  {
    forall d ensures d in AllDocumentTypes {
      match d
      case Prescription =>
      case LabReport =>
      case HospitalBill =>
      case InsuranceRejection =>
      case Unknown =>
    }
  }

  /** The three region tiers a user's city can be in. */
  datatype CityTier = Tier1 | Tier2 | Tier3

  function CityTierLabel(t: CityTier): string
  {
    match t
    case Tier1 => "Tier-1"
    case Tier2 => "Tier-2"
    case Tier3 => "Tier-3"
  }

  /** The tier a label denotes: exactly the three labels denote one, each a different tier. */
  function AsCityTier(s: string): (r: Option<CityTier>)
    ensures r.Some? ==> CityTierLabel(r.value) == s
    ensures r.None? ==> forall t :: CityTierLabel(t) != s
  {
    if s == "Tier-1" then Some(Tier1)
    else if s == "Tier-2" then Some(Tier2)
    else if s == "Tier-3" then Some(Tier3)
    else None
  }

  lemma CityTierLabelRoundTrip(t: CityTier)
    ensures AsCityTier(CityTierLabel(t)) == Some(t)
  {
  }

  datatype GenericAlternative = GenericAlternative(
    brandedName: string,
    genericName: string,
    approxBrandedPrice: string,
    approxGenericPrice: string,
    savingsPercentage: string)

  /** The expected price band: all three bounds are required. */
  datatype ExpectedRange = ExpectedRange(privateLow: string, privateHigh: string, government: string)

  /** A cost benchmark; only the billed amount is optional. */
  datatype CostInsight = CostInsight(
    procedureName: string,
    billedAmount: Option<string>,
    expectedRange: ExpectedRange,
    isOvercharged: bool,
    tierComparison: string)

  datatype SimplifiedTerm = SimplifiedTerm(jargon: string, meaning: string, importance: string)

  datatype CriticalFinding = CriticalFinding(issue: string, description: string, action: string)

  datatype PotentialOvercharge = PotentialOvercharge(item: string, reason: string, suggestedAction: string)

  datatype BillAnalysis = BillAnalysis(totalAmount: string, potentialOvercharges: seq<PotentialOvercharge>)

  datatype InsuranceInsights = InsuranceInsights(rejectionReason: Option<string>, appealAdvice: Option<string>)

  /** One analysis. `documentType`, `summary`, `simplifiedTerms`, `criticalFindings` and
      `nextSteps` are always present; the four extra sections, the id and the timestamp
      may be absent. `documentType` is the string the service sent: the response schema
      types it as a plain string and the reply is cast without a check, so it need not be
      one of the five DocumentType names. */
  datatype MedicalAnalysis = MedicalAnalysis(
    id: Option<string>,
    timestamp: Option<int>,
    documentType: string,
    summary: string,
    simplifiedTerms: seq<SimplifiedTerm>,
    criticalFindings: seq<CriticalFinding>,
    genericAlternatives: Option<seq<GenericAlternative>>,
    costInsights: Option<CostInsight>,
    billAnalysis: Option<BillAnalysis>,
    insuranceInsights: Option<InsuranceInsights>,
    nextSteps: seq<string>)

  datatype User = User(id: string, name: string, email: string, cityTier: Option<CityTier>)

  /** The browser file handle; the core reads only its MIME type. */
  datatype FileRef = FileRef(name: string, mimeType: string)

  /** The per-document state: five fields, all but `isAnalyzing` nullable. */
  datatype AnalysisState = AnalysisState(
    file: Option<FileRef>,
    preview: Option<string>,
    isAnalyzing: bool,
    result: Option<MedicalAnalysis>,
    error: Option<string>)

  /** The state the app starts in and every reset returns to. */
  const IdleState := AnalysisState(None, None, false, None, None)
}
