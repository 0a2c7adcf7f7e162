/** The application's records: bills and their line items, analyses and
    their findings, negotiation scripts, the settings record and the two
    response shapes an AI provider returns. Amounts are whole cents; a
    confidence score is carried along and never computed on. */
module Models {
  import opened Wrappers

  datatype BillCategory =
    | Phone | Internet | Cable | Electric | Gas | Water
    | Insurance | Medical | Subscription | Other

  datatype LineItem = LineItem(
    description: string,
    amount: int,
    flagged: bool,
    flagReason: Option<string>,
    typicalAmount: Option<int>,
    confidence: real)

  datatype Bill = Bill(
    id: string,
    imageUri: string,
    category: BillCategory,
    provider: string,
    totalAmount: int,
    billDate: string,
    createdAt: string,
    lineItems: seq<LineItem>)

  datatype FindingType =
    | Overcharge | HiddenFee | Error | RateIncrease | UnnecessaryService | Optimization

  /** The four severities of the type, plus whatever other text a parsed
      response may carry in that field: the type is not checked at run time. */
  datatype FindingSeverity = Low | Medium | High | Critical | Unrecognized(raw: string)

  datatype Finding = Finding(
    kind: FindingType,
    severity: FindingSeverity,
    title: string,
    description: string,
    estimatedSavings: int,
    confidence: real)

  datatype AnalysisResult = AnalysisResult(
    billId: string,
    summary: string,
    overallRiskScore: int,
    totalIdentifiedSavings: int,
    findings: seq<Finding>,
    createdAt: string)

  datatype ScriptFormat = PhoneScript | EmailScript | ChatScript

  datatype ScriptSection = ScriptSection(title: string, content: string)

  datatype NegotiationScript = NegotiationScript(
    billId: string,
    format: ScriptFormat,
    sections: seq<ScriptSection>,
    keyPoints: seq<string>,
    createdAt: string)

  datatype AIProviderType = OpenRouter | OpenAI | Anthropic

  datatype AppSettings = AppSettings(
    aiProvider: AIProviderType,
    isPro: bool,
    scansUsed: int,
    maxFreeScans: int)

  /** The settings a fresh install starts with; every account is Pro. */
  const DEFAULT_SETTINGS: AppSettings := AppSettings(OpenRouter, true, 0, 3)

  datatype BillAnalysisResponse = BillAnalysisResponse(
    provider: string,
    category: BillCategory,
    totalAmount: int,
    billDate: string,
    lineItems: seq<LineItem>,
    findings: seq<Finding>,
    summary: string,
    overallRiskScore: int,
    totalIdentifiedSavings: int)

  datatype ScriptGenerationResponse = ScriptGenerationResponse(
    sections: seq<ScriptSection>,
    keyPoints: seq<string>)
}
