/** The value types of the authorization tracker: the status enum, the two
    authorization records, the caller-supplied payloads, the collaborator
    replies and the responses the operations hand back. */
module Records {

  type CaseId = string

  /** Monetary amounts, exact, in the smallest currency unit. */
  type Money = int

  /** An instant read from the clock or parsed from an ISO date, kept opaque. */
  type Timestamp = string

  datatype Option<T> = None | Some(value: T) {
    function GetOr(default: T): T {
      match this
      case Some(v) => v
      case None => default
    }
  }

  datatype AuthorizationStatus =
    | Pending
    | QueryRaised
    | QueryReplied
    | Approved
    | Rejected
    | PartiallyApproved

  /** One query round: when it was answered, what was asked, what was replied. */
  datatype QueryEntry = QueryEntry(date: Timestamp, query: string, response: string)

  datatype PreAuthorizationRecord = PreAuthorizationRecord(
    caseId: CaseId,
    requestDate: Timestamp,
    requestedAmount: Money,
    approvalStatus: AuthorizationStatus,
    approvedAmount: Option<Money>,
    approvalNumber: Option<string>,
    approvalDate: Option<Timestamp>,
    queries: seq<QueryEntry>,
    rejectionReason: Option<string>)

  datatype FinalAuthorizationRecord = FinalAuthorizationRecord(
    caseId: CaseId,
    requestDate: Timestamp,
    finalBillAmount: Money,
    preAuthApproved: Money,
    additionalAmountRequested: Money,
    approvalStatus: AuthorizationStatus,
    approvedAmount: Option<Money>,
    approvalNumber: Option<string>,
    approvalDate: Option<Timestamp>,
    queries: seq<QueryEntry>,
    deductions: map<string, Money>,
    rejectionReason: Option<string>,
    documentsSubmitted: seq<string>)

  /** The patient dictionary registered with a pre-authorization request.
      An empty one is falsy in the tracker's truth tests. */
  type PatientData = map<string, string>

  /** The discharge dictionary: the final bill and the clinical and itemised
      fields that only feed the letter text. */
  datatype DischargeData = DischargeData(finalBillAmount: Money, details: map<string, string>)

  /** The approval dictionary; `deductions` is optional and only read by the
      final approval. */
  datatype ApprovalData = ApprovalData(
    approvedAmount: Money,
    approvalNumber: string,
    approvalDate: Timestamp,
    deductions: Option<map<string, Money>>)

  /** What a collaborator call (letter generator, gap analyser) gives back:
      its text, or an exception that propagates to the caller. */
  datatype Reply = Produced(text: string) | Failed

  datatype GapAnalysis = GapAnalysis(
    finalBill: Money,
    approvedAmount: Money,
    gapAmount: Money,
    gapPercentage: real,
    deductions: map<string, Money>,
    aiAnalysis: string,
    requiresEscalation: bool)

  /** The successful replies, one per operation, named after their status key. */
  datatype Response =
    | PreAuthSent(caseId: CaseId, requestedAmount: Money)
    | PreAuthQueryReplied(responseHtml: string)
    | PreAuthApproved(approvedAmount: Money)
    | FinalAuthGenerated(requestLetterHtml: string, additionalRequested: Money)
    | QueryAnalyzed(responseHtml: string)
    | FinalAuthApproved(analysis: GapAnalysis)

  /** An operation either answers, returns an error dictionary, or lets a
      collaborator's exception escape. */
  datatype Outcome = Ok(response: Response) | Error(message: string) | Raised

  const PreAuthNotFound: string := "Pre-auth not found"
  const PreAuthOrPatientNotFound: string := "Pre-auth or patient data not found"
  const FinalAuthOrDischargeNotFound: string := "Final auth or discharge data not found"
  const FinalAuthNotFound: string := "Final auth not found"

  /** The fixed checklist attached to every final-authorization record. */
  const RequiredDocuments: seq<string> := [
    "Discharge Summary", "Final Bill (itemized)", "Investigation Reports",
    "Pharmacy Bills", "OT Notes", "IPD Charts"
  ]
}
