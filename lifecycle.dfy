/** The tracker's behaviour as a state machine over its four maps: one
    transition function per operation, giving the new maps and the reply. */
module Lifecycle {
  import opened Records
  import opened Figures

  /** The four dictionaries the tracker keeps, keyed by case id. */
  datatype State = State(
    cases: map<CaseId, PatientData>,
    preAuthorizations: map<CaseId, PreAuthorizationRecord>,
    finalAuthorizations: map<CaseId, FinalAuthorizationRecord>,
    dischargeRecords: map<CaseId, DischargeData>)

  const Initial: State := State(map[], map[], map[], map[])

  datatype Transition = Transition(after: State, reply: Outcome)

  /** `after` is `before` with exactly one more entry, `e`, at the end. */
  predicate AppendedOnce(before: seq<QueryEntry>, after: seq<QueryEntry>, e: QueryEntry)
  {
    |after| == |before| + 1 && after[..|before|] == before && after[|before|] == e
  }

  /** Only the pre-authorization of `caseId` may differ between `s` and `s'`. */
  predicate OnlyPreAuthChanged(s: State, s': State, caseId: CaseId)
  {
    && s'.cases == s.cases
    && s'.finalAuthorizations == s.finalAuthorizations
    && s'.dischargeRecords == s.dischargeRecords
    && caseId in s'.preAuthorizations
    && s'.preAuthorizations == s.preAuthorizations[caseId := s'.preAuthorizations[caseId]]
  }

  /** Only the final authorization of `caseId` may differ between `s` and `s'`. */
  predicate OnlyFinalAuthChanged(s: State, s': State, caseId: CaseId)
  {
    && s'.cases == s.cases
    && s'.preAuthorizations == s.preAuthorizations
    && s'.dischargeRecords == s.dischargeRecords
    && caseId in s'.finalAuthorizations
    && s'.finalAuthorizations == s.finalAuthorizations[caseId := s'.finalAuthorizations[caseId]]
  }

  /** The patient data of `caseId` is registered and non-empty (a Python
      truth test on the dictionary). */
  predicate HasPatient(s: State, caseId: CaseId)
  {
    caseId in s.cases && s.cases[caseId] != map[]
  }

  /** `send_preauth_request`: register the patient data and (re)create the
      pre-authorization, whether or not one existed. */
  function SendPreauthRequest(s: State, caseId: CaseId, patientData: PatientData,
                              estimatedCost: Money, now: Timestamp): (t: Transition)
    ensures t.reply == Ok(PreAuthSent(caseId, estimatedCost))
    ensures t.after.cases == s.cases[caseId := patientData]
    ensures t.after.finalAuthorizations == s.finalAuthorizations
    ensures t.after.dischargeRecords == s.dischargeRecords
    ensures caseId in t.after.preAuthorizations
    ensures t.after.preAuthorizations == s.preAuthorizations[caseId := t.after.preAuthorizations[caseId]]
    ensures var p := t.after.preAuthorizations[caseId];
      && p.caseId == caseId && p.requestDate == now
      && p.requestedAmount == estimatedCost && p.approvalStatus == Pending
      && p.approvedAmount == None && p.approvalNumber == None && p.approvalDate == None
      && p.queries == [] && p.rejectionReason == None
  {
    var record := PreAuthorizationRecord(caseId, now, estimatedCost, Pending,
                                         None, None, None, [], None);
    Transition(
      s.(cases := s.cases[caseId := patientData],
         preAuthorizations := s.preAuthorizations[caseId := record]),
      Ok(PreAuthSent(caseId, estimatedCost)))
  }

  /** `handle_preauth_query`: answer a query on an existing pre-authorization
      with the letter generator's text, log the round, mark it replied. */
  function HandlePreauthQuery(s: State, caseId: CaseId, query: string,
                              letter: Reply, now: Timestamp): (t: Transition)
    ensures caseId !in s.preAuthorizations ==> t == Transition(s, Error(PreAuthNotFound))
    ensures caseId in s.preAuthorizations && letter.Failed? ==> t == Transition(s, Raised)
    ensures caseId in s.preAuthorizations && letter.Produced? ==>
      && t.reply == Ok(PreAuthQueryReplied(letter.text))
      && OnlyPreAuthChanged(s, t.after, caseId)
      && var before, after := s.preAuthorizations[caseId], t.after.preAuthorizations[caseId];
      && AppendedOnce(before.queries, after.queries, QueryEntry(now, query, letter.text))
      && after == before.(queries := after.queries, approvalStatus := QueryReplied)
  {
    if caseId !in s.preAuthorizations then
      Transition(s, Error(PreAuthNotFound))
    else match letter
      case Failed => Transition(s, Raised)
      case Produced(html) =>
        var p := s.preAuthorizations[caseId];
        var p' := p.(queries := p.queries + [QueryEntry(now, query, html)],
                     approvalStatus := QueryReplied);
        Transition(s.(preAuthorizations := s.preAuthorizations[caseId := p']),
                   Ok(PreAuthQueryReplied(html)))
  }

  /** `record_preauth_approval`: store the insurer's approval on an existing
      pre-authorization and echo the stored amount. */
  function RecordPreauthApproval(s: State, caseId: CaseId, approval: ApprovalData): (t: Transition)
    ensures caseId !in s.preAuthorizations ==> t == Transition(s, Error(PreAuthNotFound))
    ensures caseId in s.preAuthorizations ==>
      && OnlyPreAuthChanged(s, t.after, caseId)
      && var before, after := s.preAuthorizations[caseId], t.after.preAuthorizations[caseId];
      && after == before.(approvalStatus := Approved,
                          approvedAmount := Some(approval.approvedAmount),
                          approvalNumber := Some(approval.approvalNumber),
                          approvalDate := Some(approval.approvalDate))
      && t.reply.Ok? && t.reply.response.PreAuthApproved?
      && Some(t.reply.response.approvedAmount) == after.approvedAmount
  {
    if caseId !in s.preAuthorizations then
      Transition(s, Error(PreAuthNotFound))
    else
      var p := s.preAuthorizations[caseId];
      var p' := p.(approvalStatus := Approved,
                   approvedAmount := Some(approval.approvedAmount),
                   approvalNumber := Some(approval.approvalNumber),
                   approvalDate := Some(approval.approvalDate));
      Transition(s.(preAuthorizations := s.preAuthorizations[caseId := p']),
                 Ok(PreAuthApproved(p'.approvedAmount.value)))
  }

  /** The pre-authorized amount carried into a final request: the approved
      amount, or 0 while none is recorded. */
  function PreAuthAmount(p: PreAuthorizationRecord): (a: Money)
    ensures p.approvedAmount.Some? ==> a == p.approvedAmount.value
    ensures p.approvedAmount.None? ==> a == 0
  {
    p.approvedAmount.GetOr(0)
  }

  /** `generate_final_auth_request`: with a pre-authorization and non-empty
      patient data, store the discharge data, then (if the letter is
      written) create a pending final authorization. */
  function GenerateFinalAuthRequest(s: State, caseId: CaseId, discharge: DischargeData,
                                    letter: Reply, now: Timestamp): (t: Transition)
    ensures !(caseId in s.preAuthorizations && HasPatient(s, caseId)) ==>
      t == Transition(s, Error(PreAuthOrPatientNotFound))
    ensures caseId in s.preAuthorizations && HasPatient(s, caseId) ==>
      && t.after.cases == s.cases
      && t.after.preAuthorizations == s.preAuthorizations
      && t.after.dischargeRecords == s.dischargeRecords[caseId := discharge]
      && (letter.Failed? ==> t.after.finalAuthorizations == s.finalAuthorizations && t.reply == Raised)
      && (letter.Produced? ==>
            && caseId in t.after.finalAuthorizations
            && t.after.finalAuthorizations
                 == s.finalAuthorizations[caseId := t.after.finalAuthorizations[caseId]]
            && var f, approved := t.after.finalAuthorizations[caseId],
                                  PreAuthAmount(s.preAuthorizations[caseId]);
            && f.caseId == caseId && f.requestDate == now
            && f.finalBillAmount == discharge.finalBillAmount
            && f.preAuthApproved == approved
            && f.additionalAmountRequested == AdditionalAmount(discharge.finalBillAmount, approved)
            && f.additionalAmountRequested >= 0
            && f.approvalStatus == Pending
            && f.approvedAmount == None && f.approvalNumber == None && f.approvalDate == None
            && f.queries == [] && f.deductions == map[] && f.rejectionReason == None
            && f.documentsSubmitted == RequiredDocuments
            && t.reply == Ok(FinalAuthGenerated(letter.text, f.additionalAmountRequested)))
  {
    if caseId !in s.preAuthorizations || !HasPatient(s, caseId) then
      Transition(s, Error(PreAuthOrPatientNotFound))
    else
      var stored := s.(dischargeRecords := s.dischargeRecords[caseId := discharge]);
      var finalBill := discharge.finalBillAmount;
      var preAuthAmount := PreAuthAmount(s.preAuthorizations[caseId]);
      var additionalNeeded := AdditionalAmount(finalBill, preAuthAmount);
      match letter
      case Failed => Transition(stored, Raised)
      case Produced(html) =>
        var f := FinalAuthorizationRecord(caseId, now, finalBill, preAuthAmount, additionalNeeded,
                                          Pending, None, None, None, [], map[], None,
                                          RequiredDocuments);
        Transition(stored.(finalAuthorizations := s.finalAuthorizations[caseId := f]),
                   Ok(FinalAuthGenerated(html, additionalNeeded)))
  }

  /** `handle_final_auth_query`: answer a query on an existing final
      authorization whose discharge data is stored, log it, mark it replied. */
  function HandleFinalAuthQuery(s: State, caseId: CaseId, query: string,
                                letter: Reply, now: Timestamp): (t: Transition)
    ensures !(caseId in s.finalAuthorizations && caseId in s.dischargeRecords) ==>
      t == Transition(s, Error(FinalAuthOrDischargeNotFound))
    ensures caseId in s.finalAuthorizations && caseId in s.dischargeRecords && letter.Failed? ==>
      t == Transition(s, Raised)
    ensures caseId in s.finalAuthorizations && caseId in s.dischargeRecords && letter.Produced? ==>
      && t.reply == Ok(QueryAnalyzed(letter.text))
      && OnlyFinalAuthChanged(s, t.after, caseId)
      && var before, after := s.finalAuthorizations[caseId], t.after.finalAuthorizations[caseId];
      && AppendedOnce(before.queries, after.queries, QueryEntry(now, query, letter.text))
      && after == before.(queries := after.queries, approvalStatus := QueryReplied)
  {
    if caseId !in s.finalAuthorizations || caseId !in s.dischargeRecords then
      Transition(s, Error(FinalAuthOrDischargeNotFound))
    else match letter
      case Failed => Transition(s, Raised)
      case Produced(html) =>
        var f := s.finalAuthorizations[caseId];
        var f' := f.(queries := f.queries + [QueryEntry(now, query, html)],
                     approvalStatus := QueryReplied);
        Transition(s.(finalAuthorizations := s.finalAuthorizations[caseId := f']),
                   Ok(QueryAnalyzed(html)))
  }

  /** `record_final_auth_approval`: store the approval and deductions on an
      existing final authorization, then (if the analyser answers) report the
      gap between bill and approval and whether it needs escalation. */
  function RecordFinalAuthApproval(s: State, caseId: CaseId, approval: ApprovalData,
                                   analysis: Reply): (t: Transition)
    ensures caseId !in s.finalAuthorizations ==> t == Transition(s, Error(FinalAuthNotFound))
    ensures caseId in s.finalAuthorizations ==>
      && OnlyFinalAuthChanged(s, t.after, caseId)
      && var before, after := s.finalAuthorizations[caseId], t.after.finalAuthorizations[caseId];
      && after == before.(approvalStatus := Approved,
                          approvedAmount := Some(approval.approvedAmount),
                          approvalNumber := Some(approval.approvalNumber),
                          approvalDate := Some(approval.approvalDate),
                          deductions := approval.deductions.GetOr(map[]))
      && (approval.deductions.None? ==> after.deductions == map[])
      && (analysis.Failed? ==> t.reply == Raised)
      && (analysis.Produced? ==>
            && t.reply.Ok? && t.reply.response.FinalAuthApproved?
            && var g := t.reply.response.analysis;
            && g.finalBill == before.finalBillAmount
            && g.approvedAmount == approval.approvedAmount
            && g.gapAmount + g.approvedAmount == g.finalBill
            && g.gapPercentage == GapPercentage(g.finalBill, g.approvedAmount)
            && g.requiresEscalation == RequiresEscalation(g.finalBill, g.approvedAmount)
            && g.deductions == after.deductions
            && g.aiAnalysis == analysis.text)
  {
    if caseId !in s.finalAuthorizations then
      Transition(s, Error(FinalAuthNotFound))
    else
      var f := s.finalAuthorizations[caseId];
      var f' := f.(approvalStatus := Approved,
                   approvedAmount := Some(approval.approvedAmount),
                   approvalNumber := Some(approval.approvalNumber),
                   approvalDate := Some(approval.approvalDate),
                   deductions := approval.deductions.GetOr(map[]));
      var stored := s.(finalAuthorizations := s.finalAuthorizations[caseId := f']);
      var billed := f'.finalBillAmount;
      var approved := f'.approvedAmount.value;
      var gap := billed - approved;
      var gapPct := GapPercentage(billed, approved);
      match analysis
      case Failed => Transition(stored, Raised)
      case Produced(text) =>
        Transition(stored, Ok(FinalAuthApproved(
          GapAnalysis(billed, approved, gap, gapPct, f'.deductions, text,
                      gapPct > EscalationThresholdPercent))))
  }

  /** One call on the tracker, with the collaborators' replies and the clock
      readings it would observe. */
  datatype Op =
    | SendPreauth(caseId: CaseId, patientData: PatientData, estimatedCost: Money, now: Timestamp)
    | PreauthQuery(caseId: CaseId, query: string, letter: Reply, now: Timestamp)
    | PreauthApproval(caseId: CaseId, approval: ApprovalData)
    | FinalRequest(caseId: CaseId, discharge: DischargeData, letter: Reply, now: Timestamp)
    | FinalQuery(caseId: CaseId, query: string, letter: Reply, now: Timestamp)
    | FinalApproval(caseId: CaseId, approval: ApprovalData, analysis: Reply)

  function Apply(s: State, op: Op): Transition
  {
    match op
    case SendPreauth(id, patient, cost, now) => SendPreauthRequest(s, id, patient, cost, now)
    case PreauthQuery(id, q, letter, now) => HandlePreauthQuery(s, id, q, letter, now)
    case PreauthApproval(id, approval) => RecordPreauthApproval(s, id, approval)
    case FinalRequest(id, discharge, letter, now) => GenerateFinalAuthRequest(s, id, discharge, letter, now)
    case FinalQuery(id, q, letter, now) => HandleFinalAuthQuery(s, id, q, letter, now)
    case FinalApproval(id, approval, analysis) => RecordFinalAuthApproval(s, id, approval, analysis)
  }

  /** The state after a sequence of calls, in order. */
  function Run(s: State, ops: seq<Op>): State
    decreases |ops|
  {
    if ops == [] then s else Run(Apply(s, ops[0]).after, ops[1..])
  }

  /** What every reachable state satisfies: patient data and pre-authorizations
      share their keys; a final authorization needs discharge data, which
      needs a pre-authorization; each record sits under its own case id; and
      each final record's figures are those computed at its creation. */
  ghost predicate Inv(s: State)
  {
    && s.cases.Keys == s.preAuthorizations.Keys
    && s.finalAuthorizations.Keys <= s.dischargeRecords.Keys
    && s.dischargeRecords.Keys <= s.preAuthorizations.Keys
    && (forall k :: k in s.preAuthorizations ==> s.preAuthorizations[k].caseId == k)
    && (forall k :: k in s.finalAuthorizations ==> FinalRecordSound(s.finalAuthorizations[k], k))
  }

  predicate FinalRecordSound(f: FinalAuthorizationRecord, caseId: CaseId)
  {
    && f.caseId == caseId
    && f.additionalAmountRequested == AdditionalAmount(f.finalBillAmount, f.preAuthApproved)
    && f.documentsSubmitted == RequiredDocuments
  }
}
