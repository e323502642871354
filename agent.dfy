/** The tracker object: four dictionaries keyed by case id that its six
    operations update in place. Each operation is proved to perform exactly
    the transition `Lifecycle` specifies, and to keep `Lifecycle.Inv`. */
module Agent {
  import opened Records
  import opened Figures
  import Lifecycle
  import LifecycleProperties

  class EnhancedTPAWithFinalAuth {
    var cases: map<CaseId, PatientData>
    var preAuthorizations: map<CaseId, PreAuthorizationRecord>
    var finalAuthorizations: map<CaseId, FinalAuthorizationRecord>
    var dischargeRecords: map<CaseId, DischargeData>

    /** The tracker's current maps as a value. */
    function Snapshot(): Lifecycle.State
      reads this
    {
      Lifecycle.State(cases, preAuthorizations, finalAuthorizations, dischargeRecords)
    }

    ghost predicate Valid()
      reads this
    {
      Lifecycle.Inv(Snapshot())
    }

    constructor ()
      ensures Snapshot() == Lifecycle.Initial
      ensures Valid()
    {
      cases := map[];
      preAuthorizations := map[];
      finalAuthorizations := map[];
      dischargeRecords := map[];
    }

    /** Register the patient data and (re)create the pending pre-authorization. */
    method SendPreauthRequest(caseId: CaseId, patientData: PatientData, estimatedCost: Money,
                              now: Timestamp)
      returns (r: Outcome)
      modifies this
      ensures Lifecycle.Transition(Snapshot(), r)
              == Lifecycle.SendPreauthRequest(old(Snapshot()), caseId, patientData, estimatedCost, now)
      ensures old(Valid()) ==> Valid()
    {
      ghost var before := Snapshot();
      cases := cases[caseId := patientData];
      preAuthorizations := preAuthorizations[caseId := PreAuthorizationRecord(
        caseId, now, estimatedCost, Pending, None, None, None, [], None)];
      r := Ok(PreAuthSent(caseId, estimatedCost));
      if Lifecycle.Inv(before) {
        LifecycleProperties.ApplyPreservesInv(
          before, Lifecycle.SendPreauth(caseId, patientData, estimatedCost, now));
      }
    }

    /** Answer a query on the pre-authorization with `letter`, the letter
        generator's reply, and log the round. */
    method HandlePreauthQuery(caseId: CaseId, queryContent: string, letter: Reply, now: Timestamp)
      returns (r: Outcome)
      modifies this
      ensures Lifecycle.Transition(Snapshot(), r)
              == Lifecycle.HandlePreauthQuery(old(Snapshot()), caseId, queryContent, letter, now)
      ensures old(Valid()) ==> Valid()
    {
      ghost var before := Snapshot();
      if caseId !in preAuthorizations {
        return Error(PreAuthNotFound);
      }
      var preAuth := preAuthorizations[caseId];
      if letter.Failed? {
        return Raised;
      }
      var html := letter.text;
      preAuth := preAuth.(queries := preAuth.queries + [QueryEntry(now, queryContent, html)]);
      preAuth := preAuth.(approvalStatus := QueryReplied);
      preAuthorizations := preAuthorizations[caseId := preAuth];
      r := Ok(PreAuthQueryReplied(html));
      if Lifecycle.Inv(before) {
        LifecycleProperties.ApplyPreservesInv(
          before, Lifecycle.PreauthQuery(caseId, queryContent, letter, now));
      }
    }

    /** Record the insurer's approval of the pre-authorization. */
    method RecordPreauthApproval(caseId: CaseId, approvalData: ApprovalData)
      returns (r: Outcome)
      modifies this
      ensures Lifecycle.Transition(Snapshot(), r)
              == Lifecycle.RecordPreauthApproval(old(Snapshot()), caseId, approvalData)
      ensures old(Valid()) ==> Valid()
    {
      ghost var before := Snapshot();
      if caseId !in preAuthorizations {
        return Error(PreAuthNotFound);
      }
      var preAuth := preAuthorizations[caseId];
      preAuth := preAuth.(approvalStatus := Approved);
      preAuth := preAuth.(approvedAmount := Some(approvalData.approvedAmount));
      preAuth := preAuth.(approvalNumber := Some(approvalData.approvalNumber));
      preAuth := preAuth.(approvalDate := Some(approvalData.approvalDate));
      preAuthorizations := preAuthorizations[caseId := preAuth];
      r := Ok(PreAuthApproved(preAuth.approvedAmount.value));
      if Lifecycle.Inv(before) {
        LifecycleProperties.ApplyPreservesInv(
          before, Lifecycle.PreauthApproval(caseId, approvalData));
      }
    }

    /** Store the discharge data and, once `letter` (the request letter) is
        written, create the pending final authorization. */
    method GenerateFinalAuthRequest(caseId: CaseId, dischargeData: DischargeData, letter: Reply,
                                    now: Timestamp)
      returns (r: Outcome)
      modifies this
      ensures Lifecycle.Transition(Snapshot(), r)
              == Lifecycle.GenerateFinalAuthRequest(old(Snapshot()), caseId, dischargeData, letter, now)
      ensures old(Valid()) ==> Valid()
    {
      ghost var before := Snapshot();
      if caseId !in preAuthorizations || caseId !in cases || cases[caseId] == map[] {
        return Error(PreAuthOrPatientNotFound);
      }
      var preAuth := preAuthorizations[caseId];
      dischargeRecords := dischargeRecords[caseId := dischargeData];
      var finalBill := dischargeData.finalBillAmount;
      var preAuthAmount := preAuth.approvedAmount.GetOr(0);
      var additionalNeeded := AdditionalAmount(finalBill, preAuthAmount);
      if letter.Failed? {
        r := Raised;
      } else {
        var html := letter.text;
        finalAuthorizations := finalAuthorizations[caseId := FinalAuthorizationRecord(
          caseId, now, finalBill, preAuthAmount, additionalNeeded, Pending, None, None, None,
          [], map[], None, RequiredDocuments)];
        r := Ok(FinalAuthGenerated(html, additionalNeeded));
      }
      if Lifecycle.Inv(before) {
        LifecycleProperties.ApplyPreservesInv(
          before, Lifecycle.FinalRequest(caseId, dischargeData, letter, now));
      }
    }

    /** Answer a query on the final authorization with `letter`, the letter
        generator's reply, and log the round. */
    method HandleFinalAuthQuery(caseId: CaseId, queryContent: string, letter: Reply, now: Timestamp)
      returns (r: Outcome)
      modifies this
      ensures Lifecycle.Transition(Snapshot(), r)
              == Lifecycle.HandleFinalAuthQuery(old(Snapshot()), caseId, queryContent, letter, now)
      ensures old(Valid()) ==> Valid()
    {
      ghost var before := Snapshot();
      if caseId !in finalAuthorizations || caseId !in dischargeRecords {
        return Error(FinalAuthOrDischargeNotFound);
      }
      var finalAuth := finalAuthorizations[caseId];
      if letter.Failed? {
        return Raised;
      }
      var html := letter.text;
      finalAuth := finalAuth.(queries := finalAuth.queries + [QueryEntry(now, queryContent, html)]);
      finalAuth := finalAuth.(approvalStatus := QueryReplied);
      finalAuthorizations := finalAuthorizations[caseId := finalAuth];
      r := Ok(QueryAnalyzed(html));
      if Lifecycle.Inv(before) {
        LifecycleProperties.ApplyPreservesInv(
          before, Lifecycle.FinalQuery(caseId, queryContent, letter, now));
      }
    }

    /** Record the final approval, then report the gap with `analysis`, the
        gap analyser's reply. */
    method RecordFinalAuthApproval(caseId: CaseId, approvalData: ApprovalData, analysis: Reply)
      returns (r: Outcome)
      modifies this
      ensures Lifecycle.Transition(Snapshot(), r)
              == Lifecycle.RecordFinalAuthApproval(old(Snapshot()), caseId, approvalData, analysis)
      ensures old(Valid()) ==> Valid()
    {
      ghost var before := Snapshot();
      if caseId !in finalAuthorizations {
        return Error(FinalAuthNotFound);
      }
      var finalAuth := finalAuthorizations[caseId];
      finalAuth := finalAuth.(approvalStatus := Approved);
      finalAuth := finalAuth.(approvedAmount := Some(approvalData.approvedAmount));
      finalAuth := finalAuth.(approvalNumber := Some(approvalData.approvalNumber));
      finalAuth := finalAuth.(approvalDate := Some(approvalData.approvalDate));
      finalAuth := finalAuth.(deductions := approvalData.deductions.GetOr(map[]));
      finalAuthorizations := finalAuthorizations[caseId := finalAuth];

      var billed := finalAuth.finalBillAmount;
      var approved := finalAuth.approvedAmount.value;
      var gap := billed - approved;
      var gapPct := GapPercentage(billed, approved);
      if analysis.Failed? {
        r := Raised;
      } else {
        r := Ok(FinalAuthApproved(GapAnalysis(billed, approved, gap, gapPct, finalAuth.deductions,
                                              analysis.text, gapPct > EscalationThresholdPercent)));
      }
      if Lifecycle.Inv(before) {
        LifecycleProperties.ApplyPreservesInv(
          before, Lifecycle.FinalApproval(caseId, approvalData, analysis));
      }
    }
  }
}
