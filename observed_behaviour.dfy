/** Behaviours of the tracker that are easy to miss when reading its method
    names, each stated for all inputs, and worked cases of the two-phase flow. */
module ObservedBehaviour {
  import opened Records
  import opened Figures
  import opened Lifecycle
  import opened LifecycleProperties

  /** Approval is not terminal: a later query on an approved pre-authorization
      re-opens it as QueryReplied and keeps the approved amount, so an amount
      can be set while the status is not Approved. */
  lemma PreauthApprovalIsNotTerminal(s: State, k: CaseId, query: string, html: string, now: Timestamp)
    requires k in s.preAuthorizations && s.preAuthorizations[k].approvalStatus == Approved
    ensures var s' := HandlePreauthQuery(s, k, query, Produced(html), now).after;
      && s'.preAuthorizations[k].approvalStatus == QueryReplied
      && s'.preAuthorizations[k].approvedAmount == s.preAuthorizations[k].approvedAmount
  {
  }

  /** The same for a final authorization. */
  lemma FinalApprovalIsNotTerminal(s: State, k: CaseId, query: string, html: string, now: Timestamp)
    requires k in s.finalAuthorizations && k in s.dischargeRecords
    requires s.finalAuthorizations[k].approvalStatus == Approved
    ensures var s' := HandleFinalAuthQuery(s, k, query, Produced(html), now).after;
      && s'.finalAuthorizations[k].approvalStatus == QueryReplied
      && s'.finalAuthorizations[k].approvedAmount == s.finalAuthorizations[k].approvedAmount
  {
  }

  /** Re-sending the pre-authorization request discards the query log and any
      approval recorded for the case. */
  lemma ResendDiscardsHistory(s: State, k: CaseId, patient: PatientData, cost: Money, now: Timestamp)
    requires k in s.preAuthorizations
    ensures var p := SendPreauthRequest(s, k, patient, cost, now).after.preAuthorizations[k];
      p.queries == [] && p.approvedAmount == None && p.approvalStatus == Pending
  {
  }

  /** A final authorization can be requested before any approval of the
      pre-authorization: the pre-authorized amount is then taken as 0 and
      the whole bill (if positive) is requested. */
  lemma FinalRequestNeedsNoApproval(s: State, k: CaseId, discharge: DischargeData,
                                    html: string, now: Timestamp)
    requires k in s.preAuthorizations && HasPatient(s, k)
    requires s.preAuthorizations[k].approvedAmount == None
    ensures var t := GenerateFinalAuthRequest(s, k, discharge, Produced(html), now);
      && t.reply.Ok?
      && t.after.finalAuthorizations[k].preAuthApproved == 0
      && t.after.finalAuthorizations[k].additionalAmountRequested
           == (if discharge.finalBillAmount > 0 then discharge.finalBillAmount else 0)
  {
  }

  /** Patient data that is registered but empty is treated as missing. */
  lemma EmptyPatientDataBlocksFinalRequest(s: State, k: CaseId, discharge: DischargeData,
                                           letter: Reply, now: Timestamp)
    requires k in s.cases && s.cases[k] == map[]
    ensures GenerateFinalAuthRequest(s, k, discharge, letter, now)
              == Transition(s, Error(PreAuthOrPatientNotFound))
  {
  }

  /** The discharge data is stored before the letter is written: when the
      letter generator fails, the new discharge data stays next to the old
      final authorization (if any), whose bill may then differ from it. */
  lemma FailedLetterStillStoresDischarge(s: State, k: CaseId, discharge: DischargeData, now: Timestamp)
    requires k in s.preAuthorizations && HasPatient(s, k)
    ensures var t := GenerateFinalAuthRequest(s, k, discharge, Failed, now);
      && t.reply == Raised
      && t.after.dischargeRecords[k] == discharge
      && t.after.finalAuthorizations == s.finalAuthorizations
  {
  }

  /** The approval is stored before the gap analysis is asked for: when the
      analyser fails, the final authorization is already Approved. */
  lemma FailedAnalysisStillApproves(s: State, k: CaseId, approval: ApprovalData)
    requires k in s.finalAuthorizations
    ensures var t := RecordFinalAuthApproval(s, k, approval, Failed);
      && t.reply == Raised
      && t.after.finalAuthorizations[k].approvalStatus == Approved
      && t.after.finalAuthorizations[k].approvedAmount == Some(approval.approvedAmount)
  {
  }

  // The worked case: pre-authorize 50000, approve 45000, discharge with a
  // bill of 60000, then approve the final request with 50000 or 40000.

  const Patient: PatientData := map["name" := "Patient One"]

  const WorkedCase: seq<Op> := [
    SendPreauth("C1", Patient, 50000, "2025-01-01T09:00:00"),
    PreauthApproval("C1", ApprovalData(45000, "PA-1", "2025-01-02", None)),
    FinalRequest("C1", DischargeData(60000, map[]), Produced("<pre>final</pre>"),
                 "2025-01-05T17:00:00")
  ]

  lemma WorkedCaseRequestsTheShortfall()
    ensures var s := Run(Initial, WorkedCase);
      && "C1" in s.finalAuthorizations
      && s.finalAuthorizations["C1"].finalBillAmount == 60000
      && s.finalAuthorizations["C1"].preAuthApproved == 45000
      && s.finalAuthorizations["C1"].additionalAmountRequested == 15000
  {
    var s1 := Apply(Initial, WorkedCase[0]).after;
    var s2 := Apply(s1, WorkedCase[1]).after;
    var s3 := Apply(s2, WorkedCase[2]).after;
    assert "name" in Patient;
    assert "C1" in s1.preAuthorizations && HasPatient(s1, "C1");
    assert s2.preAuthorizations["C1"].approvedAmount == Some(45000) && HasPatient(s2, "C1");
    assert WorkedCase[1..][0] == WorkedCase[1] && WorkedCase[1..][1..] == WorkedCase[2..];
    assert WorkedCase[2..][0] == WorkedCase[2] && WorkedCase[2..][1..] == [];
    calc {
      Run(Initial, WorkedCase);
      Run(s1, WorkedCase[1..]);
      Run(s2, WorkedCase[2..]);
      Run(s3, []);
      s3;
    }
  }

  /** A gap of a sixth of the bill (about 16.67 percent) is not escalated. */
  lemma WorkedCaseSmallGap()
    ensures var s := Run(Initial, WorkedCase);
      var t := RecordFinalAuthApproval(s, "C1", ApprovalData(50000, "FA-1", "2025-01-07", None),
                                       Produced("ok"));
      && t.reply.Ok?
      && t.reply.response.analysis.gapAmount == 10000
      && t.reply.response.analysis.gapPercentage == 50.0 / 3.0
      && !t.reply.response.analysis.requiresEscalation
  {
    WorkedCaseRequestsTheShortfall();
  }

  /** A gap of a third of the bill (about 33.33 percent) is escalated. */
  lemma WorkedCaseLargeGap()
    ensures var s := Run(Initial, WorkedCase);
      var t := RecordFinalAuthApproval(s, "C1", ApprovalData(40000, "FA-1", "2025-01-07", None),
                                       Produced("act"));
      && t.reply.Ok?
      && t.reply.response.analysis.gapAmount == 20000
      && t.reply.response.analysis.gapPercentage == 100.0 / 3.0
      && t.reply.response.analysis.requiresEscalation
  {
    WorkedCaseRequestsTheShortfall();
  }

  /** A final request for a case never sent for pre-authorization is refused,
      in any state, and changes nothing. */
  lemma FinalRequestForUnknownCase(s: State, k: CaseId, discharge: DischargeData,
                                   letter: Reply, now: Timestamp)
    requires k !in s.preAuthorizations
    ensures GenerateFinalAuthRequest(s, k, discharge, letter, now)
              == Transition(s, Error(PreAuthOrPatientNotFound))
  {
  }
}
