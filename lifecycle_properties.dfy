/** What holds of every run of the tracker: the key invariant, that nothing is
    ever deleted, that errors change nothing, that unknown cases are refused,
    and how far the query logs and the final figures are stable. */
module LifecycleProperties {
  import opened Records
  import opened Figures
  import opened Lifecycle

  /** Every operation keeps the invariant. */
  lemma ApplyPreservesInv(s: State, op: Op)
    requires Inv(s)
    ensures Inv(Apply(s, op).after)
  {
  }

  /** Every run keeps the invariant. */
  lemma {:induction false} RunPreservesInv(s: State, ops: seq<Op>)
    requires Inv(s)
    ensures Inv(Run(s, ops))
    decreases |ops|
  {
    if ops != [] {
      ApplyPreservesInv(s, ops[0]);
      RunPreservesInv(Apply(s, ops[0]).after, ops[1..]);
    }
  }

  /** From a fresh tracker, whatever was called: every final authorization
      has a pre-authorization and patient data under the same case id. */
  lemma ReachableStatesAreLinked(ops: seq<Op>)
    ensures Inv(Run(Initial, ops))
    ensures var s := Run(Initial, ops);
      s.finalAuthorizations.Keys <= s.preAuthorizations.Keys
      && s.preAuthorizations.Keys == s.cases.Keys
  {
    RunPreservesInv(Initial, ops);
  }

  /** No operation removes a key from any of the four maps. */
  predicate KeysKept(s: State, s': State)
  {
    && s.cases.Keys <= s'.cases.Keys
    && s.preAuthorizations.Keys <= s'.preAuthorizations.Keys
    && s.finalAuthorizations.Keys <= s'.finalAuthorizations.Keys
    && s.dischargeRecords.Keys <= s'.dischargeRecords.Keys
  }

  lemma ApplyKeepsKeys(s: State, op: Op)
    ensures KeysKept(s, Apply(s, op).after)
  {
  }

  lemma {:induction false} RunKeepsKeys(s: State, ops: seq<Op>)
    ensures KeysKept(s, Run(s, ops))
    decreases |ops|
  {
    if ops != [] {
      var s1 := Apply(s, ops[0]).after;
      ApplyKeepsKeys(s, ops[0]);
      RunKeepsKeys(s1, ops[1..]);
    }
  }

  /** An operation that answers with an error dictionary has changed nothing;
      a collaborator exception changes nothing in the two query operations. */
  lemma ErrorsChangeNothing(s: State, op: Op)
    ensures Apply(s, op).reply.Error? ==> Apply(s, op).after == s
    ensures (op.PreauthQuery? || op.FinalQuery?) && Apply(s, op).reply.Raised? ==>
      Apply(s, op).after == s
  {
  }

  /** The error dictionary each operation returns for a case it cannot find. */
  function NotFoundMessage(op: Op): string
  {
    match op
    case SendPreauth(_, _, _, _) => ""
    case PreauthQuery(_, _, _, _) => PreAuthNotFound
    case PreauthApproval(_, _) => PreAuthNotFound
    case FinalRequest(_, _, _, _) => PreAuthOrPatientNotFound
    case FinalQuery(_, _, _, _) => FinalAuthOrDischargeNotFound
    case FinalApproval(_, _, _) => FinalAuthNotFound
  }

  /** On a case id that was never sent for pre-authorization, every operation
      other than the request itself returns its error and changes nothing. */
  lemma UnknownCaseIsRefused(s: State, op: Op)
    requires Inv(s)
    requires !op.SendPreauth? && op.caseId !in s.preAuthorizations
    ensures Apply(s, op) == Transition(s, Error(NotFoundMessage(op)))
  {
  }

  /** No call with this case id re-sends its pre-authorization request. */
  ghost predicate NoPreauthResend(ops: seq<Op>, k: CaseId)
  {
    forall i :: 0 <= i < |ops| ==> !(ops[i].SendPreauth? && ops[i].caseId == k)
  }

  /** No call with this case id asks for its final authorization again. */
  ghost predicate NoFinalRequest(ops: seq<Op>, k: CaseId)
  {
    forall i :: 0 <= i < |ops| ==> !(ops[i].FinalRequest? && ops[i].caseId == k)
  }

  /** One step keeps the pre-authorization's query log as a prefix and its
      request unchanged, unless it is a re-sent request for the same case. */
  lemma ApplyKeepsPreauthLog(s: State, op: Op, k: CaseId)
    requires k in s.preAuthorizations
    requires !(op.SendPreauth? && op.caseId == k)
    ensures var s' := Apply(s, op).after;
      && k in s'.preAuthorizations
      && s.preAuthorizations[k].queries <= s'.preAuthorizations[k].queries
      && s'.preAuthorizations[k].requestedAmount == s.preAuthorizations[k].requestedAmount
      && s'.preAuthorizations[k].requestDate == s.preAuthorizations[k].requestDate
  {
  }

  /** Over a run that never re-sends the request for `k`, its query log only
      grows at the end: earlier rounds keep their order and content. */
  lemma {:induction false} RunKeepsPreauthLog(s: State, ops: seq<Op>, k: CaseId)
    requires k in s.preAuthorizations
    requires NoPreauthResend(ops, k)
    ensures k in Run(s, ops).preAuthorizations
    ensures s.preAuthorizations[k].queries <= Run(s, ops).preAuthorizations[k].queries
    ensures Run(s, ops).preAuthorizations[k].requestedAmount
              == s.preAuthorizations[k].requestedAmount
    ensures Run(s, ops).preAuthorizations[k].requestDate == s.preAuthorizations[k].requestDate
    decreases |ops|
  {
    if ops != [] {
      assert !(ops[0].SendPreauth? && ops[0].caseId == k);
      ApplyKeepsPreauthLog(s, ops[0], k);
      var s1 := Apply(s, ops[0]).after;
      assert NoPreauthResend(ops[1..], k) by {
        forall i | 0 <= i < |ops[1..]|
          ensures !(ops[1..][i].SendPreauth? && ops[1..][i].caseId == k)
        {
          assert ops[1..][i] == ops[i + 1];
        }
      }
      RunKeepsPreauthLog(s1, ops[1..], k);
    }
  }

  /** The figures fixed when a final authorization is created. */
  predicate SameFinalFigures(f: FinalAuthorizationRecord, f': FinalAuthorizationRecord)
  {
    && f'.finalBillAmount == f.finalBillAmount
    && f'.preAuthApproved == f.preAuthApproved
    && f'.additionalAmountRequested == f.additionalAmountRequested
    && f'.requestDate == f.requestDate
    && f'.documentsSubmitted == f.documentsSubmitted
  }

  /** One step keeps a final authorization's query log as a prefix and its
      figures unchanged, unless it is a new final request for the same case;
      in particular approving the pre-authorization afterwards does not touch
      the snapshot of the pre-authorized amount. */
  lemma ApplyKeepsFinalRecord(s: State, op: Op, k: CaseId)
    requires k in s.finalAuthorizations
    requires !(op.FinalRequest? && op.caseId == k)
    ensures var s' := Apply(s, op).after;
      && k in s'.finalAuthorizations
      && s.finalAuthorizations[k].queries <= s'.finalAuthorizations[k].queries
      && SameFinalFigures(s.finalAuthorizations[k], s'.finalAuthorizations[k])
  {
  }

  lemma {:induction false} RunKeepsFinalRecord(s: State, ops: seq<Op>, k: CaseId)
    requires k in s.finalAuthorizations
    requires NoFinalRequest(ops, k)
    ensures k in Run(s, ops).finalAuthorizations
    ensures s.finalAuthorizations[k].queries <= Run(s, ops).finalAuthorizations[k].queries
    ensures SameFinalFigures(s.finalAuthorizations[k], Run(s, ops).finalAuthorizations[k])
    decreases |ops|
  {
    if ops != [] {
      assert !(ops[0].FinalRequest? && ops[0].caseId == k);
      ApplyKeepsFinalRecord(s, ops[0], k);
      var s1 := Apply(s, ops[0]).after;
      assert NoFinalRequest(ops[1..], k) by {
        forall i | 0 <= i < |ops[1..]|
          ensures !(ops[1..][i].FinalRequest? && ops[1..][i].caseId == k)
        {
          assert ops[1..][i] == ops[i + 1];
        }
      }
      RunKeepsFinalRecord(s1, ops[1..], k);
    }
  }

  /** The statuses the operations actually assign. */
  predicate AssignedStatus(st: AuthorizationStatus)
  {
    st == Pending || st == QueryReplied || st == Approved
  }

  /** Every record has an assigned status and no rejection reason. */
  ghost predicate OnlyAssignedStatuses(s: State)
  {
    && (forall k :: k in s.preAuthorizations ==>
          AssignedStatus(s.preAuthorizations[k].approvalStatus)
          && s.preAuthorizations[k].rejectionReason == None)
    && (forall k :: k in s.finalAuthorizations ==>
          AssignedStatus(s.finalAuthorizations[k].approvalStatus)
          && s.finalAuthorizations[k].rejectionReason == None)
  }

  /** No operation assigns QueryRaised, Rejected or PartiallyApproved, or sets
      a rejection reason. */
  lemma ApplyKeepsAssignedStatuses(s: State, op: Op)
    requires OnlyAssignedStatuses(s)
    ensures OnlyAssignedStatuses(Apply(s, op).after)
  {
  }

  lemma {:induction false} RunKeepsAssignedStatuses(s: State, ops: seq<Op>)
    requires OnlyAssignedStatuses(s)
    ensures OnlyAssignedStatuses(Run(s, ops))
    ensures OnlyAssignedStatuses(Run(Initial, ops))
    decreases |ops|
  {
    if ops != [] {
      ApplyKeepsAssignedStatuses(s, ops[0]);
      RunKeepsAssignedStatuses(Apply(s, ops[0]).after, ops[1..]);
      ApplyKeepsAssignedStatuses(Initial, ops[0]);
      RunKeepsAssignedStatuses(Apply(Initial, ops[0]).after, ops[1..]);
    }
  }
}
