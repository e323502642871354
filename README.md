# Authorization lifecycle tracker

This project models the in-memory tracker `EnhancedTPAWithFinalAuth` of the hospital TPA
(third-party administrator) desk backend and proves properties of the model. The tracker
follows an insurance case through two phases. Each phase has a request, any number of query
rounds and an approval. The first phase is pre-authorization, before treatment. The second is
final authorization, at discharge. The tracker keeps four dictionaries keyed by case id:

- patient data;
- pre-authorization records;
- final-authorization records;
- discharge data.

It computes three figures:

- the additional amount requested at final authorization, `max(0, bill - pre-authorized)`;
- the gap between the final bill and the final approval, and its percentage;
- whether that gap needs escalation, which happens when it is above 20 percent.

Layout:

- `records.dfy` (module `Records`): the status enum, the two record types, and the payloads
  callers pass in. It also holds the collaborator replies, the responses, and the error
  messages and document checklist exactly as the code has them.
- `figures.dfy` (module `Figures`): the additional amount, the gap percentage and the
  escalation decision, with their characterisations in exact arithmetic.
- `lifecycle.dfy` (module `Lifecycle`): the tracker as a state machine. `State` holds the four
  maps. Each operation is a function that returns the new maps and the reply. `Op`, `Apply`
  and `Run` replay a sequence of calls. `Inv` is the invariant every reachable state keeps.
- `lifecycle_properties.dfy` (module `LifecycleProperties`): properties that hold across
  operations and whole runs.
- `observed_behaviour.dfy` (module `ObservedBehaviour`): behaviours of the tracker that are
  easy to miss when reading its method names, each proved for all inputs. It also holds the
  worked 50000 / 45000 / 60000 case, whose lemmas are about those figures only.
- `agent.dfy` (module `Agent`): the class `EnhancedTPAWithFinalAuth` with the four maps as
  fields. Its six methods update the fields in place in the same order the code does. Each
  method is proved to perform exactly the transition `Lifecycle` specifies and to keep `Inv`.

Money is an exact integer, in the smallest currency unit. The gap percentage is an exact
`real`. The letter generator and the gap analyser are represented by their reply, passed in
as a parameter `Reply`. A reply is either `Produced(text)` or `Failed`. `Failed` stands for an
exception that escapes the call. Clock readings and parsed approval dates are opaque
`Timestamp` inputs.

The model follows the code, including these behaviours a reader might not expect:

- Approval is not terminal. A later query sets the status back to QueryReplied and keeps the
  approved amount (apps/backend/agent_v35.py:73, 150). So an approved amount can be set while
  the status is not Approved.
- Re-sending a pre-authorization request replaces the record (apps/backend/agent_v35.py:54-55).
  Its query log and any approval are lost, so query logs are append-only only between
  re-sends.
- A final request needs only a pre-authorization record and non-empty patient data, not an
  approval (apps/backend/agent_v35.py:89). Without an approval the pre-authorized amount
  counts as 0.
- Collaborator failures are not atomic. The discharge data is stored before the request
  letter is written (apps/backend/agent_v35.py:92 before 120). The final approval is stored
  before the gap analysis is asked for (apps/backend/agent_v35.py:157 before 167).
- `QueryRaised`, `Rejected` and `PartiallyApproved` exist but are never assigned. The rejection
  reason is never set (apps/backend/agent_v35.py:8-14, 53-175).
- Empty patient data counts as missing. The code tests the dictionary's truth value
  (apps/backend/agent_v35.py:89).

## Model

| member | source | states |
|---|---|---|
| `Figures.AdditionalAmount` | apps/backend/agent_v35.py:95 | the additional amount is never negative, covers the bill beyond the pre-authorized amount, and is either 0 or exactly that excess |
| `Figures.GapPercentage` | apps/backend/agent_v35.py:163-166 | the percentage is 0 for a zero bill; otherwise, multiplied by the bill, it gives 100 times the gap |
| `Figures.EscalationByIntegers` | apps/backend/agent_v35.py:166-174 | escalation (gap percentage above 20) holds exactly when `gap * 100 > 20 * bill` for a positive bill, and exactly when `gap * 100 < 20 * bill` for a negative bill; a zero bill never escalates |
| `Figures.EscalationPositiveBill` | apps/backend/agent_v35.py:166-174 | for a positive bill, escalation holds exactly when `gap * 100 > 20 * bill` |
| `Figures.EscalationNegativeBill` | apps/backend/agent_v35.py:166-174 | for a negative bill, escalation holds exactly when `gap * 100 < 20 * bill` |
| `Figures.EscalationBoundary` | apps/backend/agent_v35.py:174 | a gap of exactly a fifth of a positive bill is 20 percent and does not escalate; a larger gap escalates, a smaller one does not |
| `Lifecycle.SendPreauthRequest` | apps/backend/agent_v35.py:53-60 | stores the patient data; (re)creates the record as Pending with the requested amount, empty query log and no approval fields, whether or not one existed; changes nothing else; replies with the case id and amount |
| `Lifecycle.HandlePreauthQuery` | apps/backend/agent_v35.py:62-74 | unknown case: error and no change; letter failure: nothing changes; otherwise exactly one entry (date, query, response) is appended, earlier entries are kept, the status becomes QueryReplied whatever it was, nothing else changes |
| `Lifecycle.RecordPreauthApproval` | apps/backend/agent_v35.py:76-84 | unknown case: error and no change; otherwise status Approved and amount, number and date set from the input, nothing else changes, and the reply carries the amount stored |
| `Lifecycle.PreAuthAmount` | apps/backend/agent_v35.py:94 | the pre-authorized amount is the approved amount, or 0 while none is set |
| `Lifecycle.GenerateFinalAuthRequest` | apps/backend/agent_v35.py:86-131 | without a pre-authorization or with missing or empty patient data: error and no change; otherwise the discharge data is stored even if the letter fails; once the letter is written, a Pending final record exists with the bill, the pre-authorized snapshot, a non-negative additional amount equal to `max(0, bill - snapshot)`, empty deductions and log, and the six-document checklist |
| `Lifecycle.HandleFinalAuthQuery` | apps/backend/agent_v35.py:133-151 | error and no change unless both a final record and discharge data exist; letter failure changes nothing; otherwise one entry is appended, earlier entries are kept, and the status becomes QueryReplied |
| `Lifecycle.RecordFinalAuthApproval` | apps/backend/agent_v35.py:153-175 | unknown case: error and no change; otherwise the record becomes Approved with the given amount, number and date, and the deductions default to empty; this holds even when the analysis fails; on success the reply has gap = bill - approved, the gap percentage, and the escalation flag |
| `LifecycleProperties.ApplyPreservesInv` | apps/backend/agent_v35.py:44-175 | every operation keeps the invariant: patient data and pre-authorizations have the same keys; a final record needs discharge data, which needs a pre-authorization; records sit under their own case id; each final record's additional amount matches its bill and snapshot |
| `LifecycleProperties.RunPreservesInv` | apps/backend/agent_v35.py:44-175 | every sequence of calls keeps the invariant |
| `LifecycleProperties.ReachableStatesAreLinked` | apps/backend/agent_v35.py:87-92 | from a fresh tracker, every final-authorization key is a pre-authorization key and a patient-data key |
| `LifecycleProperties.ApplyKeepsKeys` | apps/backend/agent_v35.py:44-175 | no operation removes a key from any of the four maps |
| `LifecycleProperties.RunKeepsKeys` | apps/backend/agent_v35.py:44-175 | no sequence of calls removes a key from any of the four maps |
| `LifecycleProperties.ErrorsChangeNothing` | apps/backend/agent_v35.py:63-65 | an error reply means the state is unchanged; a collaborator failure in either query operation changes nothing |
| `LifecycleProperties.UnknownCaseIsRefused` | apps/backend/agent_v35.py:62-156 | on a case never sent for pre-authorization, each of the five other operations returns its own error message and changes nothing |
| `LifecycleProperties.ApplyKeepsPreauthLog` | apps/backend/agent_v35.py:68-73 | any operation other than a re-send for the same case keeps the query log as a prefix and keeps the requested amount and date |
| `LifecycleProperties.RunKeepsPreauthLog` | apps/backend/agent_v35.py:68-73 | over any run without a re-send for the case, the pre-authorization query log only grows at the end, and the requested amount and request date stay |
| `LifecycleProperties.ApplyKeepsAssignedStatuses` | apps/backend/agent_v35.py:53-175 | every operation keeps every record's status among Pending, QueryReplied and Approved, with no rejection reason |
| `LifecycleProperties.RunKeepsAssignedStatuses` | apps/backend/agent_v35.py:53-175 | the same over any run, and from a fresh tracker: QueryRaised, Rejected and PartiallyApproved are never reached and no rejection reason is ever set |
| `LifecycleProperties.ApplyKeepsFinalRecord` | apps/backend/agent_v35.py:122-161 | any operation other than a new final request for the same case keeps the final query log as a prefix and keeps the bill, the pre-authorized snapshot, the additional amount, the date and the checklist |
| `LifecycleProperties.RunKeepsFinalRecord` | apps/backend/agent_v35.py:122-161 | the same over any run; in particular a later pre-authorization approval does not change the snapshot |
| `ObservedBehaviour.PreauthApprovalIsNotTerminal` | apps/backend/agent_v35.py:73 | a query on an approved pre-authorization sets it to QueryReplied and keeps the approved amount |
| `ObservedBehaviour.FinalApprovalIsNotTerminal` | apps/backend/agent_v35.py:150 | a query on an approved final authorization sets it to QueryReplied and keeps the approved amount |
| `ObservedBehaviour.ResendDiscardsHistory` | apps/backend/agent_v35.py:55-59 | re-sending the request empties the query log and clears the approval |
| `ObservedBehaviour.FinalRequestNeedsNoApproval` | apps/backend/agent_v35.py:89-95 | a final request succeeds without a pre-authorization approval, with snapshot 0 and the whole positive bill requested |
| `ObservedBehaviour.EmptyPatientDataBlocksFinalRequest` | apps/backend/agent_v35.py:88-90 | registered but empty patient data gives the not-found error |
| `ObservedBehaviour.FailedLetterStillStoresDischarge` | apps/backend/agent_v35.py:92-120 | when the letter fails, the new discharge data is stored and the final records are unchanged |
| `ObservedBehaviour.FailedAnalysisStillApproves` | apps/backend/agent_v35.py:157-167 | when the gap analysis fails, the final record is already Approved with the new amount |
| `ObservedBehaviour.WorkedCaseRequestsTheShortfall` | apps/backend/agent_v35.py:53-131 | request 50000, approve 45000, discharge at 60000: the additional amount requested is 15000 |
| `ObservedBehaviour.WorkedCaseSmallGap` | apps/backend/agent_v35.py:153-175 | final approval 50000 on 60000: gap 10000, percentage 50/3, no escalation |
| `ObservedBehaviour.WorkedCaseLargeGap` | apps/backend/agent_v35.py:153-175 | final approval 40000 on 60000: gap 20000, percentage 100/3, escalation |
| `ObservedBehaviour.FinalRequestForUnknownCase` | apps/backend/agent_v35.py:87-90 | in any state, a final request for a case with no pre-authorization gets the not-found error and changes nothing, whatever the discharge data and letter |
| `Agent.EnhancedTPAWithFinalAuth.constructor` | apps/backend/agent_v35.py:45-49 | a new tracker has four empty maps and satisfies the invariant |
| `Agent.EnhancedTPAWithFinalAuth.SendPreauthRequest` | apps/backend/agent_v35.py:53-60 | updates the fields in place exactly as `Lifecycle.SendPreauthRequest` and keeps the invariant |
| `Agent.EnhancedTPAWithFinalAuth.HandlePreauthQuery` | apps/backend/agent_v35.py:62-74 | updates the fields in place exactly as `Lifecycle.HandlePreauthQuery` and keeps the invariant |
| `Agent.EnhancedTPAWithFinalAuth.RecordPreauthApproval` | apps/backend/agent_v35.py:76-84 | updates the fields in place exactly as `Lifecycle.RecordPreauthApproval` and keeps the invariant |
| `Agent.EnhancedTPAWithFinalAuth.GenerateFinalAuthRequest` | apps/backend/agent_v35.py:86-131 | updates the fields in place exactly as `Lifecycle.GenerateFinalAuthRequest` and keeps the invariant |
| `Agent.EnhancedTPAWithFinalAuth.HandleFinalAuthQuery` | apps/backend/agent_v35.py:133-151 | updates the fields in place exactly as `Lifecycle.HandleFinalAuthQuery` and keeps the invariant |
| `Agent.EnhancedTPAWithFinalAuth.RecordFinalAuthApproval` | apps/backend/agent_v35.py:153-175 | updates the fields in place exactly as `Lifecycle.RecordFinalAuthApproval` and keeps the invariant |

## Left out

- Letter and analysis text: `generate_letter` and `analyze_final_gap` call an external text
  service. The model takes their reply as a parameter and records it verbatim. The prompt text
  they are given is not modelled. That covers the case blocks with `:,.2f` currency formatting
  (apps/backend/agent_v35.py:66, 97-119, 138-143) and the hospital and insurer blocks, which
  only feed that text. The phase label passed to `generate_letter` is not modelled either.
- Clock and date parsing: `datetime.now()`, `.isoformat()` and `datetime.fromisoformat` become
  opaque `Timestamp` inputs. A malformed approval date would raise `ValueError` part-way
  through an approval. That is not modelled.
- Malformed dictionaries: the approval and discharge data are typed inputs. A missing key would
  raise `KeyError` (or a `None` amount a `TypeError`) after some fields were already assigned.
  Those partial states are not modelled. For the same reason a stored discharge dictionary
  always holds a final bill, so it is never empty.
- Floating point: amounts are exact integers and the gap percentage is an exact real. Rounding
  of Python floats is not modelled.
- Aliasing: the code stores the caller's patient and discharge dictionaries by reference. It
  also returns the stored deductions dictionary by reference. Later changes a caller makes
  through those references are not modelled. The records themselves are values in the maps. No
  reference to a record leaves the tracker, so updating a record in place and storing the
  updated value are the same.
- Response dictionaries: the `"status"` string of each response is represented by the
  constructor of `Response`.
- Concurrency: the code has no locking, and the model is sequential.
- apps/backend/app.py (HTTP routes, JWT roles, tenant checks, SMTP), apps/backend/models.py
  (table declarations) and apps/backend/ai_openai.py (the text-service client) are not part of
  this model.
