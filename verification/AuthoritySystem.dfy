/** The components of the authority-composition model: an append-only store and the paths that reach it. */
module AuthoritySystem {
  import opened Wrappers
  import opened Sequences
  import opened AuthorityModel

  /** Inventory as the source's fold: the accepted quantities of one product. */
  function QuantityOf(f: Fact, product: string): int {
    if f.product == product then f.quantity else 0
  }

  function Inventory(facts: seq<Fact>, product: string): int {
    Sum((f: Fact) => QuantityOf(f, product), facts)
  }

  /** The check of this very call, and whether it was allowed. */
  function Verdict(caller: Component, operation: Operation, target: Component, allowed: bool): Check {
    Check(Capability(caller, operation, target), if allowed then Allowed else Denied)
  }

  class AuthoritativeInventoryStore {
    var acceptedFacts: seq<Fact>

    constructor ()
      ensures acceptedFacts == []
    {
      acceptedFacts := [];
    }

    /** History grows by the fact exactly when the caller holds the append capability. */
    method AppendAcceptedReplenishment(caller: Component, fact: Fact) returns (r: AppendResult)
      modifies this
      ensures r.attempted == fact && AppendConsistent(r)
      ensures r.check == Verdict(caller, AppendAccepted, InventoryStore, caller == AuthorityService)
      ensures r.appended.Some? <==> caller == AuthorityService
      ensures acceptedFacts == old(acceptedFacts) + if r.appended.Some? then [fact] else []
    {
      var check := DecideCapability(caller, AppendAccepted, InventoryStore);
      CapabilityFailsClosed(caller, AppendAccepted, InventoryStore);
      if check.decision == Denied {
        return AppendResult(check, fact, None);
      }
      acceptedFacts := acceptedFacts + [fact];
      r := AppendResult(check, fact, Some(fact));
    }

    method GetInventory(product: string) returns (r: Result<int, ValueError>)
      ensures r == if NonBlank(product) then Success(Inventory(acceptedFacts, product)) else Failure(BlankProduct)
    {
      if !NonBlank(product) {
        return Failure(BlankProduct);
      }
      var total := 0;
      for i := 0 to |acceptedFacts|
        invariant total == Inventory(acceptedFacts[..i], product)
      {
        assert acceptedFacts[..i + 1][..i] == acceptedFacts[..i];
        if acceptedFacts[i].product == product { total := total + acceptedFacts[i].quantity; }
      }
      assert acceptedFacts[..|acceptedFacts|] == acceptedFacts;
      r := Success(total);
    }
  }

  class InventoryAuthorityService {
    const store: AuthoritativeInventoryStore

    constructor (s: AuthoritativeInventoryStore)
      ensures store == s
    {
      store := s;
    }

    /** The unchecked path: arrival through the permitted workflow is enough. */
    method PromoteWithoutAdmission(caller: Component, candidate: Candidate) returns (r: PromotionResult)
      modifies store
      ensures r.candidate == candidate && PromotionConsistent(r)
      ensures r.check == Verdict(caller, SubmitCandidate, AuthorityService, caller == Workflow)
      ensures r.append.Some? <==> caller == Workflow
      ensures r.append.Some? ==> AppendConsistent(r.append.value) && r.append.value.appended == Some(FactOf(candidate))
      ensures store.acceptedFacts == old(store.acceptedFacts) + if caller == Workflow then [FactOf(candidate)] else []
    {
      var check := DecideCapability(caller, SubmitCandidate, AuthorityService);
      CapabilityFailsClosed(caller, SubmitCandidate, AuthorityService);
      if check.decision == Denied {
        return PromotionResult(check, candidate, None);
      }
      var append := store.AppendAcceptedReplenishment(AuthorityService, FactOf(candidate));
      r := PromotionResult(check, candidate, Some(append));
    }

    /** The governed path: evidence is evaluated before the same append is exercised. */
    method PromoteWithAdmission(caller: Component, candidate: Candidate, evidence: seq<Evidence>) returns (r: GovernedResult)
      modifies store
      ensures r.candidate == candidate && GovernedConsistent(r)
      ensures r.check == Verdict(caller, SubmitCandidate, AuthorityService, caller == Workflow)
      ensures r.admission == if caller == Workflow then Some(Evaluate(candidate, evidence)) else None
      ensures r.admission.Some? ==> AdmissionConsistent(r.admission.value)
      ensures r.append.Some? ==> AppendConsistent(r.append.value) && r.append.value.appended == Some(FactOf(candidate))
      ensures r.append.Some? <==> caller == Workflow && Qualified(candidate, evidence)
      ensures store.acceptedFacts == old(store.acceptedFacts) + if r.append.Some? then [FactOf(candidate)] else []
    {
      var check := DecideCapability(caller, SubmitCandidate, AuthorityService);
      CapabilityFailsClosed(caller, SubmitCandidate, AuthorityService);
      if check.decision == Denied {
        return GovernedResult(check, candidate, None, None);
      }
      var admission := Evaluate(candidate, evidence);
      EvaluateConsistent(candidate, evidence);
      AcceptIff(candidate, evidence);
      if admission.decision == Reject {
        return GovernedResult(check, candidate, Some(admission), None);
      }
      var append := store.AppendAcceptedReplenishment(AuthorityService, FactOf(candidate));
      r := GovernedResult(check, candidate, Some(admission), Some(append));
    }
  }

  class RestockWorkflow {
    const service: InventoryAuthorityService

    constructor (s: InventoryAuthorityService)
      ensures service == s
    {
      service := s;
    }

    method HandleRestockRequest(caller: Component, request: Request) returns (r: WorkflowResult)
      modifies service.store
      ensures WorkflowConsistent(r)
      ensures r.check == Verdict(caller, SubmitRestockRequest, Workflow, caller == LimitedAgent)
      ensures r.promotion.Some? <==> caller == LimitedAgent
      ensures r.promotion.Some? ==>
                r.promotion.value.candidate == CandidateFor(request) && r.promotion.value.append.Some?
      ensures r.candidate == if caller == LimitedAgent then Some(CandidateFor(request)) else None
      ensures service.store.acceptedFacts
           == old(service.store.acceptedFacts) + if caller == LimitedAgent then [FactOf(CandidateFor(request))] else []
    {
      var check := DecideCapability(caller, SubmitRestockRequest, Workflow);
      CapabilityFailsClosed(caller, SubmitRestockRequest, Workflow);
      if check.decision == Denied {
        return WorkflowResult(check, None, None);
      }
      var candidate := CandidateFor(request);
      var promotion := service.PromoteWithoutAdmission(Workflow, candidate);
      r := WorkflowResult(check, Some(candidate), Some(promotion));
    }

    method PrepareRestockCandidate(caller: Component, request: Request) returns (r: PreparationResult)
      ensures PreparationConsistent(r)
      ensures r.check == Verdict(caller, SubmitRestockRequest, Workflow, caller == LimitedAgent)
      ensures r.candidate == if caller == LimitedAgent then Some(CandidateFor(request)) else None
    {
      var check := DecideCapability(caller, SubmitRestockRequest, Workflow);
      CapabilityFailsClosed(caller, SubmitRestockRequest, Workflow);
      r := PreparationResult(check, if check.decision == Denied then None else Some(CandidateFor(request)));
    }

    method SubmitCandidateWithAdmission(candidate: Candidate, evidence: seq<Evidence>) returns (r: GovernedResult)
      modifies service.store
      ensures r.candidate == candidate && GovernedConsistent(r)
      ensures r.append.Some? <==> Qualified(candidate, evidence)
      ensures service.store.acceptedFacts
           == old(service.store.acceptedFacts) + if r.append.Some? then [FactOf(candidate)] else []
    {
      r := service.PromoteWithAdmission(Workflow, candidate, evidence);
    }
  }

  // ----- whole runs -----

  /** What an actor may do; submissions choose among evidence issued so far, by position. */
  datatype Action =
    | DirectAppend(fact: Fact)
    | Prepare(request: Request)
    | IssueAgentEvidence(candidate: Candidate)
    | ObserveAndConfirm(candidate: Candidate, receipt: Receipt)
    | Submit(candidate: Candidate, picks: seq<nat>)

  /** An accepted submission and the confirmation it was accepted on. */
  datatype Promotion = Promotion(candidate: Candidate, confirmation: Evidence)

  datatype History = History(
    receipts: seq<Receipt>, evidence: seq<Evidence>, facts: seq<Fact>, promotions: seq<Promotion>)

  const Fresh := History([], [], [], [])

  /** Values that could not be constructed never reach an action. */
  predicate Constructible(h: History, a: Action) {
    match a
    case DirectAppend(f) => ValidFact(f)
    case Prepare(r) => ValidRequest(r)
    case IssueAgentEvidence(c) => ValidCandidate(c)
    case ObserveAndConfirm(c, r) => ValidCandidate(c) && ValidReceipt(r)
    case Submit(c, picks) => ValidCandidate(c) && forall i | 0 <= i < |picks| :: picks[i] < |h.evidence|
  }

  function Picked(h: History, picks: seq<nat>): (r: seq<Evidence>)
    requires forall i | 0 <= i < |picks| :: picks[i] < |h.evidence|
    ensures |r| == |picks| && forall i | 0 <= i < |r| :: r[i] in h.evidence
  {
    seq(|picks|, i requires 0 <= i < |picks| => h.evidence[picks[i]])
  }

  function Act(h: History, a: Action): Option<History> {
    if !Constructible(h, a) then None
    else
      match a
      case DirectAppend(_) => Some(h)
      case Prepare(_) => Some(h)
      case IssueAgentEvidence(c) => Some(h.(evidence := h.evidence + [AgentEvidence(c).value]))
      case ObserveAndConfirm(c, r) =>
        Some(h.(receipts := h.receipts + [r], evidence := h.evidence + [ReceiptConfirmation(c, r).value]))
      case Submit(c, picks) =>
        var admission := Evaluate(c, Picked(h, picks));
        if admission.qualifying == None then Some(h)
        else Some(h.(facts := h.facts + [FactOf(c)],
                     promotions := h.promotions + [Promotion(c, admission.qualifying.value)]))
  }

  function RunActions(actions: seq<Action>): Option<History> {
    Fold(Act, Fresh, actions)
  }

  /** The confirmation rests on an observed receipt of exactly this product and quantity. */
  ghost predicate RestsOnReceipt(receipts: seq<Receipt>, e: Evidence) {
    exists i | 0 <= i < |receipts| ::
      e.receiptId == Some(receipts[i].receiptId) && e.product == receipts[i].product && e.quantity == receipts[i].quantity
  }

  ghost predicate EvidenceSound(h: History) {
    forall i | 0 <= i < |h.evidence| ::
      h.evidence[i].kind == WarehouseReceiptConfirmation ==> RestsOnReceipt(h.receipts, h.evidence[i])
  }

  predicate PromotionBacked(h: History, i: nat)
    requires i < |h.promotions|
  {
    var p := h.promotions[i];
    p.confirmation in h.evidence && EvaluateOne(p.candidate, p.confirmation).Qualifies()
  }

  ghost predicate HistoryInv(h: History) {
    && EvidenceSound(h)
    && |h.promotions| == |h.facts|
    && (forall i | 0 <= i < |h.facts| :: h.facts[i] == FactOf(h.promotions[i].candidate) && ValidFact(h.facts[i]))
    && (forall i | 0 <= i < |h.promotions| :: PromotionBacked(h, i))
  }

  lemma RestsStill(receipts: seq<Receipt>, r: Receipt, e: Evidence)
    requires RestsOnReceipt(receipts, e)
    ensures RestsOnReceipt(receipts + [r], e)
  {
    var i :| 0 <= i < |receipts|
          && e.receiptId == Some(receipts[i].receiptId) && e.product == receipts[i].product && e.quantity == receipts[i].quantity;
    assert (receipts + [r])[i] == receipts[i];
  }

  lemma ConfirmInv(h: History, c: Candidate, r: Receipt)
    requires HistoryInv(h) && ValidCandidate(c) && ValidReceipt(r)
    ensures HistoryInv(h.(receipts := h.receipts + [r], evidence := h.evidence + [ReceiptConfirmation(c, r).value]))
  {
    var e := ReceiptConfirmation(c, r).value;
    var receipts, evidence := h.receipts + [r], h.evidence + [e];
    assert receipts[|h.receipts|] == r;
    forall i | 0 <= i < |evidence| && evidence[i].kind == WarehouseReceiptConfirmation
      ensures RestsOnReceipt(receipts, evidence[i])
    {
      if i < |h.evidence| { RestsStill(h.receipts, r, h.evidence[i]); }
    }
    var next := h.(receipts := receipts, evidence := evidence);
    forall i | 0 <= i < |next.promotions| ensures PromotionBacked(next, i) { assert PromotionBacked(h, i); }
  }

  lemma ActInv(h: History, a: Action)
    requires HistoryInv(h) && Act(h, a).Some?
    ensures HistoryInv(Act(h, a).value)
  {
    var next := Act(h, a).value;
    match a
    case DirectAppend(_) =>
    case Prepare(_) =>
    case IssueAgentEvidence(c) =>
      forall i | 0 <= i < |next.promotions| ensures PromotionBacked(next, i) { assert PromotionBacked(h, i); }
    case ObserveAndConfirm(c, r) => ConfirmInv(h, c, r);
    case Submit(c, picks) =>
      AcceptIff(c, Picked(h, picks));
      forall i | 0 <= i < |next.promotions| ensures PromotionBacked(next, i) {
        if i < |h.promotions| { assert PromotionBacked(h, i); }
      }
  }

  lemma {:induction false} RunInv(actions: seq<Action>)
    requires RunActions(actions).Some?
    ensures HistoryInv(RunActions(actions).value)
  {
    if actions != [] {
      var n := |actions| - 1;
      RunInv(actions[..n]);
      ActInv(RunActions(actions[..n]).value, actions[n]);
    }
  }

  /**
   In every run, each accepted fact was appended by a submission that carried a confirmation of its
   candidate, issued by the warehouse from an observed receipt of the fact's own product and quantity.
   */
  lemma EveryFactIsBacked(actions: seq<Action>, i: nat) returns (receipt: Receipt)
    requires RunActions(actions).Some? && i < |RunActions(actions).value.facts|
    ensures var h := RunActions(actions).value;
            && |h.promotions| == |h.facts|
            && h.facts[i] == FactOf(h.promotions[i].candidate)
            && h.promotions[i].confirmation in h.evidence
            && h.promotions[i].confirmation.issuer == WarehouseIssuer
            && h.promotions[i].confirmation.candidateId == h.promotions[i].candidate.candidateId
            && h.promotions[i].confirmation.receiptId == Some(receipt.receiptId)
            && receipt in h.receipts && receipt.product == h.facts[i].product && receipt.quantity == h.facts[i].quantity
  {
    RunInv(actions);
    var h := RunActions(actions).value;
    var p := h.promotions[i];
    assert PromotionBacked(h, i);
    QualifiesIff(p.candidate, p.confirmation);
    var j :| 0 <= j < |h.evidence| && h.evidence[j] == p.confirmation;
    assert RestsOnReceipt(h.receipts, h.evidence[j]);
    var k :| 0 <= k < |h.receipts| && p.confirmation.receiptId == Some(h.receipts[k].receiptId)
          && p.confirmation.product == h.receipts[k].product && p.confirmation.quantity == h.receipts[k].quantity;
    receipt := h.receipts[k];
  }

  lemma {:induction false} InventoryOfPromotions(facts: seq<Fact>, promotions: seq<Promotion>, product: string)
    requires |promotions| == |facts| && forall i | 0 <= i < |facts| :: facts[i] == FactOf(promotions[i].candidate)
    ensures Inventory(facts, product) == Sum((p: Promotion) => QuantityOf(FactOf(p.candidate), product), promotions)
  {
    if facts != [] {
      InventoryOfPromotions(facts[..|facts| - 1], promotions[..|facts| - 1], product);
    }
  }

  /** Inventory is what the accepted promotions of the product add up to, and nothing else moves it. */
  lemma InventoryIsPromoted(actions: seq<Action>, product: string)
    requires RunActions(actions).Some?
    ensures var h := RunActions(actions).value;
            Inventory(h.facts, product) == Sum((p: Promotion) => QuantityOf(FactOf(p.candidate), product), h.promotions)
  {
    RunInv(actions);
    var h := RunActions(actions).value;
    InventoryOfPromotions(h.facts, h.promotions, product);
  }

  /** Without a warehouse observation nothing is ever accepted, whatever the agent does. */
  lemma NoReceiptNoFact(actions: seq<Action>)
    requires RunActions(actions).Some?
    requires RunActions(actions).value.receipts == []
    ensures RunActions(actions).value.facts == []
  {
    if RunActions(actions).value.facts != [] {
      var receipt := EveryFactIsBacked(actions, 0);
    }
  }

  /** Accepted history is append-only across any continuation of a run. */
  lemma {:induction false} HistoryGrows(earlier: seq<Action>, later: seq<Action>)
    requires RunActions(earlier + later).Some?
    ensures RunActions(earlier).Some?
    ensures RunActions(earlier).value.facts <= RunActions(earlier + later).value.facts
  {
    if later == [] {
      assert earlier + later == earlier;
    } else {
      var n := |later| - 1;
      assert (earlier + later)[..|earlier| + n] == earlier + later[..n];
      HistoryGrows(earlier, later[..n]);
    }
  }

  /** Nothing consumes a confirmation: submitting an accepted candidate again is accepted again. */
  lemma ResubmissionIsAccepted(h: History, c: Candidate, picks: seq<nat>)
    requires Constructible(h, Submit(c, picks)) && Qualified(c, Picked(h, picks))
    ensures var once := Act(h, Submit(c, picks));
            && once.Some? && once.value.facts == h.facts + [FactOf(c)]
            && var twice := Act(once.value, Submit(c, picks));
               twice.Some? && twice.value.facts == h.facts + [FactOf(c), FactOf(c)]
  {
    AcceptIff(c, Picked(h, picks));
    var once := Act(h, Submit(c, picks)).value;
    assert Picked(once, picks) == Picked(h, picks);
    assert h.facts + [FactOf(c)] + [FactOf(c)] == h.facts + [FactOf(c), FactOf(c)];
  }

  /** The components execute any run of actions as the history describes. */
  method Perform(workflow: RestockWorkflow, actions: seq<Action>) returns (ok: bool)
    requires workflow.service.store.acceptedFacts == []
    modifies workflow.service.store
    ensures ok <==> RunActions(actions).Some?
    ensures ok ==> workflow.service.store.acceptedFacts == RunActions(actions).value.facts
  {
    var h := Fresh;
    for i := 0 to |actions|
      invariant RunActions(actions[..i]) == Some(h)
      invariant workflow.service.store.acceptedFacts == h.facts
    {
      assert actions[..i + 1][..i] == actions[..i];
      var next := Act(h, actions[i]);
      if next == None {
        FoldStopped(Act, Fresh, actions, i + 1);
        return false;
      }
      PerformOne(workflow, h, actions[i]);
      h := next.value;
    }
    assert actions[..|actions|] == actions;
    ok := true;
  }

  method PerformOne(workflow: RestockWorkflow, h: History, a: Action)
    requires Constructible(h, a) && workflow.service.store.acceptedFacts == h.facts
    modifies workflow.service.store
    ensures workflow.service.store.acceptedFacts == Act(h, a).value.facts
  {
    match a
    case DirectAppend(fact) =>
      var _ := workflow.service.store.AppendAcceptedReplenishment(LimitedAgent, fact);
    case Prepare(request) =>
      var _ := workflow.PrepareRestockCandidate(LimitedAgent, request);
    case IssueAgentEvidence(_) =>
    case ObserveAndConfirm(_, _) =>
    case Submit(candidate, picks) =>
      AcceptIff(candidate, Picked(h, picks));
      var _ := workflow.SubmitCandidateWithAdmission(candidate, Picked(h, picks));
  }
}
