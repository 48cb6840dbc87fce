/**
Vocabulary of the authority-composition model: local capabilities, evidence and its
issuers, semantic admission, and the typed results with the checks they make on
construction.
*/
module AuthorityModel {
  import opened Wrappers
  import opened Sequences

  datatype Component = LimitedAgent | Workflow | AuthorityService | InventoryStore

  datatype Operation = SubmitRestockRequest | SubmitCandidate | AppendAccepted

  datatype Permission = Allowed | Denied

  datatype Capability = Capability(caller: Component, operation: Operation, target: Component)

  datatype Check = Check(capability: Capability, decision: Permission)

  datatype Kind = AgentRestockRequest | WarehouseReceiptConfirmation

  datatype Issuer = AgentIssuer | WarehouseIssuer

  datatype Proposition = RestockRequested | StockReplenished

  datatype Decision = Accept | Reject

  datatype ValueError = BlankProduct | QuantityNotPositive | BlankIdentifier | NotIssued | ReceiptRequired | ReceiptForbidden

  datatype Request = Request(product: string, quantity: int, requestId: string)

  datatype Candidate = Candidate(product: string, quantity: int, candidateId: string)

  datatype Receipt = Receipt(receiptId: string, product: string, quantity: int)

  datatype Fact = Fact(product: string, quantity: int)

  datatype Evidence = Evidence(
    kind: Kind, issuer: Issuer, candidateId: string, receiptId: Option<string>,
    product: string, quantity: int, issued: bool)

  // ----- local capabilities fail closed -----

  const DeclaredEdges: map<Capability, Permission> := map[
    Capability(LimitedAgent, SubmitRestockRequest, Workflow) := Allowed,
    Capability(Workflow, SubmitCandidate, AuthorityService) := Allowed,
    Capability(AuthorityService, AppendAccepted, InventoryStore) := Allowed,
    Capability(LimitedAgent, AppendAccepted, InventoryStore) := Denied
  ]

  function DecideCapability(caller: Component, operation: Operation, target: Component): Check {
    var capability := Capability(caller, operation, target);
    Check(capability, if capability in DeclaredEdges then DeclaredEdges[capability] else Denied)
  }

  /** Each operation has one permitted caller and one target. */
  lemma CapabilityFailsClosed(caller: Component, operation: Operation, target: Component)
    ensures DecideCapability(caller, operation, target).decision == Allowed <==>
            match operation
            case SubmitRestockRequest => caller == LimitedAgent && target == Workflow
            case SubmitCandidate => caller == Workflow && target == AuthorityService
            case AppendAccepted => caller == AuthorityService && target == InventoryStore
  {
  }

  // ----- construction checks -----

  predicate IsSpace(c: char) {
    c == ' ' || '\t' <= c <= '\r' || '\U{1c}' <= c <= '\U{1f}' || c == '\U{85}' || c == '\U{a0}'
    || c == '\U{1680}' || '\U{2000}' <= c <= '\U{200a}' || c == '\U{2028}' || c == '\U{2029}'
    || c == '\U{202f}' || c == '\U{205f}' || c == '\U{3000}'
  }

  const Spaces := "\t\n\U{b}\U{c}\r\U{1c}\U{1d}\U{1e}\U{1f} \U{85}\U{a0}\U{1680}\U{2000}\U{2001}\U{2002}\U{2003}\U{2004}"
    + "\U{2005}\U{2006}\U{2007}\U{2008}\U{2009}\U{200a}\U{2028}\U{2029}\U{202f}\U{205f}\U{3000}"

  lemma SpacesListed(c: char)
    ensures IsSpace(c) <==> c in Spaces
  {
  }

  /** The text is not empty once surrounding white space is stripped. */
  predicate NonBlank(s: string) {
    exists i | 0 <= i < |s| :: !IsSpace(s[i])
  }

  function ProductError(product: string, quantity: int): Option<ValueError> {
    if !NonBlank(product) then Some(BlankProduct)
    else if quantity <= 0 then Some(QuantityNotPositive)
    else None
  }

  predicate ValidRequest(r: Request) {
    ProductError(r.product, r.quantity) == None && NonBlank(r.requestId)
  }

  predicate ValidCandidate(c: Candidate) {
    ProductError(c.product, c.quantity) == None && NonBlank(c.candidateId)
  }

  predicate ValidReceipt(r: Receipt) {
    ProductError(r.product, r.quantity) == None && NonBlank(r.receiptId)
  }

  predicate ValidFact(f: Fact) {
    ProductError(f.product, f.quantity) == None
  }

  function CandidateId(requestId: string): string {
    "candidate:" + requestId
  }

  function CandidateFor(r: Request): Candidate {
    Candidate(r.product, r.quantity, CandidateId(r.requestId))
  }

  function FactOf(c: Candidate): Fact {
    Fact(c.product, c.quantity)
  }

  /** A product must have a character that is not white space, and a quantity must be at least one. */
  lemma ProductErrorIff(product: string, quantity: int)
    ensures ProductError(product, quantity) == Some(BlankProduct) <==> forall i | 0 <= i < |product| :: IsSpace(product[i])
    ensures ProductError(product, quantity) == Some(QuantityNotPositive)
       <==> quantity < 1 && exists i | 0 <= i < |product| :: !IsSpace(product[i])
    ensures ProductError(product, quantity) == None
       <==> quantity >= 1 && exists i | 0 <= i < |product| :: !IsSpace(product[i])
  {
  }

  /**
   Requests that are accepted give candidates and facts that are accepted, of the request's own product and
   quantity, and distinct ids stay distinct.
   */
  lemma CandidateForValid(r: Request, q: Request)
    requires ValidRequest(r)
    ensures ValidCandidate(CandidateFor(r)) && ValidFact(FactOf(CandidateFor(r)))
    ensures (CandidateFor(r).product, CandidateFor(r).quantity) == (r.product, r.quantity)
    ensures FactOf(CandidateFor(r)) == Fact(r.product, r.quantity)
    ensures CandidateFor(r).candidateId == CandidateFor(q).candidateId <==> r.requestId == q.requestId
  {
    var prefix := "candidate:";
    var i :| 0 <= i < |r.requestId| && !IsSpace(r.requestId[i]);
    assert CandidateId(r.requestId)[|prefix| + i] == r.requestId[i];
    if CandidateId(r.requestId) == CandidateId(q.requestId) {
      assert r.requestId == CandidateId(r.requestId)[|prefix|..];
      assert q.requestId == CandidateId(q.requestId)[|prefix|..];
    }
  }

  // ----- evidence -----

  /** The evidence constructor, which only the issuing APIs hand the token to. */
  function IssueEvidence(kind: Kind, issuer: Issuer, candidateId: string, receiptId: Option<string>,
                         product: string, quantity: int, token: bool): Result<Evidence, ValueError>
  {
    if !token then Failure(NotIssued)
    else if !NonBlank(candidateId) then Failure(BlankIdentifier)
    else
      match ProductError(product, quantity)
      case Some(e) => Failure(e)
      case None =>
        if receiptId.Some? && !NonBlank(receiptId.value) then Failure(BlankIdentifier)
        else if kind == WarehouseReceiptConfirmation && receiptId == None then Failure(ReceiptRequired)
        else if kind != WarehouseReceiptConfirmation && receiptId.Some? then Failure(ReceiptForbidden)
        else Success(Evidence(kind, issuer, candidateId, receiptId, product, quantity, true))
  }

  function AgentEvidence(c: Candidate): Result<Evidence, ValueError> {
    IssueEvidence(AgentRestockRequest, AgentIssuer, c.candidateId, None, c.product, c.quantity, true)
  }

  /** Only the correlation identity comes from the candidate; product and quantity are the receipt's own. */
  function ReceiptConfirmation(c: Candidate, r: Receipt): Result<Evidence, ValueError> {
    IssueEvidence(WarehouseReceiptConfirmation, WarehouseIssuer, c.candidateId, Some(r.receiptId), r.product, r.quantity, true)
  }

  /** The constructor accepts exactly issued evidence with its texts filled in, and a receipt exactly from the warehouse. */
  lemma IssueIff(kind: Kind, issuer: Issuer, candidateId: string, receiptId: Option<string>,
                 product: string, quantity: int, token: bool)
    ensures IssueEvidence(kind, issuer, candidateId, receiptId, product, quantity, token).Success? <==>
            && token && NonBlank(candidateId) && NonBlank(product) && quantity >= 1
            && (receiptId.Some? <==> kind == WarehouseReceiptConfirmation)
            && (receiptId.Some? ==> NonBlank(receiptId.value))
    ensures IssueEvidence(kind, issuer, candidateId, receiptId, product, quantity, token).Success? ==>
              IssueEvidence(kind, issuer, candidateId, receiptId, product, quantity, token)
              == Success(Evidence(kind, issuer, candidateId, receiptId, product, quantity, true))
  {
    ProductErrorIff(product, quantity);
  }

  /**
   Both issuing APIs succeed. The agent repeats its candidate; the warehouse confirms what the receipt says, and
   takes from the candidate nothing but its identity.
   */
  lemma IssuersSucceed(c: Candidate, r: Receipt)
    requires ValidCandidate(c) && ValidReceipt(r)
    ensures AgentEvidence(c).Success? && ReceiptConfirmation(c, r).Success?
    ensures var e := AgentEvidence(c).value;
            && (e.kind, e.issuer, e.issued, e.receiptId) == (AgentRestockRequest, AgentIssuer, true, None)
            && (e.candidateId, e.product, e.quantity) == (c.candidateId, c.product, c.quantity)
    ensures var e := ReceiptConfirmation(c, r).value;
            && (e.kind, e.issuer, e.issued) == (WarehouseReceiptConfirmation, WarehouseIssuer, true)
            && e.candidateId == c.candidateId
            && (e.receiptId, e.product, e.quantity) == (Some(r.receiptId), r.product, r.quantity)
  {
  }

  function Supports(kind: Kind): set<Proposition> {
    match kind
    case AgentRestockRequest => {RestockRequested}
    case WarehouseReceiptConfirmation => {StockReplenished}
  }

  function AuthorizedFor(issuer: Issuer): set<Proposition> {
    match issuer
    case AgentIssuer => {RestockRequested}
    case WarehouseIssuer => {StockReplenished}
  }

  predicate Matches(e: Evidence, c: Candidate) {
    e.candidateId == c.candidateId && e.product == c.product && e.quantity == c.quantity
  }

  datatype Evaluation = Evaluation(evidence: Evidence, issued: bool, matches: bool, supports: bool, authorized: bool) {
    predicate Qualifies() {
      issued && matches && supports && authorized
    }
  }

  function EvaluateOne(c: Candidate, e: Evidence): Evaluation {
    Evaluation(e, e.issued, Matches(e, c), StockReplenished in Supports(e.kind), StockReplenished in AuthorizedFor(e.issuer))
  }

  /** Evidence that qualifies is a warehouse confirmation, issued by the warehouse, of this very candidate. */
  lemma QualifiesIff(c: Candidate, e: Evidence)
    ensures EvaluateOne(c, e).Qualifies() <==>
            && e.issued && e.kind == WarehouseReceiptConfirmation && e.issuer == WarehouseIssuer
            && e.candidateId == c.candidateId && e.product == c.product && e.quantity == c.quantity
  {
  }

  // ----- semantic admission -----

  datatype Admission = Admission(decision: Decision, evaluations: seq<Evaluation>, qualifying: Option<Evidence>)

  function Evaluations(c: Candidate, evidence: seq<Evidence>): (r: seq<Evaluation>)
    ensures |r| == |evidence|
  {
    seq(|evidence|, i requires 0 <= i < |evidence| => EvaluateOne(c, evidence[i]))
  }

  function FirstQualifying(evaluations: seq<Evaluation>): Option<Evidence> {
    if evaluations == [] then None
    else if evaluations[0].Qualifies() then Some(evaluations[0].evidence)
    else FirstQualifying(evaluations[1..])
  }

  function Evaluate(c: Candidate, evidence: seq<Evidence>): Admission {
    var evaluations := Evaluations(c, evidence);
    var qualifying := FirstQualifying(evaluations);
    Admission(if qualifying.Some? then Accept else Reject, evaluations, qualifying)
  }

  function QualifyingOnly(evaluations: seq<Evaluation>): seq<Evaluation> {
    FlatMap((v: Evaluation) => if v.Qualifies() then [v] else [], evaluations)
  }

  /** What the admission result checks when it is constructed. */
  predicate AdmissionConsistent(a: Admission) {
    var qualifying := QualifyingOnly(a.evaluations);
    && (a.decision == Accept <==> qualifying != [])
    && a.qualifying == (if a.decision == Accept && qualifying != [] then Some(qualifying[0].evidence) else None)
  }

  lemma {:induction false} FirstOfQualifying(evaluations: seq<Evaluation>)
    ensures var q := QualifyingOnly(evaluations);
            FirstQualifying(evaluations) == if q == [] then None else Some(q[0].evidence)
  {
    if evaluations != [] {
      var head, rest := [evaluations[0]], evaluations[1..];
      FirstOfQualifying(rest);
      assert evaluations == head + rest;
      FlatMapConcat((v: Evaluation) => if v.Qualifies() then [v] else [], head, rest);
      FlatMapOne((v: Evaluation) => if v.Qualifies() then [v] else [], evaluations[0]);
    }
  }

  lemma EvaluateConsistent(c: Candidate, evidence: seq<Evidence>)
    ensures AdmissionConsistent(Evaluate(c, evidence))
  {
    FirstOfQualifying(Evaluations(c, evidence));
  }

  ghost predicate Qualified(c: Candidate, evidence: seq<Evidence>) {
    exists i | 0 <= i < |evidence| :: EvaluateOne(c, evidence[i]).Qualifies()
  }

  /** Acceptance is the presence of one qualifying record, and the one exposed is among those submitted. */
  lemma {:induction false} AcceptIff(c: Candidate, evidence: seq<Evidence>)
    ensures Evaluate(c, evidence).decision == Accept <==> Qualified(c, evidence)
    ensures Evaluate(c, evidence).decision == Accept ==>
              var e := Evaluate(c, evidence).qualifying;
              e.Some? && e.value in evidence && EvaluateOne(c, e.value).Qualifies()
  {
    if evidence != [] {
      AcceptIff(c, evidence[1..]);
      assert Evaluations(c, evidence)[1..] == Evaluations(c, evidence[1..]);
      if Qualified(c, evidence) {
        var i :| 0 <= i < |evidence| && EvaluateOne(c, evidence[i]).Qualifies();
        assert i > 0 ==> evidence[1..][i - 1] == evidence[i];
      }
      if Qualified(c, evidence[1..]) {
        var i :| 0 <= i < |evidence[1..]| && EvaluateOne(c, evidence[1..][i]).Qualifies();
        assert evidence[i + 1] == evidence[1..][i];
      }
    }
  }

  /** The order evidence is transported in does not matter. */
  lemma DecisionIgnoresOrder(c: Candidate, s: seq<Evidence>, t: seq<Evidence>)
    requires multiset(s) == multiset(t)
    ensures Evaluate(c, s).decision == Evaluate(c, t).decision
  {
    QualifiedMonotone(c, s, t);
    QualifiedMonotone(c, t, s);
  }

  /** More evidence never turns acceptance into rejection. */
  lemma QualifiedMonotone(c: Candidate, s: seq<Evidence>, t: seq<Evidence>)
    requires multiset(s) <= multiset(t)
    ensures Evaluate(c, s).decision == Accept ==> Evaluate(c, t).decision == Accept
  {
    AcceptIff(c, s);
    AcceptIff(c, t);
    if Qualified(c, s) {
      var i :| 0 <= i < |s| && EvaluateOne(c, s[i]).Qualifies();
      assert s[i] in multiset(s);
      assert s[i] in multiset(t);
      var j :| 0 <= j < |t| && t[j] == s[i];
    }
  }

  /** Whatever the agent issues carries no weight. */
  lemma DecisionIgnoresAgentEvidence(c: Candidate, evidence: seq<Evidence>)
    ensures Evaluate(c, evidence).decision ==
            Evaluate(c, FlatMap((e: Evidence) => if e.issuer == AgentIssuer then [] else [e], evidence)).decision
  {
    var keep := (e: Evidence) => if e.issuer == AgentIssuer then [] else [e];
    var kept := FlatMap(keep, evidence);
    AcceptIff(c, evidence);
    AcceptIff(c, kept);
    if Qualified(c, evidence) {
      var i :| 0 <= i < |evidence| && EvaluateOne(c, evidence[i]).Qualifies();
      FlatMapMember(keep, evidence, evidence[i]);
      var j :| 0 <= j < |kept| && kept[j] == evidence[i];
    }
    if Qualified(c, kept) {
      var j :| 0 <= j < |kept| && EvaluateOne(c, kept[j]).Qualifies();
      FlatMapMember(keep, evidence, kept[j]);
    }
  }

  // ----- results -----

  datatype AppendResult = AppendResult(check: Check, attempted: Fact, appended: Option<Fact>)

  datatype PromotionResult = PromotionResult(check: Check, candidate: Candidate, append: Option<AppendResult>)

  datatype GovernedResult = GovernedResult(check: Check, candidate: Candidate,
                                           admission: Option<Admission>, append: Option<AppendResult>)

  datatype WorkflowResult = WorkflowResult(check: Check, candidate: Option<Candidate>, promotion: Option<PromotionResult>)

  datatype PreparationResult = PreparationResult(check: Check, candidate: Option<Candidate>)

  predicate AppendConsistent(r: AppendResult) {
    if r.check.decision == Allowed then r.appended == Some(r.attempted) else r.appended == None
  }

  predicate PromotionConsistent(r: PromotionResult) {
    r.check.decision == Allowed <==> r.append.Some?
  }

  predicate GovernedConsistent(r: GovernedResult) {
    if r.check.decision == Denied then r.admission == None && r.append == None
    else
      && r.admission.Some?
      && (r.admission.value.decision == Accept <==> r.append.Some?)
      && (r.append.Some? ==> r.append.value.appended == Some(FactOf(r.candidate)))
  }

  predicate WorkflowConsistent(r: WorkflowResult) {
    r.check.decision == Allowed <==> r.candidate.Some? && r.promotion.Some?
  }

  predicate PreparationConsistent(r: PreparationResult) {
    r.check.decision == Allowed <==> r.candidate.Some?
  }
}
