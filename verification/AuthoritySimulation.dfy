/** One sequence of requests through both paths: the governed history against the unchecked one. */
module AuthoritySimulation {
  import opened Sequences
  import opened AuthorityModel
  import opened AuthoritySystem

  /** A request together with the evidence transported with its candidate. */
  datatype Case = Case(request: Request, evidence: seq<Evidence>)

  predicate AllValid(cases: seq<Case>) {
    forall i | 0 <= i < |cases| :: ValidRequest(cases[i].request)
  }

  function CaseFact(c: Case): Fact {
    FactOf(CandidateFor(c.request))
  }

  predicate Admitted(c: Case) {
    Evaluate(CandidateFor(c.request), c.evidence).decision == Accept
  }

  function UncheckedFacts(cases: seq<Case>): seq<Fact> {
    FlatMap((c: Case) => [CaseFact(c)], cases)
  }

  function GovernedFacts(cases: seq<Case>): seq<Fact> {
    FlatMap((c: Case) => if Admitted(c) then [CaseFact(c)] else [], cases)
  }

  method RunUnchecked(workflow: RestockWorkflow, cases: seq<Case>)
    requires workflow.service.store.acceptedFacts == []
    modifies workflow.service.store
    ensures workflow.service.store.acceptedFacts == UncheckedFacts(cases)
  {
    for i := 0 to |cases|
      invariant workflow.service.store.acceptedFacts == UncheckedFacts(cases[..i])
    {
      assert cases[..i + 1][..i] == cases[..i];
      var _ := workflow.HandleRestockRequest(LimitedAgent, cases[i].request);
    }
    assert cases[..|cases|] == cases;
  }

  /** Prepare each candidate, then submit it once with its evidence. */
  method RunGoverned(workflow: RestockWorkflow, cases: seq<Case>)
    requires workflow.service.store.acceptedFacts == []
    modifies workflow.service.store
    ensures workflow.service.store.acceptedFacts == GovernedFacts(cases)
  {
    for i := 0 to |cases|
      invariant workflow.service.store.acceptedFacts == GovernedFacts(cases[..i])
    {
      assert cases[..i + 1][..i] == cases[..i];
      var preparation := workflow.PrepareRestockCandidate(LimitedAgent, cases[i].request);
      AcceptIff(CandidateFor(cases[i].request), cases[i].evidence);
      var _ := workflow.SubmitCandidateWithAdmission(preparation.candidate.value, cases[i].evidence);
    }
    assert cases[..|cases|] == cases;
  }

  // ----- the governed history is a subsequence -----

  /** at picks increasing positions of t that spell out s. */
  predicate SpellsOut<T(==)>(s: seq<T>, t: seq<T>, at: seq<nat>) {
    && |at| == |s|
    && (forall i | 0 <= i < |at| :: at[i] < |t| && t[at[i]] == s[i])
    && (forall i, j | 0 <= i < j < |at| :: at[i] < at[j])
  }

  lemma {:induction false} GovernedIsSubsequence(cases: seq<Case>) returns (at: seq<nat>)
    ensures SpellsOut(GovernedFacts(cases), UncheckedFacts(cases), at)
    ensures |UncheckedFacts(cases)| == |cases|
  {
    if cases == [] {
      at := [];
    } else {
      var n := |cases| - 1;
      at := GovernedIsSubsequence(cases[..n]);
      if Admitted(cases[n]) { at := at + [n]; }
    }
  }

  // ----- inventory -----

  /** Every case of the product carried qualifying evidence. */
  ghost predicate AllQualified(cases: seq<Case>, product: string) {
    forall i | 0 <= i < |cases| && cases[i].request.product == product ::
      Qualified(CandidateFor(cases[i].request), cases[i].evidence)
  }

  lemma AllQualifiedNext(cases: seq<Case>, product: string)
    requires cases != []
    ensures var n := |cases| - 1;
            AllQualified(cases, product) <==>
            AllQualified(cases[..n], product) && (cases[n].request.product == product ==> Admitted(cases[n]))
  {
    var n := |cases| - 1;
    AcceptIff(CandidateFor(cases[n].request), cases[n].evidence);
    if AllQualified(cases[..n], product) {
      forall i | 0 <= i < n && cases[i].request.product == product
        ensures Qualified(CandidateFor(cases[i].request), cases[i].evidence)
      {
        assert cases[..n][i] == cases[i];
      }
    }
  }

  lemma InventoryNext(facts: seq<Fact>, more: seq<Fact>, product: string)
    requires |more| <= 1
    ensures Inventory(facts + more, product)
         == Inventory(facts, product) + if more == [] then 0 else QuantityOf(more[0], product)
  {
    if more == [] {
      assert facts + more == facts;
    } else {
      assert (facts + more)[..|facts|] == facts;
    }
  }

  /**
   The governed inventory never exceeds the unchecked one, and equals it for a product exactly
   when all of that product's candidates had qualifying evidence.
   */
  lemma {:induction false} GovernedInventory(cases: seq<Case>, product: string)
    requires AllValid(cases)
    ensures Inventory(GovernedFacts(cases), product) <= Inventory(UncheckedFacts(cases), product)
    ensures Inventory(GovernedFacts(cases), product) == Inventory(UncheckedFacts(cases), product)
            <==> AllQualified(cases, product)
  {
    if cases != [] {
      var n := |cases| - 1;
      var last := cases[n];
      GovernedInventory(cases[..n], product);
      AllQualifiedNext(cases, product);
      InventoryNext(UncheckedFacts(cases[..n]), [CaseFact(last)], product);
      InventoryNext(GovernedFacts(cases[..n]), if Admitted(last) then [CaseFact(last)] else [], product);
      CandidateForValid(last.request, last.request);
    }
  }

  /** With nothing but the agent's own evidence the governed store stays empty. */
  lemma {:induction false} AgentAloneChangesNothing(cases: seq<Case>)
    requires forall i, j | 0 <= i < |cases| && 0 <= j < |cases[i].evidence| :: cases[i].evidence[j].issuer == AgentIssuer
    ensures GovernedFacts(cases) == []
  {
    if cases != [] {
      var n := |cases| - 1;
      assert forall i | 0 <= i < n :: cases[..n][i] == cases[i];
      AgentAloneChangesNothing(cases[..n]);
      AcceptIff(CandidateFor(cases[n].request), cases[n].evidence);
    }
  }
}
