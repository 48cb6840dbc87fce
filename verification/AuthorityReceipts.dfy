/**
How often one confirmation, or one receipt, may be relied on. Nothing in the system consumes
either, so accepted stock can exceed received stock; it cannot when no accepted submission
relies on a confirmation, or on a receipt, that an earlier accepted one relied on already.
*/
module AuthorityReceipts {
  import opened Wrappers
  import opened Sequences
  import opened AuthorityModel
  import opened AuthoritySystem

  // ----- what accepted submissions rely on -----

  /** The confirmation a submission would be accepted on, as a caller can compute it beforehand. */
  function Exposed(h: History, a: Action): Option<Evidence> {
    if a.Submit? && Constructible(h, a) then Evaluate(a.candidate, Picked(h, a.picks)).qualifying else None
  }

  /** What the accepted promotions rest on, in order of acceptance, seen through key. */
  function ReliedOn<K>(h: History, key: Evidence -> K): (r: seq<K>)
    ensures |r| == |h.promotions| && forall i | 0 <= i < |r| :: r[i] == key(h.promotions[i].confirmation)
  {
    seq(|h.promotions|, i requires 0 <= i < |h.promotions| => key(h.promotions[i].confirmation))
  }

  function Itself(e: Evidence): Evidence { e }

  /** The receipt a confirmation was issued from. */
  function ReceiptOf(e: Evidence): Receipt {
    Receipt(if e.receiptId.Some? then e.receiptId.value else "", e.product, e.quantity)
  }

  /** Before this action nothing accepted so far relies on what it would rely on. */
  predicate Unused<K(==)>(h: History, a: Action, key: Evidence -> K) {
    Exposed(h, a).Some? ==> key(Exposed(h, a).value) !in ReliedOn(h, key)
  }

  /** At every action of the run, checked against the history before it. */
  predicate NeverReused<K(==)>(actions: seq<Action>, key: Evidence -> K) {
    forall i | 0 <= i < |actions| ::
      RunActions(actions[..i]).Some? ==> Unused(RunActions(actions[..i]).value, actions[i], key)
  }

  lemma NeverReusedNext<K>(actions: seq<Action>, key: Evidence -> K)
    requires actions != [] && RunActions(actions[..|actions| - 1]).Some?
    ensures var n := |actions| - 1;
            NeverReused(actions, key) <==>
            NeverReused(actions[..n], key) && Unused(RunActions(actions[..n]).value, actions[n], key)
  {
    var n := |actions| - 1;
    assert forall i | 0 <= i < n :: actions[..n][..i] == actions[..i] && actions[..n][i] == actions[i];
  }

  lemma ReliedOnNext<K>(h: History, a: Action, key: Evidence -> K)
    requires Act(h, a).Some?
    ensures ReliedOn(Act(h, a).value, key)
         == ReliedOn(h, key) + if Exposed(h, a).Some? then [key(Exposed(h, a).value)] else []
  {
  }

  lemma DistinctNext<K>(s: seq<K>, x: K)
    ensures NoDuplicates(s + [x]) <==> NoDuplicates(s) && x !in s
  {
    var t := s + [x];
    assert forall i | 0 <= i < |s| :: t[i] == s[i];
    if NoDuplicates(t) {
      forall i | 0 <= i < |s| ensures s[i] != x { assert t[i] != t[|s|]; }
      forall i, j | 0 <= i < j < |s| ensures s[i] != s[j] { assert t[i] != t[j]; }
    }
  }

  /**
   The accepted promotions rest on pairwise distinct confirmations (or receipts) exactly when no
   accepted submission relies on one that an earlier accepted submission relied on.
   */
  lemma {:induction false} DistinctIffNeverReused<K>(actions: seq<Action>, key: Evidence -> K)
    requires RunActions(actions).Some?
    ensures NoDuplicates(ReliedOn(RunActions(actions).value, key)) <==> NeverReused(actions, key)
  {
    if actions != [] {
      var n := |actions| - 1;
      var h := RunActions(actions[..n]).value;
      DistinctIffNeverReused(actions[..n], key);
      NeverReusedNext(actions, key);
      ReliedOnNext(h, actions[n], key);
      if Exposed(h, actions[n]).Some? { DistinctNext(ReliedOn(h, key), key(Exposed(h, actions[n]).value)); }
    }
  }

  // ----- every confirmation was issued from its own observation -----

  function Confirmations(evidence: seq<Evidence>): seq<Evidence> {
    FlatMap((e: Evidence) => if e.kind == WarehouseReceiptConfirmation then [e] else [], evidence)
  }

  /** The warehouse's confirmations correspond, one by one, to the receipts it observed. */
  predicate IssuedFrom(h: History) {
    var issued := Confirmations(h.evidence);
    && |issued| == |h.receipts|
    && forall i | 0 <= i < |issued| :: ReceiptOf(issued[i]) == h.receipts[i] && h.receipts[i].quantity > 0
  }

  lemma ConfirmationsNext(evidence: seq<Evidence>, e: Evidence)
    ensures Confirmations(evidence + [e])
         == Confirmations(evidence) + if e.kind == WarehouseReceiptConfirmation then [e] else []
  {
    assert (evidence + [e])[..|evidence|] == evidence;
  }

  lemma ActIssues(h: History, a: Action)
    requires IssuedFrom(h) && Act(h, a).Some?
    ensures IssuedFrom(Act(h, a).value)
  {
    match a
    case IssueAgentEvidence(c) => ConfirmationsNext(h.evidence, AgentEvidence(c).value);
    case ObserveAndConfirm(c, r) => ConfirmationsNext(h.evidence, ReceiptConfirmation(c, r).value);
    case _ =>
  }

  lemma {:induction false} RunIssues(actions: seq<Action>)
    requires RunActions(actions).Some?
    ensures IssuedFrom(RunActions(actions).value)
  {
    if actions != [] {
      var n := |actions| - 1;
      RunIssues(actions[..n]);
      ActIssues(RunActions(actions[..n]).value, actions[n]);
    }
  }

  // ----- inventory against receipts -----

  function EvidenceQuantity(product: string): Evidence -> int {
    (e: Evidence) => if e.product == product then e.quantity else 0
  }

  function ReceiptQuantity(product: string): Receipt -> int {
    (r: Receipt) => if r.product == product then r.quantity else 0
  }

  /** Quantity of a product over all observations, an observation counted as often as it was made. */
  function Observed(receipts: seq<Receipt>, product: string): int {
    Sum(ReceiptQuantity(product), receipts)
  }

  /** Each receipt once, in order of first observation. */
  function Once(receipts: seq<Receipt>): (r: seq<Receipt>)
    ensures forall x :: x in r <==> x in receipts
  {
    if receipts == [] then []
    else
      var n := |receipts| - 1;
      var earlier := Once(receipts[..n]);
      assert receipts == receipts[..n] + [receipts[n]];
      if receipts[n] in earlier then earlier else earlier + [receipts[n]]
  }

  /** Distinct members of a list weigh no more than the whole list. */
  lemma {:induction false} SumWithin<T>(f: T -> int, s: seq<T>, t: seq<T>)
    requires NoDuplicates(s) && forall i | 0 <= i < |s| :: s[i] in t
    requires forall i | 0 <= i < |t| :: f(t[i]) >= 0
    ensures Sum(f, s) <= Sum(f, t)
  {
    if s == [] {
      SumNonNegative(f, t);
    } else {
      var n := |s| - 1;
      var i :| 0 <= i < |t| && t[i] == s[n];
      var rest := Without(t, i);
      forall j | 0 <= j < n ensures s[..n][j] in rest {
        assert s[j] in t && s[j] != s[n];
        var k :| 0 <= k < |t| && t[k] == s[j];
        assert rest[if k < i then k else k - 1] == s[j];
      }
      forall j | 0 <= j < |rest| ensures f(rest[j]) >= 0 { assert rest[j] == t[if j < i then j else j + 1]; }
      SumWithin(f, s[..n], rest);
      SumWithout(f, t, i);
    }
  }

  lemma {:induction false} SumNonNegative<T>(f: T -> int, t: seq<T>)
    requires forall i | 0 <= i < |t| :: f(t[i]) >= 0
    ensures Sum(f, t) >= 0
  {
    if t != [] { SumNonNegative(f, t[..|t| - 1]); }
  }

  lemma {:induction false} SumPointwise<S, T>(f: S -> int, g: T -> int, s: seq<S>, t: seq<T>)
    requires |s| == |t| && forall i | 0 <= i < |s| :: f(s[i]) == g(t[i])
    ensures Sum(f, s) == Sum(g, t)
  {
    if s != [] { SumPointwise(f, g, s[..|s| - 1], t[..|t| - 1]); }
  }

  lemma ReliedIsIssued(h: History, i: nat)
    requires HistoryInv(h) && i < |h.promotions|
    ensures h.promotions[i].confirmation in Confirmations(h.evidence)
    ensures h.facts[i] == Fact(h.promotions[i].confirmation.product, h.promotions[i].confirmation.quantity)
  {
    var e := h.promotions[i].confirmation;
    assert PromotionBacked(h, i);
    QualifiesIff(h.promotions[i].candidate, e);
    FlatMapMember((e: Evidence) => if e.kind == WarehouseReceiptConfirmation then [e] else [], h.evidence, e);
    var j :| 0 <= j < |h.evidence| && h.evidence[j] == e;
  }

  lemma InventoryOfConfirmations(h: History, product: string)
    requires HistoryInv(h)
    ensures Inventory(h.facts, product) == Sum(EvidenceQuantity(product), ReliedOn(h, Itself))
  {
    forall i | 0 <= i < |h.facts|
      ensures QuantityOf(h.facts[i], product) == EvidenceQuantity(product)(ReliedOn(h, Itself)[i])
    {
      ReliedIsIssued(h, i);
    }
    SumPointwise((f: Fact) => QuantityOf(f, product), EvidenceQuantity(product), h.facts, ReliedOn(h, Itself));
  }

  /** When no confirmation is relied on twice, inventory is covered by the observations made. */
  lemma InventoryWithinObservations(actions: seq<Action>, product: string)
    requires RunActions(actions).Some? && NeverReused(actions, Itself)
    ensures var h := RunActions(actions).value; Inventory(h.facts, product) <= Observed(h.receipts, product)
  {
    var h := RunActions(actions).value;
    RunInv(actions);
    RunIssues(actions);
    DistinctIffNeverReused(actions, Itself);
    var relied, issued := ReliedOn(h, Itself), Confirmations(h.evidence);
    forall i | 0 <= i < |relied| ensures relied[i] in issued { ReliedIsIssued(h, i); }
    forall i | 0 <= i < |issued| ensures EvidenceQuantity(product)(issued[i]) == ReceiptQuantity(product)(h.receipts[i]) >= 0 {
      assert ReceiptOf(issued[i]) == h.receipts[i];
    }
    SumWithin(EvidenceQuantity(product), relied, issued);
    SumPointwise(EvidenceQuantity(product), ReceiptQuantity(product), issued, h.receipts);
    InventoryOfConfirmations(h, product);
  }

  lemma ReceiptObserved(h: History, i: nat)
    requires HistoryInv(h) && IssuedFrom(h) && i < |h.promotions|
    ensures ReliedOn(h, ReceiptOf)[i] in Once(h.receipts)
  {
    ReliedIsIssued(h, i);
    var issued := Confirmations(h.evidence);
    var j :| 0 <= j < |issued| && issued[j] == h.promotions[i].confirmation;
    assert h.receipts[j] == ReceiptOf(issued[j]);
    assert h.receipts[j] in h.receipts;
  }

  /** When no receipt is relied on twice, inventory is covered by the receipts themselves, each counted once. */
  lemma InventoryWithinReceipts(actions: seq<Action>, product: string)
    requires RunActions(actions).Some? && NeverReused(actions, ReceiptOf)
    ensures var h := RunActions(actions).value; Inventory(h.facts, product) <= Observed(Once(h.receipts), product)
  {
    var h := RunActions(actions).value;
    RunInv(actions);
    RunIssues(actions);
    DistinctIffNeverReused(actions, ReceiptOf);
    var relied, once := ReliedOn(h, ReceiptOf), Once(h.receipts);
    forall i | 0 <= i < |relied| ensures relied[i] in once { ReceiptObserved(h, i); }
    forall i | 0 <= i < |once| ensures ReceiptQuantity(product)(once[i]) >= 0 {
      assert once[i] in once;
      var j :| 0 <= j < |h.receipts| && h.receipts[j] == once[i];
    }
    SumWithin(ReceiptQuantity(product), relied, once);
    InventoryOfConfirmations(h, product);
    SumPointwise(EvidenceQuantity(product), ReceiptQuantity(product), ReliedOn(h, Itself), relied);
  }

  // ----- and otherwise it need not be -----

  predicate Covers(r: Receipt, c: Candidate) {
    ValidCandidate(c) && ValidReceipt(r) && r.product == c.product && r.quantity == c.quantity
  }

  /** The history after observing one receipt. */
  function Confirmed(c: Candidate, r: Receipt): (h: History)
    requires Covers(r, c)
    ensures h.receipts == [r] && h.facts == []
  {
    IssuersSucceed(c, r);
    History([r], [ReceiptConfirmation(c, r).value], [], [])
  }

  lemma ObservationConfirms(c: Candidate, r: Receipt)
    requires Covers(r, c)
    ensures Act(Fresh, ObserveAndConfirm(c, r)) == Some(Confirmed(c, r))
  {
    var h := Act(Fresh, ObserveAndConfirm(c, r)).value;
    assert h.receipts == [r];
    assert h.evidence == [ReceiptConfirmation(c, r).value];
  }

  lemma ConfirmedQualifies(c: Candidate, r: Receipt)
    requires Covers(r, c)
    ensures Constructible(Confirmed(c, r), Submit(c, [0]))
    ensures Qualified(c, Picked(Confirmed(c, r), [0]))
  {
    var e := ReceiptConfirmation(c, r).value;
    assert Picked(Confirmed(c, r), [0]) == [e];
    QualifiesIff(c, e);
    assert EvaluateOne(c, [e][0]).Qualifies();
  }

  lemma SubmitObservesNothing(h: History, c: Candidate, picks: seq<nat>)
    requires Act(h, Submit(c, picks)).Some?
    ensures Act(h, Submit(c, picks)).value.receipts == h.receipts
  {
  }

  lemma OneObservation(r: Receipt)
    ensures Observed([r], r.product) == r.quantity
  {
    assert [r][..0] == [];
    assert Observed([r], r.product) == Observed([r][..0], r.product) + r.quantity;
  }

  lemma TwoFacts(f: Fact)
    ensures Inventory([f, f], f.product) == 2 * f.quantity
  {
    assert [f, f][..1] == [f] && [f][..0] == [];
    assert Inventory([], f.product) == 0;
    assert Inventory([f], f.product) == f.quantity;
  }

  lemma ThreeActions(a: Action, b: Action, c: Action, h1: History, h2: History, h3: History)
    requires Act(Fresh, a) == Some(h1) && Act(h1, b) == Some(h2) && Act(h2, c) == Some(h3)
    ensures RunActions([a, b, c]) == Some(h3)
  {
    assert [a, b, c][..2] == [a, b] && [a, b][..1] == [a] && [a][..0] == [];
    assert RunActions([]) == Some(Fresh);
    assert RunActions([a]) == Some(h1);
    assert RunActions([a, b]) == Some(h2);
  }

  lemma Contrary(actions: seq<Action>, product: string)
    requires RunActions(actions).Some?
    requires var h := RunActions(actions).value; Inventory(h.facts, product) > Observed(h.receipts, product)
    ensures !NeverReused(actions, Itself)
  {
    if NeverReused(actions, Itself) { InventoryWithinObservations(actions, product); }
  }

  /** The one observation, and the candidate it confirms submitted twice. */
  function SubmittedTwice(c: Candidate, r: Receipt): seq<Action> {
    [ObserveAndConfirm(c, r), Submit(c, [0]), Submit(c, [0])]
  }

  /** Whatever was received, submitting it twice makes an inventory of twice what was received. */
  lemma ReuseOverstates(c: Candidate, r: Receipt)
    requires Covers(r, c)
    ensures var actions := SubmittedTwice(c, r);
            && RunActions(actions).Some? && !NeverReused(actions, Itself)
            && var h := RunActions(actions).value;
               Inventory(h.facts, c.product) == 2 * r.quantity > Observed(h.receipts, c.product) == r.quantity
  {
    ObservationConfirms(c, r);
    ConfirmedQualifies(c, r);
    var h1 := Confirmed(c, r);
    ResubmissionIsAccepted(h1, c, [0]);
    var h2 := Act(h1, Submit(c, [0])).value;
    var h3 := Act(h2, Submit(c, [0])).value;
    SubmitObservesNothing(h1, c, [0]);
    SubmitObservesNothing(h2, c, [0]);
    ThreeActions(ObserveAndConfirm(c, r), Submit(c, [0]), Submit(c, [0]), h1, h2, h3);
    assert h3.facts == [FactOf(c), FactOf(c)];
    TwoFacts(FactOf(c));
    OneObservation(r);
    Contrary(SubmittedTwice(c, r), c.product);
  }

  const Requested := Candidate("product-a", 10, "candidate:restock-request-1")

  const Received := Receipt("receipt-1", "product-a", 10)

  /** One receipt of ten, submitted twice, makes an inventory of twenty. */
  lemma TenBecomeTwenty()
    ensures var actions := SubmittedTwice(Requested, Received);
            && RunActions(actions).Some?
            && var h := RunActions(actions).value;
               Inventory(h.facts, Requested.product) == 20 && Observed(h.receipts, Requested.product) == 10
  {
    assert !IsSpace(Requested.product[0]) && !IsSpace(Requested.candidateId[0]) && !IsSpace(Received.receiptId[0]);
    ReuseOverstates(Requested, Received);
  }
}
