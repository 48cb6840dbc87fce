/**
Request and order identities of a synchronized burst. A hashed identity token is modelled
as the tuple it is computed from, so that equal tokens mean equal inputs.
*/
module InvocationIdentities {
  import opened Sequences
  import opened FixedSchedule

  datatype Purpose = RequestPurpose | SharedOrder | IndependentOrder

  datatype Token = Token(runId: string, planIndex: nat, recorded: bool, batchIndex: nat, position: nat, purpose: Purpose)

  datatype Spec = Spec(plan: BatchPlan, lane: nat, slot: nat, position: nat, requestId: Token, orderId: Token)

  function IdentityToken(runId: string, plan: BatchPlan, position: nat, purpose: Purpose): Token {
    Token(runId, plan.planIndex, plan.recorded, plan.batchIndex, position, purpose)
  }

  function SpecAt(runId: string, plan: BatchPlan, lane: nat): Spec
    requires plan.cell.level > 0
  {
    var position := IdentityPosition(plan, lane);
    Spec(plan, lane, lane, position, IdentityToken(runId, plan, position, RequestPurpose),
         if plan.cell.family == SameOrder then IdentityToken(runId, plan, 0, SharedOrder)
         else IdentityToken(runId, plan, position, IndependentOrder))
  }

  function Specs(runId: string, plan: BatchPlan): (r: seq<Spec>)
    requires plan.cell.level > 0
    ensures |r| == plan.cell.level
  {
    seq(plan.cell.level, lane requires 0 <= lane => SpecAt(runId, plan, lane))
  }

  method PrepareInvocationSpecs(runId: string, plan: BatchPlan) returns (specs: seq<Spec>)
    requires plan.cell.level > 0
    ensures specs == Specs(runId, plan)
  {
    var level := plan.cell.level;
    var shared := IdentityToken(runId, plan, 0, SharedOrder);
    specs := [];
    for lane := 0 to level
      invariant specs == Specs(runId, plan)[..lane]
    {
      var position := (lane + plan.rotation) % level;
      var request := IdentityToken(runId, plan, position, RequestPurpose);
      var order := if plan.cell.family == SameOrder then shared else IdentityToken(runId, plan, position, IndependentOrder);
      var spec := Spec(plan, lane, lane, position, request, order);
      assert spec == Specs(runId, plan)[lane];
      specs := specs + [spec];
    }
  }

  lemma PositionsDiffer(plan: BatchPlan, i: nat, j: nat)
    requires plan.rotation < plan.cell.level && i < j < plan.cell.level
    ensures IdentityPosition(plan, i) != IdentityPosition(plan, j)
  {
    ModuloWraps(i + plan.rotation, plan.cell.level);
    ModuloWraps(j + plan.rotation, plan.cell.level);
  }

  function RequestIds(specs: seq<Spec>): (r: seq<Token>)
    ensures |r| == |specs|
  {
    seq(|specs|, i requires 0 <= i < |specs| => specs[i].requestId)
  }

  function OrderIds(specs: seq<Spec>): (r: seq<Token>)
    ensures |r| == |specs|
  {
    seq(|specs|, i requires 0 <= i < |specs| => specs[i].orderId)
  }

  /** Requests never coincide within a burst; orders coincide exactly in the hot-stream workload. */
  lemma IdentitiesOfBurst(runId: string, plan: BatchPlan)
    requires plan.rotation < plan.cell.level
    ensures |ToSet(RequestIds(Specs(runId, plan)))| == plan.cell.level
    ensures |ToSet(OrderIds(Specs(runId, plan)))| == if plan.cell.family == SameOrder then 1 else plan.cell.level
  {
    var specs := Specs(runId, plan);
    forall i, j | 0 <= i < j < |specs| ensures specs[i].position != specs[j].position {
      PositionsDiffer(plan, i, j);
    }
    ToSetSize(RequestIds(specs));
    if plan.cell.family == SameOrder {
      var shared := IdentityToken(runId, plan, 0, SharedOrder);
      assert OrderIds(specs)[0] == shared;
      assert ToSet(OrderIds(specs)) == {shared};
    } else {
      ToSetSize(OrderIds(specs));
    }
  }
}
