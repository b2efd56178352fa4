/**
 Deleting an instance across the API and the operator: the stages only move forward, remembered UIDs never
 change, the namespace is never asked to go while the resource exists, and a row counts as deleted only
 after both are gone.
 */
module Handshake {
  import opened Options
  import opened OperatorTypes
  import opened Platform
  import Ledger
  import Operator
  import DeletionSafety

  /** The loop works on an intent it read while nobody had asked to delete the instance. */
  predicate Delivering(courier: Courier) {
    || courier.EnsuringNamespace? || courier.BindingNamespace? || courier.ReadingResource?
    || courier.PreparingSecret? || courier.WritingResource? || courier.BindingResource?
  }

  predicate Deleting(courier: Courier) { !courier.Resting? && !Delivering(courier) }

  function Rank(stage: Option<ApiStage>): nat {
    match stage
    case None => 0
    case Some(CRPrepared) => 1
    case Some(NamespacePrepared) => 2
  }

  /** Nothing will be created for this instance any more. */
  predicate Doomed(i: Instance) { i.row.deletionRequestedAt.Some? && !Delivering(i.link.courier) }

  predicate Known(i: Instance) {
    var link := i.link;
    && (link.bond.stage.Some? ==> Doomed(i))
    && (link.bond.stage == Some(NamespacePrepared) ==> link.resource.None?)
    && (link.namespace.Some? && link.namespace.value.deleting ==> link.bond.stage == Some(NamespacePrepared))
    && (link.resource.Some? ==> link.namespace.Some?)
    && (link.resource.Some? && link.resource.value.marked ==> Doomed(i))
    && (i.row.deletedAt.Some? ==> link.bond.stage == Some(NamespacePrepared) && link.namespace.None?)
  }

  /** The operator lets go of a resource only after it was marked. */
  predicate Held(i: Instance) {
    i.link.operator.Some? ==>
      var s := i.link.operator.value;
      && (s.finalizer ==> i.link.resource.Some?)
      && (!s.finalizer ==> s.deleting)
      && (s.deleting ==> Doomed(i) && (i.link.resource.Some? ==> i.link.resource.value.marked))
  }

  /** What the loop found out about a deletion is still so. */
  predicate Informed(i: Instance) {
    var link := i.link;
    && (Deleting(link.courier) ==>
          i.row.deletionRequestedAt.Some? && Rank(link.courier.record.bond.stage) <= Rank(link.bond.stage))
    && (link.courier.PreparingNamespace? ==> link.resource.None?)
    && (link.courier.PreparingCompletion? ==> link.namespace.None?)
    && (link.courier.DeletingNamespace? ==> link.bond.stage == Some(NamespacePrepared))
    && (link.courier.Completing? ==> link.namespace.None? && link.bond.stage == Some(NamespacePrepared))
  }

  predicate Handshaken(i: Instance) { Known(i) && Held(i) && Informed(i) }

  lemma NewIsHandshaken(i: Instance)
    requires New(i)
    ensures Handshaken(i)
  {
  }

  lemma DeliveryKeepsHandshake(i: Instance, move: Move)
    requires Handshaken(i) && CanDeliver(i, move)
    ensures Handshaken(i.(link := Delivered(i, move)))
  {
    hide HasHistory, KnownResource, SecretHolds;
  }

  lemma DeletionKeepsHandshake(i: Instance, move: Move)
    requires Handshaken(i) && CanDelete(i, move)
    ensures Handshaken(i.(link := Deleted(i, move)))
  {
    hide HasHistory, KnownResource;
  }

  lemma ReportingKeepsHandshake(i: Instance, move: Move)
    requires Handshaken(i) && CanReport(i, move)
    ensures Handshaken(i.(link := Reported(i, move)))
  {
    hide Presentable;
  }

  lemma ClusterKeepsHandshake(i: Instance, move: Move)
    requires Handshaken(i) && CanRun(i, move)
    ensures Handshaken(i.(link := Ran(i, move)))
  {
  }

  lemma MoveKeepsHandshake(i: Instance, move: Move)
    requires Handshaken(i) && CanMove(i, move)
    ensures Handshaken(i.(link := Moved(i, move)))
  {
    hide Handshaken, CanDeliver, CanDelete, CanReport, CanRun, Delivered, Deleted, Reported, Ran;
    if CanDeliver(i, move) { DeliveryKeepsHandshake(i, move); }
    else if CanDelete(i, move) { DeletionKeepsHandshake(i, move); }
    else if CanReport(i, move) { ReportingKeepsHandshake(i, move); }
    else { ClusterKeepsHandshake(i, move); }
  }

  /** The operator marks nothing for deletion, and lets go only of what is marked. */
  lemma OperatorOnlyLetsGo(i: Instance, step: Operator.Step)
    requires CanOperate(i, step)
    ensures
      var s, t := i.link.operator.value, Operator.After(i.link.operator.value, step);
      && t.deleting == s.deleting && (t.finalizer ==> s.finalizer)
      && (s.finalizer && !t.finalizer ==> s.deleting)
  {
    hide Operator.AfterOperation, Operator.AfterRemoval, Operator.AfterWatch, Operator.Happen;
    var s, t := i.link.operator.value, Operator.After(i.link.operator.value, step);
    DeletingIsKept(s, step);
    if s.finalizer && !t.finalizer { DeletionSafety.FinalizerGoesLast(s, step); }
  }

  lemma DeletingIsKept(s: Operator.State, step: Operator.Step)
    requires Operator.Enabled(s, step) && !(step.Ask? && step.request.DeletionRequested?)
    ensures Operator.After(s, step).deleting == s.deleting
  {
    hide Operator.AfterOperation, Operator.AfterRemoval, Operator.AfterWatch, Operator.Happen;
  }

  lemma OperatorKeepsHandshake(i: Instance, step: Operator.Step)
    requires Handshaken(i) && CanOperate(i, step)
    ensures Handshaken(i.(link := Operated(i.link, step)))
  {
    hide Operator.After, Operator.Enabled, Undisturbed;
    OperatorOnlyLetsGo(i, step);
  }

  lemma OrderKeepsHandshake(i: Instance, row: Row)
    requires Handshaken(i) && Ordered(i.row, row)
    ensures Handshaken(i.(row := row))
  {
  }

  lemma ImportKeepsHandshake(i: Instance)
    requires Handshaken(i) && Can(i, Imports)
    ensures Handshaken(Next(i, Imports))
  {
    hide CanMove, Moved, CanOperate, Operated;
  }

  lemma CompletionKeepsHandshake(i: Instance, now: Time)
    requires Handshaken(i) && Can(i, Completes(now))
    ensures Handshaken(Next(i, Completes(now)))
  {
    hide CanMove, Moved, CanOperate, Operated;
  }

  lemma EventKeepsHandshake(i: Instance, e: Event)
    requires Handshaken(i) && Can(i, e)
    ensures Handshaken(Next(i, e))
  {
    hide Handshaken, CanMove, Moved, CanOperate, Operated, Ordered, Ledger.ImportAllowed, Ledger.Imported;
    match e
    case RowOrdered(row) => OrderKeepsHandshake(i, row);
    case LinkMoves(move) => MoveKeepsHandshake(i, move);
    case OperatorActs(step) => OperatorKeepsHandshake(i, step);
    case Imports => ImportKeepsHandshake(i);
    case Completes(now) => CompletionKeepsHandshake(i, now);
  }

  lemma {:induction false} ServicesAreWellFormed(c: Ledger.Config, run: seq<Service>, k: nat)
    requires IsRun(c, run) && k < |run|
    ensures WellFormed(run[k])
  {
    hide CanStep, Stepped;
    if k > 0 {
      ServicesAreWellFormed(c, run, k - 1);
      assert Follows(c, run[k - 1], run[k]);
      var step :| CanStep(run[k - 1], step) && run[k] == Stepped(c, run[k - 1], step);
      StepIsWellFormed(c, run[k - 1], step);
    }
  }

  /** In every state of every run of the service, for every instance. */
  lemma {:induction false} InstancesAreHandshaken(c: Ledger.Config, run: seq<Service>, k: nat, id: Uid)
    requires IsRun(c, run) && k < |run| && Has(run[k], id)
    ensures Handshaken(InstanceAt(run[k], id))
  {
    hide Handshaken, New, Can, Next, CanStep, Stepped;
    if k > 0 {
      var i := InstanceAt(run[k], id);
      RunEvolves(c, run, k, id);
      if Has(run[k - 1], id) {
        InstancesAreHandshaken(c, run, k - 1, id);
        var before := InstanceAt(run[k - 1], id);
        if i != before {
          var e :| Can(before, e) && i == Next(before, e);
          EventKeepsHandshake(before, e);
        }
      } else {
        NewIsHandshaken(i);
      }
    }
  }

  lemma RunEvolves(c: Ledger.Config, run: seq<Service>, k: nat, id: Uid)
    requires IsRun(c, run) && 0 < k < |run| && Has(run[k], id)
    ensures Evolves(run[k - 1], run[k], id)
  {
    hide CanStep, Stepped, Evolves;
    ServicesAreWellFormed(c, run, k - 1);
    assert Follows(c, run[k - 1], run[k]);
    var step :| CanStep(run[k - 1], step) && run[k] == Stepped(c, run[k - 1], step);
    StepEvolves(c, run[k - 1], step, id);
  }

  // ---- what never changes back ----

  /** Remembered UIDs stay, and the stage does not go back. */
  predicate BondKept(a: Bond, b: Bond) {
    && (a.namespace.Some? ==> b.namespace == a.namespace)
    && (a.resource.Some? ==> b.resource == a.resource)
    && Rank(a.stage) <= Rank(b.stage)
  }

  lemma MoveKeepsBond(i: Instance, move: Move)
    requires CanMove(i, move)
    ensures BondKept(i.link.bond, Moved(i, move).bond)
  {
    hide HasHistory, KnownResource, Presentable, SecretHolds;
  }

  lemma EventKeepsBond(i: Instance, e: Event)
    requires Can(i, e)
    ensures BondKept(i.link.bond, Next(i, e).link.bond)
  {
    hide CanMove, Moved, CanOperate, Ordered, Ledger.ImportAllowed, Ledger.Imported, Operator.Enabled, Operator.After;
    if e.LinkMoves? { MoveKeepsBond(i, e.move); }
  }

  lemma StepKeepsBond(c: Ledger.Config, run: seq<Service>, k: nat, id: Uid)
    requires IsRun(c, run) && k + 1 < |run| && Has(run[k], id)
    ensures Has(run[k + 1], id) && BondKept(run[k].links[id].bond, run[k + 1].links[id].bond)
  {
    hide CanStep, Stepped, Can, Next, Evolves;
    ServicesAreWellFormed(c, run, k);
    assert Follows(c, run[k], run[k + 1]);
    var step :| CanStep(run[k], step) && run[k + 1] == Stepped(c, run[k], step);
    StepKeepsInstances(c, run[k], step, id);
    StepEvolves(c, run[k], step, id);
    EvolvingKeepsBond(run[k], run[k + 1], id);
  }

  lemma EvolvingKeepsBond(s: Service, t: Service, id: Uid)
    requires Has(s, id) && Has(t, id) && Evolves(s, t, id)
    ensures BondKept(s.links[id].bond, t.links[id].bond)
  {
    hide Can, Next;
    var i := InstanceAt(s, id);
    if InstanceAt(t, id) != i {
      var e :| Can(i, e) && InstanceAt(t, id) == Next(i, e);
      EventKeepsBond(i, e);
    }
  }

  /** Over any stretch of any run, remembered UIDs stay and the stage of the deletion only moves forward. */
  lemma {:induction false} BondsAreKept(c: Ledger.Config, run: seq<Service>, j: nat, k: nat, id: Uid)
    requires IsRun(c, run) && j <= k < |run| && Has(run[j], id)
    ensures Has(run[k], id) && BondKept(run[j].links[id].bond, run[k].links[id].bond)
    decreases k - j
  {
    hide CanStep, Stepped, IsRun;
    if j < k {
      BondsAreKept(c, run, j, k - 1, id);
      StepKeepsBond(c, run, k - 1, id);
    }
  }

  /** Whenever the API asks for the end of a namespace, the resource in it is gone already. */
  lemma NamespaceGoesAfterResource(c: Ledger.Config, run: seq<Service>, k: nat, id: Uid)
    requires IsRun(c, run) && k < |run| && Has(run[k], id)
    requires run[k].links[id].courier.DeletingNamespace?
      || (run[k].links[id].namespace.Some? && run[k].links[id].namespace.value.deleting)
    ensures run[k].links[id].resource.None? && run[k].links[id].bond.stage == Some(NamespacePrepared)
  {
    hide CanStep, Stepped;
    InstancesAreHandshaken(c, run, k, id);
  }
}
