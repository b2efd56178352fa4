/**
 The API's row, the resource, and the operator agree.  In every run of the service a row is at most one
 generation ahead of what was observed of it; when it is not ahead, the operator accepted and applied
 exactly what the row says; and at most two password versions are ever in play.
 */
module Agreement {
  import opened Options
  import opened OperatorTypes
  import opened Platform
  import opened Handshake
  import Contract
  import Confirmation
  import Ledger
  import Operator
  import DeletionSafety
  import RolloutSafety
  import RotationGate
  import SingleWriter

  /** What is known upwards of an instance: in the row, in a status, or in an observation between them. */
  datatype Report = Report(observed: int, applied: Option<Size>, password: int)

  function RowReport(row: Row): Report {
    Report(row.observed, if row.applied == Ledger.NO_SIZE then None else Some(row.applied), row.appliedPassword)
  }

  function StatusReport(status: Status): Report {
    Report(status.observedGeneration, if status.applied.Some? then Some(status.applied.value.size) else None,
           status.appliedPasswordVersion)
  }

  function SeenReport(seen: Ledger.Seen): Report {
    Report(seen.observed, if seen.applied.Some? then Some(seen.applied.value.size) else None, seen.appliedPassword)
  }

  /** `b` is `a`, or a later report on the way to what the row orders. */
  predicate Behind(row: Row, a: Report, b: Report) {
    && a.observed <= b.observed
    && (a.observed == b.observed ==>
          b.applied in {a.applied, Some(row.size)} && b.password in {a.password, row.password})
  }

  /** A report of the ordered generation reports the order. */
  predicate Accurate(row: Row, r: Report) {
    r.observed <= row.desired
    && (r.observed == row.desired ==> r.applied == Some(row.size) && r.password == row.password)
  }

  predicate RowAgrees(row: Row) {
    && 1 <= row.desired && 0 <= row.observed <= row.desired <= row.observed + 1 && 1 <= row.password
    && Accurate(row, RowReport(row))
  }

  predicate SpecAgrees(id: Uid, row: Row, spec: Spec) {
    && spec.instanceID == id && spec.slug == id && spec.mode == Some(row.mode) && spec.publicPort == PORT
    && spec.whitelist.Whitelist?
    && 1 <= spec.generation <= row.desired && 1 <= spec.passwordVersion <= row.password
    && (spec.generation == row.desired ==> spec.size == row.size && spec.passwordVersion == row.password)
  }

  /** What the delivery loop carries is the row's intent, or an earlier one. */
  predicate RecordAgrees(row: Row, record: Record) {
    && record.row.mode == row.mode
    && 1 <= record.row.desired <= row.desired && 1 <= record.row.password <= row.password
    && (record.row.desired == row.desired ==>
          record.row.size == row.size && record.row.password == row.password)
  }

  predicate CourierAgrees(i: Instance) {
    Delivering(i.link.courier) ==>
      && RecordAgrees(i.row, i.link.courier.record)
      && (i.link.resource.Some? ==> i.link.resource.value.spec.generation <= i.link.courier.record.row.desired)
      && (i.link.operator.Some? ==>
            var accepted := i.link.operator.value.status.accepted;
            && accepted.generation <= i.link.courier.record.row.desired
            && (accepted.generation == i.link.courier.record.row.desired ==>
                  accepted.passwordVersion == i.link.courier.record.row.password))
  }

  predicate AcceptedAgrees(i: Instance, accepted: Accepted) {
    && accepted.instanceID == i.id && accepted.slug == i.id && accepted.mode == i.row.mode
    && 1 <= accepted.generation <= i.row.desired && 1 <= accepted.passwordVersion <= i.row.password
    && (accepted.generation == i.row.desired ==>
          accepted.size == i.row.size && accepted.passwordVersion == i.row.password)
    && (i.link.resource.Some? ==>
          var spec := i.link.resource.value.spec;
          && accepted.generation <= spec.generation
          && (accepted.generation == spec.generation ==> accepted.passwordVersion == spec.passwordVersion))
  }

  /** The password versions an instance may have to do with. */
  function Versions(row: Row, status: Status): set<int> {
    {status.accepted.passwordVersion, row.password}
    + (if status.rotation.Some? then {status.rotation.value.previous} else {})
  }

  predicate OperatorAgrees(i: Instance) {
    match i.link.operator
    case None =>
      && RowReport(i.row) == Report(0, None, 0) && i.link.observation.None? && i.link.secret <= {i.row.password}
    case Some(s) =>
      && Confirmation.Reported(s.status) && AcceptedAgrees(i, s.status.accepted)
      && Behind(i.row, RowReport(i.row), StatusReport(s.status))
      && s.hashes <= Versions(i.row, s.status)
  }

  predicate ObservationAgrees(i: Instance) {
    i.link.observation.Some? ==>
      var seen := i.link.observation.value;
      && i.link.operator.Some?
      && Accurate(i.row, SeenReport(seen)) && Behind(i.row, RowReport(i.row), SeenReport(seen))
      && Behind(i.row, SeenReport(seen), StatusReport(i.link.operator.value.status))
      && (seen.applied.Some? ==> seen.applied.value.mode == i.row.mode)
  }

  predicate Agreed(i: Instance) {
    && RowAgrees(i.row)
    && (i.link.resource.Some? ==> SpecAgrees(i.id, i.row, i.link.resource.value.spec))
    && CourierAgrees(i) && OperatorAgrees(i) && ObservationAgrees(i)
  }

  lemma NewIsAgreed(i: Instance)
    requires New(i)
    ensures Agreed(i)
  {
  }

  /** Where the operator can be: it accepted the current generation, or all it accepted is in force. */
  lemma OperatorKeepsUp(i: Instance)
    requires Agreed(i) && i.link.operator.Some?
    ensures
      var status := i.link.operator.value.status;
      && i.row.observed <= status.observedGeneration <= status.accepted.generation <= i.row.desired
      && (status.accepted.generation < i.row.desired ==> Confirmation.Settled(status))
      && Accurate(i.row, StatusReport(status))
  {
  }

  // ---- the events ----

  lemma OrderKeepsAgreement(i: Instance, row: Row)
    requires Agreed(i) && Ordered(i.row, row)
    ensures Agreed(i.(row := row))
  {
    if i.link.operator.Some? { OperatorKeepsUp(i); }
  }

  lemma DeliveryKeepsAgreement(i: Instance, move: Move)
    requires Handshaken(i) && Agreed(i) && CanDeliver(i, move)
    ensures Agreed(i.(link := Delivered(i, move)))
  {
    hide HasHistory, KnownResource, SecretHolds, Confirmation.Reported, Confirmation.Settled, Behind, Accurate;
    if i.link.operator.Some? { OperatorKeepsUp(i); }
    var t := i.(link := Delivered(i, move));
    assert t.link.resource.Some? ==> SpecAgrees(t.id, t.row, t.link.resource.value.spec);
    assert CourierAgrees(t);
    assert OperatorAgrees(t);
    assert ObservationAgrees(t);
  }

  lemma DeletionKeepsAgreement(i: Instance, move: Move)
    requires Agreed(i) && CanDelete(i, move)
    ensures Agreed(i.(link := Deleted(i, move)))
  {
    hide HasHistory, KnownResource, Confirmation.Reported, Behind, Accurate, SpecAgrees, RecordAgrees, MayPrepare;
  }

  lemma ReportingKeepsAgreement(i: Instance, move: Move)
    requires Agreed(i) && CanReport(i, move)
    ensures Agreed(i.(link := Reported(i, move)))
  {
    hide Presentable, SpecAgrees, RecordAgrees;
    if i.link.operator.Some? { OperatorKeepsUp(i); }
    var t := i.(link := Reported(i, move));
    assert RowAgrees(t.row);
    assert CourierAgrees(t);
    assert OperatorAgrees(t);
    assert ObservationAgrees(t);
  }

  lemma ClusterKeepsAgreement(i: Instance, move: Move)
    requires Agreed(i) && CanRun(i, move)
    ensures Agreed(i.(link := Ran(i, move)))
  {
    hide Contract.ValidSize, Contract.RequiredFieldsPresent;
  }

  // ---- a step of the operator ----

  /** Only a delivery adds a hash, and a rotation ends only without its previous hash. */
  lemma OperatorAddsNoHash(s: Operator.State, step: Operator.Step)
    requires Operator.Enabled(s, step) && !(step.Ask? && step.request.HashAdded?)
    ensures Operator.After(s, step).hashes <= s.hashes
    ensures s.status.rotation.Some? && Operator.After(s, step).status.rotation.None? ==>
      s.status.rotation.value.previous !in s.hashes
  {
    hide Operator.AfterWatch, Operator.AfterRemoval, Operator.Happen, Operator.ReconcileFailover, Operator.Rotate,
         Operator.Close, Operator.ReconcileRollout, Operator.ReconcileInitialPrimary, Operator.ReconcileReplicas,
         Operator.ReconcileReplicaAdmission, Operator.ReconcileAppAdmission, Operator.RotationStatus;
    if s.status.rotation.Some? && Operator.After(s, step).status.rotation.None? {
      RotationGate.FinishIsByRotation(s, step);
    }
  }

  /** The operator after a step, as far as the agreement is concerned. */
  predicate Moves(i: Instance, a: Operator.State, b: Operator.State) {
    && Confirmation.Reported(b.status) && b.hashes <= a.hashes
    && (a.status.rotation.Some? && b.status.rotation.None? ==> a.status.rotation.value.previous !in a.hashes)
    && (Confirmation.Progress(a.status, b.status) ||
        (i.link.resource.Some? && Confirmation.TakesUp(a.status, b.status, i.link.resource.value.spec)))
  }

  lemma StepMoves(i: Instance, step: Operator.Step)
    requires Agreed(i) && CanOperate(i, step)
    ensures Moves(i, i.link.operator.value, Operator.After(i.link.operator.value, step))
  {
    hide Operator.After, Operator.Enabled, Confirmation.Reported, Confirmation.Progress, Confirmation.TakesUp;
    Confirmation.StepReports(i.link.operator.value, step);
    OperatorAddsNoHash(i.link.operator.value, step);
  }

  lemma MovingKeepsReports(i: Instance, b: Operator.State)
    requires Agreed(i) && i.link.operator.Some? && Moves(i, i.link.operator.value, b)
    ensures Behind(i.row, StatusReport(i.link.operator.value.status), StatusReport(b.status))
  {
    OperatorKeepsUp(i);
  }

  lemma BehindIsTransitive(row: Row, a: Report, b: Report, c: Report)
    requires Behind(row, a, b) && Behind(row, b, c)
    ensures Behind(row, a, c)
  {
  }

  /** Only the current generation is ever taken up. */
  lemma TakingUpIsCurrent(i: Instance, b: Status)
    requires Agreed(i) && i.link.operator.Some? && i.link.resource.Some?
    requires Confirmation.TakesUp(i.link.operator.value.status, b, i.link.resource.value.spec)
    ensures b.accepted == Contract.AcceptedFrom(i.link.resource.value.spec)
    ensures b.accepted.generation == i.row.desired
  {
    OperatorKeepsUp(i);
  }

  lemma MovingKeepsAccepted(i: Instance, b: Operator.State)
    requires Agreed(i) && i.link.operator.Some? && Moves(i, i.link.operator.value, b)
    ensures AcceptedAgrees(i, b.status.accepted) && CourierAgrees(i.(link := i.link.(operator := Some(b))))
  {
    hide Confirmation.Reported, Behind, Accurate, Contract.NextAccepted;
    var a := i.link.operator.value;
    if !Confirmation.Progress(a.status, b.status) { TakingUpIsCurrent(i, b.status); }
  }

  lemma MovingKeepsVersions(i: Instance, b: Operator.State)
    requires Agreed(i) && i.link.operator.Some? && Moves(i, i.link.operator.value, b)
    ensures b.hashes <= Versions(i.row, b.status)
  {
    hide Behind, Accurate, Contract.NextAccepted;
    var a := i.link.operator.value;
    if !Confirmation.Progress(a.status, b.status) { TakingUpIsCurrent(i, b.status); }
  }

  lemma OperatorKeepsAgreement(i: Instance, step: Operator.Step)
    requires Agreed(i) && CanOperate(i, step)
    ensures Agreed(i.(link := Operated(i.link, step)))
  {
    hide Operator.After, Operator.Enabled, Confirmation.Reported, Behind, Accurate, AcceptedAgrees, Versions,
         SpecAgrees, Undisturbed;
    StepMoves(i, step);
    var b := Operator.After(i.link.operator.value, step);
    MovingKeepsReports(i, b);
    MovingKeepsAccepted(i, b);
    MovingKeepsVersions(i, b);
    var t := i.(link := Operated(i.link, step));
    BehindIsTransitive(i.row, RowReport(i.row), StatusReport(i.link.operator.value.status), StatusReport(b.status));
    AcceptanceReadsRowAndResource(i, t, b.status.accepted);
    if i.link.observation.Some? {
      BehindIsTransitive(i.row, SeenReport(i.link.observation.value), StatusReport(i.link.operator.value.status),
                         StatusReport(b.status));
    }
  }

  lemma AcceptanceReadsRowAndResource(i: Instance, t: Instance, accepted: Accepted)
    requires AcceptedAgrees(i, accepted) && t.id == i.id && t.row == i.row && t.link.resource == i.link.resource
    ensures AcceptedAgrees(t, accepted)
  {
  }

  lemma ImportKeepsAgreement(i: Instance)
    requires Agreed(i) && i.link.observation.Some?
    ensures
      var row := if Ledger.ImportAllowed(i.row, i.link.observation.value)
        then Ledger.Imported(i.row, i.link.observation.value) else i.row;
      Agreed(i.(row := row, link := i.link.(observation := None)))
  {
  }

  lemma CompletionKeepsAgreement(i: Instance, now: Time)
    requires Agreed(i)
    ensures Agreed(i.(row := i.row.(deletedAt := Some(now)), link := i.link.(courier := Resting)))
  {
  }

  lemma MoveKeepsAgreement(i: Instance, move: Move)
    requires Handshaken(i) && Agreed(i) && CanMove(i, move)
    ensures Agreed(i.(link := Moved(i, move)))
  {
    hide Handshaken, Agreed, CanDeliver, CanDelete, CanReport, CanRun, Delivered, Deleted, Platform.Reported, Ran;
    if CanDeliver(i, move) { DeliveryKeepsAgreement(i, move); }
    else if CanDelete(i, move) { DeletionKeepsAgreement(i, move); }
    else if CanReport(i, move) { ReportingKeepsAgreement(i, move); }
    else { ClusterKeepsAgreement(i, move); }
  }

  lemma EventKeepsAgreement(i: Instance, e: Event)
    requires Handshaken(i) && Agreed(i) && Can(i, e)
    ensures Agreed(Next(i, e))
  {
    hide Handshaken, Agreed, CanMove, Moved, CanOperate, Operated, Ordered, Ledger.ImportAllowed, Ledger.Imported;
    match e
    case RowOrdered(row) => OrderKeepsAgreement(i, row);
    case LinkMoves(move) => MoveKeepsAgreement(i, move);
    case OperatorActs(step) => OperatorKeepsAgreement(i, step);
    case Imports => ImportKeepsAgreement(i);
    case Completes(now) => CompletionKeepsAgreement(i, now);
  }

  // ---- the operator's own runs ----

  ghost predicate EndsIn(history: seq<Operator.State>, s: Operator.State) {
    Operator.IsRun(history) && history[|history| - 1] == s && 0 < history[0].status.accepted.generation
  }

  /** The operator of an instance is in a state that some run of it alone leads to. */
  ghost predicate Reachable(s: Operator.State) { exists history :: EndsIn(history, s) }

  lemma StartIsReachable(spec: Spec)
    requires Contract.FirstAccepted(spec).Candidate? && 0 < spec.generation
    ensures Reachable(Operator.Initial(Contract.FirstAccepted(spec).accepted))
  {
    var s := Operator.Initial(Contract.FirstAccepted(spec).accepted);
    assert Operator.Starts([s][0], spec);
    assert EndsIn([s], s);
  }

  lemma StepsAreReachable(s: Operator.State, step: Operator.Step)
    requires Reachable(s) && Operator.Enabled(s, step)
    ensures Reachable(Operator.After(s, step))
  {
    hide Operator.Enabled, Operator.After;
    var history :| EndsIn(history, s);
    var t := Operator.After(s, step);
    assert Operator.Next(s, t);
    var longer := history + [t];
    assert longer[0] == history[0];
    forall k | 0 <= k < |longer| - 1 ensures Operator.Next(longer[k], longer[k + 1]) {
      if k < |history| - 1 { assert Operator.Next(history[k], history[k + 1]); }
    }
    assert EndsIn(longer, t);
  }

  ghost predicate Runs(i: Instance) { i.link.operator.Some? ==> Reachable(i.link.operator.value) }

  lemma HashingIsReachable(s: Operator.State, version: int)
    requires Reachable(s) && s.finalizer
    ensures Reachable(Operator.AfterRequest(s, Operator.HashAdded(version)))
  {
    hide Reachable;
    StepsAreReachable(s, Operator.Ask(Operator.HashAdded(version)));
  }

  lemma MarkingIsReachable(s: Operator.State)
    requires Reachable(s) && s.finalizer
    ensures Reachable(Operator.AfterRequest(s, Operator.DeletionRequested))
  {
    hide Reachable;
    StepsAreReachable(s, Operator.Ask(Operator.DeletionRequested));
  }

  /** The moves that reach the operator. */
  predicate Reaches(move: Move) {
    move.SecretPrepared? || move.ObjectDeleted? || move.ResourceSwept? || move.FirstAcceptance?
  }

  lemma OtherMovesKeepOperator(i: Instance, move: Move)
    requires CanMove(i, move) && !Reaches(move)
    ensures Moved(i, move).operator == i.link.operator
  {
    hide HasHistory, KnownResource, MayPrepare, Presentable, SecretHolds, Prepared;
  }

  lemma HashKeepsRuns(i: Instance)
    requires Runs(i) && CanDeliver(i, SecretPrepared)
    ensures Runs(i.(link := Delivered(i, SecretPrepared)))
  {
    hide Reachable, Operator.AfterRequest, SecretHolds;
    if i.link.operator.Some? {
      HashingIsReachable(i.link.operator.value, i.link.courier.record.row.password);
    }
  }

  lemma MarkKeepsRuns(i: Instance, courier: Courier)
    requires Handshaken(i) && Runs(i) && i.link.resource.Some? && !i.link.resource.value.marked
    ensures Runs(i.(link := Marked(i.link).(courier := courier)))
  {
    hide Reachable, Operator.AfterRequest;
    if i.link.operator.Some? { MarkingIsReachable(i.link.operator.value); }
  }

  lemma AcceptanceKeepsRuns(i: Instance)
    requires Agreed(i) && CanRun(i, FirstAcceptance)
    ensures Runs(i.(link := Ran(i, FirstAcceptance)))
  {
    hide Reachable, Contract.FirstAccepted;
    StartIsReachable(i.link.resource.value.spec);
    FirstAcceptanceIsOrdered(i);
  }

  /** The Secret then holds exactly the password version that is accepted. */
  lemma FirstAcceptanceIsOrdered(i: Instance)
    requires Agreed(i) && CanRun(i, FirstAcceptance)
    ensures i.link.secret == {Contract.FirstAccepted(i.link.resource.value.spec).accepted.passwordVersion}
    ensures Operator.Initial(Contract.FirstAccepted(i.link.resource.value.spec).accepted).hashes == i.link.secret
  {
  }

  lemma MoveKeepsRuns(i: Instance, move: Move)
    requires Handshaken(i) && Agreed(i) && Runs(i) && CanMove(i, move)
    ensures Runs(i.(link := Moved(i, move)))
  {
    hide Reachable, Handshaken, Agreed, HasHistory, Presentable, KnownResource, MayPrepare, SecretHolds, Prepared,
         Ran, Delivered, Platform.Reported, Operator.AfterRequest, Contract.FirstAccepted;
    match move
    case SecretPrepared => HashKeepsRuns(i);
    case ObjectDeleted => if i.link.courier.DeletingResource? { MarkKeepsRuns(i, Resting); }
    case ResourceSwept =>
      SweepMarks(i);
      MarkKeepsRuns(i, i.link.courier);
    case FirstAcceptance => AcceptanceKeepsRuns(i);
    case _ => OtherMovesKeepOperator(i, move);
  }

  lemma SweepMarks(i: Instance)
    requires CanRun(i, ResourceSwept)
    ensures Ran(i, ResourceSwept) == Marked(i.link)
  {
  }

  lemma EventKeepsRuns(i: Instance, e: Event)
    requires Handshaken(i) && Agreed(i) && Runs(i) && Can(i, e)
    ensures Runs(Next(i, e))
  {
    hide Handshaken, Agreed, Reachable, CanMove, Moved, Ordered, Ledger.ImportAllowed, Ledger.Imported,
         Operator.Enabled, Operator.After, Undisturbed;
    match e
    case LinkMoves(move) => MoveKeepsRuns(i, move);
    case OperatorActs(step) => StepsAreReachable(i.link.operator.value, step);
    case _ =>
  }

  // ---- every state of every run ----

  ghost predicate Trusted(i: Instance) { Handshaken(i) && Agreed(i) && Runs(i) }

  lemma EventKeepsTrust(i: Instance, e: Event)
    requires Trusted(i) && Can(i, e)
    ensures Trusted(Next(i, e))
  {
    hide Handshaken, Agreed, Runs, Can, Next;
    EventKeepsHandshake(i, e);
    EventKeepsAgreement(i, e);
    EventKeepsRuns(i, e);
  }

  lemma EvolvingKeepsTrust(s: Service, t: Service, id: Uid)
    requires Has(t, id) && Evolves(s, t, id) && (Has(s, id) ==> Trusted(InstanceAt(s, id)))
    ensures Trusted(InstanceAt(t, id))
  {
    hide Handshaken, Agreed, Runs, Can, Next;
    var i := InstanceAt(t, id);
    if Has(s, id) {
      var before := InstanceAt(s, id);
      if i != before {
        var e :| Can(before, e) && i == Next(before, e);
        EventKeepsTrust(before, e);
      }
    } else {
      NewIsHandshaken(i);
      NewIsAgreed(i);
      NewIsRunning(i);
    }
  }

  lemma NewIsRunning(i: Instance)
    requires New(i)
    ensures Runs(i)
  {
  }

  lemma {:induction false} InstancesAreTrusted(c: Ledger.Config, run: seq<Service>, k: nat, id: Uid)
    requires IsRun(c, run) && k < |run| && Has(run[k], id)
    ensures Trusted(InstanceAt(run[k], id))
  {
    hide Trusted, CanStep, Stepped, Evolves;
    if k > 0 {
      RunEvolves(c, run, k, id);
      if Has(run[k - 1], id) { InstancesAreTrusted(c, run, k - 1, id); }
      EvolvingKeepsTrust(run[k - 1], run[k], id);
    }
  }

  // ---- what it means ----

  /** The operator accepted and applied what the row orders, and the row knows it. */
  predicate InForce(row: Row, link: Link) {
    && link.operator.Some?
    && var status := link.operator.value.status;
       && status.accepted.generation == row.desired == status.observedGeneration
       && status.accepted.size == row.size && status.accepted.passwordVersion == row.password
       && status.applied == Some(Applied(row.mode, row.size)) && status.appliedPasswordVersion == row.password
       && row.applied == row.size && row.appliedPassword == row.password
  }

  /** A row is at most one generation ahead of what was observed; when it is not ahead, it is in force. */
  lemma GenerationsAgree(c: Ledger.Config, run: seq<Service>, k: nat, id: Uid)
    requires IsRun(c, run) && k < |run| && Has(run[k], id)
    ensures run[k].books.rows[id].desired - run[k].books.rows[id].observed in {0, 1}
    ensures run[k].books.rows[id].desired == run[k].books.rows[id].observed ==>
      InForce(run[k].books.rows[id], run[k].links[id])
  {
    hide CanStep, Stepped, Runs, Handshaken, IsRun;
    InstancesAreTrusted(c, run, k, id);
    var i := InstanceAt(run[k], id);
    if i.link.operator.Some? { OperatorKeepsUp(i); }
  }

  /**
   At most two password versions are in play: the hashes in the Secret, the hash of every live process that
   clients can reach, and the versions its clients used are among the accepted version, the ordered one and,
   during a rotation, the one before; and these are never three.
   */
  lemma TwoPasswordVersions(c: Ledger.Config, run: seq<Service>, k: nat, id: Uid, u: Uid)
    requires IsRun(c, run) && k < |run| && Has(run[k], id) && run[k].links[id].operator.Some?
    ensures
      var s, row := run[k].links[id].operator.value, run[k].books.rows[id];
      var versions := Versions(row, s.status);
      && |versions| <= 2 && s.hashes <= versions
      && (u in s.world && s.world[u].alive ==>
            (s.world[u].appOn ==> s.world[u].version in versions) && s.world[u].clients <= versions)
  {
    hide CanStep, Stepped, Handshaken, IsRun, EndsIn;
    InstancesAreTrusted(c, run, k, id);
    var i := InstanceAt(run[k], id);
    TwoVersionsAtMost(i);
    var s := i.link.operator.value;
    if u in s.world && s.world[u].alive { OpenVersionsAreKnown(s, i.row, u); }
  }

  lemma TwoVersionsAtMost(i: Instance)
    requires Agreed(i) && i.link.operator.Some?
    ensures |Versions(i.row, i.link.operator.value.status)| <= 2
  {
    OperatorKeepsUp(i);
    var status := i.link.operator.value.status;
    if status.rotation.Some? {
      assert Versions(i.row, status) == {status.accepted.passwordVersion, status.rotation.value.previous};
    } else {
      assert Versions(i.row, status) == {status.accepted.passwordVersion, i.row.password};
    }
  }

  lemma OpenVersionsAreKnown(s: Operator.State, row: Row, u: Uid)
    requires Reachable(s) && u in s.world && s.world[u].alive
    ensures s.world[u].appOn ==> s.world[u].version in Versions(row, s.status)
    ensures s.world[u].clients <= Versions(row, s.status)
  {
    hide Operator.Enabled, Operator.After;
    var history :| EndsIn(history, s);
    RotationGate.OpenProcessesAcceptHeldVersions(history, |history| - 1, u);
  }

  /** Whatever the API and the other instances do, no instance ever has two primaries that clients can write to. */
  lemma EveryInstanceHasOneWriter(c: Ledger.Config, run: seq<Service>, k: nat, id: Uid, u: Uid, v: Uid)
    requires IsRun(c, run) && k < |run| && Has(run[k], id) && run[k].links[id].operator.Some?
    requires
      var world := run[k].links[id].operator.value.world;
      u in world && v in world && SingleWriter.Writer(world[u]) && SingleWriter.Writer(world[v])
    ensures u == v
  {
    hide CanStep, Stepped, Handshaken, Agreed, IsRun, Operator.Enabled, Operator.After;
    InstancesAreTrusted(c, run, k, id);
    var history :| EndsIn(history, run[k].links[id].operator.value);
    SingleWriter.OneWriter(history, |history| - 1, u, v);
  }

  /**
   A row counts as deleted only after its resource and its namespace are gone, every process its operator
   ever listed has ended, and no pod of it is left; and this stays so.
   */
  lemma DeletedMeansStopped(c: Ledger.Config, run: seq<Service>, k: nat, id: Uid)
    requires IsRun(c, run) && k < |run| && Has(run[k], id) && run[k].books.rows[id].deletedAt.Some?
    ensures run[k].links[id].resource.None? && run[k].links[id].namespace.None?
    ensures run[k].links[id].operator.Some? ==> RolloutSafety.EverythingStopped(run[k].links[id].operator.value)
  {
    hide CanStep, Stepped, Agreed, IsRun, Operator.Enabled, Operator.After;
    InstancesAreTrusted(c, run, k, id);
    var i := InstanceAt(run[k], id);
    if i.link.operator.Some? { UnheldIsStopped(i.link.operator.value); }
  }

  lemma UnheldIsStopped(s: Operator.State)
    requires Reachable(s) && !s.finalizer
    ensures RolloutSafety.EverythingStopped(s)
  {
    hide Operator.Enabled, Operator.After, RolloutSafety.EverythingStopped;
    var history :| EndsIn(history, s);
    DeletionSafety.GoneStaysGone(history, |history| - 1);
  }
}
