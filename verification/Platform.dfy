/**
 The whole service: the API's tables, and for every instance the objects in the cluster, the operator that
 runs it, and the two loops of the API between them (sync/delivery.go, sync/deletion.go, sync/import.go,
 store/valkey_sync.go).

 Every read and write of a table or of an object is a step of its own, so that a loop works with what it
 read earlier, and can stop after any step.  As the API runs once, at most one delivery and one import of
 an instance are under way.
 */
module Platform {
  import opened Options
  import opened OperatorTypes
  import Contract
  import Ledger
  import Operator

  type Row = Ledger.Row

  datatype ApiStage = CRPrepared | NamespacePrepared

  /** The columns in which the API remembers the objects it created, and how far their deletion came. */
  datatype Bond = Bond(namespace: Option<Uid>, resource: Option<Uid>, stage: Option<ApiStage>)

  datatype Record = Record(row: Row, bond: Bond)

  datatype Namespace = Namespace(uid: Uid, deleting: bool)
  datatype Resource = Resource(uid: Uid, spec: Spec, marked: bool)

  /** Where the delivery loop is with an instance, and what it has read. */
  datatype Courier =
    | Resting
    | EnsuringNamespace(record: Record)
    | BindingNamespace(record: Record, uid: Uid)
    | ReadingResource(record: Record)
    | PreparingSecret(record: Record, found: Option<Resource>)
    | WritingResource(record: Record, found: Option<Resource>)
    | BindingResource(record: Record, uid: Uid)
    | LookingForNamespace(record: Record)
    | LookingForResource(record: Record, uid: Uid)
    | PreparingResource(record: Record, uid: Uid, resource: Uid)
    | PreparingNamespace(record: Record, uid: Uid)
    | PreparingCompletion(record: Record)
    | DeletingResource(record: Record, resource: Uid)
    | DeletingNamespace(record: Record, uid: Uid)
    | Completing(record: Record)

  /** `secret` are the password versions in the Secret until an operator holds it. */
  datatype Link = Link(
    bond: Bond, namespace: Option<Namespace>, secret: set<int>, resource: Option<Resource>,
    operator: Option<Operator.State>, courier: Courier, observation: Option<Ledger.Seen>)

  const NEW_LINK := Link(Bond(None, None, None), None, {}, None, None, Resting, None)

  datatype Instance = Instance(id: Uid, row: Row, link: Link)

  const PORT := 1

  /** desiredSpec; the slug and the port of an instance never change. */
  function SpecOf(id: Uid, row: Row): Spec {
    Spec(id, id, Some(row.mode), row.size, PORT, Whitelist(row.whitelist), row.password, row.desired)
  }

  // ---- identity.go, bindValkeyUID ----

  predicate Fits(saved: Option<Uid>, uid: Uid) { saved.Some? ==> saved.value == uid }

  /** creationHasHistory. */
  predicate HasHistory(record: Record) {
    || record.bond.resource.Some? || record.row.observedAt.Some? || record.row.observed > 0
    || record.row.appliedPassword > 0 || record.row.applied.vcpu > 0 || record.row.applied.ramGB > 0
  }

  /** What readCR and createCR take as proof that the resource existed before. */
  predicate KnownResource(record: Record) {
    || record.bond.resource.Some? || record.row.observedAt.Some? || record.row.appliedPassword > 0
    || record.row.observed > 0
  }

  // ---- PrepareValkeyDeletion ----

  /** validateDeletionStage accepts. */
  predicate MayPrepare(bond: Bond, stage: ApiStage, namespace: Option<Uid>, resource: Option<Uid>) {
    && (namespace.None? ==> stage == NamespacePrepared && bond.namespace.None?)
    && (namespace.Some? ==> Fits(bond.namespace, namespace.value))
    && !(bond.stage == Some(NamespacePrepared) && stage == CRPrepared)
    && (stage == CRPrepared ==> resource.Some?)
    && (resource.Some? ==> Fits(bond.resource, resource.value))
  }

  function Prepared(bond: Bond, stage: ApiStage, namespace: Option<Uid>, resource: Option<Uid>): Bond {
    if bond.stage == Some(stage) then bond
    else Bond(
      if namespace.Some? then namespace else bond.namespace,
      if resource.Some? then resource else bond.resource,
      Some(stage))
  }

  // ---- moves of one instance ----

  datatype Move =
    | RowRead
    | NamespaceEnsured(uid: Uid)      // the UID of a namespace created now
    | NamespaceBound
    | ResourceRead
    | SecretPrepared
    | ResourceWritten(uid: Uid)       // the UID of a resource created now
    | ResourceBound
    | NamespaceLookedUp
    | ResourceLookedUp(bare: bool)    // the Secret holds no credentials of a process yet
    | DeletionPrepared
    | ObjectDeleted
    | AttemptEnds                     // an error, a restart, or nothing left to do
    | StatusRead(at: Time)
    | ImportEnds
    | ResourceSwept
    | ResourceVanishes
    | NamespaceVanishes
    | FirstAcceptance

  predicate Deletable(row: Row) { row.deletionRequestedAt.Some? && row.deletedAt.None? }

  predicate SecretHolds(link: Link, version: int) {
    if link.operator.Some? then version in link.operator.value.hashes else version in link.secret
  }

  /** Steps of the operator that only others cause, or that depend on what is in the cluster. */
  predicate Undisturbed(link: Link, step: Operator.Step) {
    && (step.Ask? ==> !step.request.HashAdded? && !step.request.DeletionRequested?)
    && (step.Look? && step.watch.SpecRead? ==>
          link.resource.Some? && !link.resource.value.marked && link.resource.value.spec == step.watch.spec)
  }

  /** What buildObservation demands of a status. */
  predicate Presentable(status: Status, spec: Spec) {
    && 0 <= status.observedGeneration <= spec.generation
    && 0 <= status.appliedPasswordVersion <= spec.passwordVersion
    && status.accepted.instanceID == spec.instanceID && status.accepted.slug == spec.slug
    && status.accepted.generation <= spec.generation
    && status.accepted.passwordVersion <= spec.passwordVersion
    && status.observedGeneration <= status.accepted.generation
    && status.appliedPasswordVersion <= status.accepted.passwordVersion
    && (status.applied.Some? ==> Contract.ValidSize(status.applied.value.size))
  }

  function SeenOf(status: Status, at: Time): Ledger.Seen {
    Ledger.Seen(status.observedGeneration, status.appliedPasswordVersion, status.applied, status.phase, at)
  }

  predicate CanWrite(i: Instance) {
    && i.link.courier.WritingResource?
    && i.link.namespace.Some? && !i.link.namespace.value.deleting
    && i.link.resource == i.link.courier.found
    && (i.link.courier.found.None? ==> !KnownResource(i.link.courier.record))
    && (i.link.courier.found.Some? ==>
          var found := i.link.courier.found.value;
          && !found.marked && found.spec.generation <= i.link.courier.record.row.desired
          && found.spec.passwordVersion <= i.link.courier.record.row.password)
  }

  predicate CanDeliver(i: Instance, move: Move) {
    var link := i.link;
    match move
    case RowRead => link.courier.Resting? && i.row.deletedAt.None?
    case NamespaceEnsured(_) => link.courier.EnsuringNamespace? &&
      (match link.namespace
       case None => link.courier.record.bond.namespace.None? && !HasHistory(link.courier.record)
       case Some(namespace) => !namespace.deleting && Fits(link.courier.record.bond.namespace, namespace.uid))
    case NamespaceBound => link.courier.BindingNamespace? && Fits(link.bond.namespace, link.courier.uid)
    case ResourceRead => link.courier.ReadingResource? &&
      (match link.resource
       case None => !KnownResource(link.courier.record)
       case Some(found) => Fits(link.courier.record.bond.resource, found.uid) && Fits(link.bond.resource, found.uid))
    case SecretPrepared => link.courier.PreparingSecret? && link.namespace.Some? &&
      (link.operator.Some? ==> link.operator.value.finalizer) &&
      (link.courier.found.Some? ==> SecretHolds(link, link.courier.found.value.spec.passwordVersion))
    case ResourceWritten(_) => CanWrite(i)
    case ResourceBound => link.courier.BindingResource? && Fits(link.bond.resource, link.courier.uid)
    case AttemptEnds => true
    case _ => false
  }

  function Delivered(i: Instance, move: Move): Link
    requires CanDeliver(i, move)
  {
    var link := i.link;
    match move
    case RowRead =>
      var record := Record(i.row, link.bond);
      link.(courier :=
        if i.row.deletionRequestedAt.Some? then LookingForNamespace(record) else EnsuringNamespace(record))
    case NamespaceEnsured(uid) =>
      var namespace := if link.namespace.Some? then link.namespace.value else Namespace(uid, false);
      link.(namespace := Some(namespace), courier := BindingNamespace(link.courier.record, namespace.uid))
    case NamespaceBound =>
      link.(bond := link.bond.(namespace := Some(link.courier.uid)), courier := ReadingResource(link.courier.record))
    case ResourceRead =>
      var bound := if link.resource.Some? then link.bond.(resource := Some(link.resource.value.uid)) else link.bond;
      link.(bond := bound, courier := PreparingSecret(link.courier.record, link.resource))
    case SecretPrepared =>
      WithHash(link, link.courier.record.row.password)
      .(courier := WritingResource(link.courier.record, link.courier.found))
    case ResourceWritten(uid) =>
      var written := if link.resource.Some? then link.resource.value.uid else uid;
      link.(resource := Some(Resource(written, SpecOf(i.id, link.courier.record.row), false)),
            courier := BindingResource(link.courier.record, written))
    case ResourceBound =>
      link.(bond := link.bond.(resource := Some(link.courier.uid)), courier := Resting)
    case AttemptEnds => link.(courier := Resting)
  }

  function WithHash(link: Link, version: int): Link {
    if link.operator.Some?
    then link.(operator := Some(Operator.AfterRequest(link.operator.value, Operator.HashAdded(version))))
    else link.(secret := link.secret + {version})
  }

  /** The resource is marked for deletion. */
  function Marked(link: Link): Link
    requires link.resource.Some?
  {
    link.(resource := Some(link.resource.value.(marked := true)),
          operator := if link.operator.Some?
            then Some(Operator.AfterRequest(link.operator.value, Operator.DeletionRequested)) else None)
  }

  /** The arguments PrepareValkeyDeletion is called with. */
  datatype Preparation = Preparation(stage: ApiStage, namespace: Option<Uid>, resource: Option<Uid>)

  function PreparationOf(courier: Courier): Preparation
    requires courier.PreparingResource? || courier.PreparingNamespace? || courier.PreparingCompletion?
  {
    match courier
    case PreparingResource(_, uid, resource) => Preparation(CRPrepared, Some(uid), Some(resource))
    case PreparingNamespace(record, uid) => Preparation(NamespacePrepared, Some(uid), record.bond.resource)
    case PreparingCompletion(record) =>
      Preparation(NamespacePrepared, record.bond.namespace,
                  if record.bond.stage == Some(CRPrepared) then record.bond.resource else None)
  }

  function AfterPreparing(courier: Courier): Courier
    requires courier.PreparingResource? || courier.PreparingNamespace? || courier.PreparingCompletion?
  {
    match courier
    case PreparingResource(record, _, resource) => DeletingResource(record, resource)
    case PreparingNamespace(record, uid) => DeletingNamespace(record, uid)
    case PreparingCompletion(record) => Completing(record)
  }

  predicate CanDelete(i: Instance, move: Move) {
    var link := i.link;
    match move
    case NamespaceLookedUp => link.courier.LookingForNamespace? && i.row.deletedAt.None? &&
      (match link.namespace
       case None => link.courier.record.bond.stage.Some? || !HasHistory(link.courier.record)
       case Some(namespace) =>
         Fits(link.courier.record.bond.namespace, namespace.uid) && Fits(link.bond.namespace, namespace.uid))
    case ResourceLookedUp(bare) => link.courier.LookingForResource? && i.row.deletedAt.None? &&
      (match link.resource
       case None =>
         link.courier.record.bond.stage == Some(CRPrepared) || (!HasHistory(link.courier.record) && bare)
       case Some(found) =>
         Fits(link.courier.record.bond.resource, found.uid) && Fits(link.bond.resource, found.uid) &&
         (link.operator.Some? ==> link.operator.value.finalizer))
    case DeletionPrepared =>
      && (link.courier.PreparingResource? || link.courier.PreparingNamespace? || link.courier.PreparingCompletion?)
      && Deletable(i.row)
      && var p := PreparationOf(link.courier); MayPrepare(link.bond, p.stage, p.namespace, p.resource)
    case ObjectDeleted =>
      || (link.courier.DeletingResource? && Deletable(i.row) && link.bond.stage == Some(CRPrepared) &&
          link.resource.Some? && !link.resource.value.marked &&
          link.resource.value.uid == link.courier.resource && Fits(link.bond.resource, link.courier.resource))
      || (link.courier.DeletingNamespace? && Deletable(i.row) && link.bond.stage == Some(NamespacePrepared) &&
          link.namespace.Some? && link.namespace.value.uid == link.courier.uid &&
          Fits(link.bond.namespace, link.courier.uid))
    case _ => false
  }

  function Deleted(i: Instance, move: Move): Link
    requires CanDelete(i, move)
  {
    var link := i.link;
    match move
    case NamespaceLookedUp =>
      var record := link.courier.record;
      (match link.namespace
       case None => link.(courier := if record.bond.stage == Some(NamespacePrepared)
           then Completing(record) else PreparingCompletion(record))
       case Some(namespace) =>
         link.(bond := link.bond.(namespace := Some(namespace.uid)),
               courier := if record.bond.stage == Some(NamespacePrepared)
                 then DeletingNamespace(record, namespace.uid) else LookingForResource(record, namespace.uid)))
    case ResourceLookedUp(_) =>
      (match link.resource
       case None => link.(courier := PreparingNamespace(link.courier.record, link.courier.uid))
       case Some(found) =>
         link.(bond := link.bond.(resource := Some(found.uid)),
               courier := PreparingResource(link.courier.record, link.courier.uid, found.uid)))
    case DeletionPrepared =>
      var p := PreparationOf(link.courier);
      link.(bond := Prepared(link.bond, p.stage, p.namespace, p.resource), courier := AfterPreparing(link.courier))
    case ObjectDeleted =>
      if link.courier.DeletingResource? then Marked(link).(courier := Resting)
      else link.(namespace := Some(link.namespace.value.(deleting := true)), courier := Resting)
  }

  predicate CanReport(i: Instance, move: Move) {
    var link := i.link;
    match move
    case StatusRead(_) => link.observation.None? && i.row.deletionRequestedAt.None? && i.row.deletedAt.None? &&
      link.namespace.Some? && Fits(link.bond.namespace, link.namespace.value.uid) &&
      link.resource.Some? && !link.resource.value.marked && Fits(link.bond.resource, link.resource.value.uid) &&
      link.operator.Some? && Presentable(link.operator.value.status, link.resource.value.spec)
    case ImportEnds => true
    case _ => false
  }

  function Reported(i: Instance, move: Move): Link
    requires CanReport(i, move)
  {
    match move
    case StatusRead(at) =>
      i.link.(bond := i.link.bond.(namespace := Some(i.link.namespace.value.uid),
                                   resource := Some(i.link.resource.value.uid)),
              observation := Some(SeenOf(i.link.operator.value.status, at)))
    case ImportEnds => i.link.(observation := None)
  }

  predicate CanRun(i: Instance, move: Move) {
    var link := i.link;
    match move
    case ResourceSwept => link.namespace.Some? && link.namespace.value.deleting &&
      link.resource.Some? && !link.resource.value.marked
    case ResourceVanishes => link.resource.Some? && link.resource.value.marked &&
      link.operator.Some? && !link.operator.value.finalizer
    case NamespaceVanishes => link.namespace.Some? && link.namespace.value.deleting && link.resource.None? &&
      (link.operator.Some? ==> link.operator.value.pods == map[])
    case FirstAcceptance => link.resource.Some? && !link.resource.value.marked && link.operator.None? &&
      Contract.FirstAccepted(link.resource.value.spec).Candidate? &&
      link.resource.value.spec.passwordVersion in link.secret
    case _ => false
  }

  function Ran(i: Instance, move: Move): Link
    requires CanRun(i, move)
  {
    var link := i.link;
    match move
    case ResourceSwept => Marked(link)
    case ResourceVanishes => link.(resource := None)
    case NamespaceVanishes => link.(namespace := None)
    case FirstAcceptance =>
      var accepted := Contract.FirstAccepted(link.resource.value.spec).accepted;
      link.(operator := Some(Operator.Initial(accepted).(hashes := link.secret)))
  }

  predicate CanMove(i: Instance, move: Move) {
    CanDeliver(i, move) || CanDelete(i, move) || CanReport(i, move) || CanRun(i, move)
  }

  function Moved(i: Instance, move: Move): Link
    requires CanMove(i, move)
  {
    if CanDeliver(i, move) then Delivered(i, move)
    else if CanDelete(i, move) then Deleted(i, move)
    else if CanReport(i, move) then Reported(i, move)
    else Ran(i, move)
  }

  // ---- the operator ----

  predicate CanOperate(i: Instance, step: Operator.Step) {
    && i.link.operator.Some? && Undisturbed(i.link, step)
    && Operator.Enabled(i.link.operator.value, step)
  }

  function Operated(link: Link, step: Operator.Step): Link
    requires link.operator.Some? && Operator.Enabled(link.operator.value, step)
  {
    link.(operator := Some(Operator.After(link.operator.value, step)))
  }

  // ---- events of one instance ----

  /** What a user's request may change in a row. */
  predicate Ordered(a: Row, b: Row) {
    || b == a.(name := b.name)
    || (a.deletionRequestedAt.None? && a.desired == a.observed && b.password in {a.password, a.password + 1} &&
        b == a.(size := b.size, password := b.password, hash := b.hash, whitelist := b.whitelist,
                desired := a.desired + 1))
    || (a.deletionRequestedAt.None? && b.deletionRequestedAt.Some? &&
        b == a.(deletionRequestedAt := b.deletionRequestedAt))
  }

  datatype Event =
    | RowOrdered(row: Row)
    | LinkMoves(move: Move)
    | OperatorActs(step: Operator.Step)
    | Imports
    | Completes(now: Time)

  predicate Can(i: Instance, e: Event) {
    match e
    case RowOrdered(row) => Ordered(i.row, row)
    case LinkMoves(move) => CanMove(i, move)
    case OperatorActs(step) => CanOperate(i, step)
    case Imports => i.link.observation.Some?
    case Completes(_) => i.link.courier.Completing? && Deletable(i.row) && i.link.bond.stage == Some(NamespacePrepared)
  }

  function Next(i: Instance, e: Event): Instance
    requires Can(i, e)
  {
    match e
    case RowOrdered(row) => i.(row := row)
    case LinkMoves(move) => i.(link := Moved(i, move))
    case OperatorActs(step) => i.(link := Operated(i.link, step))
    case Imports =>
      i.(row := if Ledger.ImportAllowed(i.row, i.link.observation.value)
           then Ledger.Imported(i.row, i.link.observation.value) else i.row,
         link := i.link.(observation := None))
    case Completes(now) =>
      i.(row := i.row.(deletedAt := Some(now)), link := i.link.(courier := Resting))
  }

  predicate New(i: Instance) {
    && i.link == NEW_LINK && i.row.desired == 1 && i.row.observed == 0 && i.row.password == 1
    && i.row.applied == Ledger.NO_SIZE && i.row.appliedPassword == 0 && i.row.observedAt.None?
    && i.row.deletionRequestedAt.None? && i.row.deletedAt.None?
  }

  // ---- the whole ----

  datatype Service = Service(books: Ledger.Books, links: map<Uid, Link>)

  const START := Service(Ledger.EMPTY, map[])

  predicate Has(s: Service, id: Uid) { id in s.books.rows && id in s.links }

  function InstanceAt(s: Service, id: Uid): Instance
    requires Has(s, id)
  {
    Instance(id, s.books.rows[id], s.links[id])
  }

  datatype Step =
    | UserActs(op: Ledger.Op, now: Time)
    | LinkStep(id: Uid, move: Move)
    | OperatorStep(id: Uid, step: Operator.Step)
    | ImportStep(id: Uid, now: Time)
    | CompletionStep(id: Uid, now: Time)

  predicate CanStep(s: Service, step: Step) {
    match step
    case UserActs(op, now) => Ledger.Possible(s.books, op, now) && !op.ImportOp? && !op.CompleteOp?
    case LinkStep(id, move) => Has(s, id) && CanMove(InstanceAt(s, id), move)
    case OperatorStep(id, step) => Has(s, id) && CanOperate(InstanceAt(s, id), step)
    case ImportStep(id, now) => Has(s, id) && now >= s.books.clock && Can(InstanceAt(s, id), Imports)
    case CompletionStep(id, now) => Has(s, id) && now >= s.books.clock && Can(InstanceAt(s, id), Completes(now))
  }

  ghost function Stepped(c: Ledger.Config, s: Service, step: Step): Service
    requires CanStep(s, step)
  {
    match step
    case UserActs(op, now) =>
      var books := Ledger.After(c, s.books, op, now);
      Service(books, if op.CreateOp? && op.newId in books.rows then s.links[op.newId := NEW_LINK] else s.links)
    case LinkStep(id, move) => s.(links := s.links[id := Moved(InstanceAt(s, id), move)])
    case OperatorStep(id, step) => s.(links := s.links[id := Operated(s.links[id], step)])
    case ImportStep(id, now) =>
      Service(Ledger.Import(s.books, id, s.links[id].observation.value, now),
              s.links[id := s.links[id].(observation := None)])
    case CompletionStep(id, now) =>
      Service(Ledger.Complete(s.books, id, now), s.links[id := s.links[id].(courier := Resting)])
  }

  /** States of the service, each reached from the one before by a step. */
  ghost predicate IsRun(c: Ledger.Config, run: seq<Service>) {
    && run != [] && run[0] == START
    && forall k :: 0 <= k < |run| - 1 ==> Follows(c, run[k], run[k + 1])
  }

  ghost predicate Follows(c: Ledger.Config, s: Service, t: Service) {
    exists step :: CanStep(s, step) && t == Stepped(c, s, step)
  }

  // ---- every step is an event of at most one instance ----

  /** The same, an event, or a new instance. */
  ghost predicate Evolves(s: Service, t: Service, id: Uid)
    requires Has(t, id)
  {
    if Has(s, id) then
      || InstanceAt(t, id) == InstanceAt(s, id)
      || exists e :: Can(InstanceAt(s, id), e) && InstanceAt(t, id) == Next(InstanceAt(s, id), e)
    else New(InstanceAt(t, id))
  }

  ghost predicate WellFormed(s: Service) { s.links.Keys == s.books.rows.Keys }

  lemma CreationIsNew(c: Ledger.Config, b: Ledger.Books, input: Ledger.CreateInput, newId: Uid, now: Time)
    requires newId !in b.rows
    ensures
      var rows := Ledger.Create(c, b, input, newId, now).books.rows;
      rows == b.rows || rows == b.rows[newId := Ledger.NewRow(input, now)]
  {
    hide Ledger.CheckQuota, Ledger.Create;
  }

  /** A request of a user orders something for at most one existing row. */
  lemma RequestsOrder(c: Ledger.Config, b: Ledger.Books, op: Ledger.Op, now: Time, id: Uid)
    requires Ledger.Possible(b, op, now) && !op.ImportOp? && !op.CompleteOp? && id in b.rows
    ensures id in Ledger.After(c, b, op, now).rows
    ensures Ordered(b.rows[id], Ledger.After(c, b, op, now).rows[id])
  {
    hide Ledger.Create, Ledger.Resize, Ledger.Rename, Ledger.Rewhitelist, Ledger.Rotate, Ledger.CheckQuota;
    match op
    case CreateOp(input, newId) => CreationIsNew(c, b, input, newId, now);
    case _ =>
  }

  lemma RequestsKeepRows(c: Ledger.Config, b: Ledger.Books, op: Ledger.Op, now: Time, id: Uid)
    requires Ledger.Possible(b, op, now) && !op.ImportOp? && !op.CompleteOp?
    requires id !in b.rows && id in Ledger.After(c, b, op, now).rows
    ensures op.CreateOp? && op.newId == id
    ensures Ledger.After(c, b, op, now).rows[id] == Ledger.NewRow(op.create, now)
  {
    hide Ledger.Create, Ledger.Resize, Ledger.Rename, Ledger.Rewhitelist, Ledger.Rotate, Ledger.CheckQuota;
    if op.CreateOp? { CreationIsNew(c, b, op.create, op.newId, now); }
  }

  lemma RequestEvolves(c: Ledger.Config, s: Service, op: Ledger.Op, now: Time, id: Uid)
    requires WellFormed(s) && CanStep(s, UserActs(op, now))
    requires Has(Stepped(c, s, UserActs(op, now)), id)
    ensures Evolves(s, Stepped(c, s, UserActs(op, now)), id)
  {
    hide Ledger.After, Ordered, Next, CanMove, Moved, CanOperate, Operated;
    var t := Stepped(c, s, UserActs(op, now));
    if id in s.books.rows {
      RequestsOrder(c, s.books, op, now, id);
      NextOrders(InstanceAt(s, id), t.books.rows[id]);
      assert InstanceAt(t, id) == Next(InstanceAt(s, id), RowOrdered(t.books.rows[id]));
    } else {
      RequestsKeepRows(c, s.books, op, now, id);
    }
  }

  lemma NextOrders(i: Instance, row: Row)
    requires Ordered(i.row, row)
    ensures Can(i, RowOrdered(row)) && Next(i, RowOrdered(row)) == i.(row := row)
  {
    hide Ordered;
  }

  lemma ImportEvolves(s: Service, id: Uid, now: Time)
    requires Has(s, id) && Can(InstanceAt(s, id), Imports)
    ensures
      var books := Ledger.Import(s.books, id, s.links[id].observation.value, now);
      && books.rows.Keys == s.books.rows.Keys
      && Instance(id, books.rows[id], s.links[id].(observation := None)) == Next(InstanceAt(s, id), Imports)
      && forall other :: other in s.books.rows && other != id ==> books.rows[other] == s.books.rows[other]
  {
    hide CanMove, Moved, CanOperate, Operated, Ledger.ImportAllowed, Ledger.Imported;
  }

  lemma CompletionEvolves(s: Service, id: Uid, now: Time)
    requires Has(s, id) && Can(InstanceAt(s, id), Completes(now))
    ensures
      var books := Ledger.Complete(s.books, id, now);
      && books.rows.Keys == s.books.rows.Keys
      && Instance(id, books.rows[id], s.links[id].(courier := Resting)) == Next(InstanceAt(s, id), Completes(now))
      && forall other :: other in s.books.rows && other != id ==> books.rows[other] == s.books.rows[other]
  {
    hide CanMove, Moved, CanOperate, Operated;
  }

  lemma LinkEvolves(i: Instance, move: Move)
    requires CanMove(i, move)
    ensures Can(i, LinkMoves(move)) && Next(i, LinkMoves(move)) == i.(link := Moved(i, move))
  {
    hide CanMove, Moved, CanOperate, Operated;
  }

  lemma OperatorEvolves(i: Instance, step: Operator.Step)
    requires CanOperate(i, step)
    ensures Can(i, OperatorActs(step)) && Next(i, OperatorActs(step)) == i.(link := Operated(i.link, step))
  {
    hide CanOperate, Operated, CanMove, Moved;
  }

  lemma StepEvolves(c: Ledger.Config, s: Service, step: Step, id: Uid)
    requires WellFormed(s) && CanStep(s, step) && Has(Stepped(c, s, step), id)
    ensures WellFormed(Stepped(c, s, step)) && Evolves(s, Stepped(c, s, step), id)
  {
    hide Ledger.After, Ordered, Next, Can, CanMove, Moved, CanOperate, Operated, Ledger.Import, Ledger.Complete;
    match step
    case UserActs(op, now) =>
      RequestEvolves(c, s, op, now, id);
      RequestsKeepLinks(c, s, op, now);
    case LinkStep(other, move) => LinkEvolves(InstanceAt(s, other), move);
    case OperatorStep(other, action) => OperatorEvolves(InstanceAt(s, other), action);
    case ImportStep(other, now) => ImportEvolves(s, other, now);
    case CompletionStep(other, now) => CompletionEvolves(s, other, now);
  }

  lemma RequestsKeepLinks(c: Ledger.Config, s: Service, op: Ledger.Op, now: Time)
    requires WellFormed(s) && CanStep(s, UserActs(op, now))
    ensures WellFormed(Stepped(c, s, UserActs(op, now)))
  {
    hide Ledger.After;
    var rows := Ledger.After(c, s.books, op, now).rows;
    forall id | id in s.books.rows ensures id in rows {
      RequestsOrder(c, s.books, op, now, id);
    }
    forall id | id in rows && id !in s.books.rows ensures op.CreateOp? && op.newId == id {
      RequestsKeepRows(c, s.books, op, now, id);
    }
  }

  lemma StepIsWellFormed(c: Ledger.Config, s: Service, step: Step)
    requires WellFormed(s) && CanStep(s, step)
    ensures WellFormed(Stepped(c, s, step))
  {
    hide Ledger.After, CanMove, Moved, CanOperate, Operated, Ledger.ImportAllowed, Ledger.Imported;
    if step.UserActs? { RequestsKeepLinks(c, s, step.op, step.now); }
  }

  /** Rows are kept for good. */
  lemma StepKeepsInstances(c: Ledger.Config, s: Service, step: Step, id: Uid)
    requires WellFormed(s) && CanStep(s, step) && Has(s, id)
    ensures Has(Stepped(c, s, step), id)
  {
    hide Ledger.After, CanMove, Moved, CanOperate, Operated, Ledger.ImportAllowed, Ledger.Imported;
    if step.UserActs? { RequestsOrder(c, s.books, step.op, step.now, id); }
  }
}
