/**
 A run of the whole service that brings an instance into force: a user creates it, the row is delivered, the
 operator accepts it and starts the process, and the import brings back what it reports.  So the runs that
 Handshake, Agreement and Reservation speak of get that far.
 */
module FirstDelivery {
  import opened Options
  import opened OperatorTypes
  import opened Platform
  import opened StartUp
  import Agreement
  import Contract
  import Ledger
  import Operator
  import Passes

  const CONFIG := Ledger.Config({SIZE}, 1, 1, 1000, 1024, map[5 := SIZE])
  const INPUT := Ledger.CreateInput(5, 6, Single, SIZE, 9, 0, 3, 4)
  const ROW := Ledger.NewRow(INPUT, 0)
  const RECORD := Record(ROW, Bond(None, None, None))
  const OPEN_PERIOD := Ledger.Period(0, None, Single, SIZE, 1, 2)
  const KEYS := map[Ledger.KeyId(5, 3) := Ledger.SavedKey(4, Ledger.Response(202, ROW), 0)]

  /** The books with the one row. */
  function BooksOf(row: Row): Ledger.Books { Ledger.Books(map[1 := row], map[1 := [OPEN_PERIOD]], KEYS, 0) }

  function Holding(link: Link): Service { Service(BooksOf(ROW), map[1 := link]) }

  function Ensured(): Link {
    NEW_LINK.(namespace := Some(Namespace(7, false)), courier := BindingNamespace(RECORD, 7))
  }

  function Bound(): Link {
    Ensured().(bond := Bond(Some(7), None, None), courier := ReadingResource(RECORD))
  }

  function Written(): Link {
    Bound().(secret := {1}, resource := Some(Resource(8, SPEC, false)), courier := BindingResource(RECORD, 8))
  }

  function Delivered(): Link { Written().(bond := Bond(Some(7), Some(8), None), courier := Resting) }

  function Under(s: Operator.State): Link { Delivered().(operator := Some(s)) }

  /** Some run of the service ends in this state. */
  ghost predicate Served(s: Service) {
    exists run :: IsRun(CONFIG, run) && run[|run| - 1] == s
  }

  lemma Goes(s: Service, t: Service, step: Step)
    requires Served(s) && CanStep(s, step) && t == Stepped(CONFIG, s, step)
    ensures Served(t)
  {
    hide CanStep, Stepped;
    var run :| IsRun(CONFIG, run) && run[|run| - 1] == s;
    var longer := run + [t];
    assert longer[0] == run[0];
    forall k | 0 <= k < |longer| - 1 ensures Follows(CONFIG, longer[k], longer[k + 1]) {
      if k < |run| - 1 { assert Follows(CONFIG, run[k], run[k + 1]); }
    }
    assert IsRun(CONFIG, longer) && longer[|longer| - 1] == t;
  }

  lemma MovesOn(link: Link, next: Link, move: Move)
    requires Served(Holding(link))
    requires CanMove(Instance(1, ROW, link), move) && Moved(Instance(1, ROW, link), move) == next
    ensures Served(Holding(next))
  {
    hide Served, CanMove, Moved, CanOperate, Operated, Ledger.Import, Ledger.Complete, Ledger.After;
    var s := Holding(link);
    assert InstanceAt(s, 1) == Instance(1, ROW, link);
    assert s.links[1 := next] == map[1 := next];
    Goes(s, Holding(next), LinkStep(1, move));
  }

  lemma OperatorMovesOn(s: Operator.State, t: Operator.State, step: Operator.Step)
    requires Served(Holding(Under(s))) && Passes.Leads(s, t, step) && Undisturbed(Under(s), step)
    ensures Served(Holding(Under(t)))
  {
    hide Served, CanMove, Moved, Undisturbed, Ledger.Import, Ledger.Complete, Ledger.After, Operator.Enabled,
         Operator.After;
    var a := Holding(Under(s));
    assert InstanceAt(a, 1) == Instance(1, ROW, Under(s));
    assert a.links[1 := Under(t)] == map[1 := Under(t)];
    Goes(a, Holding(Under(t)), OperatorStep(1, step));
  }

  // ---- the order ----

  lemma QuotaAllows()
    ensures Ledger.CheckQuota(CONFIG, map[], 5, Ledger.NewReserve(INPUT), true).None?
  {
    assert forall r :: Ledger.Usage(map[], Some(5), r) == 0 && Ledger.Usage(map[], None, r) == 0;
    assert Ledger.Instances(map[]) == 0;
  }

  lemma RowIsCreated()
    ensures Ledger.Create(CONFIG, Ledger.EMPTY, INPUT, 1, 0).books == BooksOf(ROW)
  {
    hide Ledger.CheckQuota;
    QuotaAllows();
  }

  lemma Creates()
    ensures Served(Holding(NEW_LINK))
  {
    hide Served, Ledger.Create, CanMove, Moved, CanOperate, Operated;
    StartIsServed();
    RowIsCreated();
    var step := UserActs(Ledger.CreateOp(INPUT, 1), 0);
    assert Stepped(CONFIG, START, step) == Holding(NEW_LINK);
    Goes(START, Holding(NEW_LINK), step);
  }

  lemma StartIsServed()
    ensures Served(START)
  {
    assert IsRun(CONFIG, [START]);
  }

  // ---- the delivery ----

  lemma Delivers()
    ensures Served(Holding(Delivered()))
  {
    hide Served;
    Creates();
    var reading := NEW_LINK.(courier := EnsuringNamespace(RECORD));
    MovesOn(NEW_LINK, reading, RowRead);
    MovesOn(reading, Ensured(), NamespaceEnsured(7));
    MovesOn(Ensured(), Bound(), NamespaceBound);
    var preparing := Bound().(courier := PreparingSecret(RECORD, None));
    MovesOn(Bound(), preparing, ResourceRead);
    var writing := Bound().(secret := {1}, courier := WritingResource(RECORD, None));
    MovesOn(preparing, writing, SecretPrepared);
    MovesOn(writing, Written(), ResourceWritten(8));
    MovesOn(Written(), Delivered(), ResourceBound);
  }

  lemma Accepts()
    ensures Served(Holding(Under(Begun())))
  {
    hide Served;
    Delivers();
    assert Contract.FirstAccepted(SPEC) == Contract.Candidate(ACCEPTED);
    MovesOn(Delivered(), Under(Begun()), FirstAcceptance);
  }

  // ---- the operator ----

  lemma Prepares()
    ensures Served(Holding(Under(Looked())))
  {
    hide Served, Passes.Leads;
    Accepts();
    Begins();
    var reading := Begun().(at := Operator.AtWorkload);
    OperatorMovesOn(Begun(), reading, Operator.Look(Operator.SpecRead(SPEC)));
    MakesPod();
    OperatorMovesOn(reading, PodMade(), Operator.Look(Operator.PodCreated(0)));
    var inspecting := PodMade().(at := Operator.AtInspection);
    OperatorMovesOn(PodMade(), inspecting, Operator.Look(Operator.WorkloadDone));
    StartsProcess();
    OperatorMovesOn(inspecting, Started(), Operator.World(Operator.ProcessStarts(0, ID, 1)));
    InspectsProcess();
    OperatorMovesOn(Started(), Looked(),
                    Operator.Look(Operator.Inspected(0, Operator.Answer(None, true, false, false))));
  }

  lemma Operates(a: Operator.PassPoint, b: Operator.PassPoint, operation: Operator.Operation)
    requires Served(Holding(Under(Looked().(at := a))))
    requires Passes.Leads(Looked().(at := a), Looked().(at := b), Operator.Operate(operation))
    ensures Served(Holding(Under(Looked().(at := b))))
  {
    hide Served, Passes.Leads;
    OperatorMovesOn(Looked().(at := a), Looked().(at := b), Operator.Operate(operation));
  }

  lemma Works()
    ensures Served(Holding(Under(Admitted())))
  {
    hide Served, Passes.Leads;
    Prepares();
    PassesOn();
    var fencing := Looked().(at := Operator.AtManualFencing);
    OperatorMovesOn(Looked(), fencing, Operator.Look(Operator.InspectionDone));
    OperatorMovesOn(fencing, Looked().(at := Operator.AtFailover), Operator.Look(Operator.ManualFencingDone));
    HasNoFailover();
    Operates(Operator.AtFailover, Operator.AtRotation, Operator.FailoverStep(Passes.ALL_ANSWERED, 0));
    HasNoRotation();
    Operates(Operator.AtRotation, Operator.AtRollout, Operator.RotationDone);
    HasNoRollout();
    Operates(Operator.AtRollout, Operator.AtInitialPrimary, Operator.RolloutStep(false));
    HasNoTopology();
    Operates(Operator.AtInitialPrimary, Operator.AtReplicaAdmission,
             Operator.InitialPrimaryStep(Passes.ALL_ANSWERED));
    HasNoReplicas();
    Operates(Operator.AtReplicaAdmission, Operator.AtAppAdmission,
             Operator.ReplicaAdmissionStep(Passes.ALL_ANSWERED, false));
    AdmitsClients();
    OperatorMovesOn(Looked().(at := Operator.AtAppAdmission), Admitted(),
                    Operator.Operate(Operator.AppAdmissionStep(Passes.ALL_ANSWERED, true)));
  }

  // ---- the import ----

  function Reporting(): Link {
    Under(Admitted()).(observation := Some(SeenOf(Admitted().status, 1)))
  }

  function Confirmed(): Service {
    Service(BooksOf(Ledger.Imported(ROW, SeenOf(Admitted().status, 1))).(clock := 1), map[1 := Under(Admitted())])
  }

  lemma Imports()
    ensures Served(Confirmed())
  {
    hide Served, CanStep, Stepped, Ledger.Imported, Ledger.ImportAllowed, InstanceAt;
    Works();
    assert Presentable(Admitted().status, SPEC);
    MovesOn(Under(Admitted()), Reporting(), StatusRead(1));
    ImportConfirms();
    Goes(Holding(Reporting()), Confirmed(), ImportStep(1, 1));
  }

  lemma ImportConfirms()
    ensures
      var s := Holding(Reporting());
      CanStep(s, ImportStep(1, 1)) && Stepped(CONFIG, s, ImportStep(1, 1)) == Confirmed()
  {
    hide CanMove, Moved, CanOperate, Operated;
    var seen := SeenOf(Admitted().status, 1);
    assert Ledger.ImportAllowed(ROW, seen);
    assert map[1 := ROW][1 := Ledger.Imported(ROW, seen)] == map[1 := Ledger.Imported(ROW, seen)];
    assert Holding(Reporting()).links[1 := Under(Admitted())] == map[1 := Under(Admitted())];
  }

  /** There is a run of the service that brings a row into force. */
  lemma AnInstanceComesIntoForce() returns (run: seq<Service>)
    ensures IsRun(CONFIG, run) && Has(run[|run| - 1], 1)
    ensures
      var i := InstanceAt(run[|run| - 1], 1);
      Agreement.InForce(i.row, i.link) && i.row.observed == i.row.desired && i.row.applied == i.row.size
  {
    Imports();
    run :| IsRun(CONFIG, run) && run[|run| - 1] == Confirmed();
    ConfirmedIsInForce();
  }

  lemma ConfirmedIsInForce()
    ensures
      var i := InstanceAt(Confirmed(), 1);
      Agreement.InForce(i.row, i.link) && i.row.observed == i.row.desired && i.row.applied == i.row.size
  {
  }
}
