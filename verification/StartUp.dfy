/**
 A run of the model from the acceptance of a configuration to its confirmation: a single instance is started,
 its process is inspected, clients are admitted, and the generation is reported as observed.  So what is
 proved about runs is about runs that get somewhere.
 */
module StartUp {
  import opened Options
  import opened OperatorTypes
  import opened Operator
  import opened Passes
  import Session
  import Availability
  import Contract
  import SingleWriter

  const SIZE := Size(1, 1)
  const ACCEPTED := Accepted(1, 1, Single, SIZE, 1, 0, 1, 1)
  const SPEC := Spec(1, 1, Some(Single), SIZE, 1, Whitelist(0), 1, 1)
  const ID := Identity(1, 2, 3, 4, 5)
  const CLOSED := Session.Proc(ID, 0, true, Primary, false, 1, {}, 0, None)
  const SEEN := NodeStatus(0, ID, Primary, true, false, 1, None, None, None)

  function Begun(): State { Initial(ACCEPTED) }

  function PodMade(): State {
    Begun().(at := AtWorkload, pods := map[0 := Pod(1, SIZE, false, true)], nextUid := 2)
  }

  function Started(): State { PodMade().(at := AtInspection, world := map[1 := CLOSED]) }

  function Looked(): State {
    Started().(status := Started().status.(nodes := map[0 := SEEN]), seen := {0})
  }

  function Admitted(): State {
    var s := Looked();
    s.(at := Idle, seen := {}, world := map[1 := CLOSED.(appOn := true)],
       status := s.status.(
         phase := Running, initialized := true, publicReady := true, observedGeneration := 1,
         appliedPasswordVersion := 1, applied := Some(Applied(Single, SIZE)), primaryOrdinal := Some(0),
         primaryId := ID, nodes := map[0 := SEEN.(appEnabled := true)]))
  }

  lemma Begins()
    ensures Starts(Begun(), SPEC)
    ensures Leads(Begun(), Begun().(at := AtWorkload), Look(SpecRead(SPEC)))
  {
    assert Contract.Unchanged(SPEC, ACCEPTED);
  }

  lemma MakesPod()
    ensures Leads(Begun().(at := AtWorkload), PodMade(), Look(PodCreated(0)))
    ensures Leads(PodMade(), PodMade().(at := AtInspection), Look(WorkloadDone))
  {
  }

  lemma StartsProcess()
    ensures Leads(PodMade().(at := AtInspection), Started(), World(ProcessStarts(0, ID, 1)))
  {
  }

  lemma InspectsProcess()
    ensures Leads(Started(), Looked(), Look(Inspected(0, Answer(None, true, false, false))))
  {
    assert ContainerOf(Started(), 0) == ID;
  }

  lemma PassesOn()
    ensures Leads(Looked(), Looked().(at := AtManualFencing), Look(InspectionDone))
    ensures Leads(Looked().(at := AtManualFencing), Looked().(at := AtFailover), Look(ManualFencingDone))
  {
  }

  lemma HasNoFailover()
    ensures Leads(Looked().(at := AtFailover), Looked().(at := AtRotation), Operate(FailoverStep(ALL_ANSWERED, 0)))
  {
    hide CanHappen, CanWatch, CanRemove, Happen, AfterWatch, AfterRemoval, AfterRequest, Session.UpdateAppAccess;
  }

  lemma HasNoRotation()
    ensures Leads(Looked().(at := AtRotation), Looked().(at := AtRollout), Operate(RotationDone))
  {
    hide CanHappen, CanWatch, CanRemove, Happen, AfterWatch, AfterRemoval, AfterRequest;
  }

  lemma HasNoRollout()
    ensures Leads(Looked().(at := AtRollout), Looked().(at := AtInitialPrimary), Operate(RolloutStep(false)))
  {
    hide CanHappen, CanWatch, CanRemove, Happen, AfterWatch, AfterRemoval, AfterRequest, RolloutStatus, Facts;
  }

  lemma HasNoTopology()
    ensures Leads(Looked().(at := AtInitialPrimary), Looked().(at := AtReplicaAdmission),
                  Operate(InitialPrimaryStep(ALL_ANSWERED)))
  {
    hide CanHappen, CanWatch, CanRemove, Happen, AfterWatch, AfterRemoval, AfterRequest, Session.PromoteProcess;
  }

  lemma HasNoReplicas()
    ensures Leads(Looked().(at := AtReplicaAdmission), Looked().(at := AtAppAdmission),
                  Operate(ReplicaAdmissionStep(ALL_ANSWERED, false)))
  {
    hide CanHappen, CanWatch, CanRemove, Happen, AfterWatch, AfterRemoval, AfterRequest, Session.UpdateAppAccess;
  }

  lemma OpensProcess()
    ensures
      var s := Looked().(at := AtAppAdmission);
      && Real(s, ID) && PrimaryToOpen(s) == Some(SEEN)
      && Open(s, ID, ALL_ANSWERED) == Session.Reply(CLOSED.(appOn := true), true)
  {
    assert ALL_ANSWERED[0] == ALL_ANSWERED[4] == ALL_ANSWERED[6] == Session.Answered;
  }

  lemma FinishesAdmission()
    ensures Availability.FinishAppAdmission(Looked().status, SEEN) == Admitted().status
  {
    var noted := Looked().status.(
      initialized := true, publicReady := true, primaryOrdinal := Some(0), primaryId := ID,
      nodes := Availability.Admit(Looked().status, SEEN), appliedPasswordVersion := 1,
      applied := Some(Applied(Single, SIZE)));
    assert noted.nodes == map[0 := SEEN.(appEnabled := true)];
    assert Availability.PrimaryPubliclyReady(noted);
  }

  lemma OpensAndFinishes()
    ensures ReconcileAppAdmission(Looked().(at := AtAppAdmission), ALL_ANSWERED, true) == Admitted()
  {
    hide Open, Availability.FinishAppAdmission, Availability.AdmissionPending, PrimaryAdmissible;
    OpensProcess();
    FinishesAdmission();
    assert Put(Looked().(at := AtAppAdmission), ID, CLOSED.(appOn := true)) == Admitted().world;
  }

  lemma AdmitsClients()
    ensures Leads(Looked().(at := AtAppAdmission), Admitted(), Operate(AppAdmissionStep(ALL_ANSWERED, true)))
  {
    hide CanHappen, CanWatch, CanRemove, Happen, AfterWatch, AfterRemoval, AfterRequest, ReconcileAppAdmission;
    OpensAndFinishes();
  }

  /** Some run ends with the accepted generation observed, and one process open to clients. */
  lemma AnInstanceStarts()
    ensures Reached(Admitted())
    ensures
      var s := Admitted();
      && s.status.phase == Running && s.status.observedGeneration == s.status.accepted.generation
      && 1 in s.world && SingleWriter.Writer(s.world[1])
  {
    hide Reached, Leads;
    Begins();
    Begin(Begun(), SPEC);
    Go(Begun(), Begun().(at := AtWorkload), Look(SpecRead(SPEC)));
    MakesPod();
    Go(Begun().(at := AtWorkload), PodMade(), Look(PodCreated(0)));
    Go(PodMade(), PodMade().(at := AtInspection), Look(WorkloadDone));
    StartsProcess();
    Go(PodMade().(at := AtInspection), Started(), World(ProcessStarts(0, ID, 1)));
    InspectsProcess();
    Go(Started(), Looked(), Look(Inspected(0, Answer(None, true, false, false))));
    ComesToAdmission();
    AdmitsClients();
    Go(Looked().(at := AtAppAdmission), Admitted(), Operate(AppAdmissionStep(ALL_ANSWERED, true)));
  }

  lemma ComesToAdmission()
    requires Reached(Looked())
    ensures Reached(Looked().(at := AtAppAdmission))
  {
    hide Reached, Leads;
    PassesOn();
    Go(Looked(), Looked().(at := AtManualFencing), Look(InspectionDone));
    Go(Looked().(at := AtManualFencing), Looked().(at := AtFailover), Look(ManualFencingDone));
    HasNoFailover();
    Go(Looked().(at := AtFailover), Looked().(at := AtRotation), Operate(FailoverStep(ALL_ANSWERED, 0)));
    HasNoRotation();
    Go(Looked().(at := AtRotation), Looked().(at := AtRollout), Operate(RotationDone));
    HasNoRollout();
    Go(Looked().(at := AtRollout), Looked().(at := AtInitialPrimary), Operate(RolloutStep(false)));
    HasNoTopology();
    Go(Looked().(at := AtInitialPrimary), Looked().(at := AtReplicaAdmission),
       Operate(InitialPrimaryStep(ALL_ANSWERED)));
    HasNoReplicas();
    Go(Looked().(at := AtReplicaAdmission), Looked().(at := AtAppAdmission),
       Operate(ReplicaAdmissionStep(ALL_ANSWERED, false)));
  }
}
