/**
 The failure detector of one process (process_health.go).  Times are in nanoseconds; those in the status are
 kept in whole seconds, as the stored form of metav1.Time has no more, and are compared with exact ones.
 */
module Health {
  import opened Options
  import opened OperatorTypes

  const SECOND: int := 1_000_000_000
  /** What a stored time is read back as. */
  function Stored(at: Time): (r: Time)
    ensures at - SECOND < r <= at && r % SECOND == 0
  {
    at - at % SECOND
  }

  const PRIMARY_FAILURE_THRESHOLD: nat := 3
  const PRIMARY_FAILURE_MIN_DURATION: int := 10 * SECOND
  const SCRIPT_BUSY_TIMEOUT: int := 30 * SECOND
  const PROCESS_UNRESPONSIVE_TIMEOUT: int := 60 * SECOND
  const EMPTY_PRIMARY_TIMEOUT: int := 120 * SECOND

  datatype Thresholds = Thresholds(
    transportFailure: bool, busyIntervention: bool, unresponsive: bool, emptyPrimary: bool)

  predicate Elapsed(since: Option<Time>, now: Time, duration: int) {
    since.Some? && now >= since.value && now - since.value >= duration
  }

  function NextObservation(previous: Option<Observation>, kind: ObservationKind, at: Time): Observation {
    var now := Stored(at);
    match kind
    case TransportError =>
      if previous.Some? && previous.value.kind == kind && previous.value.errorSince.Some? then
        Observation(kind, now, previous.value.errors + 1, previous.value.errorSince, None)
      else
        Observation(kind, now, 1, Some(now), None)
    case Busy =>
      if previous.Some? && previous.value.kind == kind && previous.value.busySince.Some? then
        Observation(kind, now, 0, None, previous.value.busySince)
      else
        Observation(kind, now, 0, None, Some(now))
    case _ => Observation(kind, now, 0, None, None)
  }

  function ProcessThresholds(observation: Option<Observation>, emptySince: Option<Time>, now: Time): Thresholds {
    var empty := Elapsed(emptySince, now, EMPTY_PRIMARY_TIMEOUT);
    match observation
    case None => Thresholds(false, false, false, empty)
    case Some(o) =>
      if o.kind == TransportError then
        Thresholds(
          o.errors >= PRIMARY_FAILURE_THRESHOLD && Elapsed(o.errorSince, now, PRIMARY_FAILURE_MIN_DURATION),
          false,
          o.errors >= PRIMARY_FAILURE_THRESHOLD && Elapsed(o.errorSince, now, PROCESS_UNRESPONSIVE_TIMEOUT),
          empty)
      else if o.kind == Busy then
        Thresholds(false, Elapsed(o.busySince, now, SCRIPT_BUSY_TIMEOUT), false, empty)
      else
        Thresholds(false, false, false, empty)
  }

  /** What an error is counted on top of: an observation older than this operator's start is forgotten. */
  function Retained(previous: Option<Observation>, startedAt: Time): Option<Observation> {
    if previous.Some? && previous.value.observedAt < startedAt then None else previous
  }

  // ---- the detector against the history of one process ----

  /** One inspection of the process, or a restart of the operator. */
  datatype Event = Answer(at: Time) | Error(kind: ObservationKind, at: Time) | Restart(at: Time)

  datatype Detector = Detector(observation: Option<Observation>, startedAt: Time)

  function Observe(d: Detector, e: Event): Detector {
    match e
    case Answer(_) => d.(observation := None)
    case Error(kind, at) => d.(observation := Some(NextObservation(Retained(d.observation, d.startedAt), kind, at)))
    case Restart(at) => d.(startedAt := at)
  }

  function Replay(history: seq<Event>): Detector {
    if history == [] then Detector(None, 0)
    else Observe(Replay(history[..|history| - 1]), history[|history| - 1])
  }

  /** Inspections happen at or after the operator's start, and no restart coincides with an inspection. */
  ghost predicate Chronological(history: seq<Event>) {
    && (forall i :: 0 <= i < |history| ==> history[i].at > 0)
    && (forall i, j :: 0 <= i < j < |history| ==> history[i].at <= history[j].at)
    && (forall i, j :: 0 <= i < j < |history| && history[j].Restart? ==> history[i].at < history[j].at)
  }

  /** Events from `from` on are errors of one kind: an unbroken run. */
  ghost predicate RunFrom(history: seq<Event>, from: nat, kind: ObservationKind) {
    from <= |history| && forall i :: from <= i < |history| ==> history[i].Error? && history[i].kind == kind
  }

  /** When the operator was last started. */
  function LastRestart(history: seq<Event>): Time {
    if history == [] then 0
    else if history[|history| - 1].Restart? then history[|history| - 1].at
    else LastRestart(history[..|history| - 1])
  }

  /**
   The part of such a run that is counted.  An error stored before the operator was started is forgotten,
   so errors of the second in which it was started do not count once another one follows.
   */
  ghost predicate CountedRun(history: seq<Event>, from: nat, kind: ObservationKind) {
    && from < |history| && RunFrom(history, from, kind)
    && (forall i :: from <= i < |history| - 1 ==> Stored(history[i].at) >= LastRestart(history))
    && (from == 0 || !RunFrom(history, from - 1, kind) || Stored(history[from - 1].at) < LastRestart(history))
  }

  lemma {:induction false} ReplayKeepsStart(history: seq<Event>)
    ensures Replay(history).startedAt == LastRestart(history)
  {
    if history != [] { ReplayKeepsStart(history[..|history| - 1]); }
  }

  lemma {:induction false} StartedAtIsPast(history: seq<Event>)
    requires Chronological(history)
    ensures Replay(history).startedAt <= (if history == [] then 0 else history[|history| - 1].at)
    ensures Replay(history).observation.Some? ==>
      history != [] && Replay(history).observation.value.observedAt <= history[|history| - 1].at
  {
    if history != [] {
      var before := history[..|history| - 1];
      StartedAtIsPast(before);
      if before != [] { assert before[|before| - 1] == history[|before| - 1]; }
    }
  }

  /** Without its last error a counted run is still one, unless it was that error alone. */
  lemma CountedBefore(history: seq<Event>, from: nat, kind: ObservationKind)
    requires CountedRun(history, from, kind) && from < |history| - 1
    ensures CountedRun(history[..|history| - 1], from, kind)
    ensures LastRestart(history[..|history| - 1]) == LastRestart(history)
  {
    var before := history[..|history| - 1];
    assert history[|history| - 1].Error?;
    if from > 0 && RunFrom(before, from - 1, kind) { assert RunFrom(history, from - 1, kind); }
  }

  /** What the last error of a counted run is counted on top of. */
  lemma {:induction false} FirstOfRunForgets(history: seq<Event>, kind: ObservationKind)
    requires Chronological(history) && |history| > 1 && CountedRun(history, |history| - 1, kind)
    ensures
      var d := Replay(history[..|history| - 1]);
      var kept := Retained(d.observation, d.startedAt);
      kept.None? || kept.value.kind != kind
  {
    var last := |history| - 1;
    var before := history[..last];
    var earlier := before[..last - 1];
    assert Replay(before) == Observe(Replay(earlier), history[last - 1]);
    StartedAtIsPast(earlier);
    ReplayKeepsStart(before);
    assert history[last].Error? && history[..last] == before;
    if earlier != [] { assert earlier[|earlier| - 1] == history[last - 2]; }
  }

  /**
   The stored counter and since-time are exactly the length and the first time, in whole seconds, of the
   counted run of transport errors, so the detector decides on the history and not on what it happens to
   remember.
   */
  lemma {:induction false} CounterIsCountedRun(history: seq<Event>, from: nat)
    requires Chronological(history) && CountedRun(history, from, TransportError)
    ensures
      var o := Replay(history).observation;
      o.Some? && o.value.kind == TransportError &&
      o.value.errors == |history| - from && o.value.errorSince == Some(Stored(history[from].at)) &&
      o.value.observedAt == Stored(history[|history| - 1].at)
    decreases |history|
  {
    var last := |history| - 1;
    var before := history[..last];
    assert Replay(history) == Observe(Replay(before), history[last]);
    if from < last {
      CountedBefore(history, from, TransportError);
      CounterIsCountedRun(before, from);
      ReplayKeepsStart(before);
      assert before[|before| - 1] == history[last - 1];
    } else if last > 0 {
      FirstOfRunForgets(history, TransportError);
    }
  }

  lemma {:induction false} BusySinceIsCountedRun(history: seq<Event>, from: nat)
    requires Chronological(history) && CountedRun(history, from, Busy)
    ensures
      var o := Replay(history).observation;
      o.Some? && o.value.kind == Busy && o.value.busySince == Some(Stored(history[from].at)) &&
      o.value.observedAt == Stored(history[|history| - 1].at)
    decreases |history|
  {
    var last := |history| - 1;
    var before := history[..last];
    assert Replay(history) == Observe(Replay(before), history[last]);
    if from < last {
      CountedBefore(history, from, Busy);
      BusySinceIsCountedRun(before, from);
      ReplayKeepsStart(before);
      assert before[|before| - 1] == history[last - 1];
    } else if last > 0 {
      FirstOfRunForgets(history, Busy);
    }
  }

  /** The history ends in at least `count` counted errors, the first stored at least `duration` before `now`. */
  ghost predicate LongRun(history: seq<Event>, kind: ObservationKind, count: nat, now: Time, duration: int) {
    exists from: nat :: CountedRun(history, from, kind) &&
      |history| - from >= count && now - Stored(history[from].at) >= duration
  }

  /**
   After an inspection, a primary is declared failed exactly when the history says so, and likewise for
   the longer limit after which the process itself is replaced and for the limit of a busy script.
   */
  lemma {:induction false} ThresholdsDecideOnHistory(history: seq<Event>, now: Time)
    requires Chronological(history) && history != [] && !history[|history| - 1].Restart?
    requires history[|history| - 1].at <= now
    ensures
      var t := ProcessThresholds(Replay(history).observation, None, now);
      && (t.transportFailure <==>
          LongRun(history, TransportError, PRIMARY_FAILURE_THRESHOLD, now, PRIMARY_FAILURE_MIN_DURATION))
      && (t.unresponsive <==>
          LongRun(history, TransportError, PRIMARY_FAILURE_THRESHOLD, now, PROCESS_UNRESPONSIVE_TIMEOUT))
      && (t.busyIntervention <==> LongRun(history, Busy, 1, now, SCRIPT_BUSY_TIMEOUT))
  {
    var e := history[|history| - 1];
    assert Replay(history) == Observe(Replay(history[..|history| - 1]), e);
    forall from: nat | CountedRun(history, from, TransportError) ensures e.Error? && e.kind == TransportError {
      CounterIsCountedRun(history, from);
    }
    forall from: nat | CountedRun(history, from, Busy) ensures e.Error? && e.kind == Busy {
      BusySinceIsCountedRun(history, from);
    }
    if e.Error? {
      var from := LongestRun(history, e.kind);
      forall other: nat | CountedRun(history, other, e.kind) ensures other == from {
        RunStartIsUnique(history, other, from, e.kind);
      }
      if e.kind == TransportError { CounterIsCountedRun(history, from); }
      if e.kind == Busy { BusySinceIsCountedRun(history, from); }
    }
  }

  lemma {:induction false} LongestRun(history: seq<Event>, kind: ObservationKind) returns (from: nat)
    requires history != [] && history[|history| - 1].Error? && history[|history| - 1].kind == kind
    ensures CountedRun(history, from, kind)
  {
    from := |history| - 1;
    while from > 0 && history[from - 1].Error? && history[from - 1].kind == kind
      && Stored(history[from - 1].at) >= LastRestart(history)
      invariant from < |history| && RunFrom(history, from, kind)
      invariant forall i :: from <= i < |history| - 1 ==> Stored(history[i].at) >= LastRestart(history)
    {
      from := from - 1;
    }
  }

  lemma RunStartIsUnique(history: seq<Event>, a: nat, b: nat, kind: ObservationKind)
    requires CountedRun(history, a, kind) && CountedRun(history, b, kind)
    ensures a == b
  {
    if a < b { assert RunFrom(history, b - 1, kind); }
    if b < a { assert RunFrom(history, a - 1, kind); }
  }

  // ---- whole seconds and the ones between ----

  /** The longest run of errors of this kind at the end of the history, whatever is stored about it. */
  ghost predicate TrailingRun(history: seq<Event>, from: nat, kind: ObservationKind) {
    from < |history| && RunFrom(history, from, kind) && (from == 0 || !RunFrom(history, from - 1, kind))
  }

  ghost predicate WholeSeconds(history: seq<Event>) {
    forall i :: 0 <= i < |history| ==> Stored(history[i].at) == history[i].at
  }

  /** The history ends in at least `count` errors of one kind, the first at least `duration` before `now`. */
  ghost predicate LongTrailingRun(history: seq<Event>, kind: ObservationKind, count: nat, now: Time, duration: int) {
    exists from: nat :: TrailingRun(history, from, kind) &&
      |history| - from >= count && now - history[from].at >= duration
  }

  lemma {:induction false} RestartIsBefore(history: seq<Event>, from: nat, kind: ObservationKind)
    requires Chronological(history) && from < |history| && RunFrom(history, from, kind)
    ensures LastRestart(history) <= history[from].at
    decreases |history|
  {
    var before := history[..|history| - 1];
    if from < |history| - 1 {
      RestartIsBefore(before, from, kind);
    } else {
      ReplayKeepsStart(before);
      StartedAtIsPast(before);
    }
  }

  /** When events fall on whole seconds, every error of the trailing run counts, from its own time on. */
  lemma WholeSecondsCountAll(history: seq<Event>, from: nat, kind: ObservationKind)
    requires Chronological(history) && WholeSeconds(history)
    ensures CountedRun(history, from, kind) <==> TrailingRun(history, from, kind)
  {
    if from < |history| && RunFrom(history, from, kind) {
      RestartIsBefore(history, from, kind);
      if from > 0 && RunFrom(history, from - 1, kind) { RestartIsBefore(history, from - 1, kind); }
    }
  }

  /** So the limits then hold to the nanosecond of `now`. */
  lemma ThresholdsAreExactOnWholeSeconds(history: seq<Event>, now: Time)
    requires Chronological(history) && WholeSeconds(history) && history != [] && !history[|history| - 1].Restart?
    requires history[|history| - 1].at <= now
    ensures
      var t := ProcessThresholds(Replay(history).observation, None, now);
      && (t.transportFailure <==>
          LongTrailingRun(history, TransportError, PRIMARY_FAILURE_THRESHOLD, now, PRIMARY_FAILURE_MIN_DURATION))
      && (t.unresponsive <==>
          LongTrailingRun(history, TransportError, PRIMARY_FAILURE_THRESHOLD, now, PROCESS_UNRESPONSIVE_TIMEOUT))
      && (t.busyIntervention <==> LongTrailingRun(history, Busy, 1, now, SCRIPT_BUSY_TIMEOUT))
  {
    ThresholdsDecideOnHistory(history, now);
    forall from: nat, kind ensures CountedRun(history, from, kind) <==> TrailingRun(history, from, kind) {
      WholeSecondsCountAll(history, from, kind);
    }
  }

  /** A long run that began at least a second after the last start. */
  ghost predicate MustCount(
    history: seq<Event>, from: nat, kind: ObservationKind, count: nat, now: Time, duration: int)
  {
    && TrailingRun(history, from, kind) && |history| - from >= count
    && now - history[from].at >= duration && history[from].at >= LastRestart(history) + SECOND
  }

  /**
   Otherwise the detector errs by less than a second: what it counts are errors of the trailing run, over less
   than a second less than the limit, ...
   */
  lemma EarlyByLessThanASecond(history: seq<Event>, kind: ObservationKind, count: nat, now: Time, duration: int)
    requires LongRun(history, kind, count, now, duration)
    ensures exists from: nat ::
      && from < |history| && RunFrom(history, from, kind)
      && |history| - from >= count && now - history[from].at > duration - SECOND
  {
    hide Stored;
    var from: nat :| CountedRun(history, from, kind) && |history| - from >= count &&
      now - Stored(history[from].at) >= duration;
    assert RunFrom(history, from, kind);
  }

  /** ... and it misses no run that began a second after the last start. */
  lemma LateOnlyAfterStart(
    history: seq<Event>, from: nat, kind: ObservationKind, count: nat, now: Time, duration: int)
    requires Chronological(history) && MustCount(history, from, kind, count, now, duration)
    ensures LongRun(history, kind, count, now, duration)
  {
    hide Stored, LastRestart;
    forall i | from <= i < |history| - 1 ensures Stored(history[i].at) >= LastRestart(history) {
      if i > from { assert history[from].at <= history[i].at; }
    }
    assert CountedRun(history, from, kind);
  }

  /** Two errors, the first in the second in which the operator was started: one is counted. */
  lemma FirstSecondIsForgotten()
    ensures
      var history := [Restart(104 * SECOND / 10), Error(TransportError, 109 * SECOND / 10),
                      Error(TransportError, 119 * SECOND / 10)];
      && Chronological(history) && TrailingRun(history, 1, TransportError)
      && Replay(history).observation.Some? && Replay(history).observation.value.errors == 1
  {
    var history := [Restart(104 * SECOND / 10), Error(TransportError, 109 * SECOND / 10),
                    Error(TransportError, 119 * SECOND / 10)];
    assert history[..2][..1][..0] == [] && LastRestart(history[..2]) == LastRestart(history[..1]) == history[0].at;
    assert CountedRun(history, 2, TransportError);
    CounterIsCountedRun(history, 2);
  }

  /** Three errors over 9.2 seconds: a failure for a limit of ten seconds. */
  lemma FailureIsDeclaredEarly()
    ensures
      var history := [Error(TransportError, 9 * SECOND / 10), Error(TransportError, 55 * SECOND / 10),
                      Error(TransportError, 101 * SECOND / 10)];
      var now := 101 * SECOND / 10;
      && Chronological(history) && TrailingRun(history, 0, TransportError)
      && now - history[0].at == 92 * SECOND / 10
      && ProcessThresholds(Replay(history).observation, None, now).transportFailure
  {
    var history := [Error(TransportError, 9 * SECOND / 10), Error(TransportError, 55 * SECOND / 10),
                    Error(TransportError, 101 * SECOND / 10)];
    assert history[..2][..1][..0] == [] && LastRestart(history[..2]) == LastRestart(history[..1]) == 0;
    assert CountedRun(history, 0, TransportError);
    CounterIsCountedRun(history, 0);
  }
}
