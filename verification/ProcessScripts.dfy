/**
 The scripts the operator runs over an open session, command after command (app_admission.go:481-554,
 topology.go:136-283, credential_rotation.go:216-253).  A script stops at the first command that is not
 answered; what it leaves behind, and what it reports, is exactly what Session computes.
 */
module ProcessScripts {
  import opened OperatorTypes
  import Options
  import S = Session

  /** A process as the session of one script sees it; `deliveries` decides what becomes of each command. */
  class ScriptSession {
    var proc: S.Proc
    const deliveries: S.Deliveries

    constructor (proc: S.Proc, deliveries: S.Deliveries)
      ensures this.proc == proc && this.deliveries == deliveries
    {
      this.proc, this.deliveries := proc, deliveries;
    }

    /** Session.TakeControl: authenticate, drop every other operator connection, read the state. */
    method TakeControl(i: nat) returns (ok: bool)
      modifies this
      ensures S.Reply(proc, ok) == S.TakeControl(old(proc), S.At(deliveries, i))
    {
      var delivery := S.At(deliveries, i);
      if delivery.Answered? || delivery.ReplyLost? {
        proc := proc.(pending := Options.None);
      }
      ok := delivery.Answered?;
    }

    method Send(command: S.Command, i: nat) returns (ok: bool)
      modifies this
      ensures S.Reply(proc, ok) == S.Send(old(proc), command, S.At(deliveries, i))
    {
      match S.At(deliveries, i)
      case Answered =>
        proc := S.Execute(proc, command);
        ok := true;
      case ReplyLost =>
        proc := S.Execute(proc, command);
        ok := false;
      case InFlight =>
        proc := proc.(pending := Options.Some(command));
        ok := false;
      case NotSent =>
        ok := false;
    }

    /** The part of updateAppAccess that closes access before another hash is installed. */
    method CloseAccess(version: int) returns (ok: bool)
      modifies this
      ensures S.Reply(proc, ok) == S.CloseAccess(old(proc), version, deliveries)
    {
      ok := Send(S.SetApp(false, version), 1);
      if !ok {
        return;
      }
      ok := Send(S.KillApp, 2);
      if !ok {
        return;
      }
      ok := TakeControl(3);
      ok := ok && !proc.appOn && proc.version == version;
    }

    /** updateAppAccess. */
    method UpdateAppAccess(enabled: bool, version: int) returns (ok: bool)
      modifies this
      ensures S.Reply(proc, ok) == S.UpdateAppAccess(old(proc), enabled, version, deliveries)
    {
      hide S.Send, S.TakeControl, S.CloseAccess;
      ok := TakeControl(0);
      if !ok {
        return;
      }
      if proc.appOn == enabled && proc.version == version {
        if !enabled {
          ok := Send(S.KillApp, 1);
        }
        return;
      }
      if enabled && proc.version != version {
        ok := CloseAccess(version);
        if !ok {
          return;
        }
      }
      ok := Send(S.SetApp(enabled, version), 4);
      if !ok {
        return;
      }
      if !enabled {
        ok := Send(S.KillApp, 5);
        if !ok {
          return;
        }
      }
      ok := TakeControl(6);
      ok := ok && proc.appOn == enabled && proc.version == version;
    }

    /** promoteProcess. */
    method Promote() returns (ok: bool)
      modifies this
      ensures S.Reply(proc, ok) == S.PromoteProcess(old(proc), deliveries)
    {
      ok := TakeControl(0);
      if ok && proc.role == Replica {
        ok := Send(S.Promote, 1);
      }
    }

    /** followProcess. */
    method Follow(upstream: Uid) returns (ok: bool)
      modifies this
      ensures S.Reply(proc, ok) == S.FollowProcess(old(proc), upstream, deliveries)
    {
      ok := TakeControl(0);
      if !ok || (proc.role == Replica && proc.upstream == upstream) || (proc.role == Primary && proc.appOn) {
        return;
      }
      ok := Send(S.Follow(upstream), 1);
    }

    /** rotateProcessPassword. */
    method RotatePassword(version: int) returns (ok: bool)
      modifies this
      ensures S.Reply(proc, ok) == S.RotatePassword(old(proc), version, deliveries)
    {
      hide S.Send, S.TakeControl;
      ok := TakeControl(0);
      if !ok {
        return;
      }
      var enabled := proc.appOn;
      ok := Send(S.RotateApp(version), 1);
      if !ok {
        return;
      }
      ok := Send(S.KillApp, 2);
      if !ok {
        return;
      }
      ok := TakeControl(3);
      ok := ok && proc.appOn == enabled;
    }
  }
}
