/** The one operation slot of the asset manager: which download, validation or removal is
    active, and whose cancellation was accepted. Every method is one critical section, so
    an interleaving of threads is a sequence of calls, each of which keeps `Valid`. */
module AssetOperations {
  import opened Options

  datatype Kind = Download | Validation | Removal

  datatype Active = Active(id: nat, kind: Kind, canCancel: bool)

  /** What the published status says of the installation. */
  datatype Standing = Incomplete | Complete | OtherRevision | NotOwned

  datatype Begun = Started(id: nat) | Joined(id: nat) | Busy | AlreadyComplete | NotAllowed

  class Operations {
    var active: Option<Active>
    var nextId: nat
    var recoveryRequired: bool
    /** The operations whose cancellation token is set. */
    var cancelled: set<nat>

    /** What has been promised: Ready was published for these, these removals may unlink. */
    ghost var readied: set<nat>
    ghost var committed: set<nat>

    /** An operation whose cancellation was accepted was never let through, and no
        operation that was let through can still be cancelled. */
    ghost predicate Valid()
      reads this
    {
      && cancelled !! readied
      && cancelled !! committed
      && (forall id :: id in cancelled ==> id < nextId)
      && (forall id :: id in readied ==> id < nextId)
      && (forall id :: id in committed ==> id < nextId)
      && (active.Some? ==>
            && active.value.id < nextId
            && active.value.id !in readied
            && (active.value.id in committed ==> !active.value.canCancel))
    }

    constructor ()
      ensures Valid() && active == None && cancelled == {} && readied == {} && committed == {}
    {
      active, nextId, recoveryRequired, cancelled := None, 1, false, {};
      readied, committed := {}, {};
    }

    method BeginDownload(standing: Standing) returns (r: Begun)
      requires Valid()
      modifies `active, `nextId
      ensures Valid()
      ensures r.Started? <==> old(active) == None && standing.Incomplete?
      ensures r.Started? ==>
          active == Some(Active(r.id, Download, true)) && r.id !in cancelled && r.id !in readied && r.id !in committed
      ensures !r.Started? ==> active == old(active) && nextId == old(nextId)
      ensures r.Started? ==> r.id == old(nextId) && nextId == r.id + 1
      ensures r.AlreadyComplete? <==> old(active) == None && standing.Complete?
      ensures r.NotAllowed? <==> old(active) == None && (standing.OtherRevision? || standing.NotOwned?)
      ensures r.Joined? <==> old(active).Some? && old(active).value.kind == Download
      ensures r.Joined? ==> r.id == old(active).value.id
      ensures r.Busy? <==> old(active).Some? && old(active).value.kind != Download
    {
      if active.Some? {
        return if active.value.kind == Download then Joined(active.value.id) else Busy;
      }
      if standing.Complete? { return AlreadyComplete; }
      if standing.OtherRevision? || standing.NotOwned? { return NotAllowed; }
      r := Started(nextId);
      active := Some(Active(nextId, Download, true));
      nextId := nextId + 1;
    }

    method BeginRemoval() returns (r: Begun)
      requires Valid()
      modifies `active, `nextId
      ensures Valid()
      ensures r.Started? <==> old(active) == None
      ensures r.Started? ==>
          active == Some(Active(r.id, Removal, true)) && r.id !in cancelled && r.id !in readied && r.id !in committed
      ensures r.Started? ==> r.id == old(nextId) && nextId == r.id + 1
      ensures !r.Started? ==> r.Busy? && active == old(active) && nextId == old(nextId)
    {
      if active.Some? { return Busy; }
      r := Started(nextId);
      active := Some(Active(nextId, Removal, true));
      nextId := nextId + 1;
    }

    /** Takes the slot over whatever was in it. */
    method StartBackgroundValidation() returns (id: nat)
      requires Valid()
      modifies `active, `nextId
      ensures Valid()
      ensures active == Some(Active(id, Validation, true)) && id !in cancelled && id !in readied && id !in committed
      ensures id == old(nextId) && nextId == id + 1
    {
      id := nextId;
      active := Some(Active(id, Validation, true));
      nextId := nextId + 1;
    }

    /** True exactly when the active operation may still be cancelled; its token is then set. */
    method CancelDownload() returns (accepted: bool)
      requires Valid()
      modifies `cancelled
      ensures Valid()
      ensures accepted <==> active.Some? && active.value.canCancel
      ensures cancelled == if accepted then old(cancelled) + {active.value.id} else old(cancelled)
    {
      accepted := active.Some? && active.value.canCancel;
      if accepted {
        cancelled := cancelled + {active.value.id};
      }
    }

    /** Past this point the removal may unlink; it can no longer be cancelled. */
    method CommitRemoval(id: nat) returns (ok: bool)
      requires Valid()
      modifies `active, `committed
      ensures Valid()
      ensures ok ==> id !in cancelled && id in committed
      ensures ok <==>
          old(active).Some? && old(active).value.id == id && old(active).value.kind == Removal && id !in cancelled
      ensures committed == if ok then old(committed) + {id} else old(committed)
      ensures ok ==> active == Some(Active(id, Removal, false))
      ensures !ok ==> active == old(active)
    {
      ok := active.Some? && active.value.id == id && active.value.kind == Removal && id !in cancelled;
      if ok {
        active := Some(active.value.(canCancel := false));
        committed := committed + {id};
      }
    }

    method PublishReady(id: nat) returns (ok: bool)
      requires Valid()
      modifies `active, `readied
      ensures Valid()
      ensures ok <==> id !in cancelled && old(active).Some? && old(active).value.id == id
      ensures ok ==> active == None
      ensures readied == if ok then old(readied) + {id} else old(readied)
      ensures !ok ==> active == old(active)
    {
      ok := id !in cancelled && active.Some? && active.value.id == id;
      if ok {
        active := None;
        readied := readied + {id};
      }
    }

    /** A finished removal frees the slot, unless something else has taken it. */
    method FinishRemoval(id: nat) returns (held: bool)
      requires Valid()
      modifies `active
      ensures Valid()
      ensures held <==> old(active).Some? && old(active).value.id == id
      ensures active == if held then None else old(active)
    {
      held := active.Some? && active.value.id == id;
      if held { active := None; }
    }

    /** A failed operation frees the slot unless recovery still has to run. */
    method PublishOperationFailure(id: nat)
      requires Valid()
      modifies `active
      ensures Valid()
      ensures active == if !recoveryRequired && old(active).Some? && old(active).value.id == id then None
                        else old(active)
    {
      if !recoveryRequired && active.Some? && active.value.id == id {
        active := None;
      }
    }

    method RequireRecovery()
      requires Valid()
      modifies `recoveryRequired
      ensures Valid() && recoveryRequired
    {
      recoveryRequired := true;
    }

    method ReconcileRecoveryRequired(requiresValidation: bool)
      requires Valid()
      modifies this
      ensures Valid()
      ensures cancelled == old(cancelled) && readied == old(readied) && committed == old(committed)
      ensures !recoveryRequired
      ensures if !old(recoveryRequired) then active == old(active)
              else if requiresValidation then active == Some(Active(old(nextId), Validation, true))
              else active == None
    {
      if recoveryRequired {
        recoveryRequired := false;
        active := None;
        if requiresValidation {
          var _ := StartBackgroundValidation();
        }
      }
    }

    /** Any number of critical sections of threads other than the one running `self`. */
    method Interleave(self: nat)
      requires Valid()
      modifies this
      ensures Valid()
      ensures old(cancelled) <= cancelled && old(readied) <= readied && old(committed) <= committed
      ensures self in committed ==> self in old(committed)
    {
      var rounds: nat :| true;
      for i := 0 to rounds
        invariant Valid()
        invariant old(cancelled) <= cancelled && old(readied) <= readied && old(committed) <= committed
        invariant self in committed ==> self in old(committed)
      {
        var choice: int := *;
        var id: nat :| true;
        var flag: bool := *;
        match choice {
          case 0 =>
            var standing: Standing := *;
            var _ := BeginDownload(standing);
          case 1 => var _ := BeginRemoval();
          case 2 => var _ := StartBackgroundValidation();
          case 3 => var _ := CancelDownload();
          case 4 => if id != self { var _ := CommitRemoval(id); }
          case 5 => if id != self { var _ := PublishReady(id); }
          case 6 => if id != self { PublishOperationFailure(id); }
          case 7 => RequireRecovery();
          case _ => ReconcileRecoveryRequired(flag);
        }
      }
    }

    /** `ensure_not_cancelled`, after whatever the other threads did in the meantime. */
    method IsCancelled(self: nat) returns (cancelled: bool)
      requires Valid()
      modifies this
      ensures Valid()
      ensures old(committed) <= committed && (self in committed ==> self in old(committed))
      ensures cancelled <==> self in this.cancelled
    {
      Interleave(self);
      cancelled := self in this.cancelled;
    }
  }
}
