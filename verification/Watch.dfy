/** The agent's client task: the bell it shares with the consumer, and the dispatch of one frame. */
module Watch {
  import opened Wrappers
  import opened Doorbell

  /** The latest-wins bell: any number of rings before a drain are one ring. */
  class Bell {
    var reasons: set<string>
    var wake: bool

    ghost predicate Valid()
      reads this
    {
      wake <==> reasons != {}
    }

    constructor ()
      ensures Valid() && !wake && reasons == {}
    {
      reasons, wake := {}, false;
    }

    method Ring(reason: string)
      requires Valid()
      modifies this
      ensures Valid() && wake && reasons == old(reasons) + {reason}
    {
      reasons := reasons + {reason};
      wake := true;
    }

    /** Takes every reason and silences the bell. */
    method Drain() returns (taken: set<string>)
      requires Valid()
      modifies this
      ensures Valid() && !wake && taken == old(reasons)
      ensures taken != {} <==> old(wake)
    {
      taken := reasons;
      reasons := {};
      wake := false;
    }
  }

  /** `_dispatch_event`: the bell ends up set exactly as the `Dispatch` step of the protocol says. */
  method DispatchEvent(frame: Frame, bell: Bell, applied: Option<nat>)
    requires bell.Valid()
    modifies bell
    ensures bell.Valid()
    ensures bell.wake == (old(bell.wake) || Rings(frame, applied))
    ensures match frame
      case Push(SnapshotRequest) => bell.reasons == old(bell.reasons) + {"snapshot_request"}
      case Push(Updated(g)) =>
        bell.reasons == old(bell.reasons) +
          if g.Some? && applied.Some? && g.value <= applied.value then {} else {"desired_state_updated"}
      case Hello(g) =>
        bell.reasons == old(bell.reasons) +
          if g.Some? && (applied.None? || applied.value < g.value) then {"hello-catchup"} else {}
  {
    match frame {
      case Push(SnapshotRequest) =>
        bell.Ring("snapshot_request");
      case Push(Updated(generation)) =>
        if generation.Some? && applied.Some? && generation.value <= applied.value {
          return;
        }
        bell.Ring("desired_state_updated");
      case Hello(generation) =>
        if generation.Some? && (applied.None? || generation.value > applied.value) {
          bell.Ring("hello-catchup");
        }
    }
  }
}
