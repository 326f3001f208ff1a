/** The resource bundle and the control service as objects with fields updated under their locks. */
module CapabilityControl {
  import opened Prelude
  import opened R = CapabilityRuntime

  class CapabilityResources {
    var leases: nat
    var retired: bool
    var started: bool
    var closed: bool
    var closes: nat

    function Model(): Bundle
      reads this
    {
      Bundle(leases, retired, started, closed, closes)
    }

    constructor ()
      ensures Model() == BUILT
    {
      leases, retired, started, closed, closes := 0, false, false, false, 0;
    }

    method Start(ok: bool) returns (r: Answer<(), Fault>)
      modifies this
      ensures (Model(), r) == R.Start(old(Model()), ok)
    {
      if started { return Ok(()); }
      if closed || retired { return Err(AlreadyClosed); }
      if !ok {
        closes := closes + 1;
        closed := true;
        return Err(StartFailed);
      }
      started := true;
      r := Ok(());
    }

    method Acquire() returns (r: Answer<(), Fault>)
      modifies this
      ensures (Model(), r) == R.Acquire(old(Model()))
    {
      if !started || closed || retired { return Err(Unavailable); }
      leases := leases + 1;
      r := Ok(());
    }

    method Close()
      modifies this
      ensures Model() == R.Close(old(Model()))
    {
      retired := true;
      if closed || leases > 0 { return; }
      closes := closes + 1;
      started := false;
      closed := true;
    }

    /** With no other thread in between, the deferred close follows at once. */
    method Release() returns (r: Answer<(), Fault>)
      modifies this
      ensures var (b, a) := R.Release(old(Model()));
              && (r.Ok? <==> a.Ok?) && (r.Err? ==> r.error == NotLeased)
              && Model() == if a.Ok? && a.value then R.Close(b) else b
      ensures old(Model()).leases > 0 && Model().closes > old(Model()).closes ==> old(Model()).leases == 1
    {
      if leases == 0 { return Err(NotLeased); }
      leases := leases - 1;
      var shouldClose := retired && leases == 0;
      if shouldClose { Close(); }
      r := Ok(());
    }
  }

  class CapabilityControlService {
    var active: CapabilityResources?

    constructor ()
      ensures active == null
    {
      active := null;
    }

    /** The new bundle is started before the swap, so a failed start leaves the old one serving. */
    method ApplyRuntime(current: CapabilityResources, ok: bool) returns (r: Answer<(), Fault>)
      modifies this, current, active
      ensures var (b, a) := R.Start(old(current.Model()), ok);
              r == a && current.Model() == b
      ensures r.Ok? ==> active == current
      ensures r.Err? ==> active == old(active)
      ensures old(active) != null && old(active) != current ==>
                old(active).Model() == if r.Ok? then R.Close(old(active.Model())) else old(active.Model())
    {
      r := current.Start(ok);
      if r.Err? { return; }
      var previous := active;
      active := current;
      if previous != null && previous != current { previous.Close(); }
    }

    method AcquireFactory() returns (held: CapabilityResources?, r: Answer<(), Fault>)
      modifies active
      ensures active == old(active)
      ensures active == null ==> held == null && r == Ok(())
      ensures active != null ==> (active.Model(), r) == R.Acquire(old(active.Model()))
      ensures active != null ==> held == if r.Ok? then active else null
    {
      held, r := null, Ok(());
      if active != null {
        r := active.Acquire();
        if r.Ok? { held := active; }
      }
    }

    method CloseRuntime()
      modifies this, active
      ensures active == null
      ensures old(active) != null ==> old(active).Model() == R.Close(old(active.Model()))
    {
      var runtime := active;
      active := null;
      if runtime != null { runtime.Close(); }
    }
  }
}
