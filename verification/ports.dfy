/** The port allocator of pkg/utils/port.go: a bounded ascending scan over
    `StartPort, StartPort + PortIncrement, ...` up to `MaxPort`, returning the
    first port nothing listens on. The TCP dial that decides availability is
    replaced by the set of ports that currently have a listener. */
module Ports {
  import opened Results
  import opened Errors

  /** `PortManager`. `allocations` mirrors the Go `Allocated` map, which the
      allocator never reads or writes; the mutex is not modelled. */
  datatype PortManager = PortManager(
    startPort: int,
    maxPort: int,
    allocations: map<int, bool>,
    portIncrement: int)

  /** `NewPortManager`: the `Allocated` map is left nil. */
  function NewPortManager(startPort: int, maxPort: int, portIncrement: int): (pm: PortManager)
    ensures pm.startPort == startPort && pm.maxPort == maxPort
    ensures pm.portIncrement == portIncrement
    ensures pm.allocations == map[]
  {
    PortManager(startPort, maxPort, map[], portIncrement)
  }

  /** `IsPortAvailable`: a connect to 127.0.0.1:port fails exactly when no
      listener is bound there. */
  predicate IsPortAvailable(port: int, listening: set<int>) {
    port !in listening
  }

  /** `port` is one of the ports the scan probes. */
  predicate IsCandidate(pm: PortManager, port: int)
    requires pm.portIncrement > 0
  {
    pm.startPort <= port <= pm.maxPort && (port - pm.startPort) % pm.portIncrement == 0
  }

  /** A non-zero multiple of `k` is at least `k` away from zero. */
  lemma {:induction false} MultipleAwayFromZero(m: int, k: int)
    requires m != 0 && k > 0
    ensures m * k >= k || m * k <= -k
    decreases if m > 0 then m else -m
  {
    if m > 1 {
      MultipleAwayFromZero(m - 1, k);
      assert m * k == (m - 1) * k + k;
    } else if m < -1 {
      MultipleAwayFromZero(m + 1, k);
      assert m * k == (m + 1) * k - k;
    }
  }

  /** Euclidean division has one quotient and one remainder. */
  lemma DivModUnique(x: int, k: int, a: int, r: int)
    requires k > 0 && 0 <= r < k && x == a * k + r
    ensures x % k == r
  {
    var q, r' := x / k, x % k;
    assert x == q * k + r';
    var d := a - q;
    assert d * k == r' - r;
    if d != 0 {
      MultipleAwayFromZero(d, k);
      assert false;
    }
  }

  /** The probe after a candidate is again on the grid of candidates. */
  lemma NextOnGrid(pm: PortManager, port: int)
    requires pm.portIncrement > 0
    requires (port - pm.startPort) % pm.portIncrement == 0
    ensures (port + pm.portIncrement - pm.startPort) % pm.portIncrement == 0
  {
    var k := pm.portIncrement;
    var a := (port - pm.startPort) / k;
    assert port - pm.startPort == a * k;
    DivModUnique(port + k - pm.startPort, k, a + 1, 0);
  }

  /** Between two consecutive probes there is no other candidate. */
  lemma NoCandidateBetween(pm: PortManager, port: int, q: int)
    requires pm.portIncrement > 0
    requires (port - pm.startPort) % pm.portIncrement == 0
    requires port < q < port + pm.portIncrement
    ensures (q - pm.startPort) % pm.portIncrement != 0
  {
    var k := pm.portIncrement;
    var a := (port - pm.startPort) / k;
    assert port - pm.startPort == a * k;
    DivModUnique(q - pm.startPort, k, a, q - port);
  }

  /** The loop of `AllocatePort` from the probe `port` onwards. */
  function ScanFrom(pm: PortManager, port: int, listening: set<int>): (r: Result<int, Error>)
    requires pm.portIncrement > 0
    requires pm.startPort <= port && (port - pm.startPort) % pm.portIncrement == 0
    ensures r.Success? ==> port <= r.value && IsCandidate(pm, r.value)
    ensures r.Success? ==> IsPortAvailable(r.value, listening)
    ensures r.Success? ==> forall q :: port <= q < r.value && IsCandidate(pm, q) ==> q in listening
    ensures r.Failure? ==> r.error == NoAvailablePorts
    ensures r.Failure? <==> forall q :: port <= q && IsCandidate(pm, q) ==> q in listening
    decreases pm.maxPort - port
  {
    if port > pm.maxPort then
      Failure(NoAvailablePorts)
    else if IsPortAvailable(port, listening) then
      Success(port)
    else
      var next := port + pm.portIncrement;
      NextOnGrid(pm, port);
      var r := ScanFrom(pm, next, listening);
      assert forall q :: port < q < next ==> !IsCandidate(pm, q) by {
        forall q | port < q < next ensures !IsCandidate(pm, q) {
          NoCandidateBetween(pm, port, q);
        }
      }
      r
  }

  /** `AllocatePort`: the first candidate with no listener, or
      `NoAvailablePorts` when every candidate (possibly none) is taken. Only
      `listening` decides the answer, so two calls against the same
      occupancy agree: nothing is recorded between calls. */
  function AllocatePort(pm: PortManager, listening: set<int>): (r: Result<int, Error>)
    requires pm.portIncrement > 0
    ensures r.Success? ==> IsCandidate(pm, r.value) && IsPortAvailable(r.value, listening)
    ensures r.Success? ==> forall q :: IsCandidate(pm, q) && q < r.value ==> q in listening
    ensures r.Failure? <==> forall q :: IsCandidate(pm, q) ==> q in listening
    ensures r.Failure? ==> r.error == NoAvailablePorts
  {
    ScanFrom(pm, pm.startPort, listening)
  }

  /** The Go `for` loop itself, probing ports in ascending order. */
  method AllocatePortLoop(pm: PortManager, listening: set<int>) returns (r: Result<int, Error>)
    requires pm.portIncrement > 0
    ensures r == AllocatePort(pm, listening)
  {
    var port := pm.startPort;
    while port <= pm.maxPort
      invariant pm.startPort <= port && (port - pm.startPort) % pm.portIncrement == 0
      invariant ScanFrom(pm, port, listening) == AllocatePort(pm, listening)
      decreases pm.maxPort - port
    {
      if IsPortAvailable(port, listening) {
        return Success(port);
      }
      NextOnGrid(pm, port);
      port := port + pm.portIncrement;
    }
    return Failure(NoAvailablePorts);
  }

  /** The `Allocated` map plays no part in the scan. */
  lemma {:induction false} ScanIgnoresAllocated(pm: PortManager, m: map<int, bool>, port: int, listening: set<int>)
    requires pm.portIncrement > 0
    requires pm.startPort <= port && (port - pm.startPort) % pm.portIncrement == 0
    ensures ScanFrom(pm.(allocations := m), port, listening) == ScanFrom(pm, port, listening)
    decreases pm.maxPort - port
  {
    if port <= pm.maxPort && !IsPortAvailable(port, listening) {
      NextOnGrid(pm, port);
      ScanIgnoresAllocated(pm, m, port + pm.portIncrement, listening);
    }
  }

  lemma AllocateIgnoresAllocated(pm: PortManager, m: map<int, bool>, listening: set<int>)
    requires pm.portIncrement > 0
    ensures AllocatePort(pm.(allocations := m), listening) == AllocatePort(pm, listening)
  {
    ScanIgnoresAllocated(pm, m, pm.startPort, listening);
  }

  /** With step 1 the allocator returns the lowest free port of the range. */
  lemma LowestFreePort(pm: PortManager, listening: set<int>, p: int)
    requires pm.portIncrement == 1
    requires pm.startPort <= p <= pm.maxPort && p !in listening
    requires forall q :: pm.startPort <= q < p ==> q in listening
    ensures AllocatePort(pm, listening) == Success(p)
  {
    var r := AllocatePort(pm, listening);
    assert IsCandidate(pm, p);
    if r.Success? {
      assert IsCandidate(pm, r.value);
    }
  }

  /** An empty range (`StartPort > MaxPort`) always yields the error. */
  lemma EmptyRangeFails(pm: PortManager, listening: set<int>)
    requires pm.portIncrement > 0 && pm.startPort > pm.maxPort
    ensures AllocatePort(pm, listening) == Failure(NoAvailablePorts)
  {
  }

  /** Freeing ports never moves the answer upwards. */
  lemma FewerListenersLowerPort(pm: PortManager, fewer: set<int>, more: set<int>)
    requires pm.portIncrement > 0 && fewer <= more
    requires AllocatePort(pm, more).Success?
    ensures AllocatePort(pm, fewer).Success?
    ensures AllocatePort(pm, fewer).value <= AllocatePort(pm, more).value
  {
    var p := AllocatePort(pm, more).value;
    assert IsCandidate(pm, p) && p !in fewer;
    var r := AllocatePort(pm, fewer);
    assert r.Success? && r.value <= p;
  }
}
