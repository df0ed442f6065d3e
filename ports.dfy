/**
 Port discovery. The host's port state is a set of occupied ports: probing a
 port asks whether it is outside that set, binding a listener adds it and
 closing one removes it. `FindAvailablePort` is the bounded linear search that
 both controllers run before binding.
 */
module Ports {
  import opened Outcomes

  /** The attempt budget `findAvailablePort` uses when the caller gives none. */
  const DefaultAttempts: nat := 10

  /** The local host's listening sockets, as far as this process can observe them. */
  class Host {
    var occupied: set<nat>

    constructor (occupied: set<nat>)
      ensures this.occupied == occupied
    {
      this.occupied := occupied;
    }

    /** A throw-away listener on `port` would bind; it is released at once. */
    predicate IsPortAvailable(port: nat): (free: bool)
      reads this
      ensures free <==> port !in occupied
    {
      port !in occupied
    }

    /** Binding a listener: it fails when the port is taken or the framework reports an error. */
    method Listen(port: nat, fails: bool) returns (ok: bool)
      modifies this
      ensures ok <==> !fails && port !in old(occupied)
      ensures occupied == if ok then old(occupied) + {port} else old(occupied)
    {
      ok := !fails && port !in occupied;
      if ok {
        occupied := occupied + {port};
      }
    }

    /** Closing a listener: on success the port is free again, on error nothing changes. */
    method Close(port: nat, fails: bool) returns (ok: bool)
      modifies this
      ensures ok == !fails
      ensures occupied == if ok then old(occupied) - {port} else old(occupied)
    {
      ok := !fails;
      if ok {
        occupied := occupied - {port};
      }
    }
  }

  /** The ports `start, start + 1, ..., start + n - 1`, in that order. */
  function Span(start: nat, n: nat): seq<nat>
  {
    seq(n, i requires 0 <= i < n => start + i)
  }

  /**
   The port the search should find: the lowest free port among the `attempts`
   candidates from `start` on, or none when all of them are taken.
   */
  function FirstAvailable(occupied: set<nat>, start: nat, attempts: nat): (r: Option<nat>)
    ensures r.Some? ==>
      && start <= r.value < start + attempts
      && r.value !in occupied
      && forall q :: start <= q < r.value ==> q in occupied
    ensures r.None? <==> forall q :: start <= q < start + attempts ==> q in occupied
    decreases attempts
  {
    if attempts == 0 then None
    else if start !in occupied then Some(start)
    else FirstAvailable(occupied, start + 1, attempts - 1)
  }

  /**
   `findAvailablePort(startPort, maxAttempts)`: probes the candidates in
   increasing order and stops at the first free one. `probed` lists the ports
   it probed, so a failed search is seen to probe exactly `maxAttempts` ports.
   */
  method FindAvailablePort(host: Host, startPort: nat, maxAttempts: nat)
    returns (r: Result<nat>, probed: seq<nat>)
    ensures r.Ok? <==> FirstAvailable(host.occupied, startPort, maxAttempts).Some?
    ensures r.Ok? ==> r.value == FirstAvailable(host.occupied, startPort, maxAttempts).value
    ensures r.Err? ==> r.error == NoPortFound(maxAttempts)
    ensures probed == Span(startPort, if r.Ok? then r.value - startPort + 1 else maxAttempts)
  {
    probed := [];
    var i: nat := 0;
    while i < maxAttempts
      invariant i <= maxAttempts
      invariant probed == Span(startPort, i)
      invariant forall q :: startPort <= q < startPort + i ==> q in host.occupied
    {
      probed := probed + [startPort + i];
      if host.IsPortAvailable(startPort + i) {
        r := Ok(startPort + i);
        return;
      }
      i := i + 1;
    }
    r := Err(NoPortFound(maxAttempts));
  }

  /** A port that was just freed is the one a search starting there finds. */
  lemma FreedPortIsFoundFirst(occupied: set<nat>, port: nat, attempts: nat)
    requires attempts > 0
    ensures FirstAvailable(occupied - {port}, port, attempts) == Some(port)
  {
  }

  /** The first-free characterisation pins down one port: the search has no choice to make. */
  lemma FirstAvailableUnique(occupied: set<nat>, start: nat, attempts: nat, p: nat)
    requires start <= p < start + attempts && p !in occupied
    requires forall q :: start <= q < p ==> q in occupied
    ensures FirstAvailable(occupied, start, attempts) == Some(p)
  {
  }

  /** Starting port 3000 taken, 3001 to 3003 free: the search settles on 3001. */
  lemma SkipsOccupiedStart()
    ensures FirstAvailable({3000}, 3000, DefaultAttempts) == Some(3001)
  {
  }

  /** All of 3000 to 3009 taken: the default budget is exhausted and the search fails. */
  lemma FailsWhenBudgetExhausted()
    ensures FirstAvailable({3000, 3001, 3002, 3003, 3004, 3005, 3006, 3007, 3008, 3009}, 3000, DefaultAttempts) == None
  {
  }
}
