/** Client admission of websocket/server.go, under any number of concurrent handshakes. */
module WebSocketServer {
  import opened Optional

  /** A handler and the connection it makes share a number. */
  type Conn = nat

  datatype Phase = Admitted | Registered | Gone

  datatype State = State(clients: set<Conn>, handlers: map<Conn, Phase>)

  datatype Step =
    | Check(c: Conn)           // reading the number of clients, and the limit test
    | UpgradeFails(c: Conn)
    | Register(c: Conn)
    | CleanUp(c: Conn)
    | Stop

  const INIT := State({}, map[])

  predicate Rejects(max: int, clients: nat) {
    max > 0 && clients >= max
  }

  predicate Enabled(s: State, step: Step) {
    match step
    case Check(c) => c !in s.handlers
    case UpgradeFails(c) => c in s.handlers && s.handlers[c] == Admitted
    case Register(c) => c in s.handlers && s.handlers[c] == Admitted
    case CleanUp(c) => c in s.handlers && s.handlers[c] == Registered
    case Stop => true
  }

  function Apply(max: int, s: State, step: Step): State
    requires Enabled(s, step)
  {
    match step
    case Check(c) => s.(handlers := s.handlers[c := if Rejects(max, |s.clients|) then Gone else Admitted])
    case UpgradeFails(c) => s.(handlers := s.handlers[c := Gone])
    case Register(c) => State(s.clients + {c}, s.handlers[c := Registered])
    case CleanUp(c) => State(s.clients - {c}, s.handlers[c := Gone])
    case Stop => s.(clients := {})
  }

  function Run(max: int, steps: seq<Step>): Option<State> {
    if steps == [] then Some(INIT)
    else
      var s, step := Run(max, steps[..|steps| - 1]), steps[|steps| - 1];
      if s.Some? && Enabled(s.value, step) then Some(Apply(max, s.value, step)) else None
  }

  /** The handlers between the limit check and the registration. */
  function Window(s: State): set<Conn> {
    set c | c in s.handlers && s.handlers[c] == Admitted
  }

  /** The most handlers that were between check and registration at the same time. */
  function Overlap(max: int, steps: seq<Step>): nat {
    if steps == [] then 0
    else
      var before, s := Overlap(max, steps[..|steps| - 1]), Run(max, steps);
      if s.Some? && |Window(s.value)| > before then |Window(s.value)| else before
  }

  // ----- The object and its critical sections

  class Server {
    var clients: set<Conn>
    var retryCount: map<Conn, nat>
    const maxClients: int

    constructor (maxClients: int)
      ensures clients == {} && retryCount == map[] && this.maxClients == maxClients
    {
      clients, retryCount := {}, map[];
      this.maxClients := maxClients;
    }

    method CheckLimit(ghost s: State, ghost conn: Conn) returns (admitted: bool)
      requires clients == s.clients && Enabled(s, Check(conn))
      ensures Apply(maxClients, s, Check(conn)).handlers[conn] == if admitted then Admitted else Gone
    {
      var clientCount := |clients|;
      if maxClients > 0 && clientCount >= maxClients {
        return false;
      }
      return true;
    }

    method RegisterClient(ghost s: State, conn: Conn)
      requires clients == s.clients && Enabled(s, Register(conn))
      modifies this`clients
      ensures clients == Apply(maxClients, s, Register(conn)).clients
    {
      clients := clients + {conn};
    }

    method CleanUpClient(ghost s: State, conn: Conn)
      requires clients == s.clients && Enabled(s, CleanUp(conn))
      modifies this
      ensures clients == Apply(maxClients, s, CleanUp(conn)).clients && conn !in retryCount
    {
      clients := clients - {conn};
      retryCount := retryCount - {conn};
    }

    method StopServer(ghost s: State)
      requires clients == s.clients
      modifies this`clients
      ensures clients == Apply(maxClients, s, Stop).clients
    {
      clients := {};
    }
  }

  // ----- The bound

  ghost predicate Bounded(max: int, k: nat, s: State) {
    && |s.clients| + |Window(s)| <= max + k - 1
    && forall c :: c in s.clients ==> c in s.handlers && s.handlers[c] == Registered
  }

  /** How a step changes the set of handlers between check and registration. */
  lemma WindowAfter(max: int, s: State, step: Step)
    requires Enabled(s, step)
    ensures Window(Apply(max, s, step)) ==
            match step
            case Check(c) => if Rejects(max, |s.clients|) then Window(s) else Window(s) + {c}
            case UpgradeFails(c) => Window(s) - {c}
            case Register(c) => Window(s) - {c}
            case CleanUp(c) => Window(s)
            case Stop => Window(s)
    ensures step.UpgradeFails? || step.Register? ==> step.c in Window(s)
  {
  }

  lemma StepKeepsBound(max: int, k: nat, s: State, step: Step)
    requires max > 0 && Bounded(max, k, s) && Enabled(s, step)
    requires |Window(Apply(max, s, step))| <= k
    ensures Bounded(max, k, Apply(max, s, step))
  {
    WindowAfter(max, s, step);
    StepKeepsRegistered(max, s, step);
  }

  lemma StepKeepsRegistered(max: int, s: State, step: Step)
    requires Enabled(s, step)
    requires forall c :: c in s.clients ==> c in s.handlers && s.handlers[c] == Registered
    ensures forall c :: c in Apply(max, s, step).clients ==>
              c in Apply(max, s, step).handlers && Apply(max, s, step).handlers[c] == Registered
  {
  }

  lemma {:induction false} RunKeepsBound(max: int, k: nat, steps: seq<Step>)
    requires max > 0 && Run(max, steps).Some? && Overlap(max, steps) <= k
    ensures Bounded(max, k, Run(max, steps).value)
  {
    if steps == [] {
      assert Window(INIT) == {};
    } else {
      var init := steps[..|steps| - 1];
      RunKeepsBound(max, k, init);
      StepKeepsBound(max, k, Run(max, init).value, steps[|steps| - 1]);
    }
  }

  /** With at most `k` handlers at a time between check and registration, a positive limit bounds the registered
      clients by MaxClients + k - 1; handshakes one at a time keep to the limit. */
  lemma ClientsBounded(max: int, k: nat, steps: seq<Step>)
    requires max > 0 && Run(max, steps).Some? && Overlap(max, steps) <= k
    ensures |Run(max, steps).value.clients| <= max + k - 1
  {
    RunKeepsBound(max, k, steps);
  }

  // ----- The bound is reached

  predicate Before(c: Conn, n: nat) {
    c < n
  }

  function Below(n: nat): set<Conn> {
    set c: Conn | c < n && Before(c, n)
  }

  function Phases(n: nat, clients: nat): map<Conn, Phase> {
    map c: Conn | c < n && Before(c, n) :: if c < clients then Registered else Admitted
  }

  /** The connections below `clients` are registered, the next `window` are admitted, and there are no others. */
  function Staged(clients: nat, window: nat): State {
    State(Below(clients), Phases(clients + window, clients))
  }

  lemma {:induction false} CountBelow(n: nat)
    ensures |Below(n)| == n
  {
    if n == 0 {
      assert Below(0) == {};
    } else {
      CountBelow(n - 1);
      assert Below(n) == Below(n - 1) + {n - 1};
    }
  }

  lemma StagedCounts(clients: nat, window: nat)
    ensures |Staged(clients, window).clients| == clients && |Window(Staged(clients, window))| == window
  {
    CountBelow(clients);
    CountBelow(clients + window);
    assert Window(Staged(clients, window)) == Below(clients + window) - Below(clients);
    assert Below(clients) <= Below(clients + window);
  }

  lemma OneAdmitted(n: nat, clients: nat)
    requires clients <= n
    ensures n !in Phases(n, clients) && Phases(n, clients)[n := Admitted] == Phases(n + 1, clients)
  {
  }

  lemma OneRegistered(n: nat, clients: nat)
    requires clients < n
    ensures Phases(n, clients)[clients := Registered] == Phases(n, clients + 1)
  {
  }

  lemma CheckReaches(max: int, clients: nat, window: nat)
    requires max <= 0 || clients < max
    ensures Enabled(Staged(clients, window), Check(clients + window))
    ensures Apply(max, Staged(clients, window), Check(clients + window)) == Staged(clients, window + 1)
  {
    CountBelow(clients);
    OneAdmitted(clients + window, clients);
  }

  lemma RegisterReaches(max: int, clients: nat, window: nat)
    requires window > 0
    ensures Enabled(Staged(clients, window), Register(clients))
    ensures Apply(max, Staged(clients, window), Register(clients)) == Staged(clients + 1, window - 1)
  {
    OneRegistered(clients + window, clients);
  }

  predicate RunReaches(max: int, k: nat, steps: seq<Step>, clients: nat, window: nat) {
    Run(max, steps) == Some(Staged(clients, window)) && Overlap(max, steps) <= k
  }

  lemma ThenStep(max: int, steps: seq<Step>, step: Step)
    requires Run(max, steps).Some? && Enabled(Run(max, steps).value, step)
    ensures var s := Apply(max, Run(max, steps).value, step);
            && Run(max, steps + [step]) == Some(s)
            && Overlap(max, steps + [step]) == if |Window(s)| > Overlap(max, steps) then |Window(s)| else Overlap(max, steps)
  {
    assert (steps + [step])[..|steps|] == steps;
  }

  lemma ThenCheck(max: int, k: nat, steps: seq<Step>, clients: nat, window: nat) returns (after: seq<Step>)
    requires RunReaches(max, k, steps, clients, window) && (max <= 0 || clients < max) && window < k
    ensures RunReaches(max, k, after, clients, window + 1)
  {
    CheckReaches(max, clients, window);
    ThenStep(max, steps, Check(clients + window));
    StagedCounts(clients, window + 1);
    after := steps + [Check(clients + window)];
  }

  lemma ThenRegister(max: int, k: nat, steps: seq<Step>, clients: nat, window: nat) returns (after: seq<Step>)
    requires RunReaches(max, k, steps, clients, window) && 0 < window <= k
    ensures RunReaches(max, k, after, clients + 1, window - 1)
  {
    RegisterReaches(max, clients, window);
    ThenStep(max, steps, Register(clients));
    StagedCounts(clients + 1, window - 1);
    after := steps + [Register(clients)];
  }

  lemma OneHandshake(max: int, k: nat, steps: seq<Step>, clients: nat, next: nat) returns (after: seq<Step>)
    requires RunReaches(max, k, steps, clients, 0) && (max <= 0 || clients < max) && k > 0 && next == clients + 1
    ensures RunReaches(max, k, after, next, 0)
  {
    after := ThenCheck(max, k, steps, clients, 0);
    after := ThenRegister(max, k, after, clients, 1);
  }

  lemma NothingReached(max: int, k: nat)
    ensures RunReaches(max, k, [], 0, 0)
  {
    assert Staged(0, 0) == INIT;
  }

  /** Handshakes one after the other, up to `n` clients. */
  lemma {:induction false} SerialReaches(max: int, k: nat, n: nat) returns (steps: seq<Step>)
    requires (max <= 0 || n <= max) && k > 0
    ensures RunReaches(max, k, steps, n, 0)
  {
    if n == 0 {
      steps := [];
      NothingReached(max, k);
    } else {
      steps := SerialReaches(max, k, n - 1);
      steps := OneHandshake(max, k, steps, n - 1, n);
    }
  }

  /** Then `n` handlers that all pass the limit check before any of them registers. */
  lemma {:induction false} ChecksReach(max: int, k: nat, base: seq<Step>, clients: nat, n: nat) returns (steps: seq<Step>)
    requires RunReaches(max, k, base, clients, 0) && (max <= 0 || clients < max) && n <= k
    ensures RunReaches(max, k, steps, clients, n)
  {
    steps := base;
    if n > 0 {
      steps := ChecksReach(max, k, base, clients, n - 1);
      steps := ThenCheck(max, k, steps, clients, n - 1);
    }
  }

  /** Then `n` of these register. */
  lemma {:induction false} RegistrationsReach(max: int, k: nat, base: seq<Step>, first: nat, n: nat) returns (steps: seq<Step>)
    requires RunReaches(max, k, base, first, k) && n <= k
    ensures RunReaches(max, k, steps, first + n, k - n)
  {
    steps := base;
    if n > 0 {
      steps := RegistrationsReach(max, k, base, first, n - 1);
      steps := ThenRegister(max, k, steps, first + n - 1, k - n + 1);
    }
  }

  /** For every limit and every k some run reaches the bound. */
  lemma BoundReached(max: int, k: nat) returns (steps: seq<Step>)
    requires max > 0 && k > 0
    ensures Run(max, steps).Some? && Overlap(max, steps) <= k && |Run(max, steps).value.clients| == max + k - 1
  {
    steps := SerialReaches(max, k, max - 1);
    steps := ChecksReach(max, k, steps, max - 1, k);
    steps := RegistrationsReach(max, k, steps, max - 1, k);
    StagedCounts(max - 1 + k, 0);
  }

  /** The limit holds on all runs with at most `k` overlapping handshakes exactly when `k` is at most one. */
  lemma LimitHoldsIffNoOverlap(max: int, k: nat)
    requires max > 0
    ensures (forall steps :: Run(max, steps).Some? && Overlap(max, steps) <= k ==> |Run(max, steps).value.clients| <= max) <==> k <= 1
  {
    if k <= 1 {
      forall steps | Run(max, steps).Some? && Overlap(max, steps) <= k ensures |Run(max, steps).value.clients| <= max {
        ClientsBounded(max, k, steps);
      }
    } else {
      var steps := BoundReached(max, k);
      assert Run(max, steps).Some? && Overlap(max, steps) <= k && |Run(max, steps).value.clients| > max;
    }
  }

  /** A limit that is not positive is no limit: without any overlap there is a run to every number of clients. */
  lemma NoLimit(max: int, n: nat) returns (steps: seq<Step>)
    requires max <= 0
    ensures Run(max, steps).Some? && Overlap(max, steps) <= 1 && |Run(max, steps).value.clients| == n
  {
    steps := SerialReaches(max, 1, n);
    StagedCounts(n, 0);
  }

  // ----- Who is a client

  /** Connection `c` registered at step `i`, and has not been cleaned up or lost to a stop since. */
  predicate RegisteredAt(steps: seq<Step>, c: Conn, i: nat) {
    && i < |steps| && steps[i] == Register(c)
    && forall j :: i < j < |steps| ==> steps[j] != CleanUp(c) && steps[j] != Stop
  }

  lemma RegisteredAtSnoc(steps: seq<Step>, c: Conn)
    requires steps != []
    ensures var init, last := steps[..|steps| - 1], steps[|steps| - 1];
            (exists i: nat :: RegisteredAt(steps, c, i)) <==>
            last == Register(c) || ((exists i: nat :: RegisteredAt(init, c, i)) && last != CleanUp(c) && last != Stop)
  {
    var n := |steps| - 1;
    var init, last := steps[..n], steps[n];
    assert forall i: nat :: i < n ==> steps[i] == init[i];
    if last == Register(c) {
      assert RegisteredAt(steps, c, n);
    }
    if i: nat :| RegisteredAt(steps, c, i) && i < n {
      assert RegisteredAt(init, c, i);
    }
    if last != CleanUp(c) && last != Stop {
      if i: nat :| RegisteredAt(init, c, i) {
        assert RegisteredAt(steps, c, i);
      }
    }
  }

  /** In every run the clients are those that registered and were neither cleaned up nor lost to a stop since. */
  lemma {:induction false} ClientsAre(max: int, steps: seq<Step>, c: Conn)
    requires Run(max, steps).Some?
    ensures c in Run(max, steps).value.clients <==> exists i: nat :: RegisteredAt(steps, c, i)
  {
    if steps != [] {
      ClientsAre(max, steps[..|steps| - 1], c);
      RegisteredAtSnoc(steps, c);
    }
  }

  /** A handshake is turned away exactly if there is a limit and as many clients as it allows. */
  lemma TurnedAwayIff(max: int, s: State, c: Conn)
    requires Enabled(s, Check(c))
    ensures Apply(max, s, Check(c)).handlers[c] == Gone <==> 0 < max <= |s.clients|
    ensures Apply(max, s, Check(c)).handlers[c] == Admitted <==> max <= 0 || |s.clients| < max
  {
  }
}
