/** `DockerCtl.run`: start `num` containers from one image, wait for each to be
    networked and (when it has a health check) healthy, hand the list to the
    `with` block, then stop and remove each container in creation order. */
module Lifecycle {
  import opened PyValue
  import opened AttrPath
  import opened Readiness

  const IPAddressPath: Path := ["NetworkSettings", "IPAddress"]
  const HostNetworkPath: Path := ["NetworkSettings", "Networks", "host"]
  const HealthPath: Path := ["State", "Health", "Status"]
  const Healthy: Value := Str("healthy")

  /** The arguments of `api.run(image, command=command, detach=True, **kwargs)`. */
  datatype StartRequest = StartRequest(image: string, command: Value, detach: bool, options: map<string, Value>)

  /** What `run` did, in order: a `Start` records an `api.run` call that returned a
      container (one that raised leaves no event); the other events record the call
      as it is made, whether or not it then raises. */
  datatype Event =
    | Start(id: nat, request: StartRequest)  // `api.run(...)` returned the container numbered `id`
    | WaitOn(id: nat, path: Path)            // `waitfor(container, path, ...)` begins
    | Yield(ids: seq<nat>)                   // `yield containers`: the `with` block runs
    | Stop(id: nat)                          // `container.stop()` is called
    | Remove(id: nat)                        // `container.remove()` is called

  /** How the daemon answers, decided in advance: whether the `i`-th `api.run`
      raises, the attributes it reports for the new container, the clock and
      reload trace each `waitfor` on container `i` and a path sees, and whether
      `stop()` or `remove()` on container `i` raises. */
  datatype Daemon = Daemon(
    startFails: nat -> bool,
    created: nat -> Value,
    trace: (nat, Path) -> Trace,
    stopFails: nat -> bool,
    removeFails: nat -> bool)

  /** Every `waitfor` that `run` makes with the default timeout ends. */
  ghost predicate ClockRuns(d: Daemon) {
    forall i: nat, p: Path :: ValidTrace(d.trace(i, p), DefaultTimeout)
  }

  /** What the `with` block does with the containers: return or raise. */
  datatype Body = Returns | Raises(tag: nat)

  datatype Exc =
    | DetachGivenTwice          // TypeError: `kwargs` holds `detach`, which `api.run` already gets
    | StartFailed               // `api.run` raised
    | WaitFailed(error: WaitError)  // `waitfor` raised
    | ProbeFailed(cause: PyError)   // `has_attr` raised
    | BodyRaised(tag: nat)      // the `with` block raised
    | StopFailed(id: nat)       // `container.stop()` raised
    | RemoveFailed(id: nat)     // `container.remove()` raised

  datatype RunResult = Exited | Raised(exc: Exc)

  /** Whether a stretch of `run` ran to its end or an exception left it. */
  datatype Outcome = Pass | Fail(exc: Exc)

  /** The event log after a stretch of `run`, and how that stretch ended. */
  datatype Phase = Phase(events: seq<Event>, outcome: Outcome)

  /** The event log after the whole `with dockerctl.run(...)` statement, and how it ends. */
  datatype Session = Session(events: seq<Event>, result: RunResult)

  /** `range(num)` has `Count(num)` elements. */
  function Count(num: int): (n: nat)
    ensures num <= 0 ==> n == 0
    ensures num > 0 ==> n == num
  {
    if num > 0 then num else 0
  }

  function Ids(n: nat): (ids: seq<nat>)
    ensures |ids| == n && forall j | 0 <= j < n :: ids[j] == j
  {
    seq(n, j => j)
  }

  /** A `for container in ...` loop of `run` from turn `i` on, after `log`: turn
      `j` adds `turn(j).events`; the first turn that raises ends the loop. */
  function Sequence(turn: nat -> Phase, i: nat, n: nat, log: seq<Event>): Phase
    decreases n - i
  {
    if i >= n then Phase(log, Pass)
    else
      var c := turn(i);
      if c.outcome.Fail? then Phase(log + c.events, c.outcome) else Sequence(turn, i + 1, n, log + c.events)
  }

  /** The events of turns `i` to `k - 1`, one turn after the other. */
  function Log(turn: nat -> Phase, i: nat, k: nat): seq<Event>
    decreases k - i
  {
    if i >= k then [] else turn(i).events + Log(turn, i + 1, k)
  }

  /** The loop runs every turn from `i` up to the first that raises (the `k`-th),
      whose exception it passes on; when none raises it runs them all. */
  lemma {:induction false} SequenceSteps(turn: nat -> Phase, i: nat, n: nat, log: seq<Event>) returns (k: nat)
    requires i <= n
    ensures i <= k <= n
    ensures forall j | i <= j < k :: turn(j).outcome.Pass?
    ensures k == n ==> Sequence(turn, i, n, log) == Phase(log + Log(turn, i, n), Pass)
    ensures k < n ==>
              && turn(k).outcome.Fail?
              && Sequence(turn, i, n, log) == Phase(log + Log(turn, i, k) + turn(k).events, turn(k).outcome)
    decreases n - i
  {
    if i == n || turn(i).outcome.Fail? {
      k := i;
      assert log + Log(turn, i, k) == log;
    } else {
      var c := turn(i);
      k := SequenceSteps(turn, i + 1, n, log + c.events);
      var rest := Log(turn, i + 1, k);
      assert log + c.events + rest == log + (c.events + rest);
    }
  }

  /** A loop after `log` ends as it does after an empty log, with `log` in front. */
  lemma {:induction false} SequenceAfter(turn: nat -> Phase, i: nat, n: nat, log: seq<Event>)
    ensures Sequence(turn, i, n, log) == Phase(log + Sequence(turn, i, n, []).events, Sequence(turn, i, n, []).outcome)
    decreases n - i
  {
    if i < n && turn(i).outcome.Pass? {
      var c := turn(i);
      SequenceAfter(turn, i + 1, n, log + c.events);
      SequenceAfter(turn, i + 1, n, c.events);
      assert [] + c.events == c.events;
      var rest := Sequence(turn, i + 1, n, []).events;
      assert log + c.events + rest == log + (c.events + rest);
    } else if i < n {
      assert [] + turn(i).events == turn(i).events;
    }
  }

  /** `'network' in kwargs and kwargs['network'] == 'host'` picks the path to wait on. */
  function NetworkPath(options: map<string, Value>): (p: Path)
    ensures p == HostNetworkPath <==> "network" in options && options["network"] == Str("host")
    ensures p != HostNetworkPath ==> p == IPAddressPath
  {
    if "network" in options && PyEq(options["network"], Str("host")) then HostNetworkPath else IPAddressPath
  }

  /** `api.run(image, command=command, detach=True, **kwargs)`. */
  function Request(image: string, command: Value, kwargs: map<string, Value>): StartRequest {
    StartRequest(image, command, true, kwargs)
  }

  /** One turn of the first loop: `api.run` for the `i`-th container. */
  function StartTurn(d: Daemon, req: StartRequest, i: nat): Phase {
    if "detach" in req.options then Phase([], Fail(DetachGivenTwice))
    else if d.startFails(i) then Phase([], Fail(StartFailed))
    else Phase([Start(i, req)], Pass)
  }

  function StartTurns(d: Daemon, req: StartRequest): nat -> Phase {
    (i: nat) => StartTurn(d, req, i)
  }

  /** `waitfor(container, <network path>)` on container `i`. */
  function NetworkPoll(d: Daemon, options: map<string, Value>, i: nat): Polling
    requires ClockRuns(d)
  {
    Wait(d.trace(i, NetworkPath(options)), NetworkPath(options), Null, DefaultTimeout)
  }

  /** `waitfor(container, ('State', 'Health', 'Status'), expect='healthy')` on container `i`. */
  function HealthPoll(d: Daemon, i: nat): Polling
    requires ClockRuns(d)
  {
    Wait(d.trace(i, HealthPath), HealthPath, Healthy, DefaultTimeout)
  }

  /** The snapshot that `has_attr` reads once the network wait has returned: the
      one that wait's last `reload()` fetched. */
  function ProbedAttrs(d: Daemon, options: map<string, Value>, i: nat): Value
    requires ClockRuns(d) && NetworkPoll(d, options, i).result.Returned?
  {
    d.trace(i, NetworkPath(options))[NetworkPoll(d, options, i).reloads - 1].snapshot
  }

  /** One turn of the second loop, for container `i`. */
  function ReadyCheck(d: Daemon, options: map<string, Value>, i: nat): Phase
    requires ClockRuns(d)
  {
    var net := [WaitOn(i, NetworkPath(options))];
    var p := NetworkPoll(d, options, i);
    if p.result.Failed? then Phase(net, Fail(WaitFailed(p.result.error)))
    else match HasAttrOf(ProbedAttrs(d, options, i), HealthPath)
      case Err(e) => Phase(net, Fail(ProbeFailed(e)))
      case Ok(exposed) =>
        if !exposed then Phase(net, Pass)
        else
          var q := HealthPoll(d, i);
          Phase(net + [WaitOn(i, HealthPath)], if q.result.Failed? then Fail(WaitFailed(q.result.error)) else Pass)
  }

  function ReadyTurns(d: Daemon, options: map<string, Value>): nat -> Phase
    requires ClockRuns(d)
  {
    (i: nat) => ReadyCheck(d, options, i)
  }

  /** One turn of the `finally` loop: `stop()`, then `remove()`. */
  function Release(d: Daemon, i: nat): Phase {
    if d.stopFails(i) then Phase([Stop(i)], Fail(StopFailed(i)))
    else if d.removeFails(i) then Phase([Stop(i), Remove(i)], Fail(RemoveFailed(i)))
    else Phase([Stop(i), Remove(i)], Pass)
  }

  function Releases(d: Daemon): nat -> Phase {
    (i: nat) => Release(d, i)
  }

  /** Every container started and passed its waits: `run` reaches its `yield`. */
  predicate Ready(d: Daemon, req: StartRequest, n: nat)
    requires ClockRuns(d)
  {
    Sequence(StartTurns(d, req), 0, n, []).outcome.Pass? && Sequence(ReadyTurns(d, req.options), 0, n, []).outcome.Pass?
  }

  /** `with dockerctl.run(image, command, num, **kwargs) as containers: <body>`,
      after `log`. */
  function RunSpec(d: Daemon, image: string, command: Value, num: int, kwargs: map<string, Value>,
                   body: Body, log: seq<Event>): Session
    requires ClockRuns(d)
  {
    Chain(StartTurns(d, Request(image, command, kwargs)), ReadyTurns(d, kwargs), Releases(d), Count(num), body, log)
  }

  /** The three loops of `run` and the `yield` between them, for any turns. */
  function Chain(starts: nat -> Phase, waits: nat -> Phase, releases: nat -> Phase, n: nat,
                 body: Body, log: seq<Event>): Session
  {
    var s := Sequence(starts, 0, n, log);
    if s.outcome.Fail? then Session(s.events, Raised(s.outcome.exc))
    else
      var w := Sequence(waits, 0, n, s.events);
      if w.outcome.Fail? then Session(w.events, Raised(w.outcome.exc))
      else
        var c := Sequence(releases, 0, n, w.events + [Yield(Ids(n))]);
        Session(c.events,
                if c.outcome.Fail? then Raised(c.outcome.exc)
                else if body.Raises? then Raised(BodyRaised(body.tag))
                else Exited)
  }

  /** The three loops after `log` end as they do after an empty log, with `log` in front. */
  lemma ChainAfter(starts: nat -> Phase, waits: nat -> Phase, releases: nat -> Phase, n: nat,
                   body: Body, log: seq<Event>)
    ensures Chain(starts, waits, releases, n, body, log) ==
            Session(log + Chain(starts, waits, releases, n, body, []).events,
                    Chain(starts, waits, releases, n, body, []).result)
  {
    var s0 := Sequence(starts, 0, n, []);
    SequenceAfter(starts, 0, n, log);
    if s0.outcome.Pass? {
      var w0 := Sequence(waits, 0, n, s0.events);
      SequenceAfter(waits, 0, n, log + s0.events);
      SequenceAfter(waits, 0, n, s0.events);
      var wr := Sequence(waits, 0, n, []).events;
      assert log + s0.events + wr == log + (s0.events + wr);
      if w0.outcome.Pass? {
        var y := [Yield(Ids(n))];
        SequenceAfter(releases, 0, n, log + w0.events + y);
        SequenceAfter(releases, 0, n, w0.events + y);
        var cr := Sequence(releases, 0, n, []).events;
        assert log + w0.events + y + cr == log + (w0.events + y + cr);
      }
    }
  }

  /** A `run` after earlier events adds to the log what a `run` on a fresh log
      records, and ends the same way: every lemma about `RunSpec` after `[]`
      describes the events `Run` appends. */
  lemma RunSpecAfter(d: Daemon, image: string, command: Value, num: int, kwargs: map<string, Value>,
                     body: Body, log: seq<Event>)
    requires ClockRuns(d)
    ensures RunSpec(d, image, command, num, kwargs, body, log) ==
            Session(log + RunSpec(d, image, command, num, kwargs, body, []).events,
                    RunSpec(d, image, command, num, kwargs, body, []).result)
  {
    ChainAfter(StartTurns(d, Request(image, command, kwargs)), ReadyTurns(d, kwargs), Releases(d), Count(num), body, log);
  }

  /** `DockerCtl`: the client it talks to, and the record of what was asked of it. */
  class DockerCtl {
    const daemon: Daemon
    var events: seq<Event>

    constructor (daemon: Daemon)
      ensures this.daemon == daemon && events == []
    {
      this.daemon := daemon;
      events := [];
    }

    /** `api.run(image, command=command, detach=True, **kwargs)` for the `i`-th container. */
    method StartContainer(i: nat, req: StartRequest) returns (c: Container?, outcome: Outcome)
      modifies this
      ensures "detach" in req.options ==> c == null && outcome == Fail(DetachGivenTwice) && events == old(events)
      ensures "detach" !in req.options && daemon.startFails(i) ==>
                c == null && outcome == Fail(StartFailed) && events == old(events)
      ensures "detach" !in req.options && !daemon.startFails(i) ==>
                && c != null && fresh(c) && c.id == i && c.attrs == daemon.created(i)
                && outcome == Pass && events == old(events) + [Start(i, req)]
    {
      c := null;
      if "detach" in req.options {
        outcome := Fail(DetachGivenTwice);
      } else if daemon.startFails(i) {
        outcome := Fail(StartFailed);
      } else {
        outcome := Pass;
        c := new Container(i, daemon.created(i));
        events := events + [Start(i, req)];
      }
    }

    /** `waitfor(container, path, expect)` with the default timeout. */
    method Await(c: Container, path: Path, expected: Value) returns (r: WaitResult)
      requires ClockRuns(daemon)
      modifies this, c
      ensures events == old(events) + [WaitOn(c.id, path)]
      ensures r == Wait(daemon.trace(c.id, path), path, expected, DefaultTimeout).result
      ensures c.attrs == AttrsAfter(old(c.attrs), daemon.trace(c.id, path),
                                    Wait(daemon.trace(c.id, path), path, expected, DefaultTimeout).reloads)
    {
      events := events + [WaitOn(c.id, path)];
      r := WaitFor(c, daemon.trace(c.id, path), path, expected, DefaultTimeout);
    }

    /** `container.stop()`; `ok` is false when it raises. */
    method StopContainer(c: Container) returns (ok: bool)
      modifies this
      ensures events == old(events) + [Stop(c.id)] && ok == !daemon.stopFails(c.id)
    {
      events := events + [Stop(c.id)];
      ok := !daemon.stopFails(c.id);
    }

    /** `container.remove()`; `ok` is false when it raises. */
    method RemoveContainer(c: Container) returns (ok: bool)
      modifies this
      ensures events == old(events) + [Remove(c.id)] && ok == !daemon.removeFails(c.id)
    {
      events := events + [Remove(c.id)];
      ok := !daemon.removeFails(c.id);
    }

    /** The first loop of `run`: `api.run` `n` times, collecting the containers. */
    method StartAll(req: StartRequest, n: nat) returns (containers: seq<Container>, outcome: Outcome)
      modifies this
      ensures events == Sequence(StartTurns(daemon, req), 0, n, old(events)).events
      ensures outcome == Sequence(StartTurns(daemon, req), 0, n, old(events)).outcome
      ensures outcome.Pass? ==> |containers| == n
      ensures forall j | 0 <= j < |containers| ::
                containers[j].id == j && fresh(containers[j]) && containers[j].attrs == daemon.created(j)
    {
      containers := [];
      var i := 0;
      while i < n
        invariant i <= n && |containers| == i
        invariant forall j | 0 <= j < i ::
                    containers[j].id == j && fresh(containers[j]) && containers[j].attrs == daemon.created(j)
        invariant Sequence(StartTurns(daemon, req), 0, n, old(events)) == Sequence(StartTurns(daemon, req), i, n, events)
      {
        var c, started := StartContainer(i, req);
        if started.Fail? {
          return containers, started;
        }
        containers := containers + [c];
        i := i + 1;
      }
      outcome := Pass;
    }

    /** One turn of the second loop: wait for networking, then for health if the
        container reports a health status. */
    method AwaitReady(c: Container, kwargs: map<string, Value>) returns (outcome: Outcome)
      requires ClockRuns(daemon)
      modifies this, c
      ensures events == old(events) + ReadyCheck(daemon, kwargs, c.id).events
      ensures outcome == ReadyCheck(daemon, kwargs, c.id).outcome
      ensures outcome.Pass? ==> c.attrs == ReadyAttrs(daemon, kwargs, c.id)
    {
      var net: Path;
      if "network" in kwargs && PyEq(kwargs["network"], Str("host")) {
        net := HostNetworkPath;
      } else {
        net := IPAddressPath;
      }
      var w := Await(c, net, Null);
      if w.Failed? {
        return Fail(WaitFailed(w.error));
      }
      var exposed := HasAttr(c, HealthPath);
      if exposed.Err? {
        return Fail(ProbeFailed(exposed.error));
      }
      if exposed.value {
        w := Await(c, HealthPath, Healthy);
        if w.Failed? {
          return Fail(WaitFailed(w.error));
        }
      }
      outcome := Pass;
    }

    /** The second loop of `run`: every container in creation order. */
    method AwaitAll(containers: seq<Container>, kwargs: map<string, Value>) returns (outcome: Outcome)
      requires ClockRuns(daemon)
      requires forall j | 0 <= j < |containers| :: containers[j].id == j
      modifies this, set j | 0 <= j < |containers| :: containers[j]
      ensures events == Sequence(ReadyTurns(daemon, kwargs), 0, |containers|, old(events)).events
      ensures outcome == Sequence(ReadyTurns(daemon, kwargs), 0, |containers|, old(events)).outcome
      ensures outcome.Pass? ==>
                forall j | 0 <= j < |containers| ::
                  ReadyCheck(daemon, kwargs, j).outcome.Pass? && containers[j].attrs == ReadyAttrs(daemon, kwargs, j)
    {
      var n := |containers|;
      var i := 0;
      while i < n
        invariant i <= n
        invariant Sequence(ReadyTurns(daemon, kwargs), 0, n, old(events)) == Sequence(ReadyTurns(daemon, kwargs), i, n, events)
        invariant forall j | 0 <= j < i ::
                    ReadyCheck(daemon, kwargs, j).outcome.Pass? && containers[j].attrs == ReadyAttrs(daemon, kwargs, j)
      {
        outcome := AwaitReady(containers[i], kwargs);
        if outcome.Fail? {
          return;
        }
        i := i + 1;
      }
      outcome := Pass;
    }

    /** The `finally` loop of `run`: `stop()` then `remove()` on each container;
        the first exception leaves the loop. */
    method ReleaseAll(containers: seq<Container>) returns (outcome: Outcome)
      requires forall j | 0 <= j < |containers| :: containers[j].id == j
      modifies this
      ensures events == Sequence(Releases(daemon), 0, |containers|, old(events)).events
      ensures outcome == Sequence(Releases(daemon), 0, |containers|, old(events)).outcome
    {
      var n := |containers|;
      var i := 0;
      while i < n
        invariant i <= n
        invariant Sequence(Releases(daemon), 0, n, old(events)) == Sequence(Releases(daemon), i, n, events)
      {
        ghost var before := events;
        var ok := StopContainer(containers[i]);
        if !ok {
          return Fail(StopFailed(i));
        }
        ok := RemoveContainer(containers[i]);
        if !ok {
          return Fail(RemoveFailed(i));
        }
        assert events == before + [Stop(i), Remove(i)];
        i := i + 1;
      }
      outcome := Pass;
    }

    /** `run` with the `with` block's outcome `body`; `group` is the list it yields. */
    method Run(image: string, command: Value, num: int, kwargs: map<string, Value>, body: Body)
      returns (result: RunResult, group: seq<Container>)
      requires ClockRuns(daemon)
      modifies this
      ensures events == RunSpec(daemon, image, command, num, kwargs, body, old(events)).events
      ensures result == RunSpec(daemon, image, command, num, kwargs, body, old(events)).result
      ensures Ready(daemon, Request(image, command, kwargs), Count(num)) ==>
                |group| == Count(num) && forall j | 0 <= j < |group| :: group[j].id == j && fresh(group[j])
      ensures Ready(daemon, Request(image, command, kwargs), Count(num)) ==>
                forall j | 0 <= j < |group| ::
                  ReadyCheck(daemon, kwargs, j).outcome.Pass? && group[j].attrs == ReadyAttrs(daemon, kwargs, j)
    {
      var n := Count(num);
      var req := Request(image, command, kwargs);
      ghost var k0 := SequenceSteps(StartTurns(daemon, req), 0, n, []);
      ghost var k1 := SequenceSteps(StartTurns(daemon, req), 0, n, old(events));
      var containers, outcome := StartAll(req, n);
      if outcome.Fail? {
        return Raised(outcome.exc), [];
      }
      ghost var k2 := SequenceSteps(ReadyTurns(daemon, kwargs), 0, n, []);
      ghost var k3 := SequenceSteps(ReadyTurns(daemon, kwargs), 0, n, events);
      outcome := AwaitAll(containers, kwargs);
      if outcome.Fail? {
        return Raised(outcome.exc), [];
      }
      group := containers;
      events := events + [Yield(Ids(n))];
      outcome := ReleaseAll(containers);
      if outcome.Fail? {
        result := Raised(outcome.exc);
      } else if body.Raises? {
        result := Raised(BodyRaised(body.tag));
      } else {
        result := Exited;
      }
    }
  }

  /** `Start` events for containers `i` to `k - 1`, all with the same request. */
  function Starts(req: StartRequest, i: nat, k: nat): (es: seq<Event>)
    ensures |es| == if i <= k then k - i else 0
  {
    if i >= k then [] else seq(k - i, j requires 0 <= j => Start(i + j, req))
  }

  /** Stop then remove for containers `i` to `k - 1`, one container after the other. */
  function StopRemove(i: nat, k: nat): seq<Event>
    decreases k - i
  {
    if i >= k then [] else [Stop(i), Remove(i)] + StopRemove(i + 1, k)
  }

  /** Turns that do not raise in the first loop each log one `Start`. */
  lemma {:induction false} StartLog(d: Daemon, req: StartRequest, i: nat, k: nat)
    requires "detach" !in req.options
    requires forall j | i <= j < k :: !d.startFails(j)
    ensures Log(StartTurns(d, req), i, k) == Starts(req, i, k)
    decreases k - i
  {
    if i < k {
      StartLog(d, req, i + 1, k);
      assert Starts(req, i, k) == [Start(i, req)] + Starts(req, i + 1, k);
    }
  }

  /** The first loop starts containers 0, 1, ... in order with the same request
      until the first `api.run` that raises (for the `k`-th), whose exception
      `run` passes on; when none raises it starts exactly `n`. A `detach` among
      the keyword arguments makes the very first call raise TypeError before
      the daemon is asked anything. */
  lemma StartSteps(d: Daemon, req: StartRequest, n: nat) returns (k: nat)
    ensures k <= n
    ensures k > 0 ==> "detach" !in req.options
    ensures forall j | 0 <= j < k :: !d.startFails(j)
    ensures Sequence(StartTurns(d, req), 0, n, []).events == Starts(req, 0, k)
    ensures k < n && "detach" in req.options ==> Sequence(StartTurns(d, req), 0, n, []).outcome == Fail(DetachGivenTwice)
    ensures k < n && "detach" !in req.options ==>
              d.startFails(k) && Sequence(StartTurns(d, req), 0, n, []).outcome == Fail(StartFailed)
    ensures k == n ==> Sequence(StartTurns(d, req), 0, n, []).outcome == Pass
  {
    k := SequenceSteps(StartTurns(d, req), 0, n, []);
    if k > 0 {
      assert StartTurns(d, req)(0).outcome.Pass?;
    }
    forall j | 0 <= j < k ensures !d.startFails(j) {
      assert StartTurns(d, req)(j).outcome.Pass?;
    }
    if k > 0 {
      StartLog(d, req, 0, k);
    }
    if k < n {
      assert StartTurns(d, req)(k).events == [];
    }
  }

  /** Turns that do not raise in the `finally` loop each log a stop and a remove. */
  lemma {:induction false} ReleaseLog(d: Daemon, i: nat, k: nat)
    requires forall j | i <= j < k :: !d.stopFails(j) && !d.removeFails(j)
    ensures Log(Releases(d), i, k) == StopRemove(i, k)
    decreases k - i
  {
    if i < k {
      ReleaseLog(d, i + 1, k);
    }
  }

  /** The containers that `StopRemove(i, k)` stops and removes are `i` to `k - 1`. */
  lemma {:induction false} StopRemoveTouch(i: nat, k: nat, e: Event)
    requires e in StopRemove(i, k)
    ensures (e.Stop? || e.Remove?) && i <= e.id < k
    decreases k - i
  {
    if i < k && e !in [Stop(i), Remove(i)] {
      StopRemoveTouch(i + 1, k, e);
    }
  }

  /** The `finally` loop stops, then removes, each container in order until the
      first `stop()` or `remove()` that raises (on the `k`-th container); that
      exception leaves the loop and no later container is touched. */
  lemma CleanupSteps(d: Daemon, n: nat, log: seq<Event>) returns (k: nat)
    ensures k <= n
    ensures forall j | 0 <= j < k :: !d.stopFails(j) && !d.removeFails(j)
    ensures k == n ==> Sequence(Releases(d), 0, n, log) == Phase(log + StopRemove(0, n), Pass)
    ensures k < n && d.stopFails(k) ==>
              Sequence(Releases(d), 0, n, log) == Phase(log + StopRemove(0, k) + [Stop(k)], Fail(StopFailed(k)))
    ensures k < n && !d.stopFails(k) ==>
              && d.removeFails(k)
              && Sequence(Releases(d), 0, n, log) ==
                 Phase(log + StopRemove(0, k) + [Stop(k), Remove(k)], Fail(RemoveFailed(k)))
  {
    k := SequenceSteps(Releases(d), 0, n, log);
    forall j | 0 <= j < k ensures !d.stopFails(j) && !d.removeFails(j) {
      assert Releases(d)(j).outcome.Pass?;
    }
    ReleaseLog(d, 0, k);
  }

  /** The health status exists in the snapshot that `has_attr` reads. */
  predicate HealthExposed(d: Daemon, options: map<string, Value>, i: nat)
    requires ClockRuns(d)
  {
    NetworkPoll(d, options, i).result.Returned? && Resolve(ProbedAttrs(d, options, i), HealthPath).Ok?
  }

  /** What container `i` holds in `attrs` once its waits are over: the snapshot of
      its last `reload()`, taken by the health wait when there is a health status
      and by the network wait otherwise. */
  function ReadyAttrs(d: Daemon, options: map<string, Value>, i: nat): Value
    requires ClockRuns(d) && NetworkPoll(d, options, i).result.Returned?
  {
    if HealthExposed(d, options, i)
    then AttrsAfter(ProbedAttrs(d, options, i), d.trace(i, HealthPath), HealthPoll(d, i).reloads)
    else ProbedAttrs(d, options, i)
  }

  /** One turn of the second loop waits on the network path chosen by `kwargs`,
      then on the health status exactly when that status exists; it passes only
      when networking reported a truthy value (or `None`) and, where there is a
      health status, that status became `'healthy'`; a failed network wait is
      passed on as it is, and `has_attr` can only raise a TypeError. */
  lemma ReadyCheckMeans(d: Daemon, options: map<string, Value>, i: nat)
    requires ClockRuns(d)
    ensures ReadyCheck(d, options, i).events ==
            if HealthExposed(d, options, i)
            then [WaitOn(i, NetworkPath(options)), WaitOn(i, HealthPath)]
            else [WaitOn(i, NetworkPath(options))]
    ensures ReadyCheck(d, options, i).outcome.Pass? ==>
              && NetworkPoll(d, options, i).result.Returned?
              && (Truthy(NetworkPoll(d, options, i).result.value) || NetworkPoll(d, options, i).result.value == Null)
    ensures ReadyCheck(d, options, i).outcome.Pass? && HealthExposed(d, options, i) ==>
              HealthPoll(d, i).result == Returned(Healthy)
    ensures NetworkPoll(d, options, i).result.Failed? ==>
              ReadyCheck(d, options, i).outcome == Fail(WaitFailed(NetworkPoll(d, options, i).result.error))
    ensures NetworkPoll(d, options, i).result.Returned? && HasAttrOf(ProbedAttrs(d, options, i), HealthPath) == Ok(false) ==>
              ReadyCheck(d, options, i).outcome == Pass
    ensures NetworkPoll(d, options, i).result.Returned? && HasAttrOf(ProbedAttrs(d, options, i), HealthPath).Err? ==>
              ReadyCheck(d, options, i).outcome == Fail(ProbeFailed(HasAttrOf(ProbedAttrs(d, options, i), HealthPath).error))
    ensures HealthExposed(d, options, i) ==>
              ReadyCheck(d, options, i).outcome ==
              if HealthPoll(d, i).result.Failed? then Fail(WaitFailed(HealthPoll(d, i).result.error)) else Pass
    ensures ReadyCheck(d, options, i).outcome.Fail? && ReadyCheck(d, options, i).outcome.exc.ProbeFailed? ==>
              ReadyCheck(d, options, i).outcome.exc.cause == TypeError
  {
    var net := NetworkPath(options);
    var p := NetworkPoll(d, options, i);
    var k := WaitNoneReturnsTruthyOrNone(d.trace(i, net), net, DefaultTimeout);
    WaitReturnsOnlyLiteral(d.trace(i, HealthPath), HealthPath, Healthy, DefaultTimeout);
    if p.result.Returned? {
      HasAttrTrueIff(ProbedAttrs(d, options, i), HealthPath);
      HasAttrOnlyTypeError(ProbedAttrs(d, options, i), HealthPath);
      if HealthPoll(d, i).result.Returned? {
        PyEqFacts(HealthPoll(d, i).result.value, Healthy, "healthy");
      }
    }
  }

  /** The snapshot a ready container is handed over with: with a health status it
      reads `'healthy'` there; without one, `has_attr` finds none and the network
      path resolves to what the network wait returned. */
  lemma ReadyAttrsShow(d: Daemon, options: map<string, Value>, i: nat)
    requires ClockRuns(d) && ReadyCheck(d, options, i).outcome.Pass?
    ensures NetworkPoll(d, options, i).result.Returned?
    ensures HealthExposed(d, options, i) ==> Resolve(ReadyAttrs(d, options, i), HealthPath) == Ok(Healthy)
    ensures !HealthExposed(d, options, i) ==>
              && HasAttrOf(ReadyAttrs(d, options, i), HealthPath) == Ok(false)
              && Resolve(ReadyAttrs(d, options, i), NetworkPath(options)) == Ok(NetworkPoll(d, options, i).result.value)
  {
    var net := NetworkPath(options);
    ReadyCheckMeans(d, options, i);
    WaitReadsFreshSnapshot(d.trace(i, net), net, Null, DefaultTimeout);
    WaitReadsFreshSnapshot(d.trace(i, HealthPath), HealthPath, Healthy, DefaultTimeout);
    HasAttrTrueIff(ProbedAttrs(d, options, i), HealthPath);
  }

  /** The second loop only ever waits, and turns `i` to `k - 1` only on containers `i` to `k - 1`. */
  lemma {:induction false} ReadyLogWaits(d: Daemon, options: map<string, Value>, i: nat, k: nat, e: Event)
    requires ClockRuns(d) && e in Log(ReadyTurns(d, options), i, k)
    ensures e.WaitOn? && i <= e.id < k
    decreases k - i
  {
    if i < k {
      ReadyCheckMeans(d, options, i);
      if e !in ReadyCheck(d, options, i).events {
        ReadyLogWaits(d, options, i + 1, k, e);
      }
    }
  }

  /** The log `run` has written when it reaches its `yield`: every start, then
      every container's waits, in creation order. */
  lemma ReadyPrefix(d: Daemon, req: StartRequest, n: nat) returns (w: seq<Event>)
    requires ClockRuns(d) && Ready(d, req, n)
    ensures w == Starts(req, 0, n) + Log(ReadyTurns(d, req.options), 0, n)
    ensures Sequence(StartTurns(d, req), 0, n, []) == Phase(Starts(req, 0, n), Pass)
    ensures Sequence(ReadyTurns(d, req.options), 0, n, Starts(req, 0, n)) == Phase(w, Pass)
  {
    var k0 := StartSteps(d, req, n);
    var k1 := SequenceSteps(ReadyTurns(d, req.options), 0, n, []);
    var k2 := SequenceSteps(ReadyTurns(d, req.options), 0, n, Starts(req, 0, n));
    w := Starts(req, 0, n) + Log(ReadyTurns(d, req.options), 0, n);
  }

  /** When an `api.run` raises, `run` raises that exception having done nothing
      but start the containers before it: no wait, no `yield`, no stop or remove. */
  lemma RunStartFailure(d: Daemon, image: string, command: Value, num: int, kwargs: map<string, Value>, body: Body)
    requires ClockRuns(d)
    requires Sequence(StartTurns(d, Request(image, command, kwargs)), 0, Count(num), []).outcome.Fail?
    ensures RunSpec(d, image, command, num, kwargs, body, []).result ==
            Raised(if "detach" in kwargs then DetachGivenTwice else StartFailed)
    ensures forall e | e in RunSpec(d, image, command, num, kwargs, body, []).events :: e.Start?
  {
    var k := StartSteps(d, Request(image, command, kwargs), Count(num));
  }

  /** A `detach` keyword clashes with the `detach=True` that `run` passes itself:
      with at least one container to start, `run` raises TypeError at once and
      nothing is started, waited on or released. */
  lemma RunDetachRejected(d: Daemon, image: string, command: Value, num: int, kwargs: map<string, Value>, body: Body)
    requires ClockRuns(d) && "detach" in kwargs && num >= 1
    ensures RunSpec(d, image, command, num, kwargs, body, []) == Session([], Raised(DetachGivenTwice))
  {
    var k := StartSteps(d, Request(image, command, kwargs), Count(num));
  }

  /** A failed wait leaves `run` before its `try`: every container was started,
      the exception of the wait propagates, and no container is stopped or
      removed; the `with` block never runs. */
  lemma RunWaitFailureLeaks(d: Daemon, image: string, command: Value, num: int, kwargs: map<string, Value>, body: Body)
    requires ClockRuns(d)
    requires Sequence(StartTurns(d, Request(image, command, kwargs)), 0, Count(num), []).outcome.Pass?
    requires Sequence(ReadyTurns(d, kwargs), 0, Count(num), []).outcome.Fail?
    ensures RunSpec(d, image, command, num, kwargs, body, []).result ==
            Raised(Sequence(ReadyTurns(d, kwargs), 0, Count(num), []).outcome.exc)
    ensures Starts(Request(image, command, kwargs), 0, Count(num)) <= RunSpec(d, image, command, num, kwargs, body, []).events
    ensures forall e | e in RunSpec(d, image, command, num, kwargs, body, []).events :: e.Start? || e.WaitOn?
  {
    var n := Count(num);
    var req := Request(image, command, kwargs);
    var starts := Starts(req, 0, n);
    var k0 := StartSteps(d, req, n);
    var k1 := SequenceSteps(ReadyTurns(d, kwargs), 0, n, []);
    var k := SequenceSteps(ReadyTurns(d, kwargs), 0, n, starts);
    var waits := Log(ReadyTurns(d, kwargs), 0, k) + ReadyCheck(d, kwargs, k).events;
    var r := RunSpec(d, image, command, num, kwargs, body, []);
    assert r.events == starts + waits;
    ReadyCheckMeans(d, kwargs, k);
    forall e | e in r.events ensures e.Start? || e.WaitOn? {
      if e in Log(ReadyTurns(d, kwargs), 0, k) {
        ReadyLogWaits(d, kwargs, 0, k, e);
      } else if e !in starts {
        assert e in ReadyCheck(d, kwargs, k).events;
      }
    }
  }

  /** When every container started and became ready, and no `stop()` or
      `remove()` raises, `run` starts all containers, waits on them, yields
      them, then stops and removes each in creation order, whether the `with`
      block returned or raised; the block's own outcome is `run`'s. */
  lemma RunReleasesEach(d: Daemon, image: string, command: Value, num: int, kwargs: map<string, Value>, body: Body)
    requires ClockRuns(d) && Ready(d, Request(image, command, kwargs), Count(num))
    requires forall j | 0 <= j < Count(num) :: !d.stopFails(j) && !d.removeFails(j)
    ensures RunSpec(d, image, command, num, kwargs, body, []).events ==
            Starts(Request(image, command, kwargs), 0, Count(num)) + Log(ReadyTurns(d, kwargs), 0, Count(num))
            + [Yield(Ids(Count(num)))] + StopRemove(0, Count(num))
    ensures RunSpec(d, image, command, num, kwargs, body, []).result ==
            if body.Raises? then Raised(BodyRaised(body.tag)) else Exited
  {
    var n := Count(num);
    var w := ReadyPrefix(d, Request(image, command, kwargs), n);
    var k := CleanupSteps(d, n, w + [Yield(Ids(n))]);
  }

  /** The first `stop()` or `remove()` that raises (on the `k`-th container) ends
      the cleanup: its exception is what `run` raises, in place of whatever the
      `with` block did, and no container after the `k`-th is stopped or removed. */
  lemma RunCleanupAborts(d: Daemon, image: string, command: Value, num: int, kwargs: map<string, Value>, body: Body,
                         k: nat)
    requires ClockRuns(d) && Ready(d, Request(image, command, kwargs), Count(num))
    requires k < Count(num) && (d.stopFails(k) || d.removeFails(k))
    requires forall j | 0 <= j < k :: !d.stopFails(j) && !d.removeFails(j)
    ensures RunSpec(d, image, command, num, kwargs, body, []).result ==
            Raised(if d.stopFails(k) then StopFailed(k) else RemoveFailed(k))
    ensures forall e | e in RunSpec(d, image, command, num, kwargs, body, []).events && (e.Stop? || e.Remove?) :: e.id <= k
  {
    var n := Count(num);
    var req := Request(image, command, kwargs);
    var w := ReadyPrefix(d, req, n);
    var k3 := CleanupSteps(d, n, w + [Yield(Ids(n))]);
    assert k3 == k;
    var tail := if d.stopFails(k) then [Stop(k)] else [Stop(k), Remove(k)];
    var r := RunSpec(d, image, command, num, kwargs, body, []);
    assert r.events == w + [Yield(Ids(n))] + StopRemove(0, k) + tail;
    forall e | e in r.events && (e.Stop? || e.Remove?) ensures e.id <= k {
      if e in StopRemove(0, k) {
        StopRemoveTouch(0, k, e);
      } else if e in Log(ReadyTurns(d, kwargs), 0, n) {
        ReadyLogWaits(d, kwargs, 0, n, e);
      } else if e !in Starts(req, 0, n) {
        assert e in tail;
      }
    }
  }

  /** `num <= 0`: nothing is started or waited on; `run` yields the empty list
      and ends as the `with` block does. */
  lemma RunNoContainers(d: Daemon, image: string, command: Value, num: int, kwargs: map<string, Value>, body: Body)
    requires ClockRuns(d) && num <= 0
    ensures RunSpec(d, image, command, num, kwargs, body, []).events == [Yield([])]
    ensures RunSpec(d, image, command, num, kwargs, body, []).result ==
            if body.Raises? then Raised(BodyRaised(body.tag)) else Exited
  {
  }
}
