/** `waitfor`: poll a container, reloading its `attrs` before every check, until
    the value at a key path is truthy (or `None`) or equals an expected value,
    or until the clock passes the timeout. */
module Readiness {
  import opened PyValue
  import opened AttrPath

  /** `waitfor`'s default `timeout`, in seconds. */
  const DefaultTimeout: int := 20

  datatype Option<T> = None | Some(value: T)

  /** One turn of the loop as the outside world decides it: the clock reading
      `time.time() - start` taken by the loop test, and the snapshot that
      `reload()` would return right after it. */
  datatype Round = Round(elapsed: int, snapshot: Value)

  type Trace = seq<Round>

  /** The clock eventually reaches the timeout; readings past the first such one
      are never taken. */
  predicate ValidTrace(trace: Trace, timeout: int) {
    |trace| > 0 && trace[|trace| - 1].elapsed >= timeout
  }

  /** What the timeout message prints for `expect`: `expect if expect else 'not None'`. */
  datatype Shown = Literal(v: Value) | NotNone

  function ShownExpect(expected: Value): (s: Shown)
    ensures s == NotNone <==> !Truthy(expected)
    ensures s.Literal? ==> s.v == expected
  {
    if Truthy(expected) then Literal(expected) else NotNone
  }

  datatype WaitError =
    | Timeout(path: Path, shown: Shown, last: Value)  // TimeoutError with its message parts
    | Lookup(error: PyError)                           // raised by `get` on the fresh snapshot
    | Unbound                                          // the `else` branch names `val` before any turn bound it

  datatype WaitResult = Returned(value: Value) | Failed(error: WaitError)

  /** The outcome of a poll and how many times it called `reload()`. */
  datatype Polling = Polling(result: WaitResult, reloads: nat)

  /** The test at the end of a turn: `expect is None and val`, or `val == expect`. */
  predicate Stops(val: Value, expected: Value) {
    (expected == Null && Truthy(val)) || PyEq(val, expected)
  }

  /** The poll from turn `i` on; `last` is the value seen on the turn before, if any. */
  function Poll(trace: Trace, path: Path, expected: Value, timeout: int, i: nat, last: Option<Value>): (p: Polling)
    requires ValidTrace(trace, timeout) && i < |trace|
    ensures i <= p.reloads <= |trace|
    ensures p.result.Returned? ==> i < p.reloads
    decreases |trace| - i
  {
    if trace[i].elapsed >= timeout then
      Polling(if last.None? then Failed(Unbound) else Failed(Timeout(path, ShownExpect(expected), last.value)), i)
    else match Resolve(trace[i].snapshot, path)
      case Err(e) => Polling(Failed(Lookup(e)), i + 1)
      case Ok(v) =>
        if Stops(v, expected) then Polling(Returned(v), i + 1)
        else Poll(trace, path, expected, timeout, i + 1, Some(v))
  }

  /** `waitfor(cntr, path, expect, timeout)` against the clock and reload trace. */
  function Wait(trace: Trace, path: Path, expected: Value, timeout: int): Polling
    requires ValidTrace(trace, timeout)
  {
    Poll(trace, path, expected, timeout, 0, None)
  }

  /** The snapshot `cntr.attrs` holds after `reloads` calls of `reload()`. */
  function AttrsAfter(before: Value, trace: Trace, reloads: nat): Value
    requires reloads <= |trace|
  {
    if reloads == 0 then before else trace[reloads - 1].snapshot
  }

  /** `waitfor`: the `while` loop, its clock test, `reload()`, `get` and the two
      exits of the stop rule, then the `else` branch that raises. */
  method WaitFor(cntr: Container, trace: Trace, path: Path, expected: Value, timeout: int)
    returns (r: WaitResult)
    requires ValidTrace(trace, timeout)
    modifies cntr
    ensures r == Wait(trace, path, expected, timeout).result
    ensures cntr.attrs == AttrsAfter(old(cntr.attrs), trace, Wait(trace, path, expected, timeout).reloads)
  {
    var i := 0;
    var val: Option<Value> := None;
    while trace[i].elapsed < timeout
      invariant i < |trace|
      invariant Wait(trace, path, expected, timeout) == Poll(trace, path, expected, timeout, i, val)
      invariant i == 0 ==> val.None?
      invariant cntr.attrs == AttrsAfter(old(cntr.attrs), trace, i)
      decreases |trace| - i
    {
      cntr.Reload(trace[i].snapshot);
      var got := Get(cntr.attrs, path);
      if got.Err? {
        return Failed(Lookup(got.error));
      }
      var v := got.value;
      if expected == Null && Truthy(v) {
        return Returned(v);
      } else if PyEq(v, expected) {
        return Returned(v);
      }
      val := Some(v);
      i := i + 1;
    }
    if val.None? {
      r := Failed(Unbound);
    } else {
      r := Failed(Timeout(path, ShownExpect(expected), val.value));
    }
  }

  /** Turn `j` ran its check and did not stop the poll: the clock allowed it,
      `get` succeeded on the fresh snapshot, and the stop rule said no. */
  predicate Missed(trace: Trace, path: Path, expected: Value, timeout: int, j: nat)
    requires j < |trace|
  {
    && trace[j].elapsed < timeout
    && Resolve(trace[j].snapshot, path).Ok?
    && !Stops(Resolve(trace[j].snapshot, path).value, expected)
  }

  /** Turn `k` is where the poll ends: every earlier turn missed and this one did not. */
  predicate EndsAt(trace: Trace, path: Path, expected: Value, timeout: int, k: nat)
    requires k < |trace|
  {
    && (forall j | 0 <= j < k :: Missed(trace, path, expected, timeout, j))
    && !Missed(trace, path, expected, timeout, k)
  }

  /** At most one turn ends the poll. */
  lemma EndsAtUnique(trace: Trace, path: Path, expected: Value, timeout: int, k1: nat, k2: nat)
    requires k1 < |trace| && k2 < |trace|
    requires EndsAt(trace, path, expected, timeout, k1) && EndsAt(trace, path, expected, timeout, k2)
    ensures k1 == k2
  {
  }

  /** The poll from turn `i` ends at some turn `k`; its outcome is read off that turn
      alone, and it made one `reload()` per turn whose clock test passed. */
  lemma {:induction false} PollEnds(trace: Trace, path: Path, expected: Value, timeout: int, i: nat, last: Option<Value>)
    returns (k: nat)
    requires ValidTrace(trace, timeout) && i < |trace|
    requires i > 0 ==> Resolve(trace[i - 1].snapshot, path).Ok? && last == Some(Resolve(trace[i - 1].snapshot, path).value)
    requires i == 0 ==> last.None?
    ensures i <= k < |trace|
    ensures forall j | i <= j < k :: Missed(trace, path, expected, timeout, j)
    ensures !Missed(trace, path, expected, timeout, k)
    ensures k > 0 ==> Resolve(trace[k - 1].snapshot, path).Ok?
    ensures Poll(trace, path, expected, timeout, i, last) == Settle(trace, path, expected, timeout, k)
    decreases |trace| - i
  {
    if trace[i].elapsed >= timeout {
      k := i;
    } else {
      match Resolve(trace[i].snapshot, path)
      case Err(e) => k := i;
      case Ok(v) =>
        if Stops(v, expected) {
          k := i;
        } else {
          k := PollEnds(trace, path, expected, timeout, i + 1, Some(v));
        }
    }
  }

  /** The outcome of a poll that ends at turn `k`. */
  function Settle(trace: Trace, path: Path, expected: Value, timeout: int, k: nat): Polling
    requires k < |trace|
    requires k > 0 ==> Resolve(trace[k - 1].snapshot, path).Ok?
  {
    if trace[k].elapsed >= timeout then
      Polling(if k == 0 then Failed(Unbound)
              else Failed(Timeout(path, ShownExpect(expected), Resolve(trace[k - 1].snapshot, path).value)), k)
    else match Resolve(trace[k].snapshot, path)
      case Err(e) => Polling(Failed(Lookup(e)), k + 1)
      case Ok(v) => Polling(Returned(v), k + 1)
  }

  /** The turn at which `waitfor` ends, with every earlier turn a miss. */
  lemma WaitEnds(trace: Trace, path: Path, expected: Value, timeout: int) returns (k: nat)
    requires ValidTrace(trace, timeout)
    ensures k < |trace| && EndsAt(trace, path, expected, timeout, k)
    ensures k > 0 ==> Resolve(trace[k - 1].snapshot, path).Ok?
    ensures Wait(trace, path, expected, timeout) == Settle(trace, path, expected, timeout, k)
  {
    k := PollEnds(trace, path, expected, timeout, 0, None);
  }

  /** `waitfor` returns `v` exactly when some turn whose clock test passed resolves
      the path on its fresh snapshot to `v`, `v` passes the stop rule, and every
      earlier turn resolved to a value that did not. */
  lemma WaitReturnsIff(trace: Trace, path: Path, expected: Value, timeout: int, v: Value)
    requires ValidTrace(trace, timeout)
    ensures Wait(trace, path, expected, timeout).result == Returned(v) <==>
            exists k | 0 <= k < |trace| ::
              && EndsAt(trace, path, expected, timeout, k)
              && trace[k].elapsed < timeout
              && Resolve(trace[k].snapshot, path) == Ok(v)
              && Stops(v, expected)
  {
    var k := WaitEnds(trace, path, expected, timeout);
    if exists k' | 0 <= k' < |trace| ::
         && EndsAt(trace, path, expected, timeout, k')
         && trace[k'].elapsed < timeout
         && Resolve(trace[k'].snapshot, path) == Ok(v)
         && Stops(v, expected) {
      var k' :| 0 <= k' < |trace| && EndsAt(trace, path, expected, timeout, k')
                && trace[k'].elapsed < timeout && Resolve(trace[k'].snapshot, path) == Ok(v);
      EndsAtUnique(trace, path, expected, timeout, k, k');
    }
  }

  /** With `expect` given (not `None`), a returned value equals `expect`: a truthy
      value that differs keeps the poll going. */
  lemma WaitReturnsOnlyLiteral(trace: Trace, path: Path, expected: Value, timeout: int)
    requires ValidTrace(trace, timeout) && expected != Null
    ensures Wait(trace, path, expected, timeout).result.Returned? ==>
            PyEq(Wait(trace, path, expected, timeout).result.value, expected)
  {
    var k := WaitEnds(trace, path, expected, timeout);
  }

  /** With `expect` left as `None`, the poll ends at turn `k`: every earlier turn
      saw a falsy value other than `None` and went on polling, and a value
      returned at turn `k` is truthy or is `None` itself (`None == None`). */
  lemma WaitNoneReturnsTruthyOrNone(trace: Trace, path: Path, timeout: int) returns (k: nat)
    requires ValidTrace(trace, timeout)
    ensures k < |trace| && EndsAt(trace, path, Null, timeout, k)
    ensures forall j | 0 <= j < k ::
              && Resolve(trace[j].snapshot, path).Ok?
              && !Truthy(Resolve(trace[j].snapshot, path).value)
              && Resolve(trace[j].snapshot, path).value != Null
    ensures Wait(trace, path, Null, timeout).result.Returned? ==>
              && Resolve(trace[k].snapshot, path) == Ok(Wait(trace, path, Null, timeout).result.value)
              && (Truthy(Wait(trace, path, Null, timeout).result.value) ||
                  Wait(trace, path, Null, timeout).result.value == Null)
  {
    k := WaitEnds(trace, path, Null, timeout);
    forall j | 0 <= j < k
      ensures && Resolve(trace[j].snapshot, path).Ok?
              && !Truthy(Resolve(trace[j].snapshot, path).value)
              && Resolve(trace[j].snapshot, path).value != Null
    {
      assert Missed(trace, path, Null, timeout, j);
      PyEqFacts(Resolve(trace[j].snapshot, path).value, Null, "");
    }
    var r := Wait(trace, path, Null, timeout).result;
    if r.Returned? {
      PyEqFacts(r.value, Null, "");
    }
  }

  /** A missing key (or any other failure of `get`) ends the poll at once: the error
      of the first turn whose `get` fails is raised, with no later turn tried. */
  lemma WaitLookupIff(trace: Trace, path: Path, expected: Value, timeout: int, e: PyError)
    requires ValidTrace(trace, timeout)
    ensures Wait(trace, path, expected, timeout) == Polling(Failed(Lookup(e)), Wait(trace, path, expected, timeout).reloads) <==>
            exists k | 0 <= k < |trace| ::
              && EndsAt(trace, path, expected, timeout, k)
              && trace[k].elapsed < timeout
              && Resolve(trace[k].snapshot, path) == Err(e)
              && Wait(trace, path, expected, timeout).reloads == k + 1
  {
    var k := WaitEnds(trace, path, expected, timeout);
    if exists k' | 0 <= k' < |trace| ::
         && EndsAt(trace, path, expected, timeout, k')
         && trace[k'].elapsed < timeout
         && Resolve(trace[k'].snapshot, path) == Err(e)
         && Wait(trace, path, expected, timeout).reloads == k' + 1 {
      var k' :| 0 <= k' < |trace| && EndsAt(trace, path, expected, timeout, k')
                && trace[k'].elapsed < timeout && Resolve(trace[k'].snapshot, path) == Err(e);
      EndsAtUnique(trace, path, expected, timeout, k, k');
    }
  }

  /** `TimeoutError` is raised exactly when the clock passes the timeout at a turn
      after the first; it carries the path, `expect` (or 'not None' when `expect`
      is falsy) and the value seen on the last turn. */
  lemma WaitTimeoutIff(trace: Trace, path: Path, expected: Value, timeout: int, last: Value)
    requires ValidTrace(trace, timeout)
    ensures Wait(trace, path, expected, timeout).result == Failed(Timeout(path, ShownExpect(expected), last)) <==>
            exists k | 0 < k < |trace| ::
              && EndsAt(trace, path, expected, timeout, k)
              && trace[k].elapsed >= timeout
              && Resolve(trace[k - 1].snapshot, path) == Ok(last)
    ensures Wait(trace, path, expected, timeout).result.Failed? &&
            Wait(trace, path, expected, timeout).result.error.Timeout? ==>
            Wait(trace, path, expected, timeout).result.error.path == path &&
            Wait(trace, path, expected, timeout).result.error.shown == ShownExpect(expected)
  {
    var k := WaitEnds(trace, path, expected, timeout);
    if exists k' | 0 < k' < |trace| ::
         && EndsAt(trace, path, expected, timeout, k')
         && trace[k'].elapsed >= timeout
         && Resolve(trace[k' - 1].snapshot, path) == Ok(last) {
      var k' :| 0 < k' < |trace| && EndsAt(trace, path, expected, timeout, k')
                && trace[k'].elapsed >= timeout && Resolve(trace[k' - 1].snapshot, path) == Ok(last);
      EndsAtUnique(trace, path, expected, timeout, k, k');
    }
  }

  /** When the very first clock test fails, `val` was never bound and the `else`
      branch raises a NameError instead of `TimeoutError`; no reload happens. */
  lemma WaitUnboundIff(trace: Trace, path: Path, expected: Value, timeout: int)
    requires ValidTrace(trace, timeout)
    ensures Wait(trace, path, expected, timeout).result == Failed(Unbound) <==> trace[0].elapsed >= timeout
    ensures Wait(trace, path, expected, timeout).result == Failed(Unbound) ==> Wait(trace, path, expected, timeout).reloads == 0
  {
    var k := WaitEnds(trace, path, expected, timeout);
    if k > 0 {
      assert Missed(trace, path, expected, timeout, 0);
    }
  }

  /** Every value `waitfor` returns was read from the snapshot of the last `reload()`,
      and that reload was the turn's own. */
  lemma WaitReadsFreshSnapshot(trace: Trace, path: Path, expected: Value, timeout: int)
    requires ValidTrace(trace, timeout)
    ensures var p := Wait(trace, path, expected, timeout);
            p.result.Returned? ==>
              && 0 < p.reloads <= |trace|
              && trace[p.reloads - 1].elapsed < timeout
              && Resolve(trace[p.reloads - 1].snapshot, path) == Ok(p.result.value)
  {
    var k := WaitEnds(trace, path, expected, timeout);
  }

  /** A non-positive timeout on a clock that starts at zero or later: NameError. */
  lemma NonPositiveTimeoutIsUnbound(trace: Trace, path: Path, expected: Value, timeout: int)
    requires ValidTrace(trace, timeout) && timeout <= 0 && trace[0].elapsed >= 0
    ensures Wait(trace, path, expected, timeout).result == Failed(Unbound)
  {
    WaitUnboundIff(trace, path, expected, timeout);
  }
}
