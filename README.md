# pytest-dockerctl container lifecycle, in Dafny

This project models the core of `pytest_dockerctl`, a pytest helper that
starts throwaway docker containers for an integration test and tears them
down afterwards. The core has three parts, all in `pytest_dockerctl/__init__.py`.

- `has_attr` walks a key path through a container's nested `attrs` mapping.
- `waitfor` polls a container until the value at a key path is truthy, or
  equals an expected value, or a timeout passes. Its inner helper `get`
  resolves the path.
- `DockerCtl.run` starts `num` containers and waits on each one: first for
  networking, then for health when the container reports a health status.
  It yields the list of containers to the `with` block, then stops and
  removes each one in creation order.

The project has four modules, one per file.

- `PyValue` (`pyvalue.dfy`): the JSON-like tree of a container's `attrs`
  (`None`, bool, int, str, list, dict). It also gives the parts of Python
  that the code relies on: truthiness, `==` (where `True == 1`), the `in`
  operator with a string key (dict key, substring, list element, TypeError on
  `None`/bool/int) and `v[key]` (KeyError or TypeError).
- `AttrPath` (`attr_path.dfy`): the `Container` handle, whose `attrs` only
  `reload()` changes. It holds `has_attr` and `get` as loops over the path,
  each proved equal to a recursive walk. It also characterises when each
  walk answers True, answers False or raises.
- `Readiness` (`readiness.dfy`): `waitfor`. The wall clock and `reload()` are
  replaced by a trace of rounds. Each round holds the clock reading the loop
  test takes and the snapshot that `reload()` returns next. `WaitFor` is the
  `while` loop. The method is proved equal to the recursive `Poll` (wrapped by
  `Wait`), which the lemmas then characterise.
- `Lifecycle` (`lifecycle.dfy`): `DockerCtl.run` as a class whose
  methods append to an event log (`Start`, `WaitOn`, `Yield`, `Stop`,
  `Remove`). A `Daemon` value holds the answers the docker client would
  give:
  - which `api.run` calls raise;
  - the clock and reload trace of each wait;
  - which `stop()` and `remove()` calls raise.

  Each of the three loops of `run` is an instance of one generic
  first-exception loop, `Sequence(turn, i, n, log)`. `Run` is proved to
  produce the log and outcome of the function `RunSpec`, and the lemmas
  describe `RunSpec`.

Behaviour that the model keeps because the code has it:

- With `expect=None`, a value of `None` satisfies `val == expect` and is returned.
- When the very first clock test fails, `val` is unbound, and the `else`
  branch raises a NameError instead of `TimeoutError` (the `Unbound` outcome).
- `has_attr` reads the snapshot that the network wait's last `reload()`
  fetched. It does not reload again.
- `run` itself never passes a timeout, so every wait uses the default of 20.
- `run` passes `detach=True` itself, so a `detach` among its keyword arguments
  makes the first `api.run` call raise TypeError (`RunDetachRejected`).

The docstring of `run` (`pytest_dockerctl/__init__.py`, lines 71-73) promises
that teardown stops and removes every container it launched. The code keeps
that promise only when every container became ready and every `stop()` and
`remove()` succeeded. The model follows the code.

- The `try` starts only at the `yield`. A wait that fails therefore
  leaves every started container running (`RunWaitFailureLeaks`).
- The first `stop()` or `remove()` that raises leaves the `finally` loop,
  so later containers are neither stopped nor removed. That exception also
  replaces the `with` block's outcome (`RunCleanupAborts`).

## Model

| member | source | states |
|---|---|---|
| PyValue.Normal | pytest_dockerctl/__init__.py:54 | the value Python's `==` compares is never a bool, keeps `None` and strings as they are, and keeps truthiness |
| PyValue.PyEqFacts | pytest_dockerctl/__init__.py:52-55 | `==` is reflexive and symmetric, equals a string only when the value is that same string, equals `None` only for `None`, equates True with 1 and False with 0, and preserves truthiness |
| PyValue.Contains | pytest_dockerctl/__init__.py:26 | `key in attrs` raises TypeError exactly on `None`, bools and ints; on a dict it answers whether the key is present |
| PyValue.Subscript | pytest_dockerctl/__init__.py:29 | `attrs[key]` succeeds exactly on a dict holding the key and gives its value; it raises KeyError on a dict without the key and TypeError on anything else |
| AttrPath.Container.Reload | pytest_dockerctl/__init__.py:50 | after `reload()` the container's `attrs` is the snapshot the runtime reports |
| AttrPath.HasAttr | pytest_dockerctl/__init__.py:20-31 | the loop's answer equals the recursive walk `HasAttrOf` on the container's `attrs`, and it is True exactly when `get` would resolve the whole path |
| AttrPath.Get | pytest_dockerctl/__init__.py:43-46 | the loop's result equals the recursive `Resolve`; it succeeds exactly when every key is present in a dict at its level |
| AttrPath.ResolvePrefixTail | pytest_dockerctl/__init__.py:44-45 | resolving the first k+1 keys from v is resolving k keys from `v[path[0]]` |
| AttrPath.ResolveOkIff | pytest_dockerctl/__init__.py:43-46 | `get` succeeds exactly when every key is found in a dict at its level |
| AttrPath.HasAttrTrueIff | pytest_dockerctl/__init__.py:20-31 | `has_attr` answers True exactly when the whole path resolves, including for the empty path |
| AttrPath.HasAttrFalseIff | pytest_dockerctl/__init__.py:25-27 | `has_attr` answers False exactly when some key, reached in order, is not `in` the value before it |
| AttrPath.HasAttrRaisesIff | pytest_dockerctl/__init__.py:25-29 | `has_attr` raises exactly when the walk reaches a non-dict on which `in` raises or answers True |
| AttrPath.StopsAtFirstAbsent | pytest_dockerctl/__init__.py:25-27 | on a walk through dicts, the first absent key makes the answer False, whatever keys follow it |
| AttrPath.HasAttrOnlyTypeError | pytest_dockerctl/__init__.py:25-29 | `has_attr` never raises KeyError; any exception it lets through is a TypeError |
| Readiness.ShownExpect | pytest_dockerctl/__init__.py:57-58 | the timeout message shows `expect` when it is truthy and `'not None'` otherwise |
| Readiness.Poll | pytest_dockerctl/__init__.py:49-58 | the number of reloads lies between the starting turn and the trace length, and is past the starting turn whenever a value is returned |
| Readiness.WaitFor | pytest_dockerctl/__init__.py:34-58 | the `while` loop returns or raises what `Wait` specifies, and leaves the container holding the snapshot of its last reload |
| Readiness.EndsAtUnique | pytest_dockerctl/__init__.py:49-55 | at most one turn ends the poll |
| Readiness.PollEnds | pytest_dockerctl/__init__.py:49-58 | the poll from any turn ends at one turn k: every earlier turn missed, and the outcome is read off turn k |
| Readiness.WaitEnds | pytest_dockerctl/__init__.py:49-58 | `waitfor` ends at one turn k, every earlier turn having missed, and its outcome and reload count are those of turn k |
| Readiness.WaitReturnsIff | pytest_dockerctl/__init__.py:49-55 | `waitfor` returns v exactly when the ending turn passed the clock test, resolved the path to v and v meets the stop rule |
| Readiness.WaitReturnsOnlyLiteral | pytest_dockerctl/__init__.py:54-55 | with `expect` given, a returned value equals `expect`; a truthy value that differs keeps polling |
| Readiness.WaitNoneReturnsTruthyOrNone | pytest_dockerctl/__init__.py:49-55 | with `expect=None`, the poll ends at one turn; every earlier turn resolved to a falsy value other than `None` and kept polling, and a value returned is the one read at that turn and is truthy or is `None` itself |
| Readiness.WaitLookupIff | pytest_dockerctl/__init__.py:43-51 | `get` raising on a fresh snapshot ends the poll at once with that error, after exactly one reload per turn so far |
| Readiness.WaitTimeoutIff | pytest_dockerctl/__init__.py:56-58 | TimeoutError is raised exactly when the clock passes the timeout after at least one turn; it carries the path, the shown `expect` and the last value seen |
| Readiness.WaitUnboundIff | pytest_dockerctl/__init__.py:48-58 | NameError (the unbound `val`) happens exactly when the first clock test fails, and then nothing is reloaded |
| Readiness.WaitReadsFreshSnapshot | pytest_dockerctl/__init__.py:49-51 | a returned value was read from the snapshot of that turn's own reload, taken before the timeout |
| Readiness.NonPositiveTimeoutIsUnbound | pytest_dockerctl/__init__.py:48-58 | a timeout of 0 or less, on a clock that starts at 0 or later, always ends in the NameError |
| Lifecycle.Count | pytest_dockerctl/__init__.py:77 | `range(num)` has `num` elements, or none when `num <= 0` |
| Lifecycle.SequenceSteps | pytest_dockerctl/__init__.py:83-103 | each loop of `run` runs every turn up to the first one that raises, passes that exception on, and logs the turns in order; when no turn raises it runs them all |
| Lifecycle.SequenceAfter | pytest_dockerctl/__init__.py:83-103 | a loop of `run` that follows earlier events adds the same events and ends the same way as it would after none |
| Lifecycle.NetworkPath | pytest_dockerctl/__init__.py:86-90 | the wait is on `NetworkSettings.Networks.host` exactly when `kwargs['network'] == 'host'`, and on `NetworkSettings.IPAddress` otherwise |
| Lifecycle.DockerCtl.StartContainer | pytest_dockerctl/__init__.py:78 | a `detach` among the keyword arguments makes the call raise TypeError before docker is asked; otherwise `api.run` either raises and logs nothing, or gives a fresh container with the next id and logs its start with the request |
| Lifecycle.DockerCtl.Await | pytest_dockerctl/__init__.py:86-93 | a wait logs `WaitOn`, gives the outcome of `Wait` on that container's trace with the default timeout, and leaves the snapshot of its last reload |
| Lifecycle.DockerCtl.StopContainer | pytest_dockerctl/__init__.py:98 | `stop()` is logged and reports whether it raised |
| Lifecycle.DockerCtl.RemoveContainer | pytest_dockerctl/__init__.py:101 | `remove()` is logged and reports whether it raised |
| Lifecycle.DockerCtl.StartAll | pytest_dockerctl/__init__.py:75-81 | the first loop's log and outcome are those of the start sequence; the collected containers are fresh and numbered in start order, all `n` of them when none failed |
| Lifecycle.DockerCtl.AwaitReady | pytest_dockerctl/__init__.py:84-93 | one container's network wait, `has_attr` probe and optional health wait append exactly the events of `ReadyCheck` and end as it does; on success the container holds `ReadyAttrs`, the snapshot of its last reload |
| Lifecycle.DockerCtl.AwaitAll | pytest_dockerctl/__init__.py:83-93 | the second loop's log and outcome are those of the readiness sequence over all containers in creation order; on success every container passed its turn and holds its `ReadyAttrs` |
| Lifecycle.DockerCtl.ReleaseAll | pytest_dockerctl/__init__.py:96-103 | the `finally` loop's log and outcome are those of the release sequence in creation order |
| Lifecycle.DockerCtl.Run | pytest_dockerctl/__init__.py:69-103 | `run` appends the log of `RunSpec` and ends as it does; when every container started and became ready, it yields exactly the started containers, fresh and in start order, each holding its `ReadyAttrs` (cleanup does not reload) |
| Lifecycle.StartLog | pytest_dockerctl/__init__.py:77-81 | start turns that do not raise each log one `Start` with the same request, in order |
| Lifecycle.StartSteps | pytest_dockerctl/__init__.py:75-81 | `run` starts containers 0, 1, … with the same image, command, `detach=True` and kwargs until the first `api.run` that raises, whose exception it passes on; otherwise it starts exactly `num`. With `detach` among the kwargs nothing starts and the first call's TypeError is passed on |
| Lifecycle.ReleaseLog | pytest_dockerctl/__init__.py:97-101 | release turns that do not raise each log a stop, then a remove, in order |
| Lifecycle.StopRemoveTouch | pytest_dockerctl/__init__.py:97-101 | the releases of containers i to k−1 touch only those containers |
| Lifecycle.CleanupSteps | pytest_dockerctl/__init__.py:96-103 | the `finally` loop stops then removes each container in order until the first raising `stop()` or `remove()`, whose exception ends it; later containers are untouched |
| Lifecycle.ReadyAttrsShow | pytest_dockerctl/__init__.py:86-93 | a ready container is handed over with a snapshot whose health status reads `'healthy'` when it has one; without one, `has_attr` on it answers False and the network path resolves to the value the network wait returned |
| Lifecycle.ReadyCheckMeans | pytest_dockerctl/__init__.py:86-93 | a readiness turn waits on the chosen network path, then on `State.Health.Status` exactly when that key exists in the probed snapshot. It passes only when networking gave a truthy value (or `None`) and the health status became `'healthy'`. It does pass once the network wait returned and `has_attr` answers False. With a health status it passes exactly when the health wait returns, and otherwise raises that wait's own error. A failed network wait propagates unchanged. A `has_attr` probe that raises fails the turn with that exception, which is only ever TypeError, and is never read as False |
| Lifecycle.ReadyLogWaits | pytest_dockerctl/__init__.py:83-93 | the readiness loop only waits, and turns i to k−1 only on containers i to k−1 |
| Lifecycle.ReadyPrefix | pytest_dockerctl/__init__.py:75-93 | when every container starts and becomes ready, the log at the `yield` is all starts followed by all waits in creation order |
| Lifecycle.RunSpecAfter | pytest_dockerctl/__init__.py:69-103 | a `run` that follows earlier events appends exactly the events of a `run` on an empty log and ends the same way, so the lemmas below describe every call's own events |
| Lifecycle.RunStartFailure | pytest_dockerctl/__init__.py:77-81 | when an `api.run` raises, `run` raises it (TypeError for a `detach` keyword) having only started containers: no wait, no yield, no stop or remove |
| Lifecycle.RunDetachRejected | pytest_dockerctl/__init__.py:70-78 | with `detach` among the keyword arguments and at least one container to start, `run` raises TypeError at once and logs nothing: no start, wait, yield or release |
| Lifecycle.RunWaitFailureLeaks | pytest_dockerctl/__init__.py:83-95 | a failed wait propagates after every container was started, and no container is stopped or removed |
| Lifecycle.RunReleasesEach | pytest_dockerctl/__init__.py:94-103 | when all are ready and no release raises, the log is starts, waits, the yield of ids 0..n−1, then stop and remove per container in order, and `run` ends as the `with` block did, whether it returned or raised |
| Lifecycle.RunCleanupAborts | pytest_dockerctl/__init__.py:96-103 | the first raising `stop()` or `remove()` on container k becomes `run`'s exception whatever the block did, and no container after k is stopped or removed |
| Lifecycle.RunNoContainers | pytest_dockerctl/__init__.py:76-97 | with `num <= 0`, nothing is started or waited on, the empty list is yielded and `run` ends as the block did |

## Left out

- Logging (`log.info` in `run`, the module logger) is not modelled; it has no effect on behaviour.
- `DockerCtl.__init__`, `pytest_addoption` and the `dockerctl` fixture are not part of this model; they are client construction and pytest plumbing.
- The docker client is not modelled. `api.run`, `reload()`, `stop()` and `remove()` are answers fixed in advance in `Daemon`. Their exceptions are reduced to "raises" without a type. `reload()` is taken never to raise.
- Real time is replaced by integer clock readings in a trace. `ValidTrace` assumes the clock eventually reaches the timeout. A clock that never advances would make the source loop forever, and that case is not modelled.
- Floats and other JSON kinds beyond `None`, bool, int, str, list and dict are not in the value tree. Dict keys are strings only.
- The `TimeoutError` message is kept as its three parts (path, shown `expect`, last value). The string formatting is not modelled.
- The `with` block is reduced to its outcome (returns, or raises). It is not modelled mutating the yielded list, which the `finally` loop would then iterate over.
- `num` is an integer. The TypeError that `range(num)` raises for other types is not modelled.
- Lifecycle.DockerCtl.Run: one `Daemon` value describes the answers of one `run` call, and containers are numbered from 0 on every call. A second `run` on the same `DockerCtl` therefore sees the same answers and logs the same ids again. Distinct calls with their own docker answers, as a session-scoped `DockerCtl` would make, are not modelled. `RunSpecAfter` shows that what a call appends does not depend on the events before it.
