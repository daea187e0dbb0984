# AMEE orchestration core: module registry and feedback loop

This project models the two stateful classes of the Autonomous Modular
Evolution Engine (AMEE) core and proves what their code does:

- `Architect` (amee/core/architect.py) owns a dictionary `modules` from
  module names to module instances. `register_module` type-checks the module
  and inserts it, silently replacing any module already under that name.
  `deregister_module` and `get_module` raise `KeyError` for an unknown name.
  `orchestrate` only logs.
- `FeedbackLoop` (amee/core/feedback_loop.py) holds an optional bound
  architect and two append-only lists, of sensors and of effectors. An object
  that lacks `sense` (or `act`) is refused. `monitor` reads every sensor in
  list order into a dictionary keyed by the sensor's class name. A sensor
  whose `sense()` raises is skipped. `adapt` raises `RuntimeError` when no
  architect is bound.

Files:

- `errors.dfy` (module `Errors`): the exceptions, each with the message the
  source gives it (`ValueError`, `KeyError`, `RuntimeError`). `Outcome` and
  `Result` stand for "returns or raises". `Candidate<T>` stands for an
  argument checked with `isinstance`.
- `architect.dfy` (module `Registry`): the opaque type `Module`. The pure
  functions `Register`, `Deregister` and `Lookup` state each operation's
  effect on the dictionary, and lemmas relate them. The class `Architect`
  has one method per Python method, each proved against those functions.
- `feedback_loop.dfy` (module `Feedback`): a `Device` is an object handed to
  the loop. It records its class name, whether it has `sense` / `act`, and
  what its `sense()` does (`Sensed(v)` or `Raised`). `SnapshotOf` is the pure
  left fold that specifies `monitor`, with lemmas about its keys and values.
  The class `FeedbackLoop` has one method per Python method. Its `Valid()`
  invariant says every stored sensor has `sense` and every stored effector
  has `act`; every method preserves it.

Python's reflection becomes explicit data. `isinstance(x, Module)` and
`isinstance(x, Architect)` become `Candidate.Instance?`. `hasattr(x, 'sense')`
and `hasattr(x, 'act')` become `Device.hasSense` and `Device.hasAct`.
`sensor.__class__.__name__` becomes `Device.className`. Calling `sense()` on
an object without it raises in Python, so `CallSense` treats it as `Raised`.
A `Fail`/`Err` result stands for the raised exception. In that case the
methods leave every field as it was.

Where the code differs from its own intent, the model follows the intent:

- architect.py never imports `Module`, so as written the check at line 25
  would raise `NameError` on every call. The model treats it as the intended
  `isinstance` check.
- feedback_loop.py never imports `Architect`, which line 24 uses. The model
  treats that check the same way.
- feedback_loop.py:49 is indented wrongly, which as written makes the module
  fail to import. The model treats the `raise` as the body of the `if` at
  line 48.

Some behaviour a registry might be expected to have is absent from the code;
the model follows the code:

- `register_module` does not reject a name that is already registered; it
  replaces the stored module (`Registry.RegisterReplaces`).
- `deregister_module` does not call the module's `terminate`.
- `initialize` may be called again; it rebinds the architect.
- `adapt` only checks that an architect is bound; it dispatches nothing.

## Model

| member | source | states |
|---|---|---|
| `Registry.Register` | amee/core/architect.py:25-27 | fails with `ValueError("Module must be an instance of Module.")` exactly when the argument is not a module; on success the keys are the old keys plus `name`, `name` maps to the given module, and every other key keeps its value |
| `Registry.Deregister` | amee/core/architect.py:37-39 | fails with `KeyError("Module '<name>' not registered.")` exactly when `name` is absent; on success the keys are the old keys minus `name`, and the remaining entries are unchanged |
| `Registry.Lookup` | amee/core/architect.py:52-54 | fails with `KeyError("Module '<name>' not found.")` exactly when `name` is absent; otherwise returns the module stored under `name` |
| `Registry.RegisterThenDeregister` | amee/core/architect.py:27-39 | registering a fresh name and then deregistering it gives back exactly the original dictionary |
| `Registry.RegisterThenLookup` | amee/core/architect.py:27-54 | after registering a module under a name, looking that name up returns that module |
| `Registry.RegisterReplaces` | amee/core/architect.py:27 | registering under a taken name succeeds, keeps the dictionary's size and leaves lookups of other names unchanged |
| `Registry.DeregisterThenLookup` | amee/core/architect.py:39-54 | after deregistering a name, looking it up fails with `KeyError`, and all other names look up as before |
| `Registry.Architect.constructor` | amee/core/architect.py:14-15 | a new architect has an empty module dictionary |
| `Registry.Architect.RegisterModule` | amee/core/architect.py:17-28 | on success the new dictionary is `Register` of the old one; on failure it returns the `ValueError` and the dictionary is unchanged |
| `Registry.Architect.DeregisterModule` | amee/core/architect.py:30-40 | on success the new dictionary is `Deregister` of the old one; on failure it returns the `KeyError` and the dictionary is unchanged |
| `Registry.Architect.GetModule` | amee/core/architect.py:42-54 | returns what `Lookup` gives for the current dictionary; it modifies nothing |
| `Registry.Architect.Orchestrate` | amee/core/architect.py:56-61 | leaves the module dictionary unchanged |
| `Feedback.CallSense` | amee/core/feedback_loop.py:59-63 | what one call of `sense()` gives the loop: the sensor's reading if it has `sense` and succeeds; otherwise a raise (an object without `sense` raises `AttributeError`, which the `except Exception` catches) |
| `Feedback.Step` | amee/core/feedback_loop.py:59-63 | one iteration of the loop body: a raising sensor leaves the dictionary as it was; a succeeding one sets its class name to its reading, gaining at most that key, and every other entry keeps its value |
| `Feedback.Fold` | amee/core/feedback_loop.py:58-63 | the loop as a left fold of `Step` over the sensors in list order: keys are only added, never removed, and every added key is the class name of some sensor |
| `Feedback.SnapshotOf` | amee/core/feedback_loop.py:57-64 | the dictionary `monitor` returns: the fold from an empty dictionary; every key is a sensor's class name, and no sensors give an empty dictionary |
| `Feedback.FeedbackLoop.Valid` | amee/core/feedback_loop.py:36-50 | the loop's invariant: every stored sensor has `sense` and every stored effector has `act`, so calling a stored sensor's `sense()` gives its own outcome; the constructor establishes it and every method preserves it |
| `Feedback.FoldAppend` | amee/core/feedback_loop.py:58-63 | folding the loop body over two sensor lists in a row is folding over their concatenation |
| `Feedback.FoldKeys` | amee/core/feedback_loop.py:58-63 | a key is in the folded dictionary exactly when it was there already or some sensor succeeds under that class name |
| `Feedback.FoldUntouched` | amee/core/feedback_loop.py:58-63 | an entry under which no sensor succeeds keeps its value through the fold |
| `Feedback.FoldLatest` | amee/core/feedback_loop.py:58-63 | the value under a key is the reading of the last sensor in the list that succeeds under that class name |
| `Feedback.SnapshotKeys` | amee/core/feedback_loop.py:57-64 | the keys of the snapshot are exactly the class names of the sensors whose `sense()` succeeds |
| `Feedback.SnapshotLaterWins` | amee/core/feedback_loop.py:58-61 | when several succeeding sensors share a class name, the snapshot holds the reading of the one latest in list order |
| `Feedback.SnapshotSkipsFailure` | amee/core/feedback_loop.py:59-63 | a sensor that raises contributes nothing and stops nothing: the snapshot equals the one for the list without it |
| `Feedback.FeedbackLoop.constructor` | amee/core/feedback_loop.py:12-15 | a new loop has no architect and empty sensor and effector lists |
| `Feedback.FeedbackLoop.Initialize` | amee/core/feedback_loop.py:17-27 | a non-architect is refused with `ValueError` and the binding is unchanged; otherwise the given architect is bound, replacing any earlier one; the lists are untouched |
| `Feedback.FeedbackLoop.AddSensor` | amee/core/feedback_loop.py:29-39 | an object without `sense` is refused with `ValueError` and both lists are unchanged; otherwise it is appended after the earlier sensors; effectors and architect are untouched |
| `Feedback.FeedbackLoop.AddEffector` | amee/core/feedback_loop.py:41-51 | an object without `act` is refused with `ValueError` and both lists are unchanged; otherwise it is appended after the earlier effectors; sensors and architect are untouched |
| `Feedback.FeedbackLoop.Monitor` | amee/core/feedback_loop.py:53-64 | the loop's result is the left fold `SnapshotOf(sensors)`, its keys are exactly the class names of the succeeding sensors, and no field of the loop changes |
| `Feedback.FeedbackLoop.Adapt` | amee/core/feedback_loop.py:66-76 | fails with `RuntimeError("Feedback loop is not initialized with an architect.")` exactly when no architect is bound; otherwise returns; no field of the loop changes |

## Left out

- Logging (`logger.info`, `logger.error`): it has no effect on state the model can observe.
- The body of `Module` (amee/core/Module.py): its methods are abstract, so `Module` is an opaque type here.
- The sensors' own `sense()` and the effectors' `act()`: these are outside code. Each device carries the outcome of its `sense()` as data, so a sensor gives the same outcome on every call; effectors are stored but never invoked, as in the source.
- `Feedback.FeedbackLoop.Monitor`: catches every failure of `sense()`, while Python's `except Exception` lets `BaseException` subclasses such as `KeyboardInterrupt` propagate; those are not modelled.
- The order of the `modules` and snapshot dictionaries: Python dicts keep insertion order (re-assigning a key keeps its first position), while Dafny maps have none; nothing in the modelled code iterates these dictionaries.
- The exceptions' Python message formatting: `KeyError` stores the message string; how Python prints it is not modelled.
- The missing imports and the mis-indented `raise` described above: the model follows the intended code, not the `NameError` or `IndentationError` the code as written would raise.
- Behaviour the code does not implement: locking and concurrent access, timeouts, any cycle scheduling (the source has no cycle or stop method), rejecting duplicate names, calling `terminate` on deregistration, dispatching feedback to modules in `adapt`, and invoking effectors.
