# pumphouse migration tasks, in Dafny

pumphouse moves workloads from a source OpenStack cloud to a destination cloud.
It builds workflows, called flows, that the `taskflow` engine runs. A flow is a
list of tasks. Each task reads named values, called bindings, from a shared store
and may provide one binding of its own. This project models the small rules that
pumphouse owns itself, and proves what they promise:

- **Server builders** (`pumphouse/tasks/server.py`). `reprovision_server` builds
  the image strategy and `reprovision_server_with_snapshot` the snapshot
  strategy. Each is a linear flow built by repeated `add` on a `FlowBuilder`
  object, plus one write to the store object. The lemmas prove:
  - the exact task order, and the cloud each task talks to;
  - that every input is seeded, provided earlier, or waited for by the leading
    sync point;
  - that task names are distinct and no binding has two providers;
  - that the store gains only `server-{id}`.
- **Server tasks.** Retrieve, suspend and its revert, boot and terminate are
  methods of `ServerTasks` that take a `Cloud` object and act through its
  methods. The cloud holds the servers map and a log of the Nova calls issued.
- **Flavor tasks** (`pumphouse/tasks/flavor.py`). The model keeps
  `EnsureFlavor.execute`'s loop with its early return, and proves it against a
  pure `Ensure` decision. That decision is one of four outcomes:
  - verify, field by field, the first destination flavor with the same name;
  - conflict, naming the first differing key;
  - a missing key;
  - or create the flavor (never keeping the source id), with the `swap or 0`
    default and a "create" event.

  `migrate_flavor` builds the two-task flow and writes one binding.
- **Resource composition** (`pumphouse/tasks/resources.py`). `migrate_resources`
  loops over a tenant's servers, skipping each server whose `server-{id}` binding
  is already in the store. Its loop is proved against a prefix-recursive
  `Compose`. The lemmas prove that exactly the pending servers are migrated, in
  listing order, each once.
- **Inventory lookup** (`scripts/migrate_host.py`). `get_fuel_endpoint` is kept
  with its two loops, in which the last match wins. So is the check in `main`
  that rejects a host without the `source` tag.

Python values are modelled explicitly:
- A dict is an association list in iteration order (`Records.Record`).
- Python's `==` compares numbers across int, float and bool (`Records.PyEq`).
- Truthiness, used by `swap or 0`, is `Records.Falsy`.
- KeyError, Nova's NotFound, UnboundLocalError and IndexError are constructors of
  `Result` error types.

The parts that cannot be seen from the repository become parameters:
- the ids Nova assigns to a created flavor or server;
- the listing of a tenant's servers;
- `server_resources.migrate_server`.

Files: `wrappers.dfy` (Option, Result), `records.dfy`, `flows.dfy` (task
descriptors, `FlowBuilder`, `Store`, well-formedness), `nova.dfy` (the compute
API as a `Cloud` class, and the event sink), `server_tasks.dfy`,
`flavor_tasks.dfy`, `resources.dfy`, `migrate_host.dfy`, `wiring.dfy` (how the
flavor flow feeds the server flows).

## Model

| member | source | states |
|---|---|---|
| Records.GetFindsFirstEntry | pumphouse/tasks/flavor.py:46 | `info[k]` yields the value of the first entry with key `k`, and fails (KeyError) exactly when no entry has that key |
| Records.PyEqReflexive | pumphouse/tasks/flavor.py:46 | Python's `==` holds between a record value and itself, lists included |
| Flows.FlowBuilder.Add | pumphouse/tasks/server.py:149-167 | `flow.add(...)` appends its tasks after those already added, in argument order |
| Flows.Store.Set | pumphouse/tasks/server.py:168 | `store[key] = v` changes that key and no other |
| Flows.SequenceWellFormed | pumphouse/tasks/server.py:149-150 | a flow run after another may take the bindings it waits for from the earlier flow's outputs and stays well formed |
| Nova.FindFlavor | pumphouse/tasks/flavor.py:29 | `flavors.get(id)` finds a listed flavor with that id, exactly when one exists |
| ServerTasks.ReprovisionServer | pumphouse/tasks/server.py:138-169 | the built flow is linear, named `migrate-server-{id}`, and holds exactly the image-strategy tasks in order; the store gains exactly `server-{id}` ↦ id, nothing else changes, and the same store object is returned |
| ServerTasks.ReprovisionServerWithSnapshot | pumphouse/tasks/server.py:172-212 | the same for the snapshot strategy's seven tasks |
| ServerTasks.ImageFlowShape | pumphouse/tasks/server.py:148-167 | the image flow is SyncPoint, RetrieveServer (src), SuspendServer (src), BootServerFromImage (dst), TerminateServer (src), and the sync point waits for `image-{image}-ensure` and `flavor-{flavor}-ensure` |
| ServerTasks.NameLengths | pumphouse/tasks/server.py:174-181 | the per-server names (`server-{id}` with `-start-event`, `-finish-event`, `-sync`, `-retrieve`, `-suspend`, `-boot`, `-terminate`) have the lengths their suffixes give, and the sync and boot names, of equal length, differ right after the id |
| ServerTasks.NameHeads | pumphouse/tasks/server.py:174-183 | `server-{id}` and its retrieve, suspend and boot names start with `se`; the image, flavor and snapshot ensure names start with `i`, `f` and `sn` |
| ServerTasks.ServerNamesApart | pumphouse/tasks/server.py:140-147 | the per-server names are pairwise distinct and none equals an image, snapshot or flavor binding |
| ServerTasks.ImageFlowWellFormed | pumphouse/tasks/server.py:149-167 | every input of the image flow is the seeded `server-{id}`, an earlier task's output, or one of the two ensure bindings the sync point waits for |
| ServerTasks.ImageFlowExternals | pumphouse/tasks/server.py:146-167 | no task of the image flow provides `server-{id}`, `image-{image}-ensure` or `flavor-{flavor}-ensure`: they come from outside |
| ServerTasks.ImageFlowDistinct | pumphouse/tasks/server.py:148-167 | task names in the image flow are pairwise distinct and no binding has two providers |
| ServerTasks.SnapshotFlowShape | pumphouse/tasks/server.py:182-210 | the snapshot flow keys its image binding by the server id, puts a start event reading `server-{id}` right after the sync point, keeps the four server tasks, and ends with a success event reading `-retrieve` and `-boot` |
| ServerTasks.SnapshotFlowWellFormed | pumphouse/tasks/server.py:185-210 | every input of the snapshot flow is the seeded `server-{id}`, an earlier task's output, or one of `snapshot-{id}-ensure` and `flavor-{flavor}-ensure`, which the sync point waits for |
| ServerTasks.SnapshotFlowExternals | pumphouse/tasks/server.py:182-210 | no task of the snapshot flow provides `server-{id}`, `snapshot-{id}-ensure` or `flavor-{flavor}-ensure` |
| ServerTasks.SnapshotFlowDistinct | pumphouse/tasks/server.py:184-210 | the snapshot flow has distinct task names and single providers |
| ServerTasks.RetrieveServer | pumphouse/tasks/server.py:57-60 | one `get`; the result is the server's record unchanged, or NotFound |
| ServerTasks.SuspendServer | pumphouse/tasks/server.py:63-69 | one `suspend` and one `get`; the server, and only it, ends SUSPENDED and its record is returned; NotFound leaves the servers as they were |
| ServerTasks.RevertSuspendServer | pumphouse/tasks/server.py:78-83 | one `resume` and one `get`; the server ends ACTIVE and its record is returned |
| ServerTasks.SuspendThenRevert | pumphouse/tasks/server.py:63-83 | suspending an ACTIVE server and reverting leaves every server exactly as it was, with one suspend and one resume issued |
| ServerTasks.BootServerFromImage | pumphouse/tasks/server.py:93-102 | creates a server from the source name, the image id and the flavor id, which ends ACTIVE and is returned; KeyError before any call when an id is missing |
| ServerTasks.TerminateServer | pumphouse/tasks/server.py:125-128 | one `delete`; the server is gone and no other changes |
| FlavorTasks.Verify | pumphouse/tasks/flavor.py:42-50 | the loop of `verify` over the destination's items; a missing key is absent from the source, a differing key is present there, and neither is `links` or `id` |
| FlavorTasks.VerifyMatchesIff | pumphouse/tasks/flavor.py:42-50 | verify succeeds iff every destination key other than `links` and `id` has an equal value under that key in the source |
| FlavorTasks.VerifyNamesFirstFailure | pumphouse/tasks/flavor.py:43-49 | a failing verify names the first destination key, in iteration order, that is missing from or differs in the source |
| FlavorTasks.VerifyIgnoresSourceOnlyKeys | pumphouse/tasks/flavor.py:43-46 | keys present only in the source are never compared |
| FlavorTasks.FindByName | pumphouse/tasks/flavor.py:36-37 | the index of the first destination flavor whose name equals the source's, or none when no flavor has it |
| FlavorTasks.Lookup | pumphouse/tasks/flavor.py:53-63 | reading the keys in turn yields their values, or the first missing key |
| FlavorTasks.CreateArgs | pumphouse/tasks/flavor.py:52-64 | the create arguments: the source id only when preserving ids, else "auto"; a falsy swap becomes 0; name, ram, vcpus, disk, ephemeral, rxtx_factor and is_public copied verbatim; fails with the first missing key, in evaluation order |
| FlavorTasks.Ensure | pumphouse/tasks/flavor.py:33-40 | the outcome of `execute`: a KeyError names a key the source lacks, a verified flavor is one of the destination's, and a created flavor carries the source's name |
| FlavorTasks.EnsureOnNameMatch | pumphouse/tasks/flavor.py:36-38 | when a destination flavor has the source's name, the outcome is the verification of the first such flavor: its record (not the source's) on success, a Conflict or KeyError naming the key `verify` stops at otherwise, and never a creation |
| FlavorTasks.EnsureCreatesIffNoMatch | pumphouse/tasks/flavor.py:36-40 | a flavor is created exactly when none has the source's name and the source has every field; the created flavor gets the generated id, never the source's |
| FlavorTasks.CreatedRecordVerifies | pumphouse/tasks/flavor.py:42-64 | a flavor created from a source record (whose swap is truthy or a number) carries its name and passes verify against it |
| FlavorTasks.EnsureAgainVerifies | pumphouse/tasks/flavor.py:33-64 | ensure is idempotent: after it created a flavor whose swap is truthy or a number, running it again verifies that flavor instead of creating another |
| FlavorTasks.RetrieveFlavor | pumphouse/tasks/flavor.py:27-30 | one `flavors.get`; the record of a flavor with that id, or NotFound |
| FlavorTasks.CreateFlavor | pumphouse/tasks/flavor.py:52-75 | one `flavors.create` with the mapped arguments, the new flavor joins the list and one "create" event carrying its id and record is emitted; nothing happens when a field is missing |
| FlavorTasks.EnsureFlavor | pumphouse/tasks/flavor.py:33-40 | the loop returns the `Ensure` outcome; the flavor list, the Nova calls and the events change only on the creation path, by exactly one create and one event |
| FlavorTasks.MigrateFlavor | pumphouse/tasks/flavor.py:78-93 | a linear flow of Retrieve (src) then Ensure (dst), named `migrate-flavor-{id}`; the only store write is `flavor-{id}-retrieve` ↦ id |
| FlavorTasks.FlavorFlowWellFormed | pumphouse/tasks/flavor.py:79-91 | the flavor flow reads only its seed and its first task's output, has distinct names and providers, and ends by providing `flavor-{id}-ensure` |
| Wiring.FlavorThenImageFlow | pumphouse/tasks/server.py:147-150 | after the flavor flow, the image-strategy flow finds `flavor-{id}-ensure` (it is the binding the sync point waits for); only the image binding must come from elsewhere |
| Wiring.FlavorThenSnapshotFlow | pumphouse/tasks/server.py:182-186 | the same for the snapshot strategy; only `snapshot-{id}-ensure` must come from elsewhere |
| Resources.Compose | pumphouse/tasks/resources.py:31-36 | the loop's result: a server flow for each migrated server, and only listed servers migrated |
| Resources.MigrateResources | pumphouse/tasks/resources.py:25-38 | the graph flow `migrate-resources-{tenant}` holds the migrated servers' resource flows in listing order, then once the unordered `migrate-servers-{tenant}` flow of their server flows; the store is what `migrate_server` left |
| Resources.NothingToMigrate | pumphouse/tasks/resources.py:31-37 | when every listed server's binding is already stored, nothing is added but the empty servers flow and the store is untouched |
| Resources.ComposeBindings | pumphouse/tasks/resources.py:32-34 | after the loop a server binding is stored exactly when the server was listed or the binding was there before |
| Resources.MigratesPending | pumphouse/tasks/resources.py:31-34 | the migrated servers are exactly those whose binding was absent when the loop reached them, in listing order |
| Resources.PendingIsFresh | pumphouse/tasks/resources.py:31-34 | no server is migrated twice, and none whose binding was already stored |
| MigrateHost.LastMaster | scripts/migrate_host.py:70-73 | the first loop of `get_fuel_endpoint`; the host it keeps is tagged `fuel.master` |
| MigrateHost.ScanIfaces | scripts/migrate_host.py:74-77 | the second loop; its only failure is the IndexError of an interface without an address |
| MigrateHost.LastMasterIsLast | scripts/migrate_host.py:70-73 | the first loop finds the last host tagged `fuel.master`, and none exactly when no host is tagged |
| MigrateHost.ScanIfacesMeaning | scripts/migrate_host.py:74-77 | the second loop fails at the first `fuel.api` interface without an address; otherwise every such interface has one, and the result is the first address of the last of them, or none exactly when no interface is tagged |
| MigrateHost.FuelEndpoint | scripts/migrate_host.py:69-78 | fails with no master exactly when no host is one, with no endpoint exactly when the last master has no API interface, and otherwise only on an interface without an address |
| MigrateHost.GetFuelEndpoint | scripts/migrate_host.py:69-78 | the two loops compute `FuelEndpoint` |
| MigrateHost.ScanStopsAtFailure | scripts/migrate_host.py:77 | the IndexError ends the interface loop: later interfaces do not change the outcome |
| MigrateHost.EndpointIsLastApiAddress | scripts/migrate_host.py:69-78 | a found endpoint is `ip[0]` of the last `fuel.api` interface of the last `fuel.master` host |
| MigrateHost.FindHost | scripts/migrate_host.py:94 | `inventory['hosts'][hostname]` finds the entry for that reference, or fails exactly when there is none |
| MigrateHost.PrepareHostMigration | scripts/migrate_host.py:93-98 | the endpoint lookup's failure comes first, then an unknown host; a host without the `source` tag is rejected; otherwise the endpoint and the host |

## Left out

- The `taskflow` engine: the order tasks run in, parallel unordered flows and revert order. Only the flows it is handed are modelled, with a linear-flow well-formedness predicate.
- `flows.register` and the `provision_server` strategy registry: the `flows` module is not part of this model.
- `utils.wait_for`: polling and timeouts are wall-clock behaviour. Each wait is an atomic status change followed by the one `get` that observes it.
- Events other than the flavor "create" event, and logging: the suspend, resume, spawn, terminate and start/success migration events are fire-and-forget. The start and success event tasks appear only as descriptors in the snapshot flow.
- Nova itself: its calls are operations on a `Cloud` object with a servers map, a flavor list and a call log. Ids Nova assigns are parameters.
- Nova refusing to suspend a server that is not ACTIVE: the model suspends any existing server.
- `pumphouse/task.py`: its base classes only hold cloud handles, recorded as each descriptor's cloud context.
- The floating-IP tasks: their module is not part of this model.
- The boot task's test in `tests/tasks/test_server.py` expects a different `execute` signature than the source has; the source is modelled.
- `servers.list(search_opts=...)` in `migrate_resources`: the tenant filter is Nova's; the listing is a parameter.
- `server_resources.migrate_server`: not part of this model; a parameter, with its effect on the store described by `KeepsBindings`, `BindsServer` and `BindsNoOtherServer` where a lemma needs them.
- The rest of `scripts/migrate_host.py`: argument parsing, YAML loading, IPMI, Fuel deployment and their errors are I/O.
- The inventory's shape: a host without `notes` or `interfaces`, or an interface without `tags` or `ip`, would raise KeyError; the model takes these keys as present, `notes`/`tags` as lists (a string would make `in` a substring test), and `ip` as a list of addresses (a single address written as a string would make `ip[0]` its first character).
- Which of several `fuel.master` hosts or `fuel.api` interfaces wins: the script runs under Python 2, where the dict `yaml.safe_load` returns iterates in hash order, not document order. The model keeps the last one in a given iteration order, and that order is an input.
- Ids are strings: `"server-{}".format(id)` is `"server-" + id`. An integer id would format as its decimal digits, which the model does not spell out.
- Floating-point record values are Dafny reals: rounding and NaN (which is not `==` to itself) are not modelled.
- `SuspendServer.revert`'s `result` and `flow_failures` arguments: the source does not use them.
- A destination flavor whose record has no `name` is treated as not matching; Nova always supplies one.
- The `Conflict` exception's message text: only the key it names is modelled.
- FlavorTasks.CreatedRecordVerifies: requires a swap that is truthy or a number, for the same reason as the next line.
- FlavorTasks.EnsureAgainVerifies: requires a swap that is truthy or a number, because a falsy swap that is not a number (`""`, `None` or an empty list) is passed to Nova as `0`; in this model's Nova, which returns the swap it was given, the created flavor then has swap `0`, which compares unequal to the source's swap on the second run.
- `tests/functional/index.js`: an asynchronous, timer-driven runner.
