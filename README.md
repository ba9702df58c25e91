# Curator framework core, modelled in Dafny

This project models three pieces of the Go curator client for ZooKeeper:

- **The framework facade** (`framework.go`, module `Curator`, file `framework.dfy`).
  A `CuratorFramework` object has a lifecycle state. It is `Latent` until `Start`, `Started`
  until `Close`, and `Stopped` afterwards. The state changes only by compare-and-swap, which
  is modelled as the method `Change`. The object owns two listener containers: the curator
  listeners and the unhandled-error listeners. Both are seq-valued fields.
  - `Start` commits `Started` before starting the connection state manager and then the
    ZooKeeper client.
  - `Close` commits `Stopped`. It then sends a closing event to every curator listener,
    empties both containers, closes the state manager (a failure there is only logged) and
    returns the client's close result.
  - The collaborators are not modelled. The results of their `Start`/`Close` are parameters.
    Every collaborator `Start`/`Close`, every curator-listener callback and the error log
    line of `Close` are appended, in order, to the field `calls`. The object invariant
    `Valid` (through `CallsAgree`) says: nothing is called while the framework is latent;
    once it has been started, the state manager has been started exactly once and the
    client at most once (`Start` proves the client is not started when the state manager
    fails); and the state manager and the client are each closed exactly once, only after
    the effective `Close`.
  - `Change` may only be asked for a lifecycle edge, so the state never goes back;
    `Start` and `Close` are its only callers in the source and re-establish `Valid`.
  - The pure functions `Next` and `Run` describe the lifecycle as values. The lemmas about
    them show two things: the edges ever taken are a prefix of Latent→Started, Started→Stopped,
    and from a new framework the state is determined by the first `Start` and the first
    `Close` after it.
  - Every builder factory and `UsingNamespace` panics unless the framework is started
    (`State.Check`, framework.go:28-32). That is modelled as `requires state == Started`.
    `Delete`, `SetData` and `SetACL` builders start with version `-1` (`AnyVersion`).
  - `CuratorFrameworkBuilder.ConnectString` installs a fixed ensemble provider.
    `Authorization` appends one `AuthInfo`. `Build` and `NewClient` create a latent
    framework from the builder's values.
- **Command-line validation of zktreeutil** (`examples/zktreeutil/main.go`, module
  `ZkTreeUtil`). `ParseCmdLine` takes the positional arguments and the parsed flag values.
  It returns the options or one of the errors `missing command`, `missing params` or
  `unknown command: <cmd>`. `DumpSourceOf` models where the dump command reads its tree from.
- **Last path segment** (`examples/base/main.go`, module `BaseExample`). `GetNodeFromPath`
  and the `strings.LastIndex` it relies on.

Where the code differs from its own usage text, the model follows the code. The usage text
says `diff` and `dump` need `-zookeeper` OR `-xmlfile`. The code requires an ensemble for
both, and also an XML file for `diff`. `AcceptedDumpReadsLiveTree` shows the consequence:
the XML-file branch of `dump` in `main` cannot be reached through the validation.

## Model

| member | source | states |
|---|---|---|
| `Curator.Next` | framework.go:207-222 | a Start or Close call either leaves the state alone or takes one lifecycle edge, never lowering the state's integer value; Start changes the state exactly when it is Latent, Close exactly when it is Started |
| `Curator.EdgesTakenArePrefix` | framework.go:207-222 | for every sequence of Start/Close calls, the edges taken followed by the edges still possible equal the edges possible at the start; so Latent→Started and Started→Stopped are each taken at most once, in that order, and the state never goes back |
| `Curator.LatentWithoutStart` | framework.go:207-209 | without a Start call a latent framework stays latent |
| `Curator.StartedUntilClose` | framework.go:219-222 | a started framework becomes stopped exactly when some Close is called and stays started otherwise |
| `Curator.StoppedForever` | framework.go:207-222 | a stopped framework stays stopped under any calls |
| `Curator.LifecycleOfNewFramework` | framework.go:240-246 | from a new framework: latent if Start was never called; otherwise started if no Close follows the first Start, and stopped if one does |
| `Curator.Fanout` | framework.go:224-228 | delivering an event to a container yields one EventReceived call per registered listener, in container order, and nothing else |
| `Curator.FanoutDeliversOncePerRegistration` | framework.go:224-228 | each listener receives the event as many times as it is registered (once for a listener registered once) |
| `Curator.FanoutOnlyDelivers` | framework.go:224-228 | a fan-out calls no collaborator start or close |
| `Curator.TeardownLog` | framework.go:233-235 | a state-manager close failure produces exactly one log line and a success none |
| `Curator.StartKeepsAgreement` | framework.go:207-216 | the calls of an effective Start leave the state manager started once and the client at most once |
| `Curator.CloseKeepsAgreement` | framework.go:219-237 | the calls of an effective Close add exactly one state-manager close and one client close, and leave the state-manager and client start counts as they were |
| `Curator.CuratorFrameworkBuilder.constructor` | framework.go:132-145 | a new builder has no authorizations, no ensemble provider, no default data, no namespace and read-only off |
| `Curator.CuratorFrameworkBuilder.ConnectString` | framework.go:153-157 | the ensemble provider becomes a fixed provider holding the string; nothing else changes; the builder itself is returned |
| `Curator.CuratorFrameworkBuilder.Authorization` | framework.go:160-164 | exactly one AuthInfo(scheme, auth) is appended after the earlier ones; nothing else changes |
| `Curator.CuratorFrameworkBuilder.Build` | framework.go:148-150 | a fresh, latent framework with empty containers, configured with the builder's ensemble provider, authorizations, namespace and default data |
| `Curator.NewClient` | framework.go:117-130 | a fresh, latent framework whose client uses a fixed provider for the connection string and no authorizations |
| `Curator.CuratorFramework.constructor` | framework.go:180-205 | the framework starts latent with empty listener containers, no calls made, and the client built from the builder's values |
| `Curator.CuratorFramework.Change` | framework.go:20-22 | compare-and-swap along a lifecycle edge: the state becomes the new state exactly when it was the expected one, the result says whether it did, and the state never goes back |
| `Curator.CuratorFramework.CurrentState` | framework.go:240-242 | the state the framework is in (read through `State.Value`, framework.go:24-26) |
| `Curator.CuratorFramework.IsStarted` | framework.go:244-246 | holds exactly when the state is Started |
| `Curator.CuratorFramework.Start` | framework.go:207-217 | from Latent: state Started; the state manager is started; a failure there returns the state-manager error and the client is not started; otherwise the client is started and its failure, if any, is returned; the state stays Started on every failure. From any other state: the "Cannot be started more than once" error, no call made, nothing changed |
| `Curator.CuratorFramework.Close` | framework.go:219-238 | from Started: state Stopped; the closing event goes to each listener registered at that moment, in order; both containers end empty; the state manager is closed, a failure there is only logged; the client is closed and its result returned. From Latent or Stopped: nil, and nothing changes |
| `Curator.CuratorFramework.DispatchToListeners` | framework.go:226-228 | used once the framework is stopped; the event is delivered to every curator listener in container order; only the call record changes, and the invariant is kept because no collaborator is started or closed |
| `Curator.CuratorFramework.AddCuratorListener` | framework.go:316-318 | the listener is registered after the existing ones; the invariant is kept |
| `Curator.CuratorFramework.AddUnhandledErrorListener` | framework.go:320-322 | the listener is registered after the existing ones; the invariant is kept |
| `Curator.CuratorFramework.Create` | framework.go:248-252 | requires the framework started; returns a create builder bound to this framework |
| `Curator.CuratorFramework.Delete` | framework.go:254-258 | requires the framework started; returns a delete builder bound to this framework with version -1 |
| `Curator.CuratorFramework.CheckExists` | framework.go:260-264 | requires the framework started; returns an exists builder bound to this framework |
| `Curator.CuratorFramework.GetData` | framework.go:266-270 | requires the framework started; returns a get-data builder bound to this framework |
| `Curator.CuratorFramework.SetData` | framework.go:272-276 | requires the framework started; returns a set-data builder bound to this framework with version -1 |
| `Curator.CuratorFramework.GetChildren` | framework.go:278-282 | requires the framework started; returns a get-children builder bound to this framework |
| `Curator.CuratorFramework.GetACL` | framework.go:284-288 | requires the framework started; returns a get-ACL builder bound to this framework |
| `Curator.CuratorFramework.SetACL` | framework.go:290-294 | requires the framework started; returns a set-ACL builder bound to this framework with version -1 |
| `Curator.CuratorFramework.InTransaction` | framework.go:296-300 | requires the framework started; returns a transaction bound to this framework |
| `Curator.CuratorFramework.Sync` | framework.go:306-310 | requires the framework started; returns a sync builder bound to this framework |
| `Curator.CuratorFramework.UsingNamespace` | framework.go:335-339 | requires the framework started; returns the facade of this framework for exactly that namespace |
| `Curator.CuratorFramework.NonNamespaceView` | framework.go:331-333 | goes through UsingNamespace, so it also requires the framework started; returns the facade for the empty namespace |
| `ZkTreeUtil.ParseCmdLine` | examples/zktreeutil/main.go:69-93 | total over all inputs, with exactly one outcome; accepted exactly when there is a known command, an ensemble, and an XML file for import/update/diff; on success the command is the first positional argument, the arguments are the rest in order, and the flag values are carried over unchanged |
| `ZkTreeUtil.NoArgumentsMissingCommand` | examples/zktreeutil/main.go:69-71 | no positional argument gives "missing command" |
| `ZkTreeUtil.TreeAndFileCommandsNeedBoth` | examples/zktreeutil/main.go:76-79 | for import, update and diff, refusal happens exactly when the ensemble or the XML file is empty, and it is "missing params" |
| `ZkTreeUtil.TreeOnlyCommandsNeedHosts` | examples/zktreeutil/main.go:81-84 | for export and dump, refusal happens exactly when the ensemble is empty, and it is "missing params"; the XML file is not needed |
| `ZkTreeUtil.OtherCommandsUnknown` | examples/zktreeutil/main.go:86-87 | any other first argument gives "unknown command: " followed by that argument |
| `ZkTreeUtil.DefaultEnsembleOutcomes` | examples/zktreeutil/main.go:61-84 | with the default ensemble "localhost:2181", export and dump are always accepted, and import, update and diff are refused with "missing params" exactly when no XML file is given |
| `ZkTreeUtil.AcceptedDumpReadsLiveTree` | examples/zktreeutil/main.go:161-176 | every dump the validation accepts reads the live tree, so dump's XML-file branch cannot be reached through the validation |
| `BaseExample.LastIndex` | examples/base/main.go:85 | the index of the last occurrence of the character, or -1 exactly when it does not occur |
| `BaseExample.GetNodeFromPath` | examples/base/main.go:84-95 | the result is a suffix of the path and contains no '/' |
| `BaseExample.NoSlashUnchanged` | examples/base/main.go:85-87 | a path without '/' is returned unchanged |
| `BaseExample.TrailingSlashEmpty` | examples/base/main.go:90-92 | a path whose last character is '/' gives "" |
| `BaseExample.AfterLastSlash` | examples/base/main.go:94 | the result is exactly the text after the last '/' |
| `BaseExample.GetNodeFromPathIdempotent` | examples/base/main.go:84-95 | applying the function to its own result changes nothing |
| `BaseExample.ChildPathNamesChild` | examples/base/main.go:69-80 | for a directory d and a non-empty child name c without '/', the last segment of d + "/" + c is c |

## Left out

- Atomicity of the state flag: `atomic.CompareAndSwapInt32` and `LoadInt32` are a plain field test and write. Concurrent `Start`/`Close` races are not modelled.
- The connection client, the connection state manager and the namespace facade cache are defined in files that are not part of this model. Their `Start`/`Close` results are parameters. The client is represented only by the values it is built from. The state manager's connection-state listener container, which `ConnectionStateListenable` (framework.go:312-314) returns, is left out with the state manager.
- `namespaceFacadeCache.Get` is represented by the value `NamespaceFacade(framework, namespace)`. Equal values stand in for the cache handing back the same facade for the same namespace. The facade's path rewriting (`fixForNamespace`, `unfixForNamespace`) and `getNamespaceWatcher` are not modelled.
- `DoSync` (framework.go:302-304) runs the sync builder's `InBackgroundWithContext(...).ForPath(...)`. That builder's code is not part of this model. Its only visible effect, requiring a started framework through `Sync`, is captured by `Sync`.
- The listener containers are defined in a file that is not part of this model. `AddCuratorListener` and `AddUnhandledErrorListener` stand in for `CuratorListenable().AddListener` and `UnhandledErrorListenable().AddListener`: they append, so delivery follows insertion order.
- The builders' options and their `ForPath` execution are not modelled. Neither are the listener containers beyond appending a listener, dispatching in order and clearing. Removing a listener, snapshot iteration and listeners that add or remove listeners during a callback are missing.
- Listener callbacks are recorded as calls. Their return values are ignored, as `Close` ignores them.
- The panic message of `State.Check` is not modelled: a panic is a precondition.
- The watcher callback built in `newCuratorFramework` (framework.go:191-198), the empty `processEvent`, and `BlockUntilConnected`/`BlockUntilConnectedTimeout` are not modelled. They are callbacks from the wire client and blocking waits.
- Durations are not modelled: session and connection timeouts, `MaxCloseWait` and the defaults at framework.go:35-36. Also missing are the dialer, retry policy, compression and ACL providers. `NewClientTimeout` differs from `NewClient` only in timeouts, so only `NewClient` is modelled.
- The accessors `State`, `Started`, `Namespace`, `ZookeeperClient`, `CuratorListenable` and `UnhandledErrorListenable` appear as the fields they return; `State` and `Started` also as `CurrentState` and `IsStarted`.
- zktreeutil: flag registration and parsing, usage printing, and `main`'s dispatch to tree loading, diffing, executing, dumping and file output are not modelled. They are I/O and code outside this model. Only the choice of dump source is modelled.
- LastIndex: counts characters where `strings.LastIndex` (examples/base/main.go:85) counts bytes, so on a path with multi-byte characters before the last '/' the index differs; a '/' byte never occurs inside a multi-byte UTF-8 sequence, so the text after the last '/' that `GetNodeFromPath` returns is the same.
- base example: `main`, `loadNode` and `loadKey` are left out (logging, a live connection, listener registration).
- ChildPathNamesChild: uses plain concatenation instead of `path.Join`. It does not cover joined forms that `path.Join` would clean: a directory ending in '/', or a child named "." or "..", which `path.Join` would drop or resolve into the directory.
- `ZkTreeUtil.Message` has no row of its own: it is the text of each error, and its three texts are stated by `NoArgumentsMissingCommand`, `TreeAndFileCommandsNeedBoth`, `TreeOnlyCommandsNeedHosts` and `OtherCommandsUnknown`.
- `ZkTreeUtil.DumpSourceOf` has no row of its own: it is the branch of `main` that picks the dump source (examples/zktreeutil/main.go:161-176), and what it means for accepted command lines is stated by `AcceptedDumpReadsLiveTree`.
- `Curator.ClientScenario` has no row: it is a worked scenario of one client (build, start, two listeners, use, start again, close twice) whose assertions exercise the contracts above; it models no source function.
