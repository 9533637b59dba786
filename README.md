# lingmo-session bootstrap and the lazy X11 atom, in Dafny

This project models two small stateful components of OpenLingmo.

**The session bootstrap of lingmo-session** (`startlingmo/lingmo-session/startup.cpp`):
- `Startup` is the session singleton. It owns the registry `m_processes` of confirmed processes.
- `updateLaunchEnv` writes a variable into the process environment. Every later launch reads that environment.
- `StartServiceJob` is a one-shot job. It spawns a helper program with the process environment overlaid by the job's own variables.
- The job finishes when `start()` returns, or later, when the helper's D-Bus service registers.
- Under Wayland, the `Startup` constructor runs one such job, the compositor bridge, and blocks until it has finished.

**`Xcb::Atom`** (`xembed-sni-proxy/xcbutils.h`) is an X11 atom name.
- It is interned with an unchecked request.
- Its reply is fetched lazily, at most once, when the atom is first converted or tested for validity.

Both are written as classes whose methods update fields in place: `Startup.Session`, `Startup.Job`, `Startup.Process` and `Xcb.Atom`. Each method's postcondition ties the new state to a pure function of the old state:
- `PutEnv` and `Overlay` for the environment;
- `StartTail` and `Deliveries` for what a job does;
- `Resolve` for `getReply`.

The properties are proved about those functions, as their own postconditions and as lemmas.

A job's history is the sequence `trace` of its observable actions:
- `Watch(service)`: the constructor connects the service watcher's `serviceRegistered` signal to `emitResult`;
- `SetEnvironment(env)`;
- `Spawn(confirmed)`;
- `EmitResult`.

The job is finished once `EmitResult` occurs. `Emits` counts its occurrences and is the job's emit counter. The trace makes two facts of the source visible:
- The watcher is connected in the constructor, before any spawn. Nothing in `startup.cpp` disconnects it when the job finishes; it lives as long as the job object, its parent.
- With an empty service id and a failed spawn, `start()` calls `emitResult` twice.

The model records every call. It does not assume that `KJob` ignores the second one.

Inputs from outside become parameters or events:
- the bus's answer to `isServiceRegistered`;
- the combined outcome of `QProcess::start` and `waitForStarted`;
- the initial process environment;
- the X server's reply to the intern request (`None` for a null reply).

The bus reporting that a service registered is the method `Job.ServiceRegistered(name)`.

Facts of `startup.cpp` that the model keeps as written:
- `start()` sets the launch environment (startup.cpp:70-72) before it asks whether the service is registered (startup.cpp:74-76).
- The watcher is connected in the job's constructor (startup.cpp:62-66), before any spawn.
- Nothing in `startup.cpp` disconnects the watcher when the job finishes. The watcher is created with the job as its parent (startup.cpp:62-64), so it lives as long as the job object, and while it lives a later registration of the service calls `emitResult` again. Whether `KJob` ignores that call is not modelled.
- With an empty service id and a failed spawn, `emitResult` is reached twice (startup.cpp:86 and 90).
- There is no separate variable store: `updateLaunchEnv` writes the process environment (`qputenv`, startup.cpp:15). The launch environment therefore has two layers, that environment and the job's additional variables.
- `start()` does not check that the job was not started before.

## Model

| member | source | states |
|---|---|---|
| Startup.Latin1 | startlingmo/lingmo-session/startup.cpp:14-16 | `toLatin1` keeps the length and every Latin-1 character, and turns every other character into `?`. A Latin-1 string is unchanged. |
| Startup.PutEnv | startlingmo/lingmo-session/startup.cpp:14-16 | After `qputenv`, the narrowed key holds the narrowed value. Every other variable is unchanged. |
| Startup.Session.UpdateLaunchEnv | startlingmo/lingmo-session/startup.cpp:14-16 | `updateLaunchEnv` changes the process environment as `PutEnv` says, and nothing else. |
| Startup.LastUpdateWins | startlingmo/lingmo-session/startup.cpp:14-16 | After a series of `updateLaunchEnv` calls, a variable holds the value of the last call that named it. |
| Startup.UnnamedKeepsValue | startlingmo/lingmo-session/startup.cpp:14-16 | A variable that no call names keeps its earlier value, or stays unset. |
| Startup.Overlay | startlingmo/lingmo-session/startup.cpp:70-72 | The launch environment has the variables of both environments. The job's additional value wins on a clash. Otherwise the system value is kept. |
| Startup.LaunchSeesLastUpdate | startlingmo/lingmo-session/startup.cpp:70-72 | A job started after a series of updates launches with the last value published for a variable, unless its additional environment sets that variable. |
| Startup.PublishBetweenStarts | startlingmo/lingmo-session/startup.cpp:70-72 | A variable published between two `start()` calls reaches the second job. The first job keeps the environment it captured at its own start. |
| Startup.Session.constructor | startlingmo/lingmo-session/startup.cpp:30-40 | The bridge job (`kwin_wayland_wrapper --xwayland`, service `org.kde.KWinWrapper`) is created and run iff `XDG_SESSION_TYPE` is `wayland`. The constructor returns with the job finished. The registry holds the bridge's process iff it was spawned and confirmed. The bridge launches with the environment as it was at the start. While the job waits, the `updateLaunchEnv` calls served by `exec()` change the process environment. |
| Startup.Session.ServeUpdates | startlingmo/lingmo-session/startup.cpp:14-16 | A series of `updateLaunchEnv` calls served in order leaves the environment as `ApplyUpdates` says. |
| Startup.Session.StartDetached | startlingmo/lingmo-session/startup.cpp:43-51 | Returns whether the start was confirmed. It appends the process to `m_processes` exactly then, and otherwise leaves the registry unchanged. |
| Startup.Process.constructor | startlingmo/lingmo-session/startup.cpp:57-60 | A new `QProcess` has the program and arguments the job was given, and no environment of its own until `start()` sets one. |
| Startup.Job.constructor | startlingmo/lingmo-session/startup.cpp:53-67 | A new job owns a fresh process with the given program and arguments. Its first and only action is connecting the watcher for its service id. It is not finished. |
| Startup.Job.Start | startlingmo/lingmo-session/startup.cpp:69-92 | Sets the process environment to the system environment overlaid by the additional variables, then acts as `StartTail` says. It appends the process to the registry iff it spawned and the spawn was confirmed. |
| Startup.StartTail | startlingmo/lingmo-session/startup.cpp:74-91 | Nothing is spawned iff the id is non-empty and already registered. A failed spawn finishes the job. `start()` returns unfinished iff the id is non-empty and unregistered and the spawn succeeded. `emitResult` is reached at most twice, and twice iff the id is empty and the spawn failed. |
| Startup.Job.ServiceRegistered | startlingmo/lingmo-session/startup.cpp:62-66 | The watcher calls `emitResult` when the job's own service registers, and does nothing for any other name. |
| Startup.DeliveriesEmitPerRegistration | startlingmo/lingmo-session/startup.cpp:62-66 | Over any series of registrations, the watcher calls `emitResult` once per registration of the job's service and does nothing else. |
| Startup.CompletionAfterStart | startlingmo/lingmo-session/startup.cpp:62-92 | After `start()`, emits add up as the emits of `start()` plus one per registration of the service, and no spawn follows. A job left waiting finishes iff its service registers. |
| Xcb.Resolve | xembed-sni-proxy/xcbutils.h:83-93 | `getReply` does nothing unless the reply is pending, meaning not retrieved and the sequence is non-zero. Afterwards nothing is pending. The atom changes only to the atom of a non-null reply. |
| Xcb.FirstReplyDecides | xembed-sni-proxy/xcbutils.h:85-87 | Any series of `getReply` calls ends in the state the first call produced. Later replies are never consulted. |
| Xcb.ConversionsAgree | xembed-sni-proxy/xcbutils.h:61-65 | Every conversion to `xcb_atom_t` in a series returns the value the first one returned. |
| Xcb.FreshAtomValidity | xembed-sni-proxy/xcbutils.h:66-75 | On a fresh atom, the resolved atom is the reply's atom when the request was sent and the reply is not null, else `XCB_ATOM_NONE`. `isValid` is true iff that atom is not `XCB_ATOM_NONE`. |
| Xcb.Atom.constructor | xembed-sni-proxy/xcbutils.h:43-50 | A new atom is unretrieved, holds `XCB_ATOM_NONE` and the request's sequence number, and its `name()` is the constructor's argument. |
| Xcb.Atom.GetReply | xembed-sni-proxy/xcbutils.h:83-93 | Updates `m_retrieved` and `m_atom` as `Resolve` says. |
| Xcb.Atom.ToAtomId | xembed-sni-proxy/xcbutils.h:61-65 | The conversion operator resolves the atom, then returns `m_atom`. |
| Xcb.Atom.IsValid | xembed-sni-proxy/xcbutils.h:66-75 | Both `isValid` overloads resolve the atom, then return whether it is not `XCB_ATOM_NONE`. |
| Xcb.Atom.Destroy | xembed-sni-proxy/xcbutils.h:54-59 | The destructor discards the reply iff the reply is still pending. |
| Xcb.ConvertTwice | xembed-sni-proxy/xcbutils.h:61-65 | A fresh atom converted twice gives one value, decided by the first reply. Destroying it afterwards discards nothing. |

## Left out

- D-Bus registration of the `/Startup` object and the `org.lingmo.Startup` service, and `StartupAdaptor` (startup.cpp:24-28): bus plumbing with no effect on the modelled state.
- `isServiceRegistered` and `QDBusServiceWatcher` are not modelled as code. The first is the `registered` parameter of `Job.Start`. The second is the event `Job.ServiceRegistered(name)`, which the caller delivers.
- `QProcess` internals (`setProcessChannelMode`, `start`, the timeout of `waitForStarted`) are not modelled. Their combined outcome is one boolean parameter.
- `Process` is a class, and the registry holds references to it. Process lifetime and teardown are not modelled.
- `KJob::exec()` is not modelled as a nested event loop. In the `Session` constructor it is `Start` and then, if the job is still waiting, the `updateLaunchEnv` calls the loop serves (`ServeUpdates`) and the bridge service's registration. `exec()` returns only once the result has been emitted.
- `Startup.Session.constructor` takes the updates as served only while the bridge job waits. `KJob::exec` is not part of this model, so whether its loop runs when `start()` has already finished the job is not captured.
- `Startup.Session.constructor` does not model bus calls other than `updateLaunchEnv` that the loop may serve, and does not interleave the updates with the registration.
- `Startup.Session.constructor` does not capture that `exec()` never returns when the bridge service never registers.
- `Startup.CompletionAfterStart` does not model job lifetime. The lemma and `Deliveries` assume the job object, and with it its watcher, outlives the whole series of registrations. Whether `KJob` deletes a finished job is decided outside `startup.cpp`, and the bridge job is a local that ends at startup.cpp:40.
- What `KJob::emitResult` does on a second call: its code is not part of this model, so the model counts the calls rather than interpreting them.
- Logging (`qCDebug`, `qCWarning`) and `Startup::init`'s `setParent` (startup.cpp:18-20) are side effects only.
- `startup.hpp` is not part of this model. It holds `Startup::getInstance` and the default of the job's additional environment.
  - The session a job registers its process with is passed to `Job.Start` as a parameter.
- `Startup.Session.constructor` passes the object under construction to `Job.Start` as the result of `Startup::getInstance()` at startup.cpp:83. Lines 22-41 set no instance pointer before the bridge job runs, and `Startup::init` (startup.cpp:18-20) builds the singleton through `getInstance()` itself. So under Wayland, with the bridge not yet registered, line 83 may re-enter a `getInstance()` that has not returned. `startup.hpp` is not part of this model, so what that re-entry does is not captured. The constructor's promises about the registry and the finished bridge hold only under this assumption.
  - The bridge job's additional environment is taken as empty.
- `Startup.PutEnv` does not model what `setenv` itself refuses or truncates: an empty name, a name containing `=`, and text after a NUL character.
- `Startup.Overlay` reads the process environment back unchanged. `systemEnvironment()` decodes it with the locale's 8-bit codec, which gives the same text for ASCII only.
- `Startup.Latin1` narrows one Dafny character (a Unicode code point) to one `?`. Qt works on UTF-16 code units, so a character outside the Basic Multilingual Plane becomes `??` there.
- The `Xcb::Atoms` aggregate (xcbutils.h:101-129) is left out. It makes synchronous round-trips, reads the screen geometry, and copy-initialises the non-copyable `Atom` from a raw atom id.
- The XEMBED message constants (xcbutils.h:24-31) and the default connection lookup through `XGetXCBConnection` are platform glue.
- The `onlyIfExists` flag and the connection pointer of `Atom` are not modelled. They only shape the server's reply, which is an input here.
