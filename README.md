# Luna Assistant core: the plugin event bus

This project models the event bus of the Luna Assistant core library
(`core/src/lib.rs`) and proves what it does.

- An **event** is a name and a string payload. An **event error** carries a
  message. The result of handling an event is `Ok` or `Err(error)`.
- A **plugin** has a name, a handler and a filter (`accepts`). The filter
  defaults to accepting every event. Plugins are modelled as a datatype: the
  reference `Echo` plugin, or `Custom(name, filter, handler)` for any other
  plugin. The filter `AcceptAll` stands for the contract's default.
- The **event bus** is a class whose one field is the ordered registry
  `plugins: seq<Plugin>`. `Register` appends to it in place. `Dispatch` and
  `PluginNames` are functions that only read it, as the source's `&self`
  methods do.
- A dispatch keeps the plugins that accept the event, in registration order,
  and maps each to its handler's result. It is specified against an
  independent reference: `Accepted`, the strictly increasing list of the
  positions of accepting plugins. The k-th result is the handler result of
  the plugin at the k-th accepted position. A recursive `Count` gives the
  number of results.
- Registering a plugin appends its name to the listing. It adds at most one
  result to every later dispatch, at the end. Duplicate names are allowed:
  `Register` has no precondition.

## Model

| member | source | states |
|---|---|---|
| Events.NewEvent | core/src/lib.rs:13-21 | the event holds exactly the given name and payload; every pair of strings, empty ones included, is accepted |
| Events.NewEventRoundTrip | core/src/lib.rs:13-21 | every event is the constructor applied to its own fields, and the constructor is injective |
| Events.NewError | core/src/lib.rs:29-35 | the error holds exactly the given message |
| Events.Display | core/src/lib.rs:37-41 | the rendering of an error is its message: building an error from the rendering gives the same error |
| Events.DisplayRoundTrip | core/src/lib.rs:37-41 | rendering an error built from a message gives that message back |
| Plugins.DefaultAcceptsEverything | core/src/lib.rs:53-56 | a plugin with the default filter accepts every event |
| Plugins.EchoAcceptsOnlyEcho | core/src/lib.rs:94-109 | the echo plugin is named "echo" and accepts an event if and only if the event is named "echo" |
| Plugins.EchoHandleMatchesAccepts | core/src/lib.rs:99-109 | the echo handler succeeds if and only if the echo plugin accepts the event; otherwise it fails with "Echo plugin received unexpected event" |
| Plugins.Recorder | core/src/lib.rs:117-140 | the tests' recording plugin keeps its given name, accepts every event and always succeeds |
| Plugins.Name | core/src/lib.rs:48-97 | the plugin's name: "echo" for the echo plugin, the given name otherwise; no contract of its own, its properties are stated by `Plugins.EchoAcceptsOnlyEcho` and `Bus.EventBus.PluginNames` |
| Plugins.Accepts | core/src/lib.rs:53-109 | the filter: the default accepts every event, the echo plugin accepts events named "echo"; no contract of its own, its properties are stated by `Plugins.DefaultAcceptsEverything` and `Plugins.EchoAcceptsOnlyEcho` |
| Plugins.Handle | core/src/lib.rs:50-105 | the handler: the echo plugin's succeeds on "echo" and fails otherwise; no contract of its own, its properties are stated by `Plugins.EchoHandleMatchesAccepts` |
| Bus.Select | core/src/lib.rs:78-80 | the filter step keeps at most as many plugins as are registered, and every plugin it keeps accepts the event; its order is stated by `Bus.SelectFollowsAccepted` |
| Bus.DispatchOver | core/src/lib.rs:77-83 | the filter-then-map pipeline over a registry; no contract of its own, it is specified by `Bus.DispatchFollowsAccepted`, `Bus.DispatchLength`, `Bus.DispatchConcat` and `Bus.EventBus.Dispatch` |
| Bus.NamesOf | core/src/lib.rs:86-88 | the map-and-collect of the names; no contract of its own, it is specified by `Bus.NamesAppend` and `Bus.EventBus.PluginNames` |
| Bus.Count | core/src/lib.rs:77-83 | the number of accepting plugins never exceeds the number of registered plugins; `Bus.DispatchLength` ties it to the result count |
| Bus.AcceptedFrom | core/src/lib.rs:77-83 | the accepted positions from a start index: all within the registry, all accepting, strictly increasing, and every accepting position is present |
| Bus.SelectFollowsAccepted | core/src/lib.rs:78-80 | the filter step keeps exactly the plugins at the accepted positions, in the same order |
| Bus.DispatchFollowsAccepted | core/src/lib.rs:77-83 | there is one result per accepted position, and the k-th result is the handler result of the plugin at the k-th accepted position; non-accepting plugins contribute nothing |
| Bus.CountIsAccepted | core/src/lib.rs:77-83 | the two reference descriptions of the accepting plugins agree: the recursive count equals the number of accepted positions |
| Bus.DispatchLength | core/src/lib.rs:77-83 | the number of results equals the number of registered plugins that accept the event, so it never exceeds the registry's size |
| Bus.SelectConcat | core/src/lib.rs:78-80 | filtering two registries in sequence equals filtering each and concatenating |
| Bus.DispatchConcat | core/src/lib.rs:77-83 | dispatching over two registries in sequence gives the first registry's results followed by the second's |
| Bus.DispatchAppend | core/src/lib.rs:72-83 | appending a plugin adds its handler result at the end of a dispatch if it accepts the event, and nothing otherwise; the earlier results are unchanged |
| Bus.NamesAppend | core/src/lib.rs:72-88 | appending a plugin appends its name to the listing |
| Bus.DispatchAllAccepting | core/src/lib.rs:53-83 | when every plugin accepts the event, for example all keep the default filter, result i is plugin i's handler result, one per plugin |
| Bus.DispatchNoneAccepting | core/src/lib.rs:77-83 | when no plugin accepts the event, a dispatch returns no result |
| Bus.EventBus.constructor | core/src/lib.rs:60-69 | a new bus has no plugins, lists no names, and returns no result for any event |
| Bus.EventBus.Register | core/src/lib.rs:71-74 | the registry becomes the old one plus the plugin at the end; the name listing gains that name at the end; every dispatch gains that plugin's result at the end exactly when it accepts the event |
| Bus.EventBus.Dispatch | core/src/lib.rs:76-83 | the result count is the number of accepting plugins, and result k is the handler result of the k-th accepting plugin in registration order; it only reads the bus |
| Bus.EventBus.PluginNames | core/src/lib.rs:85-88 | one name per registered plugin, in registration order, duplicates included; it only reads the bus |
| BusTests.RecorderScenario | core/src/lib.rs:142-159 | a bus holding only the recorder lists ["recorder"]; any event yields exactly [Ok]; the recorder's handler is called once, at position 0 |
| BusTests.EchoOnlyBus | core/src/lib.rs:161-173 | a bus holding only the echo plugin returns [Ok] for an event named "echo" and no result for any other name |
| BusTests.RegistersPluginsAndDispatchesEvents | core/src/lib.rs:142-159 | the recording-plugin test restated on the class: after one registration the names are ["recorder"], a dispatch gives one Ok result, and the recorder's handler is called once; its checks are assertions, it has no contract |
| BusTests.EchoPluginAcceptsOnlyEchoEvents | core/src/lib.rs:161-177 | the echo test restated on the class: one Ok result for "echo", no result for "other", and an Err from a direct handler call; the assertions are the test's, with the expectation at lines 175-176 corrected; it has no contract |
| BusTests.EchoOtherExpectationAsWritten | core/src/lib.rs:174-176 | the test's expectation of exactly one result for the event named "other" does not hold |
| BusTests.EchoOtherExpectationCorrected | core/src/lib.rs:174-176 | dispatching "other" to the echo-only bus returns no result; only a direct call of the echo handler gives the "unexpected event" error |

`BusTests.RegistersPluginsAndDispatchesEvents` and
`BusTests.EchoPluginAcceptsOnlyEchoEvents` restate the two tests of
`core/src/lib.rs` on the class. The second one uses the corrected
expectation.

## Left out

- scripts/sync-labels.py: it only talks to the GitHub REST API and reads
  files and environment variables. It has no logic of its own to model.
- Concurrency, timeouts, a configurable timeout and a "not implemented"
  default handler: the code has none of them. `dispatch` is sequential and
  `handle` has no default.
- Panics: the code does not catch them, so a handler that panics unwinds
  through `dispatch` (core/src/lib.rs:81) and no result list comes back at
  all. In the model every handler is a total function, so this case does
  not arise.
- Open-ended plugin types (`Box<dyn Plugin>`, the `Send + Sync` bounds):
  plugins are a closed datatype. `Custom(name, filter, handler)` takes any
  name, any filter predicate and any handler function, so it covers every
  plugin whose `accepts` and `handle` are pure functions of the event.
- Side effects inside a handler: handlers are pure functions. The tests'
  recording plugin pushes each received event onto a log behind an
  `Arc<Mutex<…>>`. The model gives the call trace instead: `Accepted` lists
  which plugins' handlers a dispatch calls, in order, each with the
  dispatched event. Locking is not modelled.
- The `Into<String>` generic conversions of the constructors: they take
  strings directly.
- `Display` formatting: only "renders the message" is modelled, not the
  `fmt::Formatter` machinery.
- `EventBus::default`: it is the same as `new` and is modelled by the
  constructor.

## Findings

| source | as written | input that shows it | evidently intended | confidence | as-written member | corrected member |
|---|---|---|---|---|---|---|
| core/src/lib.rs:174-176 | the echo test expects exactly one result, an error, when the event named "other" is dispatched to a bus holding only the echo plugin | `Event::new("other", "ignored")` dispatched to a bus holding only `EchoPlugin` | no result, because `dispatch` calls only plugins whose `accepts` is true (lines 78-81), and the echo plugin accepts only "echo" (lines 107-109); the error arises only when `handle` is called directly | not executed; high | BusTests.EchoOtherExpectationAsWritten | BusTests.EchoOtherExpectationCorrected |
