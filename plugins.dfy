/** The plugin contract (name, handle, accepts) and the reference echo
    plugin. A plugin is a value: either the echo plugin or a custom plugin
    given by its name, its filter and its handler. */
module Plugins {
  import opened Events

  /** The name under which the echo plugin registers, and the only event
      name it accepts. */
  const EchoName: string := "echo"

  /** The message of the error the echo plugin reports when it is asked to
      handle an event that is not named "echo". */
  const EchoUnexpected: string := "Echo plugin received unexpected event"

  /** The filter of a plugin. `AcceptAll` is the contract's default, which
      lets every event through; `AcceptIf` is a plugin's own predicate. */
  datatype Filter = AcceptAll | AcceptIf(pred: Event -> bool)

  /** A plugin: the reference echo plugin, or any other plugin given by its
      name, its filter and its handler. Handlers and filters are total and
      pure: they cannot change the event they are given. */
  datatype Plugin =
    | Echo
    | Custom(name: string, filter: Filter, handler: Event -> EventResult)

  /** The name of a plugin, used for diagnostics and listing. */
  function Name(p: Plugin): string
  {
    match p
    case Echo => EchoName
    case Custom(name, _, _) => name
  }

  /** Whether a plugin wants to receive an event. */
  function Accepts(p: Plugin, e: Event): bool
  {
    match p
    case Echo => e.name == EchoName
    case Custom(_, AcceptAll, _) => true
    case Custom(_, AcceptIf(pred), _) => pred(e)
  }

  /** The result of a plugin handling an event. */
  function Handle(p: Plugin, e: Event): EventResult
  {
    match p
    case Echo =>
      if e.name == EchoName then Ok else Err(NewError(EchoUnexpected))
    case Custom(_, _, handler) => handler(e)
  }

  /** The plugin the tests use to record what it receives: it keeps the
      default filter and always succeeds. */
  function Recorder(name: string): (p: Plugin)
    ensures Name(p) == name
    ensures forall e :: Accepts(p, e) && Handle(p, e) == Ok
  {
    Custom(name, AcceptAll, _ => Ok)
  }

  /** A plugin that keeps the default filter accepts every event. */
  lemma DefaultAcceptsEverything(name: string, handler: Event -> EventResult, e: Event)
    ensures Accepts(Custom(name, AcceptAll, handler), e)
  {
  }

  /** The echo plugin is named "echo" and accepts exactly the events named
      "echo". */
  lemma EchoAcceptsOnlyEcho(e: Event)
    ensures Name(Echo) == "echo"
    ensures Accepts(Echo, e) <==> e.name == "echo"
  {
  }

  /** The echo plugin succeeds exactly on the events it accepts; on every
      other event it fails with the "unexpected event" message. */
  lemma EchoHandleMatchesAccepts(e: Event)
    ensures Handle(Echo, e).Ok? <==> Accepts(Echo, e)
    ensures !Accepts(Echo, e) ==>
              Handle(Echo, e) == Err(EventError("Echo plugin received unexpected event"))
  {
  }
}
