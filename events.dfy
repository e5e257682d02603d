/** Value types exchanged on the event bus: the event itself, the error a
    plugin may report, and the per-plugin result of handling an event. */
module Events {

  /** An event: a name and a string payload. Immutable once built. */
  datatype Event = Event(name: string, payload: string)

  /** The error a plugin reports; it carries a human-readable message only. */
  datatype EventError = EventError(message: string)

  /** The outcome of one plugin handling one event: success carries nothing. */
  datatype EventResult = Ok | Err(error: EventError)

  /** The convenience constructor of an event. No validation takes place:
      any two strings, the empty ones included, make an event. */
  function NewEvent(name: string, payload: string): (e: Event)
    ensures e.name == name && e.payload == payload
  {
    Event(name, payload)
  }

  /** The constructor of an error from its message. */
  function NewError(message: string): (err: EventError)
    ensures err.message == message
  {
    EventError(message)
  }

  /** The human-readable rendering of an error: exactly its message. */
  function Display(err: EventError): (s: string)
    ensures NewError(s) == err
  {
    err.message
  }

  /** Every event is the one the constructor builds from its own fields,
      and the constructor loses nothing: equal events come only from equal
      arguments. */
  lemma NewEventRoundTrip(e: Event, name: string, payload: string)
    ensures NewEvent(e.name, e.payload) == e
    ensures NewEvent(name, payload) == e <==> (name == e.name && payload == e.payload)
  {
  }

  /** Rendering an error built from a message gives that message back. */
  lemma DisplayRoundTrip(message: string)
    ensures Display(NewError(message)) == message
  {
  }
}
