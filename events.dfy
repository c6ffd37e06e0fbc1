/**
 * The structured log as its callers see it: every `log(level:message:metadata:)`
 * call appends one event. The file format and rotation behind it are modelled
 * in module CasaLogger; components that only call the logger use this view.
 */
module Events {

  datatype Event = Event(level: string, message: string, metadata: map<string, string>)

  function Info(message: string, metadata: map<string, string>): (e: Event)
    ensures e.level == "info" && e.message == message && e.metadata == metadata
  {
    Event("info", message, metadata)
  }

  /** Swift's rendering of a Bool inside log metadata. */
  function BoolText(b: bool): (s: string)
    ensures s == "true" <==> b
    ensures s in {"true", "false"}
  {
    if b then "true" else "false"
  }

  class EventLog {
    var events: seq<Event>

    constructor ()
      ensures events == []
    {
      events := [];
    }

    method Log(level: string, message: string, metadata: map<string, string>)
      modifies this
      ensures events == old(events) + [Event(level, message, metadata)]
    {
      events := events + [Event(level, message, metadata)];
    }
  }
}
