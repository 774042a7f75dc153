/** Audit events: what one event says, and the recorder that collects them. */
module Events {
  import opened Admission
  import opened Policy
  import opened Operations

  const EventTypeNormal: string := "Normal"

  /** One recorded event: the object it is attached to, its type, its reason
      and its message. */
  datatype Event = Event(involved: Node, eventType: string, reason: string, message: string)

  const EventReasonPrefix: string := EventReason + ": "

  /** The event for an operation on a node: a normal event whose reason is
      "NodeOperation: <operation>" and whose message is "<user>: <text>". */
  function NodeEvent(node: Node, message: string, user: string, operation: string): (e: Event)
    ensures e.involved == node && e.eventType == EventTypeNormal
    ensures EventOperation(e) == operation
    ensures EventText(e, user) == message
  {
    var e := Event(node, EventTypeNormal, EventReasonPrefix + operation, user + ": " + message);
    assert e.reason[|EventReasonPrefix|..] == operation;
    assert e.message[|user| + 2..] == message;
    e
  }

  /** The operation an event reports, read back from its reason. */
  function EventOperation(e: Event): string
  {
    if |e.reason| >= |EventReasonPrefix| then e.reason[|EventReasonPrefix|..] else ""
  }

  /** The text an event carries for a given user, read back from its message. */
  function EventText(e: Event, user: string): string
  {
    if |e.message| >= |user| + 2 then e.message[|user| + 2..] else ""
  }

  /** The reason of an operation's event names exactly one operation,
      whatever the node, the user and the text. */
  lemma EventNamesOneOperation(
    n1: Node, m1: string, u1: string, a: Operation,
    n2: Node, m2: string, u2: string, b: Operation)
    requires NodeEvent(n1, m1, u1, a.Name()).reason == NodeEvent(n2, m2, u2, b.Name()).reason
    ensures a == b
  {
    assert EventOperation(NodeEvent(n1, m1, u1, a.Name())) == EventOperation(NodeEvent(n2, m2, u2, b.Name()));
    NameInjective(a, b);
  }

  /** The event sink: every event handed to it, in order. */
  class EventRecorder {
    var events: seq<Event>

    constructor ()
      ensures events == []
    {
      events := [];
    }

    method Record(involved: Node, eventType: string, reason: string, message: string)
      modifies this
      ensures events == old(events) + [Event(involved, eventType, reason, message)]
    {
      events := events + [Event(involved, eventType, reason, message)];
    }
  }

  /** Records one event for an operation performed by a user. */
  method CreateNodeEvent(node: Node, recorder: EventRecorder, message: string, user: string, operation: string)
    modifies recorder
    ensures recorder.events == old(recorder.events) + [NodeEvent(node, message, user, operation)]
  {
    var reason := EventReasonPrefix + operation;
    var fullMessage := user + ": " + message;
    recorder.Record(node, EventTypeNormal, reason, fullMessage);
  }
}
