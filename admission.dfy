/** The slice of the Kubernetes admission interface that the validator sees:
    the request, the node objects it carries, and the response it returns. */
module Admission {
  import opened Wrappers

  /** The admission verb of a request. */
  datatype Verb = Create | Update | Delete | Connect
  {
    /** The verb's wire value in the Kubernetes admission API. */
    function Name(): string
    {
      match this
      case Create => "CREATE"
      case Update => "UPDATE"
      case Delete => "DELETE"
      case Connect => "CONNECT"
    }
  }

  /** The two parts of a node object the validator reads: its annotations
      and `Spec.Unschedulable`. */
  datatype Node = Node(annotations: map<string, string>, unschedulable: bool)

  /** The zero value of a node: no annotations, schedulable. */
  const ZeroNode: Node := Node(map[], false)

  /** Decoding an object's JSON into a node that already holds values, as
      Go's JSON decoder does: a field the JSON leaves out keeps its value,
      and the object's annotations are added to those the node holds, an
      entry of the object replacing one with the same key. A node's JSON
      leaves out `unschedulable` when it is false, so decoding can set the
      flag but never clear it. */
  function DecodeInto(into: Node, obj: Node): (n: Node)
    ensures n.unschedulable <==> into.unschedulable || obj.unschedulable
    ensures forall k :: k in n.annotations <==> k in into.annotations || k in obj.annotations
    ensures forall k :: k in obj.annotations ==> n.annotations[k] == obj.annotations[k]
    ensures forall k :: k in into.annotations && k !in obj.annotations ==> n.annotations[k] == into.annotations[k]
  {
    Node(into.annotations + obj.annotations, into.unschedulable || obj.unschedulable)
  }

  /** Decoding into the zero node gives the object itself. */
  lemma DecodeIntoZero(obj: Node)
    ensures DecodeInto(ZeroNode, obj) == obj
  {
    assert ZeroNode.annotations + obj.annotations == obj.annotations;
  }

  /** An admission request. An object that is absent or cannot be decoded
      into a node is `None`. */
  datatype Request = Request(
    name: string,
    verb: Verb,
    username: string,
    oldObject: Option<Node>,
    newObject: Option<Node>)

  /** An admission decision: allowed or denied, with its message. */
  datatype Verdict = Verdict(allowed: bool, message: string)

  function Allowed(message: string): Verdict { Verdict(true, message) }

  function Denied(message: string): Verdict { Verdict(false, message) }

  /** What the handler answers: a decision, or an error with an HTTP status
      code (which the caller's failure policy turns into an outcome). */
  datatype Response = Decided(verdict: Verdict) | Errored(code: int, message: string)

  const StatusBadRequest: int := 400
  const StatusInternalServerError: int := 500
}
