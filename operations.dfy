/** The node operations the validator tells apart, and how an update is
    classified from the node's schedulability before and after it. */
module Operations {

  datatype Operation = Create | Delete | Cordon | Uncordon
  {
    /** The operation's name as used in messages and events. */
    function Name(): string
    {
      match this
      case Create => "create"
      case Delete => "delete"
      case Cordon => "cordon"
      case Uncordon => "uncordon"
    }
  }

  /** Distinct operations have distinct names. */
  lemma NameInjective(a: Operation, b: Operation)
    requires a.Name() == b.Name()
    ensures a == b
  {
    assert a.Name()[0] == b.Name()[0];
    if a.Cordon? || b.Cordon? {
      assert a.Name()[2] == b.Name()[2];
    }
  }

  /** An update either guards a cordon or an uncordon, or is a plain update. */
  datatype UpdateKind = Guarded(op: Operation) | PlainUpdate

  /** Cordon when the node becomes unschedulable, uncordon when it becomes
      schedulable again, anything else is a plain update. */
  function ClassifyUpdate(wasUnschedulable: bool, isUnschedulable: bool): (k: UpdateKind)
    ensures k.Guarded? ==> k.op == Cordon || k.op == Uncordon
    ensures k == Guarded(Cordon) <==> !wasUnschedulable && isUnschedulable
    ensures k == Guarded(Uncordon) <==> wasUnschedulable && !isUnschedulable
    ensures k == PlainUpdate <==> wasUnschedulable == isUnschedulable
  {
    if !wasUnschedulable && isUnschedulable then Guarded(Cordon)
    else if wasUnschedulable && !isUnschedulable then Guarded(Uncordon)
    else PlainUpdate
  }
}
