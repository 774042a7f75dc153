/** When a reason annotation is accepted: it is one of the allowed reasons
    up to case, it matches the configured pattern, or it is free text on a
    delete. */
module Reasons {
  import opened GoStrings
  import opened Operations

  /** What Go's `regexp.MatchString(pattern, s)` reports: the pattern does
      not compile, or it compiles and a match somewhere in `s` is or is not
      found. */
  datatype MatchOutcome = CompileError | Searched(found: bool)

  /** A regular-expression engine, left uninterpreted. */
  type Engine = (string, string) -> MatchOutcome

  /** Go's engine matches the empty pattern against every string, because the
      search is unanchored. */
  ghost predicate EmptyPatternMatchesAll(engine: Engine)
  {
    forall s: string :: engine("", s) == Searched(true)
  }

  /** The reason equals some allowed reason, ignoring case. */
  predicate Listed(allowedReasons: seq<string>, reason: string)
  {
    exists i :: 0 <= i < |allowedReasons| && EqualFold(allowedReasons[i], reason)
  }

  method ReasonIsAllowed(allowedReasons: seq<string>, reason: string) returns (ok: bool)
    ensures ok <==> Listed(allowedReasons, reason)
  {
    for i := 0 to |allowedReasons|
      invariant forall j :: 0 <= j < i ==> !EqualFold(allowedReasons[j], reason)
    {
      if EqualFold(allowedReasons[i], reason) {
        return true;
      }
    }
    return false;
  }

  /** Matches the reason against the pattern; a compile error is no match. */
  function ReasonMatchesPattern(engine: Engine, pattern: string, reason: string): (matched: bool)
    ensures engine(pattern, reason).CompileError? ==> !matched
    ensures matched <==> engine(pattern, reason) == Searched(true)
  {
    match engine(pattern, reason)
    case CompileError => false
    case Searched(found) => found
  }

  /** Deletions accept any non-empty reason. */
  function IsReasonFreetext(op: Operation, reason: string): (r: bool)
    ensures r ==> op == Delete
    ensures op == Delete && reason != "" ==> r
  {
    op == Delete && reason != ""
  }

  /** A present reason is accepted when it is listed up to case, when the
      engine finds the pattern in it, or when it is a non-empty delete
      reason. */
  function Accepted(allowedReasons: seq<string>, pattern: string, engine: Engine, op: Operation, reason: string): (r: bool)
    ensures Listed(allowedReasons, reason) ==> r
    ensures r <==> Listed(allowedReasons, reason) || engine(pattern, reason) == Searched(true) || (op == Delete && reason != "")
  {
    Listed(allowedReasons, reason) || ReasonMatchesPattern(engine, pattern, reason) || IsReasonFreetext(op, reason)
  }

  /** Folding case does not change whether a reason is listed. */
  lemma ListedIgnoresCase(allowedReasons: seq<string>, r1: string, r2: string)
    requires EqualFold(r1, r2)
    ensures Listed(allowedReasons, r1) <==> Listed(allowedReasons, r2)
  {
    if Listed(allowedReasons, r1) {
      var i :| 0 <= i < |allowedReasons| && EqualFold(allowedReasons[i], r1);
      assert EqualFold(allowedReasons[i], r2);
    }
    if Listed(allowedReasons, r2) {
      var i :| 0 <= i < |allowedReasons| && EqualFold(allowedReasons[i], r2);
      assert EqualFold(allowedReasons[i], r1);
    }
  }

  /** "testing" is listed when "Testing" is allowed. */
  lemma LowerCaseReasonListed()
    ensures Listed(["Testing"], "testing")
  {
    var rest := "esting";
    assert "Testing" == ['T'] + rest && "testing" == ['t'] + rest;
    assert Fold(['T'] + rest) == [ToLowerAscii('T')] + Fold(rest) by {
      assert (['T'] + rest)[1..] == rest;
    }
    assert Fold(['t'] + rest) == [ToLowerAscii('t')] + Fold(rest) by {
      assert (['t'] + rest)[1..] == rest;
    }
    assert EqualFold(["Testing"][0], "testing");
  }

  /** Any non-empty reason is accepted for a delete, whatever the policy. */
  lemma DeleteAcceptsAnyText(allowedReasons: seq<string>, pattern: string, engine: Engine, reason: string)
    requires reason != ""
    ensures Accepted(allowedReasons, pattern, engine, Delete, reason)
  {
  }

  /** With Go's engine an empty pattern accepts every reason for every
      operation. */
  lemma EmptyPatternAcceptsAll(allowedReasons: seq<string>, engine: Engine, op: Operation, reason: string)
    requires EmptyPatternMatchesAll(engine)
    ensures Accepted(allowedReasons, "", engine, op, reason)
  {
    assert engine("", reason) == Searched(true);
  }

  /** A pattern that does not compile leaves the list and the free-text rule. */
  lemma BrokenPatternFallsBack(allowedReasons: seq<string>, pattern: string, engine: Engine, op: Operation, reason: string)
    requires engine(pattern, reason) == CompileError
    ensures Accepted(allowedReasons, pattern, engine, op, reason)
        <==> Listed(allowedReasons, reason) || IsReasonFreetext(op, reason)
  {
  }

  /** An empty entry in the allowed list, as a missing key produces, accepts
      an annotation whose value is empty. */
  lemma EmptyEntryAcceptsEmptyReason(allowedReasons: seq<string>, pattern: string, engine: Engine, op: Operation)
    requires "" in allowedReasons
    ensures Accepted(allowedReasons, pattern, engine, op, "")
  {
    var i :| 0 <= i < |allowedReasons| && allowedReasons[i] == "";
    assert EqualFold(allowedReasons[i], "");
  }

  /** With nothing configured to match, a cordon reason is accepted exactly
      when its pattern search succeeds. */
  lemma CordonNeedsListOrPattern(allowedReasons: seq<string>, pattern: string, engine: Engine, reason: string)
    requires !Listed(allowedReasons, reason)
    ensures Accepted(allowedReasons, pattern, engine, Cordon, reason) <==> engine(pattern, reason) == Searched(true)
  {
  }
}
