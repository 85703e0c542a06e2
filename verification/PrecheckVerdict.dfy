/** The agent's precheck verdict: checks and reasons recorded one after the other, and the
    status and the gate they add up to. */
module PrecheckVerdict {
  import opened RuntimeTypes

  datatype CheckOutcome = Passed | Skipped | Warned | Failed

  /** One call that records something. */
  datatype Call = AddCheck(name: string, outcome: CheckOutcome, blocking: bool) | AddReason(code: Code, blocking: bool)

  /** How bad a call is; a verdict is as bad as its worst call. */
  datatype Severity = Fine | Doubtful | Fatal

  function SeverityOf(c: Call): Severity {
    match c
    case AddCheck(_, outcome, blocking) =>
      if outcome.Failed? then (if blocking then Fatal else Doubtful)
      else if outcome.Warned? then Doubtful
      else Fine
    case AddReason(_, blocking) => if blocking then Fatal else Doubtful
  }

  function Worse(a: Severity, b: Severity): Severity {
    if a.Fatal? || b.Fatal? then Fatal else if a.Doubtful? || b.Doubtful? then Doubtful else Fine
  }

  function Worst(calls: seq<Call>): Severity {
    if calls == [] then Fine else Worse(Worst(calls[..|calls| - 1]), SeverityOf(calls[|calls| - 1]))
  }

  function StatusOf(s: Severity): PrecheckStatus {
    match s
    case Fine => PrecheckOk
    case Doubtful => PrecheckWarning
    case Fatal => PrecheckFailed
  }

  function ReasonsOf(calls: seq<Call>): seq<Reason> {
    if calls == [] then []
    else
      var last := calls[|calls| - 1];
      ReasonsOf(calls[..|calls| - 1]) + (if last.AddReason? then [Reason(last.code, last.blocking, FromAgent, "")] else [])
  }

  function ChecksOf(calls: seq<Call>): seq<Call> {
    if calls == [] then []
    else
      var last := calls[|calls| - 1];
      ChecksOf(calls[..|calls| - 1]) + (if last.AddCheck? then [last] else [])
  }

  lemma Snoc(calls: seq<Call>, c: Call)
    ensures Worst(calls + [c]) == Worse(Worst(calls), SeverityOf(c))
    ensures ReasonsOf(calls + [c])
         == ReasonsOf(calls) + (if c.AddReason? then [Reason(c.code, c.blocking, FromAgent, "")] else [])
    ensures ChecksOf(calls + [c]) == ChecksOf(calls) + (if c.AddCheck? then [c] else [])
  {
    assert (calls + [c])[..|calls|] == calls;
  }

  /** A verdict fails exactly when some call is fatal, and passes exactly when all are fine. */
  lemma {:induction false} WorstIff(calls: seq<Call>)
    ensures Worst(calls) == Fatal <==> exists c :: c in calls && SeverityOf(c) == Fatal
    ensures Worst(calls) == Fine <==> forall c | c in calls :: SeverityOf(c) == Fine
  {
    if calls != [] {
      var front, last := calls[..|calls| - 1], calls[|calls| - 1];
      WorstIff(front);
      assert calls == front + [last];
      assert last in calls && forall c :: c in calls <==> c in front || c == last;
    }
  }

  /** The verdict in plain terms: it fails exactly when a blocking check failed or a blocking reason
      was given, and is ok exactly when no check failed or warned and no reason was given at all. */
  lemma VerdictIff(calls: seq<Call>)
    ensures StatusOf(Worst(calls)) == PrecheckFailed <==> Worst(calls) == Fatal
    ensures Worst(calls) == Fatal
       <==> exists c :: c in calls && c.blocking && (c.AddReason? || c.outcome == Failed)
    ensures StatusOf(Worst(calls)) == PrecheckOk
       <==> forall c | c in calls :: c.AddCheck? && (c.outcome == Passed || c.outcome == Skipped)
    ensures StatusOf(Worst(calls)) == PrecheckWarning
       <==> StatusOf(Worst(calls)) != PrecheckFailed && StatusOf(Worst(calls)) != PrecheckOk
  {
    WorstIff(calls);
    forall c | c in calls
      ensures SeverityOf(c) == Fatal <==> c.blocking && (c.AddReason? || c.outcome == Failed)
      ensures SeverityOf(c) == Fine <==> c.AddCheck? && (c.outcome == Passed || c.outcome == Skipped)
    {
    }
  }

  /** The recorded reasons and checks are those given, in the order they were given. */
  lemma {:induction false} RecordsIff(calls: seq<Call>)
    ensures forall r :: r in ReasonsOf(calls)
              <==> r.source == FromAgent && r.related == "" && AddReason(r.code, r.blocking) in calls
    ensures forall c :: c in ChecksOf(calls) <==> c.AddCheck? && c in calls
  {
    if calls != [] {
      var front, last := calls[..|calls| - 1], calls[|calls| - 1];
      RecordsIff(front);
      assert calls == front + [last];
      assert forall c :: c in calls <==> c in front || c == last;
    }
  }

  /** Neither order nor repetition matters. */
  lemma VerdictIgnoresOrder(a: seq<Call>, b: seq<Call>)
    requires forall c :: c in a <==> c in b
    ensures Worst(a) == Worst(b)
  {
    WorstIff(a);
    WorstIff(b);
  }

  class Precheck {
    var status: PrecheckStatus
    var gating: bool
    var checks: seq<Call>
    var reasons: seq<Reason>
    /** Every call so far. */
    ghost var calls: seq<Call>

    ghost predicate Valid()
      reads this
    {
      && status == StatusOf(Worst(calls))
      && gating == Worst(calls).Fatal?
      && checks == ChecksOf(calls) && reasons == ReasonsOf(calls)
    }

    constructor ()
      ensures Valid() && calls == [] && checks == []
    {
      status, gating, checks, reasons, calls := PrecheckOk, false, [], [], [];
    }

    /** Joins one more check's severity into the status and the gate. */
    method UpdateStatus(ghost sofar: Severity, outcome: CheckOutcome, blocking: bool)
      requires status == StatusOf(sofar) && gating == sofar.Fatal?
      modifies this`status, this`gating
      ensures var joined := Worse(sofar, SeverityOf(AddCheck("", outcome, blocking)));
              status == StatusOf(joined) && gating == joined.Fatal?
    {
      if outcome.Failed? {
        if blocking {
          gating, status := true, PrecheckFailed;
        } else if status != PrecheckFailed {
          status := PrecheckWarning;
        }
      } else if outcome.Warned? {
        if status == PrecheckOk {
          status := PrecheckWarning;
        }
      }
    }

    method Check(name: string, outcome: CheckOutcome, blocking: bool)
      requires Valid()
      modifies this
      ensures Valid() && calls == old(calls) + [AddCheck(name, outcome, blocking)]
    {
      Snoc(calls, AddCheck(name, outcome, blocking));
      UpdateStatus(Worst(calls), outcome, blocking);
      checks := checks + [AddCheck(name, outcome, blocking)];
      calls := calls + [AddCheck(name, outcome, blocking)];
    }

    method Because(code: Code, blocking: bool)
      requires Valid()
      modifies this
      ensures Valid() && calls == old(calls) + [AddReason(code, blocking)]
    {
      Snoc(calls, AddReason(code, blocking));
      reasons := reasons + [Reason(code, blocking, FromAgent, "")];
      calls := calls + [AddReason(code, blocking)];
      if blocking {
        gating, status := true, PrecheckFailed;
      } else if status == PrecheckOk {
        status := PrecheckWarning;
      }
    }
  }
}
