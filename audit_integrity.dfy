/** The integrity walk both backend services perform: every adjacent pair of events is checked
    for a sequence gap and for a broken hash link, and each finding becomes an issue. */
module AuditIntegrity {
  import opened Common
  import opened AuditRecords

  datatype Problem =
    | SequenceGap(expectedSequence: nat, actualSequence: nat)
    | HashChainBroken(expectedHash: string, actualHash: string)

  /** An issue names the sequence of the later event of the pair. */
  datatype Issue = Issue(sequence: nat, problem: Problem)

  /** The result `verifyIntegrity` reports. */
  datatype Verification = Verification(isValid: bool, issues: seq<Issue>, totalEvents: nat)

  /** The `issue` text of each kind. */
  function Message(p: Problem): string {
    match p
    case SequenceGap(_, _) => "Sequence gap detected"
    case HashChainBroken(_, _) => "Hash chain broken"
  }

  /** The issues one adjacent pair gives: first the gap check, then the link check. */
  function PairIssues(previous: AuditEvent, current: AuditEvent): seq<Issue> {
    (if current.sequence != previous.sequence + 1
     then [Issue(current.sequence, SequenceGap(previous.sequence + 1, current.sequence))]
     else [])
    + (if current.previousHash != previous.hash
       then [Issue(current.sequence, HashChainBroken(previous.hash, current.previousHash))]
       else [])
  }

  /** The issues of the whole walk, pair after pair from the front. */
  function ChainIssues(s: seq<AuditEvent>): seq<Issue>
    decreases |s|
  {
    if |s| < 2 then [] else ChainIssues(s[..|s| - 1]) + PairIssues(s[|s| - 2], s[|s| - 1])
  }

  /** Every event follows its predecessor: the next sequence, and a link to the predecessor's hash. */
  ghost predicate Linked(s: seq<AuditEvent>) {
    forall i :: 0 < i < |s| ==> s[i].sequence == s[i - 1].sequence + 1 && s[i].previousHash == s[i - 1].hash
  }

  /** The walk over `events` in their given order (the `for` loop that pushes into `issues`). */
  method CheckChain(events: seq<AuditEvent>) returns (issues: seq<Issue>)
    ensures issues == ChainIssues(events)
  {
    issues := [];
    var i := 1;
    while i < |events|
      invariant 1 <= i && (i <= |events| || events == [])
      invariant events != [] ==> issues == ChainIssues(events[..i])
      invariant events == [] ==> issues == []
    {
      var current := events[i];
      var previous := events[i - 1];
      if current.sequence != previous.sequence + 1 {
        issues := issues + [Issue(current.sequence, SequenceGap(previous.sequence + 1, current.sequence))];
      }
      if current.previousHash != previous.hash {
        issues := issues + [Issue(current.sequence, HashChainBroken(previous.hash, current.previousHash))];
      }
      assert events[..i + 1][..i] == events[..i];
      i := i + 1;
    }
    if events != [] {
      assert events[..i] == events;
    }
  }

  /** `isValid` is `issues.length === 0`; `totalEvents` is the number of events walked. */
  function Summarize(events: seq<AuditEvent>, issues: seq<Issue>): (v: Verification)
    ensures v.isValid <==> v.issues == []
    ensures v.issues == issues && v.totalEvents == |events|
  {
    Verification(|issues| == 0, issues, |events|)
  }

  /** The walk finds nothing exactly when every event follows its predecessor. */
  lemma {:induction false} NoIssuesIffLinked(s: seq<AuditEvent>)
    ensures ChainIssues(s) == [] <==> Linked(s)
    decreases |s|
  {
    if |s| >= 2 {
      var init := s[..|s| - 1];
      NoIssuesIffLinked(init);
      if Linked(s) {
        assert Linked(init) by {
          forall i | 0 < i < |init| ensures init[i].sequence == init[i - 1].sequence + 1 && init[i].previousHash == init[i - 1].hash {
            assert init[i] == s[i] && init[i - 1] == s[i - 1];
          }
        }
      }
      if ChainIssues(s) == [] {
        assert ChainIssues(init) == [];
        forall i | 0 < i < |s| ensures s[i].sequence == s[i - 1].sequence + 1 && s[i].previousHash == s[i - 1].hash {
          if i < |s| - 1 {
            assert init[i] == s[i] && init[i - 1] == s[i - 1];
          }
        }
      }
    }
  }

  /** Every adjacent pair whose sequences are not consecutive is reported as a sequence gap. */
  lemma {:induction false} GapIsReported(s: seq<AuditEvent>, i: nat)
    requires 0 < i < |s| && s[i].sequence != s[i - 1].sequence + 1
    ensures Issue(s[i].sequence, SequenceGap(s[i - 1].sequence + 1, s[i].sequence)) in ChainIssues(s)
    decreases |s|
  {
    if i < |s| - 1 {
      var init := s[..|s| - 1];
      assert init[i] == s[i] && init[i - 1] == s[i - 1];
      GapIsReported(init, i);
    }
  }

  /** Every adjacent pair whose link does not match is reported as a broken hash chain. */
  lemma {:induction false} BreakIsReported(s: seq<AuditEvent>, i: nat)
    requires 0 < i < |s| && s[i].previousHash != s[i - 1].hash
    ensures Issue(s[i].sequence, HashChainBroken(s[i - 1].hash, s[i].previousHash)) in ChainIssues(s)
    decreases |s|
  {
    if i < |s| - 1 {
      var init := s[..|s| - 1];
      assert init[i] == s[i] && init[i - 1] == s[i - 1];
      BreakIsReported(init, i);
    }
  }

  /** The issue describes a real defect of the pair ending at index `i`. */
  ghost predicate Describes(s: seq<AuditEvent>, i: int, x: Issue) {
    && 0 < i < |s|
    && x.sequence == s[i].sequence
    && match x.problem
       case SequenceGap(e, a) => e == s[i - 1].sequence + 1 && a == s[i].sequence && a != e
       case HashChainBroken(e, a) => e == s[i - 1].hash && a == s[i].previousHash && a != e
  }

  /** Nothing is reported without cause: every issue describes a defect of some adjacent pair. */
  lemma {:induction false} IssuesAreReal(s: seq<AuditEvent>, x: Issue)
    requires x in ChainIssues(s)
    ensures exists i :: Describes(s, i, x)
    decreases |s|
  {
    var init := s[..|s| - 1];
    if x in ChainIssues(init) {
      IssuesAreReal(init, x);
      var i :| Describes(init, i, x);
      assert init[i] == s[i] && init[i - 1] == s[i - 1];
      assert Describes(s, i, x);
    } else {
      assert Describes(s, |s| - 1, x);
    }
  }

  /** A log built by `logEvent` alone, without truncation, verifies valid. */
  lemma ChainedIsValid(s: seq<AuditEvent>, lastHash: Option<string>)
    requires Chained(s, lastHash)
    ensures ChainIssues(s) == []
  {
    NoIssuesIffLinked(s);
  }

  /** A buffer that keeps the last 1000 events and numbers a new event by its length + 1: once
      it is full, the next two events both get sequence 1001, and the walk reports the gap. */
  lemma BoundedBufferRepeatsSequence(s: seq<AuditEvent>, e1: AuditEvent, e2: AuditEvent)
    requires |s| == Capacity
    requires e1.sequence == |s| + 1
    requires e2.sequence == |KeepLast(s + [e1])| + 1
    ensures e1.sequence == e2.sequence == Capacity + 1
    ensures var full := KeepLast(KeepLast(s + [e1]) + [e2]);
            && |full| == Capacity
            && Issue(Capacity + 1, SequenceGap(Capacity + 2, Capacity + 1)) in ChainIssues(full)
  {
    var s1 := KeepLast(s + [e1]);
    assert s1[|s1| - 1] == e1;
    var full := KeepLast(s1 + [e2]);
    assert full[|full| - 1] == e2;
    assert full[|full| - 2] == e1;
    GapIsReported(full, |full| - 1);
  }
}
