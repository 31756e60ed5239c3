/** The filter chain and the sort by sequence number that the backend services apply when a
    caller asks for the audit log. */
module AuditQuery {
  import opened Common
  import opened AuditRecords

  /** The query's filters; `startDate` and `endDate` are already parsed to milliseconds. */
  datatype Filters = Filters(
    userId: Option<string>,
    eventType: Option<string>,
    documentId: Option<string>,
    startDate: Option<int>,
    endDate: Option<int>)

  const NoFilters: Filters := Filters(None, None, None, None, None)

  /** No filter is set: the string filters are falsy and no date is given. */
  predicate NoneSet(f: Filters) {
    !Truthy(f.userId) && !Truthy(f.eventType) && !Truthy(f.documentId) && f.startDate.None? && f.endDate.None?
  }

  /** An event passes every filter that is set: the user id contains the filter text, the event type
      and the document id are equal to it, and the timestamp lies within the inclusive date bounds. */
  predicate Matches(e: AuditEvent, f: Filters) {
    && (Truthy(f.userId) ==> Includes(e.userId, f.userId.value))
    && (Truthy(f.eventType) ==> e.eventType == f.eventType.value)
    && (Truthy(f.documentId) ==> e.documentId == Some(f.documentId.value))
    && (f.startDate.Some? ==> e.timestamp >= f.startDate.value)
    && (f.endDate.Some? ==> e.timestamp <= f.endDate.value)
  }

  /** The events of `s` that pass the filters, in their stored order. */
  function Where(s: seq<AuditEvent>, f: Filters): (r: seq<AuditEvent>)
    ensures |r| <= |s|
  {
    if s == [] then []
    else if Matches(s[0], f) then [s[0]] + Where(s[1..], f)
    else Where(s[1..], f)
  }

  /** An event is in the result exactly when it is stored and passes every set filter. */
  lemma {:induction false} WhereMembership(s: seq<AuditEvent>, f: Filters, e: AuditEvent)
    ensures e in Where(s, f) <==> e in s && Matches(e, f)
  {
    if s != [] {
      WhereMembership(s[1..], f, e);
      assert s == [s[0]] + s[1..];
    }
  }

  /** Filters that are not set impose nothing. */
  lemma {:induction false} WhereNoFilters(s: seq<AuditEvent>, f: Filters)
    requires NoneSet(f)
    ensures Where(s, f) == s
  {
    if s != [] {
      WhereNoFilters(s[1..], f);
      assert s == [s[0]] + s[1..];
    }
  }

  /** Filtering works event by event and keeps the stored order: filtering a concatenation
      concatenates the filtered parts. */
  lemma {:induction false} WhereAppend(s1: seq<AuditEvent>, s2: seq<AuditEvent>, f: Filters)
    ensures Where(s1 + s2, f) == Where(s1, f) + Where(s2, f)
  {
    if s1 != [] {
      WhereAppend(s1[1..], s2, f);
      assert (s1 + s2)[1..] == s1[1..] + s2;
    } else {
      assert s1 + s2 == s2;
    }
  }

  /** Insertion place for the sort: `a` may stay before `b`. Descending order keeps equal
      sequences in their original relative order, as the stable `Array.prototype.sort` does. */
  predicate InOrder(a: AuditEvent, b: AuditEvent, descending: bool) {
    if descending then a.sequence >= b.sequence else a.sequence <= b.sequence
  }

  /** Puts `x` after every element of the sorted `r` that may stay before it. */
  function Insert(r: seq<AuditEvent>, x: AuditEvent, descending: bool): (t: seq<AuditEvent>)
    ensures |t| == |r| + 1
    ensures multiset(t) == multiset(r) + multiset{x}
  {
    if r == [] then [x]
    else if InOrder(r[0], x, descending) then
      assert r == [r[0]] + r[1..];
      [r[0]] + Insert(r[1..], x, descending)
    else [x] + r
  }

  /** `events.sort((a, b) => b.sequence - a.sequence)` (descending) or `a.sequence - b.sequence`
      (ascending): a stable sort, here adding the elements one at a time by insertion. */
  function SortBySequence(s: seq<AuditEvent>, descending: bool): (r: seq<AuditEvent>)
    ensures multiset(r) == multiset(s)
  {
    if s == [] then []
    else
      assert s == s[..|s| - 1] + [s[|s| - 1]];
      Insert(SortBySequence(s[..|s| - 1], descending), s[|s| - 1], descending)
  }

  /** The `logs` of `getAuditLog(filters)`: the filtered events, newest first. */
  function Query(s: seq<AuditEvent>, f: Filters): seq<AuditEvent> {
    SortBySequence(Where(s, f), true)
  }

  ghost predicate SortedBy(s: seq<AuditEvent>, descending: bool) {
    forall i, j :: 0 <= i < j < |s| ==> InOrder(s[i], s[j], descending)
  }

  /** Strictly ordered by sequence: descending (newest first) or ascending. */
  ghost predicate StrictlySortedBy(s: seq<AuditEvent>, descending: bool) {
    forall i, j :: 0 <= i < j < |s| ==>
      if descending then s[i].sequence > s[j].sequence else s[i].sequence < s[j].sequence
  }

  ghost predicate DistinctSequences(s: seq<AuditEvent>) {
    forall i, j :: 0 <= i < j < |s| ==> s[i].sequence != s[j].sequence
  }

  lemma {:induction false} InsertSorted(r: seq<AuditEvent>, x: AuditEvent, descending: bool)
    requires SortedBy(r, descending)
    ensures SortedBy(Insert(r, x, descending), descending)
  {
    if r != [] && InOrder(r[0], x, descending) {
      assert SortedBy(r[1..], descending);
      InsertSorted(r[1..], x, descending);
      var t := Insert(r, x, descending);
      var rest := Insert(r[1..], x, descending);
      assert t == [r[0]] + rest;
      forall j | 0 < j < |t| ensures InOrder(t[0], t[j], descending) {
        assert t[j] in multiset(rest);
        assert t[j] in multiset(r[1..]) + multiset{x};
        if t[j] != x {
          assert t[j] in r[1..];
        }
      }
    }
  }

  /** The sort's result is ordered by sequence and holds the same events as its input. */
  lemma {:induction false} SortIsSorted(s: seq<AuditEvent>, descending: bool)
    ensures SortedBy(SortBySequence(s, descending), descending)
    ensures multiset(SortBySequence(s, descending)) == multiset(s)
  {
    if s != [] {
      SortIsSorted(s[..|s| - 1], descending);
      InsertSorted(SortBySequence(s[..|s| - 1], descending), s[|s| - 1], descending);
    }
  }

  /** Events whose sequences are all different remain so when reordered or filtered. */
  lemma DistinctPermutation(s: seq<AuditEvent>, t: seq<AuditEvent>)
    requires DistinctSequences(s) && multiset(t) == multiset(s)
    ensures DistinctSequences(t)
  {
    forall i, j | 0 <= i < j < |t| ensures t[i].sequence != t[j].sequence {
      if t[i].sequence == t[j].sequence {
        assert t[i] in multiset(s) && t[j] in multiset(s);
        var a :| 0 <= a < |s| && s[a] == t[i];
        var b :| 0 <= b < |s| && s[b] == t[j];
        assert a == b;
        assert t[i] == t[j];
        assert multiset(t)[t[i]] >= 2 by {
          assert t == t[..j] + [t[j]] + t[j + 1..];
          assert t[i] in t[..j];
        }
        assert multiset(s)[s[a]] >= 2;
        DistinctHasSingleCopies(s, a);
      }
    }
  }

  lemma DistinctHasSingleCopies(s: seq<AuditEvent>, a: nat)
    requires DistinctSequences(s) && a < |s|
    ensures multiset(s)[s[a]] == 1
  {
    assert s == s[..a] + [s[a]] + s[a + 1..];
    assert s[a] !in s[..a];
    assert s[a] !in s[a + 1..];
  }

  /** Filtering keeps every sequence number distinct. */
  lemma {:induction false} WhereDistinct(s: seq<AuditEvent>, f: Filters)
    requires DistinctSequences(s)
    ensures DistinctSequences(Where(s, f))
  {
    if s != [] {
      assert DistinctSequences(s[1..]);
      WhereDistinct(s[1..], f);
      if Matches(s[0], f) {
        var rest := Where(s[1..], f);
        forall j | 0 <= j < |rest| ensures rest[j].sequence != s[0].sequence {
          assert rest[j] in rest;
          WhereMembership(s[1..], f, rest[j]);
        }
      }
    }
  }

  /** When no two events share a sequence, the sort's order is strict. */
  lemma SortStrict(s: seq<AuditEvent>, descending: bool)
    requires DistinctSequences(s)
    ensures StrictlySortedBy(SortBySequence(s, descending), descending)
  {
    var r := SortBySequence(s, descending);
    SortIsSorted(s, descending);
    DistinctPermutation(s, r);
  }

  /** Appending an element that may come after every element of a sorted sequence leaves it in place. */
  lemma {:induction false} InsertAtEnd(r: seq<AuditEvent>, x: AuditEvent, descending: bool)
    requires forall i :: 0 <= i < |r| ==> InOrder(r[i], x, descending)
    ensures Insert(r, x, descending) == r + [x]
  {
    if r != [] {
      InsertAtEnd(r[1..], x, descending);
      assert r == [r[0]] + r[1..];
    }
  }

  /** A sequence that is already in order is left exactly as it is. */
  lemma {:induction false} SortOfSorted(s: seq<AuditEvent>, descending: bool)
    requires SortedBy(s, descending)
    ensures SortBySequence(s, descending) == s
  {
    if s != [] {
      var init := s[..|s| - 1];
      assert SortedBy(init, descending);
      SortOfSorted(init, descending);
      InsertAtEnd(init, s[|s| - 1], descending);
      assert init + [s[|s| - 1]] == s;
    }
  }

  /** Sorting a log that is strictly ascending by sequence into descending order reverses it. */
  lemma {:induction false} SortDescendingReverses(s: seq<AuditEvent>)
    requires StrictlySortedBy(s, false)
    ensures SortBySequence(s, true) == Reverse(s)
  {
    if s != [] {
      var init := s[..|s| - 1];
      var x := s[|s| - 1];
      assert StrictlySortedBy(init, false);
      SortDescendingReverses(init);
      var r := Reverse(init);
      assert Insert(r, x, true) == [x] + r by {
        if r != [] {
          assert r[0] == init[|init| - 1];
          assert !InOrder(r[0], x, true);
        }
      }
      assert [x] + r == Reverse(s);
    }
  }
}
