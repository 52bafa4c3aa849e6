// The append-only audit log of MemoryStore and the listing that scans it from the end.
module AuditLog {
  import opened Common

  // What a handler reports, and the row made of it.
  datatype Event = Event(org: Uuid, action: string)

  datatype Row = Row(id: int, event: Event, at: Time)

  function Reverse<T>(s: seq<T>): (r: seq<T>)
    ensures |r| == |s|
  {
    if s == [] then [] else Reverse(s[1..]) + [s[0]]
  }

  // The first `limit` elements; none when `limit` is not positive.
  function First<T>(s: seq<T>, limit: int): seq<T> {
    if limit <= 0 then [] else if limit <= |s| then s[..limit] else s
  }

  function OfOrg(rows: seq<Row>, org: Uuid): seq<Row> {
    Filter(rows, (r: Row) => r.event.org == org)
  }

  function Listing(rows: seq<Row>, org: Uuid, limit: int): seq<Row> {
    First(OfOrg(Reverse(rows), org), limit)
  }

  function Insert(rows: seq<Row>, event: Event, at: Time): seq<Row> {
    rows + [Row(|rows| + 1, event, at)]
  }

  lemma {:induction false} ReverseSnoc<T>(s: seq<T>, x: T)
    ensures Reverse(s + [x]) == [x] + Reverse(s)
  {
    if s == [] {
      assert s + [x] == [x] + [];
    } else {
      assert (s + [x])[1..] == s[1..] + [x];
      ReverseSnoc(s[1..], x);
    }
  }

  // The rows from position i on, seen from the end.
  lemma ScanStep(rows: seq<Row>, org: Uuid, i: nat)
    requires i < |rows|
    ensures OfOrg(Reverse(rows[i..]), org)
         == OfOrg(Reverse(rows[i + 1..]), org) + if rows[i].event.org == org then [rows[i]] else []
  {
    assert rows[i..][1..] == rows[i + 1..];
    var keep := (r: Row) => r.event.org == org;
    FilterAppend(Reverse(rows[i + 1..]), [rows[i]], keep);
    assert [rows[i]][1..] == [];
  }

  // What scanning the rest of the rows would add only comes later in the listing.
  lemma {:induction false} ScanPrefix(rows: seq<Row>, org: Uuid, i: nat)
    requires i <= |rows|
    ensures OfOrg(Reverse(rows[i..]), org) <= OfOrg(Reverse(rows), org)
  {
    if i > 0 {
      ScanPrefix(rows, org, i - 1);
      ScanStep(rows, org, i - 1);
    } else {
      assert rows[0..] == rows;
    }
  }

  // A scan that has reached the start of the log, or found enough rows, has found the listing.
  lemma ScanDone(rows: seq<Row>, org: Uuid, i: nat, limit: int)
    requires i <= |rows|
    requires var found := OfOrg(Reverse(rows[i..]), org);
      if limit <= 0 then found == [] else |found| <= limit && (i == 0 || |found| == limit)
    ensures OfOrg(Reverse(rows[i..]), org) == Listing(rows, org, limit)
  {
    ScanPrefix(rows, org, i);
    assert rows[0..] == rows;
  }

  ghost predicate Numbered(rows: seq<Row>) {
    forall i :: 0 <= i < |rows| ==> rows[i].id == i + 1
  }

  ghost predicate Decreasing(rows: seq<Row>) {
    forall i, j :: 0 <= i < j < |rows| ==> rows[i].id > rows[j].id
  }

  lemma {:induction false} OfOrgDecreases(rows: seq<Row>, org: Uuid)
    requires Numbered(rows)
    ensures Decreasing(OfOrg(Reverse(rows), org))
    ensures forall r :: r in OfOrg(Reverse(rows), org) ==> r.id <= |rows|
  {
    if rows != [] {
      var n := |rows| - 1;
      OfOrgDecreases(rows[..n], org);
      assert rows == rows[..n] + [rows[n]];
      ReverseSnoc(rows[..n], rows[n]);
      var keep := (r: Row) => r.event.org == org;
      FilterAppend([rows[n]], Reverse(rows[..n]), keep);
      assert [rows[n]][1..] == [];
    }
  }

  // The newest rows of the organization, newest first, and no more than the limit: whoever is missing is older than all
  // that are listed, and nobody is missing from a listing shorter than the limit.
  ghost predicate ListedFrom(rows: seq<Row>, listed: seq<Row>, org: Uuid, limit: int) {
    && (forall k :: 0 <= k < |listed| ==> listed[k] in rows && listed[k].event.org == org)
    && (forall k, l :: 0 <= k < l < |listed| ==> listed[k].id > listed[l].id)
    && (if limit <= 0 then listed == [] else |listed| <= limit)
    && (0 <= |listed| < limit ==> forall r :: r in rows && r.event.org == org ==> r in listed)
    && (forall r, k :: r in rows && r.event.org == org && 0 <= k < |listed| && r.id >= listed[k].id ==> r in listed)
  }

  lemma {:induction false} OfOrgHolds(rows: seq<Row>, org: Uuid)
    ensures forall r :: r in OfOrg(Reverse(rows), org) <==> r in rows && r.event.org == org
  {
    if rows != [] {
      var n := |rows| - 1;
      OfOrgHolds(rows[..n], org);
      assert rows == rows[..n] + [rows[n]];
      ReverseSnoc(rows[..n], rows[n]);
      FilterAppend([rows[n]], Reverse(rows[..n]), (r: Row) => r.event.org == org);
      assert [rows[n]][1..] == [];
    }
  }

  lemma ListingSpelt(rows: seq<Row>, org: Uuid, limit: int)
    requires Numbered(rows)
    ensures ListedFrom(rows, Listing(rows, org, limit), org, limit)
  {
    OfOrgHolds(rows, org);
    OfOrgDecreases(rows, org);
    var all, listed := OfOrg(Reverse(rows), org), Listing(rows, org, limit);
    forall r, k | r in rows && r.event.org == org && 0 <= k < |listed| && r.id >= listed[k].id
      ensures r in listed
    {
      var p :| 0 <= p < |all| && all[p] == r;
      assert listed[k] == all[k];
      assert p <= k;
    }
  }

  class Log {
    var rows: seq<Row>

    // Ids number the rows from 1 in order of insertion.
    ghost predicate Valid()
      reads this
    {
      Numbered(rows)
    }

    constructor ()
      ensures Valid() && rows == []
    {
      rows := [];
    }

    method InsertAuditLog(event: Event, now: Time)
      requires Valid()
      modifies this
      ensures Valid() && rows == Insert(old(rows), event, now)
      ensures rows == old(rows) + [Row(|old(rows)| + 1, event, now)]
    {
      rows := rows + [Row(|rows| + 1, event, now)];
    }

    method ListAuditLogs(org: Uuid, limit: int) returns (result: seq<Row>)
      requires Valid()
      ensures result == Listing(rows, org, limit)
      ensures ListedFrom(rows, result, org, limit)
    {
      result := [];
      var i := |rows| - 1;
      while i >= 0 && |result| < limit
        invariant -1 <= i < |rows|
        invariant result == OfOrg(Reverse(rows[i + 1..]), org)
        invariant |result| <= if limit < 0 then 0 else limit
      {
        ScanStep(rows, org, i);
        if rows[i].event.org == org {
          result := result + [rows[i]];
        }
        i := i - 1;
      }
      ScanDone(rows, org, i + 1, limit);
      ListingSpelt(rows, org, limit);
    }
  }

  // ---- Histories ----

  // A log after inserting the events in order.
  function After(events: seq<(Event, Time)>): (rows: seq<Row>)
    ensures |rows| == |events|
  {
    if events == [] then []
    else
      var n := |events| - 1;
      Insert(After(events[..n]), events[n].0, events[n].1)
  }

  lemma {:induction false} AfterNumbered(events: seq<(Event, Time)>)
    ensures Numbered(After(events))
  {
    if events != [] { AfterNumbered(events[..|events| - 1]); }
  }

  // Every listing shows strictly decreasing ids, whatever else has been inserted.
  lemma ListingDecreases(events: seq<(Event, Time)>, org: Uuid, limit: int)
    ensures Decreasing(Listing(After(events), org, limit))
  {
    AfterNumbered(events);
    OfOrgDecreases(After(events), org);
  }

  // The log only grows: rows, once inserted, stay as they are.
  lemma {:induction false} AppendOnly(events: seq<(Event, Time)>, more: seq<(Event, Time)>)
    ensures After(events) <= After(events + more)
  {
    if more == [] {
      assert events + more == events;
    } else {
      var n := |more| - 1;
      AppendOnly(events, more[..n]);
      assert (events + more)[..|events| + n] == events + more[..n];
    }
  }

  // Inserts of other organizations make no difference to a listing.
  lemma {:induction false} OthersUnseen(events: seq<(Event, Time)>, more: seq<(Event, Time)>, org: Uuid, limit: int)
    requires forall i :: 0 <= i < |more| ==> more[i].0.org != org
    ensures Listing(After(events + more), org, limit) == Listing(After(events), org, limit)
  {
    if more == [] {
      assert events + more == events;
    } else {
      var n := |more| - 1;
      OthersUnseen(events, more[..n], org, limit);
      assert (events + more)[..|events| + n] == events + more[..n];
      var rows := After(events + more[..n]);
      ReverseSnoc(rows, Row(|rows| + 1, more[n].0, more[n].1));
    }
  }

  function Own(org: Uuid): ((Event, Time)) -> bool {
    (e: (Event, Time)) => e.0.org == org
  }

  function OwnEvents(events: seq<(Event, Time)>, org: Uuid): seq<(Event, Time)> {
    Filter(events, Own(org))
  }

  // The events of a listing, newest first.
  function EventsOf(rows: seq<Row>): (r: seq<(Event, Time)>)
    ensures |r| == |rows|
  {
    seq(|rows|, i requires 0 <= i < |rows| => (rows[i].event, rows[i].at))
  }

  // Apart from the ids, a listing is the organization's own history: the last `limit` events it inserted, newest first.
  lemma ListingIsOwnHistory(events: seq<(Event, Time)>, org: Uuid, limit: int)
    ensures EventsOf(Listing(After(events), org, limit))
         == First(Reverse(OwnEvents(events, org)), limit)
  {
    OwnHistory(events, org);
  }

  lemma {:induction false} OwnHistory(events: seq<(Event, Time)>, org: Uuid)
    ensures EventsOf(OfOrg(Reverse(After(events)), org)) == Reverse(OwnEvents(events, org))
  {
    if events != [] {
      var n := |events| - 1;
      OwnHistory(events[..n], org);
      NewestFirst(After(events[..n]), events[n], org);
      assert events == events[..n] + [events[n]];
      OneMoreEvent(events[..n], events[n], org);
    }
  }

  lemma NewestFirst(rows: seq<Row>, e: (Event, Time), org: Uuid)
    ensures EventsOf(OfOrg(Reverse(Insert(rows, e.0, e.1)), org))
         == (if e.0.org == org then [e] else []) + EventsOf(OfOrg(Reverse(rows), org))
  {
    var row := Row(|rows| + 1, e.0, e.1);
    ReverseSnoc(rows, row);
    assert ([row] + Reverse(rows))[1..] == Reverse(rows);
  }

  lemma OneMoreEvent(events: seq<(Event, Time)>, e: (Event, Time), org: Uuid)
    ensures Reverse(OwnEvents(events + [e], org))
         == (if e.0.org == org then [e] else []) + Reverse(OwnEvents(events, org))
  {
    FilterAppend(events, [e], Own(org));
    assert [e][1..] == [];
    assert Filter([e], Own(org)) == if e.0.org == org then [e] else [];
    assert OwnEvents(events, org) + [] == OwnEvents(events, org);
    ReverseSnoc(OwnEvents(events, org), e);
  }
}
