/** The trip router: input rules and the duration computed by `createTrip`,
    the owner-scoped, newest-first listing of `getAllTrips`, and
    `getTripTypes`. The database table is a sequence of rows held by
    `TripStore`; the signed-in user's id is passed in by the caller. */
module TripService {
  import opened Common
  import opened TripTypes

  /** Milliseconds in one day: `1000 * 60 * 60 * 24`. */
  const MillisPerDay: int := 1000 * 60 * 60 * 24

  /** One row of the trip table. `id` stands for the identifier the database
      generates; dates are milliseconds since the Unix epoch. */
  datatype Trip = Trip(
    id: nat,
    title: string,
    destination: string,
    startDate: int,
    endDate: int,
    duration: int,
    tripType: TripType,
    description: Option<string>,
    userId: string)

  /** The `createTrip` input after its date strings have become timestamps. */
  datatype CreateTripInput = CreateTripInput(
    title: string,
    destination: string,
    startDate: int,
    endDate: int,
    tripType: string,
    description: Option<string>)

  /** The ways the `createTrip` input schema can reject its input. */
  datatype InputIssue = TitleRequired | DestinationRequired | InvalidTripType

  /** Whole days from `startMs` to `endMs`, rounded up:
      `Math.ceil((end - start) / 86400000)`. */
  function Duration(startMs: int, endMs: int): (days: int)
    ensures (days - 1) * MillisPerDay < endMs - startMs <= days * MillisPerDay
  {
    -((startMs - endMs) / MillisPerDay)
  }

  /** The bounds in Duration's contract pin down one integer only, so
      Duration is exactly the ceiling of the quotient. */
  lemma DurationIsCeiling(startMs: int, endMs: int, days: int)
    requires (days - 1) * MillisPerDay < endMs - startMs <= days * MillisPerDay
    ensures Duration(startMs, endMs) == days
  {
  }

  lemma DurationPositiveWhenEndAfterStart(startMs: int, endMs: int)
    requires endMs > startMs
    ensures Duration(startMs, endMs) >= 1
  {
  }

  lemma DurationOfWholeDays(startMs: int, days: int)
    ensures Duration(startMs, startMs + days * MillisPerDay) == days
  {
    DurationIsCeiling(startMs, startMs + days * MillisPerDay, days);
  }

  /** The input schema does not order the dates: equal dates give 0 days and
      an end before the start gives no more than 0. */
  lemma DurationWithoutDateOrder(startMs: int, endMs: int)
    ensures endMs == startMs ==> Duration(startMs, endMs) == 0
    ensures endMs < startMs ==> Duration(startMs, endMs) <= 0
  {
    if endMs == startMs {
      DurationIsCeiling(startMs, endMs, 0);
    }
  }

  /** 2025-06-01T00:00:00Z to 2025-06-05T00:00:00Z is four days. */
  lemma DurationJuneExample()
    ensures Duration(1748736000000, 1749081600000) == 4
  {
    DurationOfWholeDays(1748736000000, 4);
  }

  /** The issues the `createTrip` input schema reports, in field order. */
  function InputIssues(input: CreateTripInput): (issues: seq<InputIssue>)
    ensures TitleRequired in issues <==> input.title == ""
    ensures DestinationRequired in issues <==> input.destination == ""
    ensures InvalidTripType in issues <==> Parse(input.tripType).None?
    ensures issues == [] <==>
      input.title != "" && input.destination != "" && Parse(input.tripType).Some?
  {
    (if input.title == "" then [TitleRequired] else [])
    + (if input.destination == "" then [DestinationRequired] else [])
    + (if Parse(input.tripType).None? then [InvalidTripType] else [])
  }

  /** The row `createTrip` writes for an accepted input. */
  function NewTrip(id: nat, input: CreateTripInput, userId: string): (t: Trip)
    requires InputIssues(input) == []
    ensures t.id == id && t.userId == userId
    ensures t.title == input.title != "" && t.destination == input.destination != ""
    ensures t.startDate == input.startDate && t.endDate == input.endDate
    ensures t.description == input.description && Name(t.tripType) == input.tripType
    ensures (t.duration - 1) * MillisPerDay < t.endDate - t.startDate <= t.duration * MillisPerDay
  {
    Trip(id, input.title, input.destination, input.startDate, input.endDate,
         Duration(input.startDate, input.endDate), Parse(input.tripType).value,
         input.description, userId)
  }

  /** The rows of `trips` that belong to `userId`, in table order
      (`where: { userId }`). */
  function OwnedBy(trips: seq<Trip>, userId: string): (r: seq<Trip>)
    ensures forall t :: t in r ==> t.userId == userId
  {
    if trips == [] then []
    else
      var rest := OwnedBy(trips[1..], userId);
      if trips[0].userId == userId then [trips[0]] + rest else rest
  }

  /** The filter keeps every row of the user as often as it occurs, and no other. */
  lemma {:induction false} OwnedByCounts(trips: seq<Trip>, userId: string)
    ensures forall t :: multiset(OwnedBy(trips, userId))[t]
                        == if t.userId == userId then multiset(trips)[t] else 0
  {
    if trips != [] {
      assert trips == [trips[0]] + trips[1..];
      OwnedByCounts(trips[1..], userId);
    }
  }

  lemma {:induction false} OwnedByAppend(trips: seq<Trip>, t: Trip, userId: string)
    ensures OwnedBy(trips + [t], userId)
         == OwnedBy(trips, userId) + (if t.userId == userId then [t] else [])
  {
    if trips == [] {
      assert trips + [t] == [t];
    } else {
      assert (trips + [t])[1..] == trips[1..] + [t];
      OwnedByAppend(trips[1..], t, userId);
    }
  }

  /** Start dates never increase from one row to a later one. */
  predicate NewestFirst(s: seq<Trip>) {
    forall i, j :: 0 <= i < j < |s| ==> s[i].startDate >= s[j].startDate
  }

  /** The first row of a newest-first listing starts no earlier than any row in it. */
  lemma HeadIsNewest(s: seq<Trip>)
    requires NewestFirst(s) && s != []
    ensures forall x :: x in s ==> x.startDate <= s[0].startDate
  {
    forall x | x in s ensures x.startDate <= s[0].startDate {
      var k :| 0 <= k < |s| && s[k] == x;
      if k > 0 {
        assert s[0].startDate >= s[k].startDate;
      }
    }
  }

  /** A row starting no earlier than every row of a newest-first listing
      can go in front of it. */
  lemma PrependNewest(x: Trip, s: seq<Trip>)
    requires NewestFirst(s)
    requires forall y :: y in s ==> y.startDate <= x.startDate
    ensures NewestFirst([x] + s)
  {
    var r := [x] + s;
    forall i, j | 0 <= i < j < |r| ensures r[i].startDate >= r[j].startDate {
      assert r[j] == s[j - 1];
      if i > 0 {
        assert r[i] == s[i - 1];
      } else {
        assert s[j - 1] in s;
      }
    }
  }

  function InsertNewestFirst(t: Trip, s: seq<Trip>): (r: seq<Trip>)
    requires NewestFirst(s)
    ensures NewestFirst(r)
    ensures forall x :: x in r ==> x == t || x in s
    ensures multiset(r) == multiset(s) + multiset{t}
  {
    if s == [] then [t]
    else if t.startDate >= s[0].startDate then
      HeadIsNewest(s);
      PrependNewest(t, s);
      [t] + s
    else
      assert s == [s[0]] + s[1..];
      HeadIsNewest(s);
      var rest := InsertNewestFirst(t, s[1..]);
      PrependNewest(s[0], rest);
      [s[0]] + rest
  }

  /** Orders rows by start date, latest first (`orderBy: { startDate: 'desc' }`).
      The database leaves the order of equal start dates open; this sort keeps
      one particular order, and nothing below depends on which. */
  function SortNewestFirst(s: seq<Trip>): (r: seq<Trip>)
    ensures NewestFirst(r)
    ensures multiset(r) == multiset(s)
  {
    if s == [] then []
    else
      assert s == [s[0]] + s[1..];
      InsertNewestFirst(s[0], SortNewestFirst(s[1..]))
  }

  /** `getAllTrips` over a table: the caller's rows, newest first. */
  function ListTrips(trips: seq<Trip>, userId: string): (r: seq<Trip>)
    ensures NewestFirst(r)
    ensures forall t :: t in r ==> t.userId == userId
    ensures forall t :: t in trips && t.userId == userId ==> t in r
    ensures forall t :: multiset(r)[t] == if t.userId == userId then multiset(trips)[t] else 0
  {
    var r := SortNewestFirst(OwnedBy(trips, userId));
    OwnedByCounts(trips, userId);
    assert forall t :: t in r ==> t in multiset(r);
    r
  }

  /** Adding a row leaves every other user's listing exactly as it was. */
  lemma ListTripsOtherOwner(trips: seq<Trip>, t: Trip, userId: string)
    requires t.userId != userId
    ensures ListTrips(trips + [t], userId) == ListTrips(trips, userId)
  {
    OwnedByAppend(trips, t, userId);
    assert OwnedBy(trips + [t], userId) == OwnedBy(trips, userId) + [];
    assert OwnedBy(trips, userId) + [] == OwnedBy(trips, userId);
  }

  /** Adding a row adds it, and nothing else, to its owner's listing. */
  lemma ListTripsSameOwner(trips: seq<Trip>, t: Trip, userId: string)
    requires t.userId == userId
    ensures multiset(ListTrips(trips + [t], userId)) == multiset(ListTrips(trips, userId)) + multiset{t}
  {
    OwnedByAppend(trips, t, userId);
  }

  /** Appending a row changes its owner's listing by that row alone and no
      other listing at all. */
  lemma ListTripsAfterAppend(trips: seq<Trip>, t: Trip)
    ensures forall u :: u != t.userId ==> ListTrips(trips + [t], u) == ListTrips(trips, u)
    ensures multiset(ListTrips(trips + [t], t.userId)) == multiset(ListTrips(trips, t.userId)) + multiset{t}
  {
    forall u | u != t.userId ensures ListTrips(trips + [t], u) == ListTrips(trips, u) {
      ListTripsOtherOwner(trips, t, u);
    }
    ListTripsSameOwner(trips, t, t.userId);
  }

  /** `getTripTypes`: every value of the enumeration. */
  function GetTripTypes(): (r: seq<TripType>)
    ensures |r| == 11
    ensures forall t: TripType :: t in r
    ensures forall i, j :: 0 <= i < j < |r| ==> r[i] != r[j]
  {
    AllTripTypesComplete();
    AllTripTypes
  }

  /** Row ids are below the next id to hand out and distinct. */
  ghost predicate IdsFresh(trips: seq<Trip>, nextId: nat) {
    && (forall i :: 0 <= i < |trips| ==> trips[i].id < nextId)
    && (forall i, j :: 0 <= i < j < |trips| ==> trips[i].id != trips[j].id)
  }

  /** A row given the next id keeps the ids fresh and clashes with no row. */
  lemma IdsFreshAppend(trips: seq<Trip>, nextId: nat, t: Trip)
    requires IdsFresh(trips, nextId) && t.id == nextId
    ensures IdsFresh(trips + [t], nextId + 1)
    ensures forall x :: x in trips ==> x.id != t.id
  {
  }

  /** The trip table. */
  class TripStore {
    var trips: seq<Trip>
    var nextId: nat

    ghost predicate Valid()
      reads this
    {
      IdsFresh(trips, nextId)
    }

    constructor ()
      ensures Valid() && trips == []
    {
      trips := [];
      nextId := 0;
    }

    /** `createTrip`: checks the input, then inserts one row owned by the
        caller. A rejected input leaves the table untouched; an accepted one
        adds the new row to its owner's listing and changes no other
        user's listing. */
    method CreateTrip(userId: string, input: CreateTripInput) returns (r: Result<Trip, seq<InputIssue>>)
      requires Valid()
      modifies this
      ensures Valid()
      ensures InputIssues(input) != [] ==>
        r == Err(InputIssues(input)) && trips == old(trips) && nextId == old(nextId)
      ensures InputIssues(input) == [] ==>
        && r == Ok(NewTrip(old(nextId), input, userId))
        && trips == old(trips) + [r.value]
        && forall t :: t in old(trips) ==> t.id != r.value.id
      ensures forall u :: u != userId ==> ListTrips(trips, u) == ListTrips(old(trips), u)
      ensures r.Ok? ==>
        multiset(ListTrips(trips, userId)) == multiset(ListTrips(old(trips), userId)) + multiset{r.value}
    {
      var issues := InputIssues(input);
      if issues != [] {
        return Err(issues);
      }
      var trip := NewTrip(nextId, input, userId);
      ghost var before := trips;
      trips := trips + [trip];
      nextId := nextId + 1;
      r := Ok(trip);
      IdsFreshAppend(before, nextId - 1, trip);
      ListTripsAfterAppend(before, trip);
    }

    /** `getAllTrips` for the signed-in user. */
    function GetAllTrips(userId: string): (r: seq<Trip>)
      reads this
      ensures NewestFirst(r)
      ensures forall t :: t in r ==> t.userId == userId
      ensures forall t :: t in trips && t.userId == userId ==> t in r
      ensures forall t :: multiset(r)[t] == if t.userId == userId then multiset(trips)[t] else 0
    {
      ListTrips(trips, userId)
    }
  }
}
