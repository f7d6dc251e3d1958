/** The resource calendar index (apps/dashboard/src/lib/service-calendar.ts). */
module ServiceCalendar {
  import opened Common
  import opened Calendar

  datatype Booking = Booking(id: string, startAt: int, endAt: int)
  datatype Allocation = Allocation(serviceBookingId: string, resourceId: string)
  datatype Block = Block(id: string, resourceId: string, startAt: int, endAt: int)

  /** The local calendar date of an instant, as displayed in the property's zone. */
  type LocalDate = int -> string

  /** One row to be filed under a resource on every day of a local date range. */
  datatype Entry<+R> = Entry(resourceId: string, row: R, from: string, to: string)

  predicate Covers<R>(e: Entry<R>, day: string) {
    !StrLess(day, e.from) && !StrLess(e.to, day)
  }

  /** `new Map(bookings.map(b => [b.id, b])).get(id)`: the last booking with this identifier. */
  function ById(bookings: seq<Booking>, id: string): Option<Booking> {
    if bookings == [] then None
    else
      var n := |bookings| - 1;
      if bookings[n].id == id then Some(bookings[n]) else ById(bookings[..n], id)
  }

  /** The last booking with the identifier wins. */
  lemma {:induction false} LastBookingWins(bookings: seq<Booking>, id: string)
    ensures ById(bookings, id).None? <==> forall i :: 0 <= i < |bookings| ==> bookings[i].id != id
    ensures ById(bookings, id).Some? ==> exists k ::
      && 0 <= k < |bookings| && bookings[k] == ById(bookings, id).value && bookings[k].id == id
      && forall i :: k < i < |bookings| ==> bookings[i].id != id
  {
    if bookings != [] {
      LastBookingWins(bookings[..|bookings| - 1], id);
    }
  }

  /** Both ends of the local date range; the end is taken one millisecond early. */
  function BookingEntry(b: Booking, resourceId: string, localDate: LocalDate): Entry<Booking> {
    Entry(resourceId, b, localDate(b.startAt), localDate(b.endAt - 1))
  }

  /** What one allocation files: its booking, when that is known. */
  function EntriesOf(a: Allocation, bookings: seq<Booking>, localDate: LocalDate): seq<Entry<Booking>> {
    var found := ById(bookings, a.serviceBookingId);
    if found.Some? then [BookingEntry(found.value, a.resourceId, localDate)] else []
  }

  /** The allocations whose booking is known, in order. */
  function BookingEntries(allocations: seq<Allocation>, bookings: seq<Booking>,
                          localDate: LocalDate): seq<Entry<Booking>>
  {
    if allocations == [] then []
    else
      var n := |allocations| - 1;
      BookingEntries(allocations[..n], bookings, localDate) + EntriesOf(allocations[n], bookings, localDate)
  }

  function BlockEntries(blocks: seq<Block>, localDate: LocalDate): seq<Entry<Block>> {
    seq(|blocks|, i requires 0 <= i < |blocks| =>
      Entry(blocks[i].resourceId, blocks[i], localDate(blocks[i].startAt), localDate(blocks[i].endAt - 1)))
  }

  // ----- The plain scan -------------------------------------------------------

  /** The rows of a resource on a day, by looking at every entry in order. */
  function PlainScan<R>(entries: seq<Entry<R>>, resourceId: string, day: string): seq<R> {
    if entries == [] then []
    else
      var n := |entries| - 1;
      PlainScan(entries[..n], resourceId, day)
      + if entries[n].resourceId == resourceId && Covers(entries[n], day) then [entries[n].row] else []
  }

  /** The scan keeps the order of the entries, and every entry brings its row at most once. */
  lemma {:induction false} ScanInOrder<R>(a: seq<Entry<R>>, b: seq<Entry<R>>, resourceId: string, day: string)
    ensures PlainScan(a + b, resourceId, day) == PlainScan(a, resourceId, day) + PlainScan(b, resourceId, day)
  {
    hide Covers;
    if b == [] {
      assert a + b == a;
    } else {
      var n := |b| - 1;
      assert (a + b)[..|a| + n] == a + b[..n] && (a + b)[|a| + n] == b[n];
      ScanInOrder(a, b[..n], resourceId, day);
      var last := if b[n].resourceId == resourceId && Covers(b[n], day) then [b[n].row] else [];
      assert PlainScan(a + b, resourceId, day) == PlainScan(a + b[..n], resourceId, day) + last;
      assert PlainScan(b, resourceId, day) == PlainScan(b[..n], resourceId, day) + last;
    }
  }

  lemma ScanOfOne<R>(e: Entry<R>, resourceId: string, day: string)
    ensures PlainScan([e], resourceId, day)
      == if e.resourceId == resourceId && !StrLess(day, e.from) && !StrLess(e.to, day) then [e.row] else []
  {
    hide StrLess;
    assert [e][..0] == [];
  }

  /** Bookings are filed in the order of the allocations, one entry for every allocation of a known booking. */
  lemma {:induction false} EntriesInOrder(a: seq<Allocation>, b: seq<Allocation>,
                                          bookings: seq<Booking>, localDate: LocalDate)
    ensures BookingEntries(a + b, bookings, localDate)
      == BookingEntries(a, bookings, localDate) + BookingEntries(b, bookings, localDate)
  {
    hide EntriesOf;
    if b == [] {
      assert a + b == a;
    } else {
      var n := |b| - 1;
      assert (a + b)[..|a| + n] == a + b[..n] && (a + b)[|a| + n] == b[n];
      EntriesInOrder(a, b[..n], bookings, localDate);
      var last := EntriesOf(b[n], bookings, localDate);
      assert BookingEntries(a + b, bookings, localDate) == BookingEntries(a + b[..n], bookings, localDate) + last;
      assert BookingEntries(b, bookings, localDate) == BookingEntries(b[..n], bookings, localDate) + last;
      hide BookingEntries;
    }
  }

  lemma EntriesOfOne(one: Allocation, bookings: seq<Booking>, localDate: LocalDate)
    ensures BookingEntries([one], bookings, localDate) ==
      match ById(bookings, one.serviceBookingId)
      case None => []
      case Some(x) => [Entry(one.resourceId, x, localDate(x.startAt), localDate(x.endAt - 1))]
  {
    hide ById;
    assert [one][..0] == [];
  }

  function Count(days: seq<string>, day: string): nat {
    if days == [] then 0
    else Count(days[..|days| - 1], day) + if days[|days| - 1] == day then 1 else 0
  }

  function Repeat<R>(row: R, n: nat): seq<R> {
    if n == 0 then [] else Repeat(row, n - 1) + [row]
  }

  /** The same scan when the list of days may repeat a day: a row is filed once per occurrence. */
  function Scan<R>(entries: seq<Entry<R>>, days: seq<string>, resourceId: string, day: string): seq<R> {
    if entries == [] then []
    else
      var n := |entries| - 1;
      Scan(entries[..n], days, resourceId, day)
      + if entries[n].resourceId == resourceId && Covers(entries[n], day)
        then Repeat(entries[n].row, Count(days, day)) else []
  }

  // ----- The index ------------------------------------------------------------

  function Key(resourceId: string, day: string): string {
    resourceId + ":" + day
  }

  /** Days have a fixed width, so a joined key names one resource and one day, whatever the identifiers contain. */
  lemma KeyIsInjective(r1: string, d1: string, r2: string, d2: string)
    requires |d1| == |d2|
    ensures Key(r1, d1) == Key(r2, d2) <==> r1 == r2 && d1 == d2
  {
    var k1, k2 := Key(r1, d1), Key(r2, d2);
    assert k1[..|r1|] == r1 && k1[|r1| + 1..] == d1;
    assert k2[..|r2|] == r2 && k2[|r2| + 1..] == d2;
  }

  function Lookup<R>(index: map<string, seq<R>>, key: string): seq<R> {
    if key in index then index[key] else []
  }

  /** Looking a resource and day up in the index gives exactly the rows of the scan. */
  ghost predicate Indexes<R>(index: map<string, seq<R>>, entries: seq<Entry<R>>, days: seq<string>) {
    forall r, d :: |d| == 10 ==> Lookup(index, Key(r, d)) == Scan(entries, days, r, d)
  }

  /** What one entry contributes to the rows of a resource and day. */
  function Filed<R>(entry: Entry<R>, days: seq<string>, resourceId: string, day: string): seq<R> {
    if entry.resourceId == resourceId && Covers(entry, day) then Repeat(entry.row, Count(days, day)) else []
  }

  ghost predicate Extends<R>(r: map<string, seq<R>>, index: map<string, seq<R>>, entry: Entry<R>, days: seq<string>) {
    forall k, d :: |d| == 10 ==> Lookup(r, Key(k, d)) == Lookup(index, Key(k, d)) + Filed(entry, days, k, d)
  }

  method FileEntry<R>(index: map<string, seq<R>>, entry: Entry<R>, days: seq<string>) returns (r: map<string, seq<R>>)
    requires forall d <- days :: |d| == 10
    ensures Extends(r, index, entry, days)
  {
    hide Covers, Key, Extends;
    r := index;
    NothingFiled(index, entry);
    for n := 0 to |days|
      invariant Extends(r, index, entry, days[..n])
    {
      var day := days[n];
      assert days[..n + 1] == days[..n] + [day];
      ghost var before := r;
      if Covers(entry, day) {
        var key := Key(entry.resourceId, day);
        r := r[key := Lookup(r, key) + [entry.row]];
      }
      OneMoreDay(r, before, index, entry, days[..n], day);
    }
    assert days[..|days|] == days;
  }

  lemma NothingFiled<R>(index: map<string, seq<R>>, entry: Entry<R>)
    ensures Extends(index, index, entry, [])
  {}

  lemma OneMoreDay<R>(r: map<string, seq<R>>, before: map<string, seq<R>>, index: map<string, seq<R>>,
                      entry: Entry<R>, days: seq<string>, day: string)
    requires |day| == 10 && Extends(before, index, entry, days)
    requires var key := Key(entry.resourceId, day);
      r == if Covers(entry, day) then before[key := Lookup(before, key) + [entry.row]] else before
    ensures Extends(r, index, entry, days + [day])
  {
    hide Covers, Key, Filed;
    forall k, d | |d| == 10
      ensures Lookup(r, Key(k, d)) == Lookup(index, Key(k, d)) + Filed(entry, days + [day], k, d)
    {
      KeyIsInjective(k, d, entry.resourceId, day);
      FiledOneMore(entry, days, day, k, d);
      assert Lookup(before, Key(k, d)) == Lookup(index, Key(k, d)) + Filed(entry, days, k, d);
    }
  }

  lemma FiledOneMore<R>(entry: Entry<R>, days: seq<string>, day: string, k: string, d: string)
    ensures Filed(entry, days + [day], k, d)
      == Filed(entry, days, k, d) + if k == entry.resourceId && d == day && Covers(entry, day) then [entry.row] else []
  {
    hide Covers;
    assert (days + [day])[..|days|] == days;
  }

  method IndexRows<R>(entries: seq<Entry<R>>, days: seq<string>) returns (index: map<string, seq<R>>)
    requires forall d <- days :: |d| == 10
    ensures Indexes(index, entries, days)
  {
    hide Key, Covers;
    index := map[];
    for n := 0 to |entries|
      invariant Indexes(index, entries[..n], days)
    {
      assert entries[..n + 1][..n] == entries[..n];
      index := FileEntry(index, entries[n], days);
    }
    assert entries[..|entries|] == entries;
  }

  method IndexServiceCalendar(bookings: seq<Booking>, allocations: seq<Allocation>, blocks: seq<Block>,
                              days: seq<string>, localDate: LocalDate)
    returns (bookingIndex: map<string, seq<Booking>>, blockIndex: map<string, seq<Block>>)
    requires forall d <- days :: |d| == 10
    ensures Indexes(bookingIndex, BookingEntries(allocations, bookings, localDate), days)
    ensures Indexes(blockIndex, BlockEntries(blocks, localDate), days)
  {
    bookingIndex := IndexRows(BookingEntries(allocations, bookings, localDate), days);
    blockIndex := IndexRows(BlockEntries(blocks, localDate), days);
  }

  lemma {:induction false} CountDistinct(days: seq<string>, day: string)
    requires Distinct(days)
    ensures Count(days, day) == if day in days then 1 else 0
  {
    if days != [] {
      var n := |days| - 1;
      CountDistinct(days[..n], day);
      assert days == days[..n] + [days[n]];
    }
  }

  /** For distinct days the index agrees with the plain scan on every listed day and is empty elsewhere. */
  lemma {:induction false} ScanIsPlain<R>(entries: seq<Entry<R>>, days: seq<string>, resourceId: string, day: string)
    requires Distinct(days)
    ensures Scan(entries, days, resourceId, day) == if day in days then PlainScan(entries, resourceId, day) else []
  {
    if entries != [] {
      var n := |entries| - 1;
      ScanIsPlain(entries[..n], days, resourceId, day);
      CountDistinct(days, day);
      assert Repeat(entries[n].row, 1) == Repeat(entries[n].row, 0) + [entries[n].row] == [entries[n].row];
    }
  }

  ghost predicate AllocatedTo(allocations: seq<Allocation>, bookings: seq<Booking>, resourceId: string, b: Booking) {
    exists i :: 0 <= i < |allocations|
      && allocations[i].resourceId == resourceId && ById(bookings, allocations[i].serviceBookingId) == Some(b)
  }

  lemma AllocatedSnoc(allocations: seq<Allocation>, a: Allocation, bookings: seq<Booking>,
                      resourceId: string, b: Booking)
    ensures AllocatedTo(allocations + [a], bookings, resourceId, b) <==>
      AllocatedTo(allocations, bookings, resourceId, b)
      || (a.resourceId == resourceId && ById(bookings, a.serviceBookingId) == Some(b))
  {
    var all := allocations + [a];
    assert all[|allocations|] == a;
    assert forall i :: 0 <= i < |allocations| ==> all[i] == allocations[i];
  }

  /**
   * A booking is listed for a resource and day exactly when some allocation puts it on that
   * resource and the day lies in its local date range, the end taken one millisecond early.
   */
  lemma {:induction false} BookingsListedExactly(allocations: seq<Allocation>, bookings: seq<Booking>,
                                                 localDate: LocalDate,
                                                 resourceId: string, day: string, b: Booking)
    ensures b in PlainScan(BookingEntries(allocations, bookings, localDate), resourceId, day) <==>
      AllocatedTo(allocations, bookings, resourceId, b)
      && !StrLess(day, localDate(b.startAt)) && !StrLess(localDate(b.endAt - 1), day)
  {
    hide StrLess, AllocatedTo, EntriesOf, PlainScan;
    if allocations == [] {
      NothingAllocated(bookings, resourceId, b);
      assert PlainScan<Booking>([], resourceId, day) == [] by { ScanOfNone<Booking>(resourceId, day); }
    } else {
      var n := |allocations| - 1;
      var a := allocations[n];
      BookingsListedExactly(allocations[..n], bookings, localDate, resourceId, day, b);
      assert allocations == allocations[..n] + [a];
      AllocatedSnoc(allocations[..n], a, bookings, resourceId, b);
      ScanInOrder(BookingEntries(allocations[..n], bookings, localDate), EntriesOf(a, bookings, localDate),
                  resourceId, day);
      ListedOnce(a, bookings, localDate, resourceId, day, b);
    }
  }

  lemma ScanOfNone<R>(resourceId: string, day: string)
    ensures PlainScan<R>([], resourceId, day) == []
  {}

  /** What one allocation lists. */
  lemma ListedOnce(a: Allocation, bookings: seq<Booking>, localDate: LocalDate,
                   resourceId: string, day: string, b: Booking)
    ensures b in PlainScan(EntriesOf(a, bookings, localDate), resourceId, day) <==>
      a.resourceId == resourceId && ById(bookings, a.serviceBookingId) == Some(b)
      && !StrLess(day, localDate(b.startAt)) && !StrLess(localDate(b.endAt - 1), day)
  {
    hide StrLess, ById, PlainScan;
    var found := ById(bookings, a.serviceBookingId);
    if found.Some? {
      ScanOfOne(BookingEntry(found.value, a.resourceId, localDate), resourceId, day);
    } else {
      ScanOfNone<Booking>(resourceId, day);
    }
  }

  /**
   * A block is listed for a resource and day exactly when it is on that resource and the day lies in
   * its local date range, the end taken one millisecond early.
   */
  lemma {:induction false} BlocksListedExactly(blocks: seq<Block>, localDate: LocalDate,
                                               resourceId: string, day: string, b: Block)
    ensures b in PlainScan(BlockEntries(blocks, localDate), resourceId, day) <==>
      b in blocks && b.resourceId == resourceId
      && !StrLess(day, localDate(b.startAt)) && !StrLess(localDate(b.endAt - 1), day)
  {
    hide StrLess;
    if blocks != [] {
      var n := |blocks| - 1;
      BlocksListedExactly(blocks[..n], localDate, resourceId, day, b);
      assert blocks == blocks[..n] + [blocks[n]];
      var entries := BlockEntries(blocks, localDate);
      assert entries[..n] == BlockEntries(blocks[..n], localDate) && entries[n].row == blocks[n];
      hide BlockEntries;
      var last := if entries[n].resourceId == resourceId && Covers(entries[n], day) then [blocks[n]] else [];
      assert PlainScan(entries, resourceId, day) == PlainScan(entries[..n], resourceId, day) + last;
    }
  }

  lemma NothingAllocated(bookings: seq<Booking>, resourceId: string, b: Booking)
    ensures !AllocatedTo([], bookings, resourceId, b)
  {}
}
