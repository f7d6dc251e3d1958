/**
 * Resolving hotel wall-clock input to an instant (apps/dashboard/src/lib/service-time.ts).
 *
 * Instants are milliseconds since the epoch. A zone gives the offset, in whole minutes, that is
 * in force at an instant; nothing else about it is assumed.
 */
module ServiceTime {
  import opened Common

  type Zone = int -> int

  const MINUTE := 60000
  const DAY := 86400000

  /** The local minute shown for an instant (the formatter drops seconds). */
  function ServiceLocalInput(instant: int, zone: Zone): int {
    instant / MINUTE + zone(instant)
  }

  /**
   * A typed-in local time: not of the form yyyy-MM-ddTHH:mm, of that form but no date, or a local
   * minute. A text such as 02-30 that an engine rolls over to another day is not canonical: no
   * instant is ever displayed with that text.
   */
  datatype LocalInput = Malformed | NotADate | Wall(minute: int, canonical: bool)

  datatype TimeError = BadFormat | BadDate | MissingOrAmbiguous

  /** The instant d, on a whole minute, is displayed as this local time. */
  ghost predicate Shows(zone: Zone, d: int, local: LocalInput) {
    local.Wall? && local.canonical && d % MINUTE == 0 && ServiceLocalInput(d, zone) == local.minute
  }

  /** The offset in force at d is one of the three sampled around the wall time. */
  ghost predicate Sampled(zone: Zone, d: int, wall: int) {
    zone(d) == zone(wall - DAY) || zone(d) == zone(wall) || zone(d) == zone(wall + DAY)
  }

  /** The instant d shows the local time and is found by the sampling. */
  ghost predicate Found(zone: Zone, local: LocalInput, d: int)
    requires local.Wall?
  {
    Shows(zone, d, local) && Sampled(zone, d, local.minute * MINUTE)
  }

  ghost predicate OnlyFound(zone: Zone, local: LocalInput, d: int)
    requires local.Wall?
  {
    Found(zone, local, d) && forall e :: Found(zone, local, e) ==> e == d
  }

  /** What the resolution returns, in any zone. */
  ghost function Resolved(local: LocalInput, zone: Zone): Result<int, TimeError> {
    match local
    case Malformed => Err(BadFormat)
    case NotADate => Err(BadDate)
    case Wall(_, _) =>
      if d :| OnlyFound(zone, local, d) then Ok(d) else Err(MissingOrAmbiguous)
  }

  method ServiceInstant(local: LocalInput, zone: Zone) returns (r: Result<int, TimeError>)
    ensures r == Resolved(local, zone)
    ensures (r == Err(BadFormat) <==> local.Malformed?) && (r == Err(BadDate) <==> local.NotADate?)
  {
    if local.Malformed? {
      return Err(BadFormat);
    }
    if local.NotADate? {
      return Err(BadDate);
    }
    var wall := local.minute * MINUTE;
    var samples := [-24, 0, 24];
    var offsets: seq<int> := [];
    for n := 0 to |samples|
      invariant Distinct(offsets)
      invariant forall o ::
        o in offsets <==> exists i :: 0 <= i < n && o == OffsetAt(zone, wall + samples[i] * 3600000)
    {
      var sample := wall + samples[n] * 3600000;
      var offset := ServiceLocalInput(sample, zone) * MINUTE - sample;
      assert sample == (local.minute + samples[n] * 60) * MINUTE;
      assert offset == OffsetAt(zone, sample);
      if offset !in offsets {
        offsets := offsets + [offset];
      }
    }
    assert samples[0] == -24 && samples[1] == 0 && samples[2] == 24;
    assert forall o :: o in offsets <==> IsSample(zone, wall, o);
    var matches: seq<int> := [];
    for n := 0 to |offsets|
      invariant Distinct(matches)
      invariant forall d :: d in matches <==> wall - d in offsets[..n] && Displays(zone, local, d)
    {
      var d := wall - offsets[n];
      assert offsets[..n + 1] == offsets[..n] + [offsets[n]];
      if Displays(zone, local, d) {
        matches := matches + [d];
      }
    }
    assert offsets[..|offsets|] == offsets;
    MatchesAreExact(zone, local, matches);
    if |matches| != 1 {
      return Err(MissingOrAmbiguous);
    }
    r := Ok(matches[0]);
  }

  function OffsetAt(zone: Zone, instant: int): int {
    zone(instant) * MINUTE
  }

  ghost predicate IsSample(zone: Zone, wall: int, o: int) {
    o == OffsetAt(zone, wall - DAY) || o == OffsetAt(zone, wall) || o == OffsetAt(zone, wall + DAY)
  }

  /** The displayed text equals the typed one. */
  predicate Displays(zone: Zone, local: LocalInput, d: int)
    requires local.Wall?
  {
    local.canonical && ServiceLocalInput(d, zone) == local.minute
  }

  /** The candidates displayed as typed are the whole-minute instants that show the time at a sampled offset. */
  lemma CandidateIsFound(zone: Zone, local: LocalInput, d: int)
    requires local.Wall?
    ensures var wall := local.minute * MINUTE;
      IsSample(zone, wall, wall - d) && Displays(zone, local, d) <==> Found(zone, local, d)
  {
    var wall := local.minute * MINUTE;
    if Shows(zone, d, local) {
      assert wall - d == OffsetAt(zone, d);
    }
    if IsSample(zone, wall, wall - d) && Displays(zone, local, d) {
      var o :| wall - d == o * MINUTE && (o == zone(wall - DAY) || o == zone(wall) || o == zone(wall + DAY));
      assert d == (local.minute - o) * MINUTE;
    }
  }

  lemma MatchesAreExact(zone: Zone, local: LocalInput, matches: seq<int>)
    requires local.Wall? && Distinct(matches)
    requires var wall := local.minute * MINUTE;
      forall d :: d in matches <==> IsSample(zone, wall, wall - d) && Displays(zone, local, d)
    ensures |matches| == 1 ==> OnlyFound(zone, local, matches[0])
    ensures |matches| != 1 ==> forall d :: !OnlyFound(zone, local, d)
  {
    forall d ensures d in matches <==> Found(zone, local, d) {
      CandidateIsFound(zone, local, d);
    }
    if |matches| > 1 {
      assert matches[0] != matches[1] && matches[0] in matches && matches[1] in matches;
    }
  }

  // ----- Exactness in any zone ------------------------------------------------

  /** The instant d shows the local time, but at an offset that is not sampled. */
  ghost predicate Missed(zone: Zone, local: LocalInput, d: int)
    requires local.Wall?
  {
    Shows(zone, d, local) && !Sampled(zone, d, local.minute * MINUTE)
  }

  ghost predicate OnlyMissed(zone: Zone, local: LocalInput, d: int)
    requires local.Wall?
  {
    Missed(zone, local, d) && forall e :: Missed(zone, local, e) ==> e == d
  }

  ghost predicate OnlyInstant(zone: Zone, local: LocalInput, d: int) {
    Shows(zone, d, local) && forall e :: Shows(zone, e, local) ==> e == d
  }

  /** What the sampling does not find makes no difference to the answer. */
  ghost predicate SamplingSuffices(zone: Zone, local: LocalInput)
    requires local.Wall?
  {
    || (forall d :: !Missed(zone, local, d))
    || (exists d, e :: d != e && Found(zone, local, d) && Found(zone, local, e))
    || ((forall d :: !Found(zone, local, d))
        && exists d, e :: d != e && Missed(zone, local, d) && Missed(zone, local, e))
  }

  /** A time that several instants show is resolved exactly when one of them is found and another is missed. */
  lemma AmbiguousResolvedExactly(zone: Zone, local: LocalInput)
    requires local.Wall?
    ensures (exists d :: Resolved(local, zone) == Ok(d) && !OnlyInstant(zone, local, d)) <==>
      (exists d :: OnlyFound(zone, local, d)) && exists e :: Missed(zone, local, e)
  {
    if d, e :| OnlyFound(zone, local, d) && Missed(zone, local, e) {
      assert Resolved(local, zone) == Ok(d) && Shows(zone, e, local) && e != d;
    }
    if d :| Resolved(local, zone) == Ok(d) && !OnlyInstant(zone, local, d) {
      var e :| Shows(zone, e, local) && e != d;
      assert OnlyFound(zone, local, d) && !Found(zone, local, e);
      assert Missed(zone, local, e);
    }
  }

  /** The only instant that shows a time is refused exactly when the sampling misses it. */
  lemma UniqueRefusedExactly(zone: Zone, local: LocalInput)
    requires local.Wall?
    ensures (exists d :: OnlyInstant(zone, local, d) && Resolved(local, zone) != Ok(d)) <==>
      (forall d :: !Found(zone, local, d)) && exists e :: OnlyMissed(zone, local, e)
  {
    if e :| (forall d :: !Found(zone, local, d)) && OnlyMissed(zone, local, e) {
      forall d | Shows(zone, d, local) ensures d == e {
        assert Found(zone, local, d) || Missed(zone, local, d);
      }
      assert OnlyInstant(zone, local, e) && Resolved(local, zone).Err?;
    }
    if d :| OnlyInstant(zone, local, d) && Resolved(local, zone) != Ok(d) {
      assert !OnlyFound(zone, local, d);
      assert OnlyMissed(zone, local, d);
    }
  }

  /**
   * In any zone the resolution returns the only whole-minute instant that shows the local time, and
   * fails if there is none or more than one, exactly when what the sampling misses makes no difference.
   */
  lemma ExactnessExactly(zone: Zone, local: LocalInput)
    requires local.Wall?
    ensures (forall d :: Resolved(local, zone) == Ok(d) <==> OnlyInstant(zone, local, d))
      <==> SamplingSuffices(zone, local)
  {
    hide Shows, Sampled, Found, Missed, OnlyInstant, Resolved;
    AmbiguousResolvedExactly(zone, local);
    UniqueRefusedExactly(zone, local);
    if m :| Missed(zone, local, m) {
      if f :| Found(zone, local, f) {
        assert OnlyFound(zone, local, f) <==> !SamplingSuffices(zone, local);
      } else {
        assert OnlyMissed(zone, local, m) || SamplingSuffices(zone, local);
      }
    }
  }

  // ----- Zones with at most one change nearby ---------------------------------

  /** Offsets stay under a day, and within a day of the wall time the offset changes at most once, at c. */
  ghost predicate OneChange(zone: Zone, wall: int, c: int) {
    && (forall t :: -1440 < zone(t) < 1440)
    && (forall t :: wall - DAY <= t < c && t <= wall + DAY ==> zone(t) == zone(wall - DAY))
    && (forall t :: c <= t <= wall + DAY && wall - DAY <= t ==> zone(t) == zone(wall + DAY))
  }

  /** Whatever instant shows the time, its offset has been sampled. */
  lemma NothingIsMissed(zone: Zone, local: LocalInput, c: int, d: int)
    requires local.Wall? && OneChange(zone, local.minute * MINUTE, c) && Shows(zone, d, local)
    ensures !Missed(zone, local, d) && local.minute * MINUTE - DAY < d < local.minute * MINUTE + DAY
  {
    var wall := local.minute * MINUTE;
    assert d == wall - zone(d) * MINUTE;
  }

  /** The resolution returns d exactly when d is the only whole-minute instant showing that local time. */
  lemma ResolutionIsExact(zone: Zone, local: LocalInput, c: int)
    requires local.Wall? && OneChange(zone, local.minute * MINUTE, c)
    ensures forall d :: Resolved(local, zone) == Ok(d) <==> OnlyInstant(zone, local, d)
    ensures Resolved(local, zone).Err? <==> forall d :: !OnlyInstant(zone, local, d)
  {
    hide Resolved, OnlyInstant;
    forall d ensures !Missed(zone, local, d) {
      if Shows(zone, d, local) {
        NothingIsMissed(zone, local, c, d);
      }
    }
    ExactnessExactly(zone, local);
    if Resolved(local, zone).Ok? {
      assert OnlyInstant(zone, local, Resolved(local, zone).value);
    }
  }

  function FirstMinute(c: int): int {
    (c + MINUTE - 1) / MINUTE
  }

  /** The wall time, counted from the change, lies between the offsets before and after it. */
  ghost predicate InGapOrFold(zone: Zone, minute: int, c: int) {
    var before, after := zone(minute * MINUTE - DAY), zone(minute * MINUTE + DAY);
    Min(before, after) <= minute - FirstMinute(c) < Max(before, after)
  }

  /** It fails exactly in the gap or fold of the change. */
  lemma FailsExactlyInGapOrFold(zone: Zone, local: LocalInput, c: int)
    requires local.Wall? && local.canonical && OneChange(zone, local.minute * MINUTE, c)
    ensures Resolved(local, zone).Err? <==> InGapOrFold(zone, local.minute, c)
  {
    var wall := local.minute * MINUTE;
    var before, after := zone(wall - DAY), zone(wall + DAY);
    ResolutionIsExact(zone, local, c);
    var d1, d2 := (local.minute - before) * MINUTE, (local.minute - after) * MINUTE;
    forall d | Shows(zone, d, local) ensures d == (if d < c then d1 else d2) {
      NothingIsMissed(zone, local, c, d);
    }
    assert Shows(zone, d1, local) <==> (d1 < c || before == after);
    assert Shows(zone, d2, local) <==> (c <= d2 || before == after);
    assert d1 < c <==> local.minute - before < FirstMinute(c);
    assert c <= d2 <==> FirstMinute(c) <= local.minute - after;
    if OnlyInstant(zone, local, d1) || OnlyInstant(zone, local, d2) {
      assert Resolved(local, zone).Ok?;
    }
  }

  /** An instant on a whole minute is recovered from what is shown for it exactly outside the gap and fold. */
  lemma DisplayRoundTrip(zone: Zone, d: int, c: int)
    requires d % MINUTE == 0 && OneChange(zone, ServiceLocalInput(d, zone) * MINUTE, c)
    ensures var minute := ServiceLocalInput(d, zone);
      Resolved(Wall(minute, true), zone) == Ok(d) <==> !InGapOrFold(zone, minute, c)
  {
    hide Resolved, InGapOrFold;
    var local := Wall(ServiceLocalInput(d, zone), true);
    FailsExactlyInGapOrFold(zone, local, c);
    ResolutionIsExact(zone, local, c);
    assert Shows(zone, d, local);
    if Resolved(local, zone).Ok? {
      assert OnlyInstant(zone, local, Resolved(local, zone).value);
    }
  }

  // ----- Both failures are real -----------------------------------------------

  /** Two changes close together defeat the sampling: here two instants show midnight and one is returned. */
  lemma TwoChangesMisresolve()
    ensures
      var zone: Zone := t => if -7200000 <= t <= -1800000 then 60 else 0;
      var local := Wall(0, true);
      && Shows(zone, 0, local) && Shows(zone, -3600000, local) && Resolved(local, zone) == Ok(0)
      && !SamplingSuffices(zone, local)
  {
    var zone: Zone := t => if -7200000 <= t <= -1800000 then 60 else 0;
    var local := Wall(0, true);
    assert OnlyFound(zone, local, 0);
    assert Missed(zone, local, -3600000);
  }

  /** Here one instant alone shows midnight and it is refused. */
  lemma TwoChangesRefuseUnique()
    ensures
      var zone: Zone := t => if -18000000 <= t <= -14400000 then 240 else 300;
      var local := Wall(0, true);
      && OnlyInstant(zone, local, -14400000) && Resolved(local, zone) == Err(MissingOrAmbiguous)
      && !SamplingSuffices(zone, local)
  {
    var zone: Zone := t => if -18000000 <= t <= -14400000 then 240 else 300;
    var local := Wall(0, true);
    assert OnlyMissed(zone, local, -14400000);
  }
}
