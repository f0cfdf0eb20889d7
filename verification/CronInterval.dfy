/** The shortest gap of a daily cron schedule (`_parse_field`, `interval_s`, src/crons.py). */
module CronInterval {
  import opened Seqs

  // ---------------------------------------------------------------- schedules

  /** One comma-separated part of a field: `*` followed by `/N`, a number, or text that is neither. */
  datatype Part = Every(step: int) | Value(v: int) | Junk

  datatype Field = Star | Parts(parts: seq<Part>)

  /** The five fields of a line; `rest` says that day of month, month and day of week are all `*`. */
  datatype Schedule = Schedule(minute: Field, hour: Field, rest: bool) | Unreadable

  predicate PartOk(p: Part, hi: int) {
    match p
    case Every(step) => step > 0
    case Value(v) => 0 <= v <= hi
    case Junk => false
  }

  predicate FieldOk(f: Field, hi: int) { f.Star? || forall i | 0 <= i < |f.parts| :: PartOk(f.parts[i], hi) }

  predicate PartFires(p: Part, v: int) {
    match p
    case Every(step) => step > 0 && v % step == 0
    case Value(w) => v == w
    case Junk => false
  }

  /** What cron means by a field. */
  predicate FieldFires(f: Field, v: int) { f.Star? || exists i | 0 <= i < |f.parts| :: PartFires(f.parts[i], v) }

  const DAY := 1440

  /** The job fires at minute `t` of the unbounded past and future. */
  predicate Fires(s: Schedule, t: int)
    requires s.Schedule?
  { FieldFires(s.minute, t % 60) && FieldFires(s.hour, t / 60 % 24) }

  predicate Accepted(s: Schedule) {
    s.Schedule? && s.rest && FieldOk(s.minute, 59) && FieldOk(s.hour, 23)
  }

  /** A text split on commas has at least one part. */
  predicate Written(f: Field) { f.Star? || f.parts != [] }

  /** `gap` minutes is the least distance between two different firings. */
  ghost predicate LeastGap(s: Schedule, gap: int)
    requires s.Schedule?
  {
    && gap > 0
    && (exists t :: Fires(s, t) && Fires(s, t + gap))
    && (forall t, u | t < u && Fires(s, t) && Fires(s, u) :: gap <= u - t)
  }

  // ---------------------------------------------------------------- fields

  predicate Ascending(xs: seq<int>) { forall i, j | 0 <= i < j < |xs| :: xs[i] < xs[j] }

  /** `sorted(set)` */
  method Sorted(s: set<int>) returns (xs: seq<int>)
    ensures Ascending(xs) && |xs| == |s|
    ensures forall x :: x in xs <==> x in s
  {
    var left := s;
    xs := [];
    while left != {}
      invariant left <= s && |xs| + |left| == |s|
      invariant forall x :: x in xs || x in left <==> x in s
      invariant forall x, y | x in xs && y in left :: x < y
      invariant Ascending(xs)
      decreases left
    {
      ghost var a := Pick(left);
      LeastExists(left, a);
      var m :| m in left && forall x | x in left :: m <= x;
      Append(xs, m);
      xs, left := xs + [m], left - {m};
    }
  }

  lemma Append(xs: seq<int>, m: int)
    requires Ascending(xs) && forall x | x in xs :: x < m
    ensures Ascending(xs + [m])
  { forall i | 0 <= i < |xs| ensures xs[i] < m { assert xs[i] in xs; } }

  lemma Pick<T>(s: set<T>) returns (x: T)
    requires s != {}
    ensures x in s
  { x :| x in s; }

  lemma {:induction false} LeastExists(s: set<int>, a: int)
    requires a in s
    ensures exists m :: m in s && forall x | x in s :: m <= x
    decreases s
  {
    if b :| b in s && b < a {
      LeastExists(s - {a}, b);
      var m :| m in s - {a} && forall x | x in s - {a} :: m <= x;
      assert forall x | x in s :: x == a || x in s - {a};
      assert m in s && forall x | x in s :: m <= x;
    } else {
      assert forall x | x in s :: a <= x;
    }
  }

  /** `vs` holds exactly the values within bounds at which the field fires. */
  ghost predicate Lists(f: Field, hi: int, vs: seq<int>) {
    forall v :: v in vs <==> 0 <= v <= hi && FieldFires(f, v)
  }

  function Range(hi: int, step: int): set<int>
    requires step > 0
  { set v | 0 <= v <= hi && v % step == 0 }

  /** `_parse_field(field, 0, hi)`: it answers exactly for the fields it supports, with the values at which the
      field fires. */
  method ParseField(f: Field, hi: int) returns (r: Option<seq<int>>)
    requires hi >= 0
    ensures r.Some? <==> FieldOk(f, hi)
    ensures r.Some? ==> Ascending(r.value) && Lists(f, hi, r.value)
  {
    if f.Star? {
      var all := Sorted(Range(hi, 1));
      return Some(all);
    }
    var out: set<int> := {};
    for i := 0 to |f.parts|
      invariant forall k | 0 <= k < i :: PartOk(f.parts[k], hi)
      invariant forall v :: v in out <==> 0 <= v <= hi && exists k | 0 <= k < i :: PartFires(f.parts[k], v)
    {
      ghost var was := out;
      match f.parts[i] {
        case Every(step) =>
          if step <= 0 { return None; }
          out := out + Range(hi, step);
        case Value(v) =>
          if !(0 <= v <= hi) { return None; }
          out := out + {v};
        case Junk => return None;
      }
      forall v ensures v in out <==> v in was || (0 <= v <= hi && PartFires(f.parts[i], v)) {}
    }
    var xs := Sorted(out);
    return Some(xs);
  }

  // ---------------------------------------------------------------- one day of firings

  function DayFires(minutes: seq<int>, hours: seq<int>): set<int> {
    set h, m | h in hours && m in minutes :: h * 60 + m
  }

  lemma ClockTime(t: int)
    ensures t % DAY % 60 == t % 60 && t % DAY / 60 == t / 60 % 24
  {
    var d := t / DAY;
    assert t == d * 1440 + t % DAY;
    assert t / 60 == d * 24 + t % DAY / 60;
  }

  /** The schedule repeats daily: it fires at `t` when the time of day of `t` is among the day's firings. */
  lemma Daily(s: Schedule, minutes: seq<int>, hours: seq<int>, t: int)
    requires s.Schedule?
    requires Lists(s.minute, 59, minutes) && Lists(s.hour, 23, hours)
    ensures Fires(s, t) <==> t % DAY in DayFires(minutes, hours)
  {
    ClockTime(t);
    var a := t % DAY;
    if Fires(s, t) { assert a == (a / 60) * 60 + a % 60; }
    if a in DayFires(minutes, hours) {
      var h, m :| h in hours && m in minutes && a == h * 60 + m;
      assert a / 60 == h && a % 60 == m;
    }
  }

  /** The distances between neighbours in a day, and over midnight. */
  function Gap(fires: seq<int>, i: nat): int
    requires i < |fires|
  { if i + 1 < |fires| then fires[i + 1] - fires[i] else fires[0] + DAY - fires[i] }

  predicate Day(fires: seq<int>) {
    fires != [] && Ascending(fires) && forall i | 0 <= i < |fires| :: 0 <= fires[i] < DAY
  }

  /** Any two firings are at least some neighbour distance apart. */
  lemma Between(fires: seq<int>, gap: int, t: int, u: int)
    requires Day(fires) && forall i | 0 <= i < |fires| :: gap <= Gap(fires, i)
    requires t < u && t % DAY in fires && u % DAY in fires
    ensures gap <= u - t
  {
    var i :| 0 <= i < |fires| && fires[i] == t % DAY;
    var j :| 0 <= j < |fires| && fires[j] == u % DAY;
    var d := u / DAY - t / DAY;
    assert u - t == d * DAY + fires[j] - fires[i];
    if d == 0 {
      assert i < j && fires[i + 1] <= fires[j];
      assert gap <= Gap(fires, i);
    } else {
      var last := |fires| - 1;
      assert d >= 1 && fires[i] <= fires[last] && fires[0] <= fires[j];
      assert gap <= Gap(fires, last);
    }
  }

  lemma Attained(fires: seq<int>, i: nat)
    requires Day(fires) && i < |fires|
    ensures Gap(fires, i) > 0 && fires[i] % DAY in fires && (fires[i] + Gap(fires, i)) % DAY in fires
  {
    if i + 1 == |fires| { assert (fires[0] + DAY) % DAY == fires[0]; }
  }

  lemma LeastOfGaps(s: Schedule, fires: seq<int>, i: nat)
    requires s.Schedule? && Day(fires) && i < |fires|
    requires forall t :: Fires(s, t) <==> t % DAY in fires
    requires forall k | 0 <= k < |fires| :: Gap(fires, i) <= Gap(fires, k)
    ensures LeastGap(s, Gap(fires, i))
  {
    var gap := Gap(fires, i);
    Attained(fires, i);
    assert Fires(s, fires[i]) && Fires(s, fires[i] + gap);
    forall t, u | t < u && Fires(s, t) && Fires(s, u) ensures gap <= u - t { Between(fires, gap, t, u); }
  }

  // ---------------------------------------------------------------- the interval

  /** `interval_s`: it answers exactly for the supported schedules, and the answer is, in seconds, the least
      distance between any two firings of the endless schedule. */
  method IntervalS(s: Schedule) returns (r: Option<int>)
    requires s.Schedule? ==> Written(s.minute) && Written(s.hour)
    ensures r.Some? <==> Accepted(s)
    ensures r.Some? ==> r.value % 60 == 0 && LeastGap(s, r.value / 60)
  {
    hide FieldOk, Fires, DayFires, Ascending, LeastGap, Lists, Day;
    if s.Unreadable? || !s.rest { return None; }
    var minutes := ParseField(s.minute, 59);
    var hours := ParseField(s.hour, 23);
    if minutes.None? || hours.None? { return None; }
    var fires := Sorted(DayFires(minutes.value, hours.value));
    ScheduleDay(s, minutes.value, hours.value, fires);
    if |fires| == 1 {
      LeastOfGaps(s, fires, 0);
      return Some(86400);
    }
    var best, at := MinGap(fires);
    LeastOfGaps(s, fires, at);
    return Some(best * 60);
  }

  lemma ScheduleDay(s: Schedule, minutes: seq<int>, hours: seq<int>, fires: seq<int>)
    requires Accepted(s) && Written(s.minute) && Written(s.hour)
    requires Lists(s.minute, 59, minutes) && Lists(s.hour, 23, hours)
    requires Ascending(fires) && forall x :: x in fires <==> x in DayFires(minutes, hours)
    ensures fires != [] && Day(fires) && forall t :: Fires(s, t) <==> t % DAY in fires
  {
    NonEmpty(s.minute, 59, minutes);
    NonEmpty(s.hour, 23, hours);
    assert minutes[0] in minutes && hours[0] in hours;
    assert hours[0] * 60 + minutes[0] in DayFires(minutes, hours);
    forall t ensures Fires(s, t) <==> t % DAY in fires { Daily(s, minutes, hours, t); }
    IsDay(minutes, hours, fires);
  }

  lemma NonEmpty(f: Field, hi: int, vs: seq<int>)
    requires hi >= 0 && Written(f) && FieldOk(f, hi)
    requires Lists(f, hi, vs)
    ensures vs != []
  {
    var v := if f.Parts? && f.parts[0].Value? then f.parts[0].v else 0;
    if f.Parts? { assert PartOk(f.parts[0], hi); assert PartFires(f.parts[0], v); }
    assert v in vs;
  }

  lemma IsDay(minutes: seq<int>, hours: seq<int>, fires: seq<int>)
    requires forall v | v in minutes :: 0 <= v <= 59
    requires forall v | v in hours :: 0 <= v <= 23
    requires Ascending(fires) && fires != [] && forall v | v in fires :: v in DayFires(minutes, hours)
    ensures Day(fires)
  { forall i | 0 <= i < |fires| ensures 0 <= fires[i] < DAY { assert fires[i] in fires; } }

  /** `min` over the list of distances. */
  method MinGap(fires: seq<int>) returns (best: int, ghost at: nat)
    requires |fires| > 1
    ensures at < |fires| && best == Gap(fires, at)
    ensures forall k | 0 <= k < |fires| :: best <= Gap(fires, k)
  {
    best, at := fires[0] + DAY - fires[|fires| - 1], |fires| - 1;
    for i := 0 to |fires| - 1
      invariant at < |fires| && best == Gap(fires, at) && best <= Gap(fires, |fires| - 1)
      invariant forall k | 0 <= k < i :: best <= Gap(fires, k)
    {
      if fires[i + 1] - fires[i] < best { best, at := fires[i + 1] - fires[i], i; }
    }
  }

  // ---------------------------------------------------------------- what a field means

  /** A quarter-hour step within the hour; a number; text. */
  lemma PartMeans(w: int, v: int)
    ensures 0 <= v < 60 ==> (PartFires(Every(15), v) <==> v == 0 || v == 15 || v == 30 || v == 45)
    ensures PartFires(Value(w), v) <==> v == w
    ensures !PartFires(Junk, v) && !PartFires(Every(0), v)
  {}

  lemma ClockIs(day: int, hour: int, minute: int)
    requires 0 <= hour < 24 && 0 <= minute < 60
    ensures var t := 1440 * day + 60 * hour + minute; t % 60 == minute && t / 60 % 24 == hour
  {
    var t := 1440 * day + 60 * hour + minute;
    assert t == 60 * (24 * day + hour) + minute;
    assert t / 60 == 24 * day + hour;
  }

  /** A schedule of every `m` minutes and every `h` hours fires at the minutes of the day that are both. */
  lemma StepsMean(m: int, h: int, day: int, hour: int, minute: int)
    requires m > 0 && h > 0 && 0 <= hour < 24 && 0 <= minute < 60
    ensures Fires(Schedule(Parts([Every(m)]), Parts([Every(h)]), true), 1440 * day + 60 * hour + minute) <==>
      minute % m == 0 && hour % h == 0
  {
    ClockIs(day, hour, minute);
    hide FieldFires;
    OnePart(Every(m), minute);
    OnePart(Every(h), hour);
  }

  lemma OnePart(p: Part, v: int)
    ensures FieldFires(Parts([p]), v) <==> PartFires(p, v)
  { assert [p][0] == p; }

  predicate Readable(f: Field, hi: int) {
    f.Star? || forall p | p in f.parts :: (p.Every? && p.step >= 1) || (p.Value? && 0 <= p.v <= hi)
  }

  /** Which lines are read: nothing but steps of one or more and numbers up to 59 and 23, every day. */
  lemma AcceptedIs(s: Schedule)
    ensures Accepted(s) <==> s.Schedule? && s.rest && Readable(s.minute, 59) && Readable(s.hour, 23)
  {}
}
