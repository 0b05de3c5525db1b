/** Which backups a maintenance run keeps. */
module Retention {
  import opened Options
  import opened Sets

  /** Nanoseconds since 0001-01-01T00:00:00Z, the zero of the source's time type. */
  type Instant = int

  const HOUR: int := 3600 * 1000000000
  const DAY: int := 24 * HOUR
  const MAX_DURATION: int := 0x7FFF_FFFF_FFFF_FFFF
  const MIN_DURATION: int := -0x8000_0000_0000_0000

  /** A time difference; it saturates at the range of 64-bit nanoseconds. */
  function Sub(t: Instant, u: Instant): int {
    if t - u > MAX_DURATION then MAX_DURATION
    else if t - u < MIN_DURATION then MIN_DURATION
    else t - u
  }

  /** Rounds down to a multiple of d. */
  function Truncate(t: Instant, d: int): Instant
    requires d > 0
  {
    t - t % d
  }

  /** How long hourly and daily backups are kept, and how names are read. */
  datatype Policy = Policy(hourly: int, daily: int, parse: string -> Option<Instant>) {
    predicate Ok() {
      MIN_DURATION <= hourly <= MAX_DURATION && MIN_DURATION <= daily <= MAX_DURATION
    }
  }

  /** What a run at `now` makes of a backup: hour and day buckets share one key space. */
  datatype Class = Unreadable | Recent | Bucket(key: Instant) | Expired

  function ClassOf(p: Policy, now: Instant, t: Instant): Class {
    var age := Sub(now, t);
    if age < HOUR then Recent
    else if age < p.hourly then Bucket(Truncate(t, HOUR))
    else if age < p.daily then Bucket(Truncate(t, DAY))
    else Expired
  }

  function Classify(p: Policy, now: Instant, name: string): Class {
    match p.parse(name)
    case None => Unreadable
    case Some(t) => ClassOf(p, now, t)
  }

  /** name is the last of the listing with timestamp t. */
  predicate IsLastAt(p: Policy, names: seq<string>, t: Instant, name: string) {
    exists i | 0 <= i < |names| ::
      && names[i] == name && p.parse(name) == Some(t)
      && forall j | i < j < |names| :: p.parse(names[j]) != Some(t)
  }

  /** t is the earliest timestamp filed under key. */
  predicate IsFirstIn(p: Policy, now: Instant, names: seq<string>, key: Instant, t: Instant) {
    && (exists b | b in names :: p.parse(b) == Some(t) && Classify(p, now, b) == Bucket(key))
    && forall b | b in names && Classify(p, now, b) == Bucket(key) :: p.parse(b).Some? && t <= p.parse(b).value
  }

  /** The backups a run keeps: unreadable names, those younger than an hour, and for each bucket one
      backup with the bucket's earliest timestamp. */
  predicate Kept(p: Policy, now: Instant, names: seq<string>, b: string) {
    match Classify(p, now, b)
    case Unreadable => true
    case Recent => true
    case Expired => false
    case Bucket(key) =>
      IsFirstIn(p, now, names, key, p.parse(b).value) && IsLastAt(p, names, p.parse(b).value, b)
  }

  /** The backup store and the maintenance state of the leader. */
  class BackupCleanup {
    var store: set<string>
    var lastBackupCleanup: Instant
    const backupCleanupInterval: int := HOUR

    constructor (store: set<string>)
      ensures this.store == store && lastBackupCleanup == 0
    {
      this.store := store;
      lastBackupCleanup := 0;
    }

    /** The loop over the listing. */
    static method FileAll(p: Policy, now: Instant, names: seq<string>)
      returns (backups: map<Instant, string>, retain: set<string>, ignore: set<string>, buckets: map<Instant, Instant>)
      requires p.Ok() && now > MAX_DURATION
      ensures Filed(p, now, names, backups, retain, ignore)
      ensures FirstInBuckets(p, now, names, buckets)
    {
      backups, retain, ignore, buckets := map[], {}, {}, map[];
      for i := 0 to |names|
        invariant Filed(p, now, names[..i], backups, retain, ignore)
        invariant FirstInBuckets(p, now, names[..i], buckets)
      {
        var name := names[i];
        FileOne(p, now, names[..i], name, backups, retain, ignore);
        BucketOne(p, now, names[..i], name, buckets);
        assert names[..i + 1] == names[..i] + [name];
        var parsed := p.parse(name);
        if parsed.None? {
          ignore := ignore + {name};
        } else {
          var t := parsed.value;
          backups := backups[t := name];
          var age := Sub(now, t);
          if age < HOUR {
            retain := retain + {name};
          } else if age < p.hourly {
            var bucketed := Truncate(t, HOUR);
            if bucketed !in buckets || buckets[bucketed] == 0 || buckets[bucketed] > t {
              buckets := buckets[bucketed := t];
            }
          } else if age < p.daily {
            var bucketed := Truncate(t, DAY);
            if bucketed !in buckets || buckets[bucketed] == 0 || buckets[bucketed] > t {
              buckets := buckets[bucketed := t];
            }
          }
        }
      }
      assert names[..|names|] == names;
    }

    /** The names to keep (`retain`) and to leave alone (`ignore`). */
    static method Survivors(p: Policy, now: Instant, names: seq<string>) returns (retain: set<string>, ignore: set<string>)
      requires p.Ok() && now > MAX_DURATION
      ensures forall b | b in names :: b in retain || b in ignore <==> Kept(p, now, names, b)
      ensures forall b :: b in ignore <==> b in names && p.parse(b).None?
    {
      var backups, buckets;
      backups, retain, ignore, buckets := FileAll(p, now, names);
      FirstIsBackedUp(p, now, names, backups, retain, ignore, buckets);

      var keys: set<Instant> := buckets.Keys;
      ghost var recent := retain;
      while keys != {}
        invariant keys <= buckets.Keys
        invariant retain == recent + set k | k in buckets.Keys - keys :: backups[buckets[k]]
        decreases keys
      {
        var k := Pick(keys);
        retain := retain + {backups[buckets[k]]};
        keys := keys - {k};
      }
      FiledIsKept(p, now, names, backups, recent, ignore, buckets);
    }

    /** Removes old backups, at most once an hour. `listing` is what listing the store returns, if that
        succeeds, and `stuck` are the names whose removal fails. */
    method MaybeDoBackupMaintenance(p: Policy, now: Instant, listing: Option<seq<string>>, stuck: set<string>)
      returns (ok: bool)
      requires p.Ok() && now > MAX_DURATION
      requires listing.Some? ==> Lists(listing.value, store)
      modifies this
      ensures Sub(now, old(lastBackupCleanup)) < HOUR ==> ok && unchanged(this)
      ensures Sub(now, old(lastBackupCleanup)) >= HOUR ==>
                && lastBackupCleanup == now && ok == listing.Some?
                && store == if ok then Maintained(p, old(store), now, listing.value, stuck) else old(store)
    {
      hide Sub, Kept;
      if Sub(now, lastBackupCleanup) < backupCleanupInterval {
        return true;
      }
      lastBackupCleanup := now;
      if listing.None? {
        return false;
      }
      var names := listing.value;

      var retain, ignore := Survivors(p, now, names);
      for i := 0 to |names|
        invariant store == set b | b in old(store) && (b in retain || b in ignore || b in stuck || b !in names[..i])
        invariant lastBackupCleanup == now
      {
        if names[i] !in retain && names[i] !in ignore && names[i] !in stuck {
          store := store - {names[i]};
        }
      }
      return true;
    }
  }

  /** names lists exactly the store, in any order. */
  predicate Lists(names: seq<string>, store: set<string>) {
    && (forall i | 0 <= i < |names| :: names[i] in store)
    && (forall b | b in store :: b in names)
  }

  /** The store after a run. */
  function Maintained(p: Policy, store: set<string>, now: Instant, names: seq<string>, stuck: set<string>): set<string> {
    set b | b in store && (Kept(p, now, names, b) || b in stuck)
  }

  // The first loop.

  ghost predicate Filed(p: Policy, now: Instant, done: seq<string>, backups: map<Instant, string>,
                        retain: set<string>, ignore: set<string>)
  {
    && (forall t | t in backups :: IsLastAt(p, done, t, backups[t]))
    && (forall b | b in done && p.parse(b).Some? :: p.parse(b).value in backups)
    && (forall b :: b in retain <==> b in done && Classify(p, now, b) == Recent)
    && (forall b :: b in ignore <==> b in done && Classify(p, now, b) == Unreadable)
  }

  ghost predicate FirstInBuckets(p: Policy, now: Instant, done: seq<string>, buckets: map<Instant, Instant>) {
    && (forall k | k in buckets :: IsFirstIn(p, now, done, k, buckets[k]))
    && (forall b | b in done && Classify(p, now, b).Bucket? :: Classify(p, now, b).key in buckets)
  }

  lemma LastAtSnoc(p: Policy, done: seq<string>, t: Instant, b: string, name: string)
    requires IsLastAt(p, done, t, b) && p.parse(name) != Some(t)
    ensures IsLastAt(p, done + [name], t, b)
  {
    var i :| 0 <= i < |done| && done[i] == b && forall j | i < j < |done| :: p.parse(done[j]) != Some(t);
    assert (done + [name])[i] == b;
  }

  lemma FileOne(p: Policy, now: Instant, done: seq<string>, name: string, backups: map<Instant, string>,
                retain: set<string>, ignore: set<string>)
    requires Filed(p, now, done, backups, retain, ignore)
    ensures var c := Classify(p, now, name);
            Filed(p, now, done + [name],
                  if p.parse(name).Some? then backups[p.parse(name).value := name] else backups,
                  if c == Recent then retain + {name} else retain,
                  if c == Unreadable then ignore + {name} else ignore)
  {
    var all := done + [name];
    assert all[|done|] == name;
    var backups' := if p.parse(name).Some? then backups[p.parse(name).value := name] else backups;
    forall t | t in backups' ensures IsLastAt(p, all, t, backups'[t]) {
      if p.parse(name) != Some(t) {
        LastAtSnoc(p, done, t, backups[t], name);
      }
    }
  }

  /** The zero time, which the source uses for "no entry", is never filed. */
  lemma BucketOne(p: Policy, now: Instant, done: seq<string>, name: string, buckets: map<Instant, Instant>)
    requires p.Ok() && now > MAX_DURATION
    requires FirstInBuckets(p, now, done, buckets)
    ensures var c := Classify(p, now, name);
            FirstInBuckets(p, now, done + [name],
              if c.Bucket? && (c.key !in buckets || buckets[c.key] == 0 || buckets[c.key] > p.parse(name).value)
              then buckets[c.key := p.parse(name).value] else buckets)
  {
    var all := done + [name];
    assert all[|done|] == name;
    forall k, t | IsFirstIn(p, now, done, k, t) && (Classify(p, now, name) == Bucket(k) ==> t <= p.parse(name).value)
      ensures IsFirstIn(p, now, all, k, t)
    {
      var b :| b in done && p.parse(b) == Some(t) && Classify(p, now, b) == Bucket(k);
      assert b in all;
    }
    assert name in all;
  }

  lemma FirstIsBackedUp(p: Policy, now: Instant, names: seq<string>, backups: map<Instant, string>,
                        retain: set<string>, ignore: set<string>, buckets: map<Instant, Instant>)
    requires Filed(p, now, names, backups, retain, ignore) && FirstInBuckets(p, now, names, buckets)
    ensures forall k | k in buckets :: buckets[k] in backups
  {
  }

  lemma LastAtUnique(p: Policy, names: seq<string>, t: Instant, b: string, c: string)
    requires IsLastAt(p, names, t, b) && IsLastAt(p, names, t, c)
    ensures b == c
  {
  }

  lemma FiledIsKept(p: Policy, now: Instant, names: seq<string>, backups: map<Instant, string>,
                    recent: set<string>, ignore: set<string>, buckets: map<Instant, Instant>)
    requires Filed(p, now, names, backups, recent, ignore) && FirstInBuckets(p, now, names, buckets)
    requires forall k | k in buckets :: buckets[k] in backups
    ensures forall b | b in names ::
              (b in recent || b in ignore || exists k | k in buckets :: b == backups[buckets[k]])
              <==> Kept(p, now, names, b)
  {
    forall b | b in names
      ensures (b in recent || b in ignore || exists k | k in buckets :: b == backups[buckets[k]])
              <==> Kept(p, now, names, b)
    {
      match Classify(p, now, b)
      case Bucket(key) =>
        var t := p.parse(b).value;
        if Kept(p, now, names, b) {
          assert buckets[key] == t;
          LastAtUnique(p, names, t, b, backups[t]);
        }
      case _ =>
    }
  }

  // One run.

  lemma LastExists(p: Policy, names: seq<string>, t: Instant) returns (b: string)
    requires exists c | c in names :: p.parse(c) == Some(t)
    ensures IsLastAt(p, names, t, b)
  {
    var n := |names| - 1;
    var init := names[..n];
    assert names == init + [names[n]];
    if p.parse(names[n]) == Some(t) {
      b := names[n];
    } else {
      b := LastExists(p, init, t);
      LastAtSnoc(p, init, t, b, names[n]);
    }
  }

  /** The latest a backup may be kept: as long as its age is below this, some bucket takes it. */
  function Limit(p: Policy): (r: int) {
    var longest := if p.hourly < p.daily then p.daily else p.hourly;
    if longest < HOUR then HOUR else longest
  }

  predicate Stamped(p: Policy, store: set<string>, t: Instant) {
    exists b | b in store :: p.parse(b) == Some(t)
  }

  predicate EarliestOf(p: Policy, store: set<string>, d: int, t: Instant)
    requires d > 0
  {
    forall b | b in store && p.parse(b).Some? && Truncate(p.parse(b).value, d) == Truncate(t, d) :: t <= p.parse(b).value
  }

  lemma TruncateDayHour(t: Instant)
    ensures Truncate(t, DAY) <= Truncate(t, HOUR) <= t < Truncate(t, HOUR) + HOUR
    ensures Truncate(Truncate(t, HOUR), DAY) == Truncate(t, DAY)
    ensures Truncate(Truncate(t, DAY), HOUR) == Truncate(t, DAY)
  {
    TruncateTwice(t, HOUR, DAY);
  }

  /** Two units, the larger being 24 of the smaller. */
  lemma TruncateTwice(t: Instant, d: int, day: int)
    requires d > 0 && day == 24 * d
    ensures Truncate(t, day) <= Truncate(t, d) <= t < Truncate(t, d) + d
    ensures Truncate(Truncate(t, d), day) == Truncate(t, day)
    ensures Truncate(Truncate(t, day), d) == Truncate(t, day)
  {
    var q, r := t / day, t % day;
    var h, m := r / d, r % d;
    assert t == day * q + r && r == d * h + m;
    assert d * (24 * q + h) == day * q + d * h by {
      assert d * (24 * q) == day * q;
    }
    NonNegative(d, h, r, m);
    Quotient(t, d, 24 * q + h, m);
    Quotient(t - m, day, q, d * h);
    Quotient(t - r, d, 24 * q, 0);
  }

  lemma TruncateAgain(t: Instant, d: int)
    requires d > 0
    ensures Truncate(Truncate(t, d), d) == Truncate(t, d)
  {
    Quotient(Truncate(t, d), d, t / d, 0);
  }

  lemma NonNegative(d: int, h: int, r: int, m: int)
    requires d > 0 && r == d * h + m && r >= 0 && 0 <= m < d
    ensures d * h >= 0
  {
    if h < 0 {
      NonPositive(d, h + 1);
      assert false;
    }
  }

  /** The key of a bucket is the start of the hour or of the day, so it lies in the day. */
  lemma KeyFacts(p: Policy, now: Instant, t: Instant)
    requires ClassOf(p, now, t).Bucket?
    ensures var k := ClassOf(p, now, t).key;
            && Truncate(k, DAY) == Truncate(t, DAY)
            && Truncate(k, HOUR) == k
            && (Sub(now, t) < p.hourly ==> k == Truncate(t, HOUR))
            && (Sub(now, t) >= p.hourly ==> k == Truncate(t, DAY))
            && k <= t
  {
    hide Truncate, Sub;
    TruncateDayHour(t);
    TruncateDayHour(Truncate(t, DAY));
    TruncateAgain(t, HOUR);
    TruncateAgain(t, DAY);
  }

  lemma SameBucketSameDay(p: Policy, now: Instant, t: Instant, u: Instant)
    requires ClassOf(p, now, t).Bucket? && ClassOf(p, now, t) == ClassOf(p, now, u)
    ensures Truncate(t, DAY) == Truncate(u, DAY)
  {
    hide *;
    KeyFacts(p, now, t);
    KeyFacts(p, now, u);
  }

  lemma Between(t: Instant, u: Instant)
    requires Truncate(t, HOUR) <= u <= t
    ensures Truncate(u, HOUR) == Truncate(t, HOUR)
  {
    Quotient(u, HOUR, t / HOUR, u - Truncate(t, HOUR));
  }

  /** An hour bucket and a day bucket share a key only at midnight; whatever the day bucket then holds
      before a backup of the hour bucket lies in the same hour. */
  lemma SameBucketSameHour(p: Policy, now: Instant, t: Instant, u: Instant)
    requires ClassOf(p, now, t).Bucket? && ClassOf(p, now, t) == ClassOf(p, now, u)
    requires Sub(now, t) < p.hourly && u <= t
    ensures Truncate(t, HOUR) == Truncate(u, HOUR)
  {
    hide *;
    KeyFacts(p, now, t);
    KeyFacts(p, now, u);
    Between(t, u);
  }

  lemma ClassUnderLimit(p: Policy, now: Instant, t: Instant)
    ensures ClassOf(p, now, t) == Expired <==> Sub(now, t) >= Limit(p)
  {
  }

  /** A timestamp is kept by a run if it is filed and the first of its bucket. */
  lemma FirstIsKept(p: Policy, store: set<string>, now: Instant, names: seq<string>, stuck: set<string>, t: Instant)
    requires Lists(names, store) && Stamped(p, store, t)
    requires ClassOf(p, now, t) != Expired
    requires forall b | b in store && p.parse(b).Some? && ClassOf(p, now, t).Bucket? &&
                        ClassOf(p, now, p.parse(b).value) == ClassOf(p, now, t) :: t <= p.parse(b).value
    ensures Stamped(p, Maintained(p, store, now, names, stuck), t)
  {
    var b := LastExists(p, names, t);
    assert b in store;
    assert Kept(p, now, names, b);
    assert b in Maintained(p, store, now, names, stuck);
  }

  lemma EarliestOfDayKept(p: Policy, store: set<string>, now: Instant, names: seq<string>, stuck: set<string>, t: Instant)
    requires Lists(names, store) && Stamped(p, store, t) && EarliestOf(p, store, DAY, t)
    requires Sub(now, t) < Limit(p)
    ensures Stamped(p, Maintained(p, store, now, names, stuck), t)
  {
    ClassUnderLimit(p, now, t);
    forall b | b in store && p.parse(b).Some? && ClassOf(p, now, t).Bucket? && ClassOf(p, now, p.parse(b).value) == ClassOf(p, now, t)
      ensures t <= p.parse(b).value
    {
      SameBucketSameDay(p, now, t, p.parse(b).value);
    }
    FirstIsKept(p, store, now, names, stuck, t);
  }

  lemma EarliestOfHourKept(p: Policy, store: set<string>, now: Instant, names: seq<string>, stuck: set<string>, t: Instant)
    requires Lists(names, store) && Stamped(p, store, t) && EarliestOf(p, store, HOUR, t)
    requires Sub(now, t) < HOUR || Sub(now, t) < p.hourly
    ensures Stamped(p, Maintained(p, store, now, names, stuck), t)
  {
    ClassUnderLimit(p, now, t);
    forall b | b in store && p.parse(b).Some? && ClassOf(p, now, t).Bucket? && ClassOf(p, now, p.parse(b).value) == ClassOf(p, now, t)
      ensures t <= p.parse(b).value
    {
      if p.parse(b).value <= t {
        SameBucketSameHour(p, now, t, p.parse(b).value);
      }
    }
    FirstIsKept(p, store, now, names, stuck, t);
  }

  // Whole runs: backups are added and maintenance runs happen in any order.

  datatype Event = Add(name: string) | Maintain(now: Instant, names: seq<string>, stuck: set<string>)

  function After(p: Policy, store: set<string>, e: Event): set<string> {
    match e
    case Add(name) => store + {name}
    case Maintain(now, names, stuck) => Maintained(p, store, now, names, stuck)
  }

  predicate Possible(p: Policy, store: set<string>, events: seq<Event>)
    decreases |events|
  {
    events != [] ==>
      && (events[0].Maintain? ==> Lists(events[0].names, store))
      && Possible(p, After(p, store, events[0]), events[1..])
  }

  function AfterAll(p: Policy, store: set<string>, events: seq<Event>): set<string>
    decreases |events|
  {
    if events == [] then store else AfterAll(p, After(p, store, events[0]), events[1..])
  }

  function Added(events: seq<Event>): set<string> {
    set e | e in events && e.Add? :: e.name
  }

  /** The earliest timestamp that a UTC day ever has survives every sequence of additions and maintenance
      runs in which no maintenance comes after its age has reached the longest retention. */
  lemma {:induction false} EarliestOfDaySurvives(p: Policy, store: set<string>, events: seq<Event>, t: Instant)
    requires Possible(p, store, events)
    requires Stamped(p, store, t) && EarliestOf(p, store + Added(events), DAY, t)
    requires forall e | e in events && e.Maintain? :: Sub(e.now, t) < Limit(p)
    ensures Stamped(p, AfterAll(p, store, events), t)
    decreases |events|
  {
    if events != [] {
      var e := events[0];
      if e.Maintain? {
        EarliestOfDayKept(p, store, e.now, e.names, e.stuck, t);
      } else {
        assert e.name in Added(events);
      }
      assert forall x | x in events[1..] :: x in events;
      assert After(p, store, e) + Added(events[1..]) <= store + Added(events);
      EarliestOfDaySurvives(p, After(p, store, e), events[1..], t);
    }
  }

  /** The same for hours, while the age is below the hourly retention (and never less than an hour). */
  lemma {:induction false} EarliestOfHourSurvives(p: Policy, store: set<string>, events: seq<Event>, t: Instant)
    requires Possible(p, store, events)
    requires Stamped(p, store, t) && EarliestOf(p, store + Added(events), HOUR, t)
    requires forall e | e in events && e.Maintain? :: Sub(e.now, t) < HOUR || Sub(e.now, t) < p.hourly
    ensures Stamped(p, AfterAll(p, store, events), t)
    decreases |events|
  {
    if events != [] {
      var e := events[0];
      if e.Maintain? {
        EarliestOfHourKept(p, store, e.now, e.names, e.stuck, t);
      } else {
        assert e.name in Added(events);
      }
      assert forall x | x in events[1..] :: x in events;
      assert After(p, store, e) + Added(events[1..]) <= store + Added(events);
      EarliestOfHourSurvives(p, After(p, store, e), events[1..], t);
    }
  }

  /** Backups whose names cannot be read are never removed. */
  lemma {:induction false} UnreadableSurvives(p: Policy, store: set<string>, events: seq<Event>, b: string)
    requires Possible(p, store, events)
    requires b in store && p.parse(b).None?
    ensures b in AfterAll(p, store, events)
    decreases |events|
  {
    if events != [] {
      UnreadableSurvives(p, After(p, store, events[0]), events[1..], b);
    }
  }

  /** A backup that is younger than an hour at every maintenance survives every sequence of events. */
  lemma {:induction false} RecentSurvives(p: Policy, store: set<string>, events: seq<Event>, b: string)
    requires Possible(p, store, events)
    requires b in store && p.parse(b).Some? && forall e | e in events && e.Maintain? :: Sub(e.now, p.parse(b).value) < HOUR
    ensures b in AfterAll(p, store, events)
    decreases |events|
  {
    if events != [] {
      assert events[0] in events && forall e | e in events[1..] :: e in events;
      RecentSurvives(p, After(p, store, events[0]), events[1..], b);
    }
  }

  /** The retention is exact: the first run at or past the limit removes the timestamp. */
  lemma ExpiredIsRemoved(p: Policy, store: set<string>, now: Instant, names: seq<string>, t: Instant)
    requires Lists(names, store) && Sub(now, t) >= Limit(p)
    ensures !Stamped(p, Maintained(p, store, now, names, {}), t)
  {
    ClassUnderLimit(p, now, t);
  }

  // What is left after a run.

  lemma FirstExists(p: Policy, now: Instant, names: seq<string>, key: Instant) returns (t: Instant)
    requires exists b | b in names :: Classify(p, now, b) == Bucket(key)
    ensures IsFirstIn(p, now, names, key, t)
  {
    var n := |names| - 1;
    var init, last := names[..n], names[n];
    assert names == init + [last];
    if b :| b in init && Classify(p, now, b) == Bucket(key) {
      t := FirstExists(p, now, init, key);
      if Classify(p, now, last) == Bucket(key) && p.parse(last).value < t {
        t := p.parse(last).value;
      }
    } else {
      t := p.parse(last).value;
    }
  }

  /** A filed backup has a representative: the kept one of its bucket. */
  lemma Representative(p: Policy, store: set<string>, now: Instant, names: seq<string>, stuck: set<string>, b: string)
    returns (r: string)
    requires Lists(names, store) && b in store && Classify(p, now, b).Bucket?
    ensures r in Maintained(p, store, now, names, stuck)
    ensures Classify(p, now, r) == Classify(p, now, b) && p.parse(r).value <= p.parse(b).value
  {
    var t := FirstExists(p, now, names, Classify(p, now, b).key);
    r := LastExists(p, names, t);
    assert r in store;
  }

  /** Sharing one key space between hours and days is harmless: every hour with a backup of hourly age keeps
      one, and every day with a backup of daily age keeps one. */
  lemma SharedBucketsAreHarmless(p: Policy, store: set<string>, now: Instant, names: seq<string>, stuck: set<string>, b: string)
    requires Lists(names, store) && b in store && p.parse(b).Some? && HOUR <= Sub(now, p.parse(b).value) < Limit(p)
    ensures var kept, t := Maintained(p, store, now, names, stuck), p.parse(b).value;
            exists r :: r in kept && p.parse(r).Some? && p.parse(r).value <= t &&
                        var d := if Sub(now, t) < p.hourly then HOUR else DAY;
                        Truncate(p.parse(r).value, d) == Truncate(t, d)
  {
    ClassUnderLimit(p, now, p.parse(b).value);
    var r := Representative(p, store, now, names, stuck, b);
    var t, u := p.parse(b).value, p.parse(r).value;
    SameBucketSameDay(p, now, t, u);
    if Sub(now, t) < p.hourly {
      SameBucketSameHour(p, now, t, u);
    }
  }

  /** A second run at the same instant removes nothing, however the store is listed. */
  lemma RerunRemovesNothing(p: Policy, store: set<string>, now: Instant, names: seq<string>, again: seq<string>)
    requires Lists(names, store)
    requires Lists(again, Maintained(p, store, now, names, {}))
    ensures var kept := Maintained(p, store, now, names, {});
            Maintained(p, kept, now, again, {}) == kept
  {
    var kept := Maintained(p, store, now, names, {});
    forall b | b in kept ensures Kept(p, now, again, b) {
      if Classify(p, now, b).Bucket? {
        var t := p.parse(b).value;
        var c := LastExists(p, again, t);
        assert Kept(p, now, names, c);
        LastAtUnique(p, names, t, b, c);
      }
    }
  }

  // How much is left: at most one backup for each hour and each day of the two windows.

  function CeilDiv(a: int, d: int): int
    requires d > 0
  {
    (a + d - 1) / d
  }

  function HourSlots(p: Policy): int {
    if p.hourly <= HOUR then 0 else CeilDiv(p.hourly, HOUR)
  }

  function DaySlots(p: Policy): int {
    var from := if p.hourly < HOUR then HOUR else p.hourly;
    if p.daily <= from then 0 else CeilDiv(p.daily - from + DAY, DAY)
  }

  lemma CeilDivStep(a: int, d: int)
    requires d > 0
    ensures CeilDiv(a + d, d) == CeilDiv(a, d) + 1
    ensures a > 0 ==> CeilDiv(a, d) >= 1
  {
    var q, r := (a + d - 1) / d, (a + d - 1) % d;
    assert a + d + d - 1 == d * (q + 1) + r;
    Quotient(a + d + d - 1, d, q + 1, r);
    if a > 0 && q < 1 {
      NonPositive(d, q);
      assert false;
    }
  }

  lemma NonPositive(d: int, q: int)
    requires d > 0 && q <= 0
    ensures d * q <= 0
  {
  }

  lemma Quotient(a: int, d: int, q: int, r: int)
    requires d > 0 && a == d * q + r && 0 <= r < d
    ensures a / d == q && a % d == r
  {
    var x, y := a / d, a % d;
    assert d * (x - q) == r - y;
    if x > q {
      NonPositive(d, q - x + 1);
      assert false;
    } else if x < q {
      NonPositive(d, x - q + 1);
      assert false;
    }
  }

  lemma NearMultiples(k: int, l: int, d: int)
    requires d > 0 && k % d == 0 && l % d == 0 && -d < k - l < d
    ensures k == l
  {
    var i, j := k / d, l / d;
    assert k - l == d * (i - j);
    if i > j {
      NonPositive(d, j - i + 1);
      assert false;
    } else if i < j {
      NonPositive(d, i - j + 1);
      assert false;
    }
  }

  /** An interval holds at most as many multiples of d as its length allows. */
  lemma {:induction false} MultiplesIn(keys: set<int>, d: int, a: int, b: int)
    requires d > 0 && a <= b
    requires forall k | k in keys :: k % d == 0 && a < k <= b
    ensures |keys| <= CeilDiv(b - a, d)
    decreases b - a
  {
    if b - a == 0 {
      if keys != {} {
        var k := Any(keys);
      }
      Quotient(d - 1, d, 0, d - 1);
    } else {
      var low := set k | k in keys && k <= b - d;
      var high := keys - low;
      AtMostOneHigh(high, d, b);
      assert keys == low + high;
      CeilDivStep(b - a - d, d);
      if b - d >= a {
        MultiplesIn(low, d, a, b - d);
      } else {
        if low != {} {
          var k := Any(low);
        }
        CeilDivStep(b - a, d);
      }
    }
  }

  lemma AtMostOneHigh(high: set<int>, d: int, b: int)
    requires d > 0
    requires forall k | k in high :: k % d == 0 && b - d < k <= b
    ensures |high| <= 1
  {
    if |high| > 1 {
      var k := Any(high);
      var rest := high - {k};
      assert |rest| == |high| - 1;
      var l := Any(rest);
      NearMultiples(k, l, d);
      assert false;
    }
  }

  lemma {:induction false} InjectiveSize(s: set<string>, key: string -> int)
    requires forall a, b | a in s && b in s && key(a) == key(b) :: a == b
    ensures |s| <= |set b | b in s :: key(b)|
  {
    if s != {} {
      var a := Any(s);
      var rest := s - {a};
      InjectiveSize(rest, key);
      var below := set b | b in rest :: key(b);
      assert (set b | b in s :: key(b)) == below + {key(a)};
    }
  }

  /** The windows in which the keys lie. */
  lemma KeyWindow(p: Policy, now: Instant, t: Instant)
    requires ClassOf(p, now, t).Bucket? && p.Ok()
    ensures var k := ClassOf(p, now, t).key;
            || (k % HOUR == 0 && p.hourly > HOUR && now - p.hourly - HOUR < k <= now - HOUR)
            || (k % DAY == 0 && p.daily > p.hourly && p.daily > HOUR && now - p.daily - DAY < k <= now - HOUR && k <= now - p.hourly)
  {
  }

  lemma HourKeys(p: Policy, now: Instant, keys: set<int>)
    requires forall k | k in keys :: k % HOUR == 0 && p.hourly > HOUR && now - p.hourly - HOUR < k <= now - HOUR
    ensures |keys| <= HourSlots(p)
  {
    if p.hourly > HOUR {
      MultiplesIn(keys, HOUR, now - p.hourly - HOUR, now - HOUR);
    } else {
      if keys != {} {
        var k := Any(keys);
      }
    }
  }

  lemma DayKeys(p: Policy, now: Instant, keys: set<int>)
    requires forall k | k in keys :: k % DAY == 0 && p.daily > p.hourly && p.daily > HOUR &&
                                     now - p.daily - DAY < k <= now - HOUR && k <= now - p.hourly
    ensures |keys| <= DaySlots(p)
  {
    var from := if p.hourly < HOUR then HOUR else p.hourly;
    if p.daily > from {
      MultiplesIn(keys, DAY, now - p.daily - DAY, now - from);
    } else {
      if keys != {} {
        var k := Any(keys);
      }
    }
  }

  lemma OnePerBucket(p: Policy, now: Instant, names: seq<string>, a: string, b: string)
    requires Kept(p, now, names, a) && Kept(p, now, names, b)
    requires Classify(p, now, a).Bucket? && Classify(p, now, a) == Classify(p, now, b)
    ensures a == b
  {
    LastAtUnique(p, names, p.parse(a).value, a, b);
  }

  /** The readable backups of an hour or older that a run leaves are bounded by the slots of the two windows,
      however many there were. */
  lemma SurvivorsAreBounded(p: Policy, store: set<string>, now: Instant, names: seq<string>)
    requires p.Ok() && Lists(names, store)
    ensures |set b | b in Maintained(p, store, now, names, {}) && p.parse(b).Some? && Sub(now, p.parse(b).value) >= HOUR|
            <= HourSlots(p) + DaySlots(p)
  {
    var aged := set b | b in Maintained(p, store, now, names, {}) && p.parse(b).Some? && Sub(now, p.parse(b).value) >= HOUR;
    var key: string -> int := b => match Classify(p, now, b) case Bucket(k) => k case _ => 0;
    forall a, b | a in aged && b in aged && key(a) == key(b) ensures a == b {
      OnePerBucket(p, now, names, a, b);
    }
    InjectiveSize(aged, key);
    var keys := set b | b in aged :: key(b);
    KeysAreBounded(p, now, aged, keys);
  }

  /** Of the readable backups between an hour and the hourly retention old, a run leaves one for each UTC
      hour; of those between the hourly and the daily retention old, one for each UTC day. */
  lemma OneOfEachHourAndDay(p: Policy, store: set<string>, now: Instant, names: seq<string>, a: string, b: string)
    requires Lists(names, store) && a in Maintained(p, store, now, names, {}) && b in Maintained(p, store, now, names, {})
    requires p.parse(a).Some? && p.parse(b).Some?
    requires var t, u := p.parse(a).value, p.parse(b).value;
             var x, y := Sub(now, t), Sub(now, u);
             && HOUR <= x && HOUR <= y
             && if x < p.hourly then y < p.hourly && Truncate(t, HOUR) == Truncate(u, HOUR)
                else y >= p.hourly && Truncate(t, DAY) == Truncate(u, DAY)
    ensures a == b
  {
    OnePerBucket(p, now, names, a, b);
  }

  /** Of backups with equal timestamps only the one listed last can be left, once they are an hour old. */
  lemma OfEqualStampsTheLast(p: Policy, store: set<string>, now: Instant, names: seq<string>, i: nat, j: nat)
    requires Lists(names, store) && i < j < |names| && forall k | i < k < |names| :: names[k] != names[i]
    requires p.parse(names[i]).Some? && p.parse(names[i]) == p.parse(names[j]) && Sub(now, p.parse(names[i]).value) >= HOUR
    ensures names[i] !in Maintained(p, store, now, names, {})
  {
  }

  lemma KeysAreBounded(p: Policy, now: Instant, aged: set<string>, keys: set<int>)
    requires p.Ok()
    requires forall k | k in keys :: exists b | b in aged :: Classify(p, now, b) == Bucket(k)
    ensures |keys| <= HourSlots(p) + DaySlots(p)
  {
    var hours := set k | k in keys && k % HOUR == 0 && p.hourly > HOUR && now - p.hourly - HOUR < k <= now - HOUR;
    forall k | k in keys - hours
      ensures k % DAY == 0 && p.daily > p.hourly && p.daily > HOUR && now - p.daily - DAY < k <= now - HOUR && k <= now - p.hourly
    {
      var b :| b in aged && Classify(p, now, b) == Bucket(k);
      KeyWindow(p, now, p.parse(b).value);
    }
    HourKeys(p, now, hours);
    DayKeys(p, now, keys - hours);
    assert keys == hours + (keys - hours);
  }
}
