/** The choice of backup snapshots to keep. */
module Retention {

  /** A snapshot. IDs are fixed-length hexadecimal, so their order is that of numbers. */
  datatype Snapshot = Snapshot(id: nat, time: int, tags: seq<string>)

  /** Calendar day, ISO week and month of a moment, as opaque bucket numbers. */
  datatype Calendar = Calendar(day: int -> int, week: int -> int, month: int -> int)

  datatype Policy = Policy(calendar: Calendar, now: int, daily: int, weekly: int, monthly: int)

  predicate StartsWith(s: string, prefix: string) {
    prefix <= s
  }

  predicate ProtectedTag(tag: string) {
    tag == "pre-upgrade" || StartsWith(tag, "pre-upgrade-") || tag == "rollback" || StartsWith(tag, "rollback-")
  }

  predicate Protected(x: Snapshot) {
    exists i :: 0 <= i < |x.tags| && ProtectedTag(x.tags[i])
  }

  /** Only these are ever thinned. */
  predicate Thinned(p: Policy, x: Snapshot) {
    !Protected(x) && x.time <= p.now
  }

  // ------------------------------------------------------------------- order

  predicate Newer(x: Snapshot, y: Snapshot) {
    x.time > y.time || (x.time == y.time && x.id > y.id)
  }

  predicate NewestFirst(s: seq<Snapshot>) {
    forall i, j :: 0 <= i < j < |s| ==> !Newer(s[j], s[i])
  }

  predicate DistinctIds(s: seq<Snapshot>) {
    forall i, j :: 0 <= i < j < |s| ==> s[i].id != s[j].id
  }

  function Insert(x: Snapshot, s: seq<Snapshot>): seq<Snapshot> {
    if s == [] || !Newer(s[0], x) then [x] + s else [s[0]] + Insert(x, s[1..])
  }

  /** The listing sorted by time and ID, newest first. */
  function Sort(items: seq<Snapshot>): seq<Snapshot> {
    if items == [] then [] else Insert(items[0], Sort(items[1..]))
  }

  lemma {:induction false} InsertKeeps(x: Snapshot, s: seq<Snapshot>)
    ensures multiset(Insert(x, s)) == multiset(s) + multiset{x}
  {
    if s != [] && Newer(s[0], x) {
      InsertKeeps(x, s[1..]);
      assert s == [s[0]] + s[1..];
    }
  }

  lemma {:induction false} InsertSorts(x: Snapshot, s: seq<Snapshot>)
    requires NewestFirst(s)
    ensures NewestFirst(Insert(x, s))
  {
    if s != [] && Newer(s[0], x) {
      InsertSorts(x, s[1..]);
      var r := Insert(x, s[1..]);
      forall k | 0 <= k < |r| ensures !Newer(r[k], s[0]) {
        InsertKeeps(x, s[1..]);
        assert r[k] in multiset(r);
      }
    } else if s != [] {
      forall k | 0 <= k < |s| ensures !Newer(s[k], x) {
        assert k > 0 ==> !Newer(s[k], s[0]);
      }
    }
  }

  lemma {:induction false} SortSorts(items: seq<Snapshot>)
    ensures NewestFirst(Sort(items)) && multiset(Sort(items)) == multiset(items)
  {
    if items != [] {
      SortSorts(items[1..]);
      InsertSorts(items[0], Sort(items[1..]));
      InsertKeeps(items[0], Sort(items[1..]));
      assert items == [items[0]] + items[1..];
    }
  }

  lemma {:induction false} SortedStays(s: seq<Snapshot>)
    requires NewestFirst(s)
    ensures Sort(s) == s
  {
    if s != [] {
      SortedStays(s[1..]);
      assert |s| > 1 ==> s[1..][0] == s[1];
    }
  }

  // --------------------------------------------------------------- selection

  /** The buckets of the thinned snapshots among the first `n`. */
  function Buckets(p: Policy, f: int -> int, s: seq<Snapshot>, n: nat): set<int>
    requires n <= |s|
  {
    set j | 0 <= j < n && Thinned(p, s[j]) :: f(s[j].time)
  }

  /** Snapshot `i` opens a new bucket while fewer than `limit` are open. */
  predicate Opens(p: Policy, f: int -> int, limit: int, s: seq<Snapshot>, i: nat)
    requires i < |s|
  {
    f(s[i].time) !in Buckets(p, f, s, i) && |Buckets(p, f, s, i)| < limit
  }

  predicate Chosen(p: Policy, s: seq<Snapshot>, i: nat)
    requires i < |s|
  {
    || !Thinned(p, s[i])
    || Opens(p, p.calendar.day, p.daily, s, i)
    || Opens(p, p.calendar.week, p.weekly, s, i)
    || Opens(p, p.calendar.month, p.monthly, s, i)
  }

  function KeepIds(p: Policy, s: seq<Snapshot>, n: nat): set<nat>
    requires n <= |s|
  {
    set i | 0 <= i < n && Chosen(p, s, i) :: s[i].id
  }

  function WithIds(s: seq<Snapshot>, ids: set<nat>, wanted: bool): seq<Snapshot> {
    if s == [] then []
    else
      var rest := WithIds(s[..|s| - 1], ids, wanted);
      if (s[|s| - 1].id in ids) == wanted then rest + [s[|s| - 1]] else rest
  }

  /** What the loop knows about one of its bucket sets after `n` snapshots. */
  ghost predicate Opened(p: Policy, f: int -> int, limit: int, s: seq<Snapshot>, n: nat, seen: set<int>)
    requires n <= |s|
  {
    seen <= Buckets(p, f, s, n) && (|seen| < limit ==> seen == Buckets(p, f, s, n))
  }

  lemma BucketsGrow(p: Policy, f: int -> int, s: seq<Snapshot>, n: nat)
    requires n < |s|
    ensures Buckets(p, f, s, n + 1) == Buckets(p, f, s, n) + if Thinned(p, s[n]) then {f(s[n].time)} else {}
  {
  }

  lemma SubsetSize<T>(a: set<T>, b: set<T>)
    requires a <= b
    ensures |a| <= |b|
  {
    assert b == a + (b - a);
  }

  /** Opens the bucket of snapshot `n` if it is new and there is room. */
  method OpenBucket(p: Policy, f: int -> int, limit: int, s: seq<Snapshot>, n: nat, seen: set<int>)
    returns (now: set<int>, isNew: bool)
    requires n < |s| && Thinned(p, s[n]) && Opened(p, f, limit, s, n, seen)
    ensures Opened(p, f, limit, s, n + 1, now)
    ensures isNew <==> Opens(p, f, limit, s, n)
  {
    now, isNew := seen, false;
    BucketsGrow(p, f, s, n);
    SubsetSize(seen, Buckets(p, f, s, n));
    if f(s[n].time) !in seen && |seen| < limit {
      now, isNew := seen + {f(s[n].time)}, true;
    }
  }

  lemma KeepGrows(p: Policy, s: seq<Snapshot>, n: nat)
    requires n < |s|
    ensures KeepIds(p, s, n + 1) == KeepIds(p, s, n) + if Chosen(p, s, n) then {s[n].id} else {}
  {
  }

  datatype Seen = Seen(days: set<int>, weeks: set<int>, months: set<int>)

  ghost predicate AllOpened(p: Policy, s: seq<Snapshot>, n: nat, seen: Seen)
    requires n <= |s|
  {
    && Opened(p, p.calendar.day, p.daily, s, n, seen.days)
    && Opened(p, p.calendar.week, p.weekly, s, n, seen.weeks)
    && Opened(p, p.calendar.month, p.monthly, s, n, seen.months)
  }

  lemma NothingOpened(p: Policy, f: int -> int, limit: int, s: seq<Snapshot>, n: nat, seen: set<int>)
    requires n < |s| && !Thinned(p, s[n]) && Opened(p, f, limit, s, n, seen)
    ensures Opened(p, f, limit, s, n + 1, seen)
  {
    BucketsGrow(p, f, s, n);
  }

  /** One round of the selection loop. */
  method Consider(p: Policy, s: seq<Snapshot>, n: nat, seen: Seen) returns (now: Seen, keep: bool)
    requires n < |s| && AllOpened(p, s, n, seen)
    ensures AllOpened(p, s, n + 1, now)
    ensures keep <==> Chosen(p, s, n)
  {
    if !Thinned(p, s[n]) {
      NothingOpened(p, p.calendar.day, p.daily, s, n, seen.days);
      NothingOpened(p, p.calendar.week, p.weekly, s, n, seen.weeks);
      NothingOpened(p, p.calendar.month, p.monthly, s, n, seen.months);
      return seen, true;
    }
    var days, day := OpenBucket(p, p.calendar.day, p.daily, s, n, seen.days);
    var weeks, week := OpenBucket(p, p.calendar.week, p.weekly, s, n, seen.weeks);
    var months, month := OpenBucket(p, p.calendar.month, p.monthly, s, n, seen.months);
    return Seen(days, weeks, months), day || week || month;
  }

  /** The two lists are the sorted listing split by the identifiers of the chosen snapshots. */
  method Selection(p: Policy, items: seq<Snapshot>) returns (kept: seq<Snapshot>, eligible: seq<Snapshot>)
    ensures kept == Kept(p, items) && eligible == Dropped(p, items)
  {
    var s := Sort(items);
    var keep: set<nat>, seen := {}, Seen({}, {}, {});
    for n := 0 to |s|
      invariant keep == KeepIds(p, s, n) && AllOpened(p, s, n, seen)
    {
      var chosen;
      seen, chosen := Consider(p, s, n, seen);
      KeepGrows(p, s, n);
      if chosen {
        keep := keep + {s[n].id};
      }
    }
    kept := WithIds(s, keep, true);
    eligible := WithIds(s, keep, false);
  }

  // --------------------------------------------- what the choice means

  /** The buckets of the snapshots that are later than `x`, the greater ID counting as later at the same time, and
      are neither protected nor dated in the future. */
  ghost function LaterBuckets(p: Policy, f: int -> int, all: set<Snapshot>, x: Snapshot): set<int> {
    set y | && y in all && !Protected(y) && y.time <= p.now
            && (y.time > x.time || (y.time == x.time && y.id > x.id)) :: f(y.time)
  }

  /** `x` is the latest of its bucket, and fewer than `limit` buckets are later. */
  ghost predicate Represents(p: Policy, f: int -> int, limit: int, all: set<Snapshot>, x: Snapshot) {
    f(x.time) !in LaterBuckets(p, f, all, x) && |LaterBuckets(p, f, all, x)| < limit
  }

  /** The retention rule, stated on the set of snapshots alone. */
  ghost predicate Retained(p: Policy, all: set<Snapshot>, x: Snapshot) {
    || Protected(x) || x.time > p.now
    || Represents(p, p.calendar.day, p.daily, all, x)
    || Represents(p, p.calendar.week, p.weekly, all, x)
    || Represents(p, p.calendar.month, p.monthly, all, x)
  }

  ghost function Elements(s: seq<Snapshot>): set<Snapshot> {
    set i | 0 <= i < |s| :: s[i]
  }

  lemma OpensIsRepresents(p: Policy, f: int -> int, limit: int, s: seq<Snapshot>, i: nat)
    requires NewestFirst(s) && DistinctIds(s) && i < |s|
    ensures Opens(p, f, limit, s, i) <==> Represents(p, f, limit, Elements(s), s[i])
  {
    var x := s[i];
    forall j | 0 <= j < |s| ensures Newer(s[j], x) <==> j < i {
    }
    var newer := LaterBuckets(p, f, Elements(s), x);
    assert newer == Buckets(p, f, s, i) by {
      forall b | b in Buckets(p, f, s, i) ensures b in newer {
        var j :| 0 <= j < i && Thinned(p, s[j]) && f(s[j].time) == b;
        assert s[j] in Elements(s);
      }
    }
  }

  lemma ChosenIsRetained(p: Policy, s: seq<Snapshot>, i: nat)
    requires NewestFirst(s) && DistinctIds(s) && i < |s|
    ensures Chosen(p, s, i) <==> Retained(p, Elements(s), s[i])
  {
    OpensIsRepresents(p, p.calendar.day, p.daily, s, i);
    OpensIsRepresents(p, p.calendar.week, p.weekly, s, i);
    OpensIsRepresents(p, p.calendar.month, p.monthly, s, i);
  }

  // ----------------------------------------------------------- main results

  lemma {:induction false} WithIdsSplits(s: seq<Snapshot>, ids: set<nat>)
    ensures multiset(WithIds(s, ids, true)) + multiset(WithIds(s, ids, false)) == multiset(s)
  {
    if s != [] {
      WithIdsSplits(s[..|s| - 1], ids);
      assert s == s[..|s| - 1] + [s[|s| - 1]];
    }
  }

  lemma {:induction false} WithIdsHas(s: seq<Snapshot>, ids: set<nat>, wanted: bool, x: Snapshot)
    ensures x in WithIds(s, ids, wanted) <==> x in s && ((x.id in ids) == wanted)
  {
    if s != [] {
      WithIdsHas(s[..|s| - 1], ids, wanted, x);
      assert s == s[..|s| - 1] + [s[|s| - 1]];
    }
  }

  lemma {:induction false} WithIdsOrdered(s: seq<Snapshot>, ids: set<nat>, wanted: bool)
    requires NewestFirst(s) && DistinctIds(s)
    ensures NewestFirst(WithIds(s, ids, wanted)) && DistinctIds(WithIds(s, ids, wanted))
  {
    if s != [] {
      var before, last := s[..|s| - 1], s[|s| - 1];
      WithIdsOrdered(before, ids, wanted);
      var rest := WithIds(before, ids, wanted);
      forall k | 0 <= k < |rest| ensures !Newer(last, rest[k]) && rest[k].id != last.id {
        WithIdsHas(before, ids, wanted, rest[k]);
      }
    }
  }

  lemma {:induction false} WithAllIds(s: seq<Snapshot>, ids: set<nat>)
    requires forall i :: 0 <= i < |s| ==> s[i].id in ids
    ensures WithIds(s, ids, true) == s && WithIds(s, ids, false) == []
  {
    if s != [] {
      WithAllIds(s[..|s| - 1], ids);
      assert s == s[..|s| - 1] + [s[|s| - 1]];
    }
  }

  lemma {:induction false} InsertDistinct(x: Snapshot, s: seq<Snapshot>)
    requires DistinctIds(s) && forall k :: 0 <= k < |s| ==> s[k].id != x.id
    ensures DistinctIds(Insert(x, s))
  {
    if s != [] && Newer(s[0], x) {
      InsertDistinct(x, s[1..]);
      var r := Insert(x, s[1..]);
      forall k | 0 <= k < |r| ensures r[k].id != s[0].id {
        InsertKeeps(x, s[1..]);
        assert r[k] in multiset(r);
      }
    }
  }

  lemma SortHas(items: seq<Snapshot>, x: Snapshot)
    ensures x in Sort(items) <==> x in items
  {
    SortSorts(items);
    assert x in multiset(Sort(items)) <==> x in multiset(items);
  }

  lemma {:induction false} SortDistinct(items: seq<Snapshot>)
    requires DistinctIds(items)
    ensures DistinctIds(Sort(items))
  {
    if items != [] {
      SortDistinct(items[1..]);
      var s := Sort(items[1..]);
      forall k | 0 <= k < |s| ensures s[k].id != items[0].id {
        SortHas(items[1..], s[k]);
      }
      InsertDistinct(items[0], s);
    }
  }

  function Kept(p: Policy, items: seq<Snapshot>): seq<Snapshot> {
    WithIds(Sort(items), KeepIds(p, Sort(items), |Sort(items)|), true)
  }

  function Dropped(p: Policy, items: seq<Snapshot>): seq<Snapshot> {
    WithIds(Sort(items), KeepIds(p, Sort(items), |Sort(items)|), false)
  }

  lemma KeepIdsAre(p: Policy, s: seq<Snapshot>, i: nat)
    requires NewestFirst(s) && DistinctIds(s) && i < |s|
    ensures s[i].id in KeepIds(p, s, |s|) <==> Retained(p, Elements(s), s[i])
  {
    ChosenIsRetained(p, s, i);
    if s[i].id in KeepIds(p, s, |s|) {
      var j :| 0 <= j < |s| && Chosen(p, s, j) && s[j].id == s[i].id;
      assert j == i;
    }
  }

  /** Kept and eligible split the listing, and a snapshot is kept exactly when it is protected,
      dated in the future, or the newest of one of the newest daily, weekly or monthly buckets. */
  lemma SelectionIsExact(p: Policy, items: seq<Snapshot>, x: Snapshot)
    requires DistinctIds(items)
    ensures multiset(Kept(p, items)) + multiset(Dropped(p, items)) == multiset(items)
    ensures x in Kept(p, items) <==> x in items && Retained(p, Elements(items), x)
    ensures x in Dropped(p, items) <==> x in items && !Retained(p, Elements(items), x)
  {
    var s := Sort(items);
    var ids := KeepIds(p, s, |s|);
    SortSorts(items);
    SortDistinct(items);
    WithIdsSplits(s, ids);
    WithIdsHas(s, ids, true, x);
    WithIdsHas(s, ids, false, x);
    SortElements(items);
    SortHas(items, x);
    if x in s {
      var i :| 0 <= i < |s| && s[i] == x;
      KeepIdsAre(p, s, i);
    }
  }

  lemma SortElements(items: seq<Snapshot>)
    ensures Elements(Sort(items)) == Elements(items)
  {
    forall x ensures x in Elements(Sort(items)) <==> x in Elements(items) {
      SortHas(items, x);
      assert x in Elements(items) <==> x in items;
    }
  }

  lemma FewerNewer(p: Policy, f: int -> int, limit: int, all: set<Snapshot>, part: set<Snapshot>, x: Snapshot)
    requires part <= all && Represents(p, f, limit, all, x)
    ensures Represents(p, f, limit, part, x)
  {
    SubsetSize(LaterBuckets(p, f, part, x), LaterBuckets(p, f, all, x));
  }

  /** A snapshot that is retained among all stays retained when others are gone. */
  lemma RetainedAmongFewer(p: Policy, all: set<Snapshot>, part: set<Snapshot>, x: Snapshot)
    requires part <= all && Retained(p, all, x)
    ensures Retained(p, part, x)
  {
    if Represents(p, p.calendar.day, p.daily, all, x) {
      FewerNewer(p, p.calendar.day, p.daily, all, part, x);
    } else if Represents(p, p.calendar.week, p.weekly, all, x) {
      FewerNewer(p, p.calendar.week, p.weekly, all, part, x);
    } else if Represents(p, p.calendar.month, p.monthly, all, x) {
      FewerNewer(p, p.calendar.month, p.monthly, all, part, x);
    }
  }

  /** The tags that protect are the two words and what follows them after a hyphen, and no others. */
  lemma ProtectingTags(x: Snapshot)
    ensures Protected(x) <==>
            exists i :: 0 <= i < |x.tags| &&
              (|| x.tags[i] == "pre-upgrade" || x.tags[i] == "rollback"
               || (exists rest: string :: x.tags[i] == "pre-upgrade-" + rest)
               || (exists rest: string :: x.tags[i] == "rollback-" + rest))
  {
    forall i | 0 <= i < |x.tags|
      ensures StartsWith(x.tags[i], "pre-upgrade-") <==> exists rest: string :: x.tags[i] == "pre-upgrade-" + rest
      ensures StartsWith(x.tags[i], "rollback-") <==> exists rest: string :: x.tags[i] == "rollback-" + rest
    {
      PrefixIsConcat(x.tags[i], "pre-upgrade-");
      PrefixIsConcat(x.tags[i], "rollback-");
    }
  }

  lemma PrefixIsConcat(s: string, prefix: string)
    ensures StartsWith(s, prefix) <==> exists rest: string :: s == prefix + rest
  {
    if StartsWith(s, prefix) {
      assert s == prefix + s[|prefix|..];
    }
  }

  /** Selecting again from what was kept, with the same clock, drops nothing. */
  lemma SelectionIsStable(p: Policy, items: seq<Snapshot>)
    requires DistinctIds(items)
    ensures Kept(p, Kept(p, items)) == Kept(p, items) && Dropped(p, Kept(p, items)) == []
  {
    var kept := Kept(p, items);
    SortSorts(items);
    SortDistinct(items);
    WithIdsOrdered(Sort(items), KeepIds(p, Sort(items), |Sort(items)|), true);
    SortedStays(kept);
    forall i | 0 <= i < |kept| ensures kept[i].id in KeepIds(p, kept, |kept|) {
      SelectionIsExact(p, items, kept[i]);
      assert Elements(kept) <= Elements(items) by {
        forall x | x in Elements(kept) ensures x in Elements(items) {
          SelectionIsExact(p, items, x);
        }
      }
      RetainedAmongFewer(p, Elements(items), Elements(kept), kept[i]);
      KeepIdsAre(p, kept, i);
    }
    WithAllIds(kept, KeepIds(p, kept, |kept|));
  }
}
