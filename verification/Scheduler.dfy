/** One tick of the scheduler (internals/modules/scheduler/scheduler.go), with no fault,
    nobody receiving from jobChan meanwhile and nobody else writing the sorted set. */
module Scheduler {
  import opened SortedSet
  import opened Sequences
  import opened Domain
  import opened Stores

  /** How many leading entries are due. */
  function DueLength(items: seq<Item>, now: int): (d: nat)
    ensures d <= |items|
    ensures forall i | 0 <= i < d :: items[i].score <= now
    ensures d < |items| ==> items[d].score > now
  {
    if items == [] || items[0].score > now then 0 else 1 + DueLength(items[1..], now)
  }

  /** The entries whose member parses as a UUID. */
  function Valid(items: seq<Item>, parses: nat -> bool): seq<Item> {
    if items == [] then []
    else
      var last := items[|items| - 1];
      Valid(items[..|items| - 1], parses) + (if parses(last.member) then [last] else [])
  }

  function Cut(items: seq<Item>, f: int): (n: nat)
    ensures n <= |items|
  {
    if f <= 0 then 0 else if f < |items| then f else |items|
  }

  function Delay(items: seq<Item>): seq<Item> {
    seq(|items|, i requires 0 <= i < |items| => Item(items[i].member, items[i].score + 2))
  }

  /** What becomes of a list of due entries: the first f go to jobChan, in order; the
      others come back two seconds later. f is the free space of jobChan. */
  function Dispatched(z: map<nat, int>, jobs: seq<nat>, capacity: nat, dueItems: seq<Item>, parses: nat -> bool)
    : (map<nat, int>, seq<nat>)
  {
    var due := Valid(dueItems, parses);
    var n := Cut(due, capacity - |jobs|);
    (AddAll(z, Delay(due[n..])), jobs + Names(due[..n]))
  }

  function Processed(z: map<nat, int>, jobs: seq<nat>, capacity: nat, items: seq<Item>, now: int, parses: nat -> bool)
    : (map<nat, int>, seq<nat>)
  {
    var d := DueLength(items, now);
    var (z1, jobs1) := Dispatched(z, jobs, capacity, items[..d], parses);
    (AddAll(z1, items[d..]), jobs1)
  }

  /** The tick as a whole: of the entries popped, the due ones are dispatched and the
      future ones come back as they were. */
  function Tick(z: map<nat, int>, jobs: seq<nat>, capacity: nat, batch: nat, now: int, parses: nat -> bool)
    : (map<nat, int>, seq<nat>)
  {
    var items := Smallest(z, batch);
    Processed(z - NameSet(items), jobs, capacity, items, now, parses)
  }

  lemma DispatchedNothing(z: map<nat, int>, jobs: seq<nat>, capacity: nat, parses: nat -> bool)
    ensures Dispatched(z, jobs, capacity, [], parses) == (z, jobs)
  {
    var due := Valid([], parses);
    assert Delay(due[0..]) == [] && jobs + Names(due[..0]) == jobs;
  }

  /** One more due entry is sent while there is room and delayed afterwards. */
  lemma DispatchedGrows(z: map<nat, int>, jobs: seq<nat>, capacity: nat, items: seq<Item>, item: Item, parses: nat -> bool)
    ensures var (z1, jobs1) := Dispatched(z, jobs, capacity, items, parses);
      Dispatched(z, jobs, capacity, items + [item], parses) ==
        if !parses(item.member) then (z1, jobs1)
        else if |jobs1| < capacity then (z1, jobs1 + [item.member])
        else (z1[item.member := item.score + 2], jobs1)
  {
    assert (items + [item])[..|items|] == items;
    var due := Valid(items, parses);
    var more := due + [item];
    var f := capacity - |jobs|;
    if parses(item.member) {
      var n := Cut(due, f);
      if |due| < f {
        assert more[..|more|] == more && due[..|due|] == due;
        assert Delay(more[|more|..]) == Delay(due[|due|..]);
        assert jobs + Names(more) == jobs + Names(due) + [item.member];
      } else {
        assert more[..n] == due[..n];
        var last := Item(item.member, item.score + 2);
        assert Delay(more[n..]) == Delay(due[n..]) + [last];
        assert (Delay(due[n..]) + [last])[..|due| - n] == Delay(due[n..]);
      }
    } else {
      assert Valid(items + [item], parses) == due;
    }
  }

  class Ticker {
    const redis: RedisClient
    const batchSize: nat
    const capacity: nat       // of jobChan
    const parses: nat -> bool // uuid.Parse succeeds
    var jobChan: seq<nat>

    constructor (redis: RedisClient, batchSize: nat, capacity: nat, parses: nat -> bool)
      ensures this.redis == redis && this.batchSize == batchSize && this.capacity == capacity
      ensures this.parses == parses && jobChan == []
    {
      this.redis, this.batchSize, this.capacity, this.parses := redis, batchSize, capacity, parses;
      jobChan := [];
    }

    /** The non-blocking send of the dispatch loop, with its backpressure branch. */
    method Offer(item: Item)
      modifies this, redis`schedule
      ensures (redis.schedule, jobChan) ==
        if |old(jobChan)| < capacity then (old(redis.schedule), old(jobChan) + [item.member])
        else (old(redis.schedule)[item.member := item.score + 2], old(jobChan))
    {
      if |jobChan| < capacity {
        jobChan := jobChan + [item.member];
      } else {
        var _ := redis.Schedule(item.member, item.score + 2, DONE);
      }
    }

    /** The first future entry is found: it and all after it are put back. */
    method PutBack(items: seq<Item>, i: nat)
      requires i < |items|
      modifies redis`schedule
      ensures redis.schedule == AddAll(old(redis.schedule), items[i..])
    {
      var reinsert := [items[i]];
      var k := i + 1;
      while k < |items|
        invariant i < k <= |items|
        invariant reinsert == items[i..k]
      {
        reinsert := reinsert + [items[k]];
        k := k + 1;
      }
      assert reinsert == items[i..];
      var _ := redis.ScheduleBatch(reinsert, DONE);
    }

    /** The loop over the popped entries. */
    method Process(items: seq<Item>, now: int)
      modifies this, redis`schedule
      ensures (redis.schedule, jobChan)
           == Processed(old(redis.schedule), old(jobChan), capacity, items, now, parses)
    {
      ghost var z, jobs, d := redis.schedule, jobChan, DueLength(items, now);
      DispatchedNothing(z, jobs, capacity, parses);
      assert items[..0] == [];
      var i := 0;
      while i < |items|
        invariant i <= d
        invariant (redis.schedule, jobChan) == Dispatched(z, jobs, capacity, items[..i], parses)
        decreases |items| - i
      {
        var item := items[i];
        if item.score > now {
          PutBack(items, i);
          return;
        }
        DispatchedGrows(z, jobs, capacity, items[..i], item, parses);
        assert items[..i + 1] == items[..i] + [item];
        i := i + 1;
        if !parses(item.member) {
          continue;
        }
        Offer(item);
      }
      assert items[..d] == items && items[d..] == [];
    }

    method DoWork(now: int)
      modifies this, redis`schedule
      ensures (redis.schedule, jobChan) == Tick(old(redis.schedule), old(jobChan), capacity, batchSize, now, parses)
    {
      ghost var z := redis.schedule;
      var items, _ := redis.PopDue(batchSize, DONE);
      assert PoppedTimes(z, batchSize, 0) == z;
      if |items| == 0 {
        ProcessedNothing(redis.schedule, jobChan, capacity, items, now, parses);
        return;
      }
      Process(items, now);
    }
  }

  lemma ProcessedNothing(z: map<nat, int>, jobs: seq<nat>, capacity: nat, items: seq<Item>, now: int, parses: nat -> bool)
    requires items == []
    ensures Processed(z, jobs, capacity, items, now, parses) == (z, jobs)
  {
    DispatchedNothing(z, jobs, capacity, parses);
    assert items[..0] == items[0..] == [];
  }

  // What the tick means for each entry

  lemma {:induction false} ValidAt(items: seq<Item>, i: nat, parses: nat -> bool)
    requires i < |items| && parses(items[i].member)
    ensures var r := |Valid(items[..i], parses)|; r < |Valid(items, parses)| && Valid(items, parses)[r] == items[i]
  {
    if i < |items| - 1 {
      var front := items[..|items| - 1];
      assert front[..i] == items[..i];
      ValidAt(front, i, parses);
    }
  }

  lemma {:induction false} ValidFrom(items: seq<Item>, parses: nat -> bool, j: nat) returns (i: nat)
    requires j < |Valid(items, parses)|
    ensures i < |items| && items[i] == Valid(items, parses)[j] && parses(items[i].member) && |Valid(items[..i], parses)| == j
  {
    var front := items[..|items| - 1];
    if j < |Valid(front, parses)| {
      i := ValidFrom(front, parses, j);
      assert front[..i] == items[..i];
    } else {
      i := |items| - 1;
    }
  }

  lemma ValidDistinct(items: seq<Item>, parses: nat -> bool)
    requires Distinct(items)
    ensures Distinct(Valid(items, parses))
  {
    var due := Valid(items, parses);
    forall j, k | 0 <= j < k < |due| ensures due[j].member != due[k].member {
      var a := ValidFrom(items, parses, j);
      var b := ValidFrom(items, parses, k);
    }
  }

  /** The entries of one tick, by what happens to them. */
  datatype Shares = Shares(rest: map<nat, int>, sent: seq<Item>, delayed: seq<Item>, future: seq<Item>)

  function Split(z: map<nat, int>, jobs: seq<nat>, capacity: nat, batch: nat, now: int, parses: nat -> bool): Shares {
    var items := Smallest(z, batch);
    var d := DueLength(items, now);
    var due := Valid(items[..d], parses);
    var n := Cut(due, capacity - |jobs|);
    Shares(z - NameSet(items), due[..n], due[n..], items[d..])
  }

  lemma DistinctShares(items: seq<Item>, d: nat, n: nat, parses: nat -> bool)
    requires Distinct(items) && d <= |items| && n <= |Valid(items[..d], parses)|
    ensures var due := Valid(items[..d], parses);
      Distinct(due) && Distinct(due[..n]) && Distinct(Delay(due[n..])) && Distinct(items[d..])
  {
    ValidDistinct(items[..d], parses);
  }

  lemma NamesOfDelay(items: seq<Item>)
    ensures Names(Delay(items)) == Names(items)
  {
  }

  function Score(z: map<nat, int>, m: nat): Option<int> {
    if m in z then Some(z[m]) else None
  }

  function Joined(s: Shares): map<nat, int> {
    AddAll(AddAll(s.rest, Delay(s.delayed)), s.future)
  }

  lemma ScoreOfFuture(s: Shares, i: nat)
    requires Distinct(s.future) && i < |s.future|
    ensures Score(Joined(s), s.future[i].member) == Some(s.future[i].score)
  {
    AddAllAt(AddAll(s.rest, Delay(s.delayed)), s.future, s.future[i].member);
  }

  lemma ScoreOfDelayed(s: Shares, i: nat)
    requires Distinct(s.future) && Distinct(Delay(s.delayed)) && i < |s.delayed|
    requires s.delayed[i].member !in Names(s.future)
    ensures Score(Joined(s), s.delayed[i].member) == Some(s.delayed[i].score + 2)
  {
    var m := s.delayed[i].member;
    assert Delay(s.delayed)[i] == Item(m, s.delayed[i].score + 2);
    AddAllAt(s.rest, Delay(s.delayed), m);
    AddAllAt(AddAll(s.rest, Delay(s.delayed)), s.future, m);
  }

  lemma ScoreOfRest(s: Shares, m: nat)
    requires Distinct(s.future) && Distinct(Delay(s.delayed))
    requires m !in Names(s.future) && m !in Names(s.delayed)
    ensures Score(Joined(s), m) == Score(s.rest, m)
  {
    NamesOfDelay(s.delayed);
    AddAllAt(s.rest, Delay(s.delayed), m);
    AddAllAt(AddAll(s.rest, Delay(s.delayed)), s.future, m);
  }

  /** Everything shared out was popped. */
  lemma SharesWithin(items: seq<Item>, d: nat, n: nat, parses: nat -> bool, m: nat)
    requires d <= |items| && n <= |Valid(items[..d], parses)|
    ensures var due := Valid(items[..d], parses);
      && (m in Names(due[..n]) || m in Names(due[n..]) ==> exists i :: 0 <= i < d && items[i].member == m && parses(m))
      && (m in Names(items[d..]) ==> exists i :: d <= i < |items| && items[i].member == m)
  {
    var due := Valid(items[..d], parses);
    NamesAt(due[..n], m);
    NamesAt(due[n..], m);
    NamesAt(items[d..], m);
    if j :| 0 <= j < |due| && due[j].member == m {
      var i := ValidFrom(items[..d], parses, j);
      assert items[i].member == m;
    }
    if k :| 0 <= k < |items[d..]| && items[d..][k].member == m {
      assert items[d + k].member == m;
    }
  }

  /** The entry that is number i of the popped ones, if it is due and parses. */
  lemma DueShare(s: Shares, items: seq<Item>, d: nat, n: nat, parses: nat -> bool, i: nat)
    requires Distinct(items) && i < d <= |items| && parses(items[i].member)
    requires n <= |Valid(items[..d], parses)|
    requires s.sent == Valid(items[..d], parses)[..n] && s.delayed == Valid(items[..d], parses)[n..]
    requires s.future == items[d..] && items[i].member !in s.rest
    ensures var r := |Valid(items[..i], parses)|;
      if r < n then Score(Joined(s), items[i].member) == None && r < |s.sent| && s.sent[r] == items[i]
      else Score(Joined(s), items[i].member) == Some(items[i].score + 2)
  {
    var m, r, due := items[i].member, |Valid(items[..i], parses)|, Valid(items[..d], parses);
    DistinctShares(items, d, n, parses);
    assert items[..d][..i] == items[..i];
    ValidAt(items[..d], i, parses);
    SharesWithin(items, d, n, parses, m);
    if r < n {
      NamesAt(s.delayed, m);
      assert forall j | 0 <= j < |s.delayed| :: s.delayed[j] == due[n + j];
      ScoreOfRest(s, m);
    } else {
      assert s.delayed[r - n] == items[i];
      ScoreOfDelayed(s, r - n);
    }
  }

  /** The ticket of one popped entry: the shares it is part of and its position. */
  ghost predicate Popped(z: map<nat, int>, s: Shares, items: seq<Item>, d: nat, n: nat, parses: nat -> bool) {
    && Entries(z, items) && Ascending(items) && Distinct(items)
    && d <= |items| && n <= |Valid(items[..d], parses)|
    && s == Shares(z - NameSet(items), Valid(items[..d], parses)[..n], Valid(items[..d], parses)[n..], items[d..])
  }

  lemma UnpoppedEntry(z: map<nat, int>, s: Shares, items: seq<Item>, d: nat, n: nat, parses: nat -> bool, m: nat)
    requires Popped(z, s, items, d, n, parses) && m in z && m !in Names(items)
    ensures Score(Joined(s), m) == Some(z[m])
  {
    DistinctShares(items, d, n, parses);
    SharesWithin(items, d, n, parses, m);
    NamesAt(items, m);
    ScoreOfRest(s, m);
  }

  lemma FutureEntry(z: map<nat, int>, s: Shares, items: seq<Item>, d: nat, n: nat, parses: nat -> bool, i: nat)
    requires Popped(z, s, items, d, n, parses) && d <= i < |items|
    ensures Score(Joined(s), items[i].member) == Some(items[i].score)
  {
    DistinctShares(items, d, n, parses);
    assert s.future[i - d] == items[i];
    ScoreOfFuture(s, i - d);
  }

  lemma UnparsedEntry(z: map<nat, int>, s: Shares, items: seq<Item>, d: nat, n: nat, parses: nat -> bool, i: nat)
    requires Popped(z, s, items, d, n, parses) && i < d && !parses(items[i].member)
    ensures Score(Joined(s), items[i].member) == None
  {
    DistinctShares(items, d, n, parses);
    SharesWithin(items, d, n, parses, items[i].member);
    NamesAt(items, items[i].member);
    ScoreOfRest(s, items[i].member);
  }

  lemma TickIsJoined(z: map<nat, int>, jobs: seq<nat>, capacity: nat, batch: nat, now: int, parses: nat -> bool)
    ensures var s := Split(z, jobs, capacity, batch, now, parses);
      Tick(z, jobs, capacity, batch, now, parses) == (Joined(s), jobs + Names(s.sent))
  {
  }

  lemma TickPopped(z: map<nat, int>, jobs: seq<nat>, capacity: nat, batch: nat, now: int, parses: nat -> bool)
    ensures var items := Smallest(z, batch);
      var d := DueLength(items, now);
      Popped(z, Split(z, jobs, capacity, batch, now, parses), items, d, Cut(Valid(items[..d], parses), capacity - |jobs|), parses)
  {
    SmallestSpec(z, batch);
  }

  /** As the entries ascend, the due ones are a prefix. */
  lemma DuePrefix(items: seq<Item>, now: int, i: nat)
    requires Ascending(items) && i < |items|
    ensures i < DueLength(items, now) <==> items[i].score <= now
  {
    var d := DueLength(items, now);
    assert i > d ==> Below(items[d], items[i]);
  }

  lemma RankBound(items: seq<Item>, d: nat, i: nat, parses: nat -> bool)
    requires i < d <= |items| && parses(items[i].member)
    ensures |Valid(items[..i], parses)| < |Valid(items[..d], parses)|
  {
    assert items[..d][..i] == items[..i];
    ValidAt(items[..d], i, parses);
  }

  lemma PoppedIsGone(z: map<nat, int>, s: Shares, items: seq<Item>, d: nat, n: nat, parses: nat -> bool, i: nat)
    requires Popped(z, s, items, d, n, parses) && i < |items|
    ensures items[i].member in Names(items) && items[i].member !in s.rest && z[items[i].member] == items[i].score
  {
    NamesAt(items, items[i].member);
  }

  /** The tick, entry by entry. An entry that was not popped is as it was ... */
  lemma TickKeepsOthers(z: map<nat, int>, jobs: seq<nat>, capacity: nat, batch: nat, now: int, parses: nat -> bool, m: nat)
    requires m in z && m !in Names(Smallest(z, batch))
    ensures Score(Tick(z, jobs, capacity, batch, now, parses).0, m) == Some(z[m])
  {
    var items := Smallest(z, batch);
    var d := DueLength(items, now);
    var n := Cut(Valid(items[..d], parses), capacity - |jobs|);
    TickIsJoined(z, jobs, capacity, batch, now, parses);
    TickPopped(z, jobs, capacity, batch, now, parses);
    UnpoppedEntry(z, Split(z, jobs, capacity, batch, now, parses), items, d, n, parses, m);
  }

  /** What becomes of popped entry number i, with `ahead` due ones before it. */
  ghost predicate Fate(item: Item, ahead: nat, z': map<nat, int>, sent: seq<Item>, space: int, now: int, parses: nat -> bool) {
    if item.score > now then Score(z', item.member) == Some(item.score)
    else if !parses(item.member) then Score(z', item.member) == None
    else if ahead < space then Score(z', item.member) == None && ahead < |sent| && sent[ahead] == item
    else Score(z', item.member) == Some(item.score + 2)
  }

  lemma FateOfEntry(z: map<nat, int>, s: Shares, items: seq<Item>, d: nat, space: int, now: int, parses: nat -> bool, i: nat)
    requires i < |items| && d <= |items|
    requires Popped(z, s, items, d, Cut(Valid(items[..d], parses), space), parses)
    requires i < d <==> items[i].score <= now
    ensures Fate(items[i], |Valid(items[..i], parses)|, Joined(s), s.sent, space, now, parses)
  {
    var n := Cut(Valid(items[..d], parses), space);
    if i >= d {
      FutureEntry(z, s, items, d, n, parses, i);
    } else if !parses(items[i].member) {
      UnparsedEntry(z, s, items, d, n, parses, i);
    } else {
      RankBound(items, d, i, parses);
      PoppedIsGone(z, s, items, d, n, parses, i);
      DueShare(s, items, d, n, parses, i);
    }
  }

  /** ... and of the popped ones, one that is not due is as it was, a due one whose
      member is no UUID is dropped, and any other due one, with `ahead` such ones before
      it, takes the slot number `ahead` of jobChan's free ones if there is one and is
      delayed by two seconds if not. */
  lemma TickOnEntry(z: map<nat, int>, jobs: seq<nat>, capacity: nat, batch: nat, now: int, parses: nat -> bool, i: nat)
    requires i < |Smallest(z, batch)|
    ensures var items := Smallest(z, batch);
      var s := Split(z, jobs, capacity, batch, now, parses);
      && Tick(z, jobs, capacity, batch, now, parses) == (Joined(s), jobs + Names(s.sent))
      && Fate(items[i], |Valid(items[..i], parses)|, Joined(s), s.sent, capacity - |jobs|, now, parses)
  {
    var items := Smallest(z, batch);
    TickIsJoined(z, jobs, capacity, batch, now, parses);
    TickPopped(z, jobs, capacity, batch, now, parses);
    DuePrefix(items, now, i);
    FateOfEntry(z, Split(z, jobs, capacity, batch, now, parses), items, DueLength(items, now), capacity - |jobs|, now, parses, i);
  }

  lemma SharesInventNothing(z: map<nat, int>, s: Shares, items: seq<Item>, d: nat, n: nat, parses: nat -> bool, m: nat)
    requires Popped(z, s, items, d, n, parses)
    ensures m in Joined(s) || m in Names(s.sent) ==> m in z
    ensures !(m in Joined(s) && m in Names(s.sent))
  {
    DistinctShares(items, d, n, parses);
    SharesWithin(items, d, n, parses, m);
    NamesAt(s.sent, m);
    if j :| 0 <= j < |s.sent| && s.sent[j].member == m {
      var i := ValidFrom(items[..d], parses, j);
      assert items[..d][..i] == items[..i];
      PoppedIsGone(z, s, items, d, n, parses, i);
      DueShare(s, items, d, n, parses, i);
    } else if m !in z {
      ScoreOfRest(s, m);
    }
  }

  /** Nothing is invented or doubled: whatever is in the schedule afterwards or was
      appended to jobChan was in the schedule before, and it is not in both. */
  lemma TickInventsNothing(z: map<nat, int>, jobs: seq<nat>, capacity: nat, batch: nat, now: int, parses: nat -> bool, m: nat)
    ensures var (z', jobs') := Tick(z, jobs, capacity, batch, now, parses);
      && jobs <= jobs'
      && (m in z' || m in jobs'[|jobs|..] ==> m in z)
      && !(m in z' && m in jobs'[|jobs|..])
  {
    var items := Smallest(z, batch);
    var d := DueLength(items, now);
    var n := Cut(Valid(items[..d], parses), capacity - |jobs|);
    var s := Split(z, jobs, capacity, batch, now, parses);
    TickIsJoined(z, jobs, capacity, batch, now, parses);
    TickPopped(z, jobs, capacity, batch, now, parses);
    SharesInventNothing(z, s, items, d, n, parses, m);
    assert (jobs + Names(s.sent))[|jobs|..] == Names(s.sent);
  }
}
