/** The sorted set monitor:schedule as Redis sees it: members ordered by score and,
    among equal scores, by member. A member stands for a monitor id; the text form of a
    UUID sorts like the number it denotes. */
module SortedSet {

  datatype Item = Item(member: nat, score: int)

  predicate Below(a: Item, b: Item) {
    a.score < b.score || (a.score == b.score && a.member < b.member)
  }

  predicate Lowest(z: map<nat, int>, m: nat) {
    m in z && forall m' | m' in z && m' != m :: Below(Item(m, z[m]), Item(m', z[m']))
  }

  lemma LowestExists(z: map<nat, int>)
    requires z != map[]
    ensures exists m :: Lowest(z, m)
    decreases |z|
  {
    var m :| m in z;
    var rest := z - {m};
    if rest == map[] {
      assert forall m' | m' in z && m' != m :: m' in rest;
      assert Lowest(z, m);
    } else {
      assert |rest| < |z| by {
        assert rest.Keys < z.Keys;
        assert z.Keys == rest.Keys + {m};
      }
      LowestExists(rest);
      var k :| Lowest(rest, k);
      assert forall m' | m' in z && m' != m :: m' in rest && rest[m'] == z[m'];
      assert Lowest(z, k) || Lowest(z, m);
    }
  }

  function PopLowest(z: map<nat, int>): (item: Item)
    requires z != map[]
    ensures item.member in z && item.score == z[item.member] && Lowest(z, item.member)
  {
    LowestExists(z);
    var m :| Lowest(z, m);
    Item(m, z[m])
  }

  /** ZPOPMIN: the k smallest entries, smallest first. */
  function Smallest(z: map<nat, int>, k: nat): seq<Item>
    decreases k
  {
    if k == 0 || z == map[] then []
    else
      var item := PopLowest(z);
      [item] + Smallest(z - {item.member}, k - 1)
  }

  /** What several ZPOPMIN in a row leave. */
  function PoppedTimes(z: map<nat, int>, k: nat, times: nat): map<nat, int> {
    if times == 0 then z
    else
      var rest := PoppedTimes(z, k, times - 1);
      rest - NameSet(Smallest(rest, k))
  }

  function NameSet(items: seq<Item>): set<nat> {
    set m | m in Names(items)
  }

  function Names(items: seq<Item>): seq<nat> {
    seq(|items|, i requires 0 <= i < |items| => items[i].member)
  }

  ghost predicate Entries(z: map<nat, int>, items: seq<Item>) {
    forall i | 0 <= i < |items| :: items[i].member in z && items[i].score == z[items[i].member]
  }

  ghost predicate Ascending(items: seq<Item>) {
    forall i, j | 0 <= i < j < |items| :: Below(items[i], items[j])
  }

  ghost predicate Distinct(items: seq<Item>) {
    forall i, j | 0 <= i < j < |items| :: items[i].member != items[j].member
  }

  /** Everything in z that is not listed comes after everything listed. */
  ghost predicate Initial(z: map<nat, int>, items: seq<Item>) {
    forall i, m | 0 <= i < |items| && m in z && m !in Names(items) :: Below(items[i], Item(m, z[m]))
  }

  lemma NamesAt(items: seq<Item>, m: nat)
    ensures m in Names(items) <==> exists i :: 0 <= i < |items| && items[i].member == m
  {
    if m in Names(items) {
      var i :| 0 <= i < |Names(items)| && Names(items)[i] == m;
      assert items[i].member == m;
    }
    if i :| 0 <= i < |items| && items[i].member == m {
      assert Names(items)[i] == m;
    }
  }

  lemma NamesConcat(a: seq<Item>, b: seq<Item>)
    ensures Names(a + b) == Names(a) + Names(b)
  {
  }

  /** The entries really are the k smallest ones, in order and without repetition. */
  lemma {:induction false} SmallestSpec(z: map<nat, int>, k: nat)
    ensures var items := Smallest(z, k);
      && |items| == (if k <= |z| then k else |z|)
      && Entries(z, items) && Ascending(items) && Distinct(items) && Initial(z, items)
    decreases k
  {
    if k != 0 && z != map[] {
      var item := PopLowest(z);
      var rest := z - {item.member};
      assert |rest| == |z| - 1 by {
        assert z.Keys == rest.Keys + {item.member};
      }
      SmallestSpec(rest, k - 1);
      SmallestCons(z, item, Smallest(rest, k - 1));
    }
  }

  lemma SmallestCons(z: map<nat, int>, item: Item, tail: seq<Item>)
    requires item.member in z && item.score == z[item.member] && Lowest(z, item.member)
    requires var rest := z - {item.member};
      Entries(rest, tail) && Ascending(tail) && Distinct(tail) && Initial(rest, tail)
    ensures var items := [item] + tail;
      Entries(z, items) && Ascending(items) && Distinct(items) && Initial(z, items)
  {
    var rest, items := z - {item.member}, [item] + tail;
    forall i | 1 <= i < |items| ensures items[i] == tail[i - 1] && items[i].member in rest {
    }
    forall i, m | 0 <= i < |items| && m in z && m !in Names(items) ensures Below(items[i], Item(m, z[m])) {
      NamesConcat([item], tail);
      assert m != item.member by {
        assert Names([item])[0] == item.member;
      }
      assert m in rest;
    }
  }

  /** ZADD of several members. */
  function AddAll(z: map<nat, int>, items: seq<Item>): map<nat, int> {
    if items == [] then z else AddAll(z, items[..|items| - 1])[items[|items| - 1].member := items[|items| - 1].score]
  }

  lemma {:induction false} AddAllAt(z: map<nat, int>, items: seq<Item>, m: nat)
    requires Distinct(items)
    ensures m in AddAll(z, items) <==> m in z || m in Names(items)
    ensures m in z && m !in Names(items) ==> AddAll(z, items)[m] == z[m]
    ensures forall i | 0 <= i < |items| && items[i].member == m ::
      m in AddAll(z, items) && AddAll(z, items)[m] == items[i].score
  {
    if items != [] {
      var front, last := items[..|items| - 1], items[|items| - 1];
      AddAllAt(z, front, m);
      assert items == front + [last];
      NamesConcat(front, [last]);
      assert Names([last]) == [last.member];
    }
  }
}
