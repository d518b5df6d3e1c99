/** The accumulating dictionary of the billing code.

    Three loops share one idiom: `setdefault` a zero record under a key, then add hours and
    size-months to it.  They are the roll-up of a Gnocchi response, the merge of shard
    checkpoints, and the canonicalisation of volume types.  A Python dictionary keeps insertion
    order, so `Dict` is an order of keys beside a map.  Decimals are exact reals.
 */
module UsageDict {

  datatype Totals = Totals(hours: real, sizeMonths: real)

  /** Which of the two accumulated figures a statement is about. */
  datatype Figure = InHours | InSize

  function Amount(t: Totals, f: Figure): real {
    if f == InHours then t.hours else t.sizeMonths
  }

  datatype Entry<K> = Entry(key: K, totals: Totals)

  datatype Dict<K> = Dict(order: seq<K>, at: map<K, Totals>)

  /** The order lists each key of the map once. */
  ghost predicate Valid<K>(d: Dict<K>) {
    && (forall i, j :: 0 <= i < j < |d.order| ==> d.order[i] != d.order[j])
    && (forall k | k in d.order :: k in d.at)
    && (forall k | k in d.at :: k in d.order)
  }

  function Get<K(==)>(d: Dict<K>, k: K): Totals {
    if k in d.at then d.at[k] else Totals(0.0, 0.0)
  }

  /** `target = d.setdefault(k, zero)` followed by `target += t`. */
  function Add<K(==)>(d: Dict<K>, k: K, t: Totals): Dict<K> {
    var was := Get(d, k);
    var now := Totals(was.hours + t.hours, was.sizeMonths + t.sizeMonths);
    Dict(if k in d.at then d.order else d.order + [k], d.at[k := now])
  }

  function Accumulate<K(==)>(es: seq<Entry<K>>): Dict<K> {
    if es == [] then Dict([], map[])
    else Add(Accumulate(es[..|es| - 1]), es[|es| - 1].key, es[|es| - 1].totals)
  }

  /** Reference meaning: what a key has been charged, read off the entries alone. */
  function SumFor<K(==)>(es: seq<Entry<K>>, k: K, f: Figure): real {
    if es == [] then 0.0 else Charge(es[0], k, f) + SumFor(es[1..], k, f)
  }

  function Charge<K(==)>(e: Entry<K>, k: K, f: Figure): real {
    if e.key == k then Amount(e.totals, f) else 0.0
  }

  ghost predicate Mentions<K>(es: seq<Entry<K>>, k: K) {
    exists i :: 0 <= i < |es| && es[i].key == k
  }

  /** Every figure of every entry, whatever its key. */
  function GrandTotal<K>(es: seq<Entry<K>>, f: Figure): real {
    if es == [] then 0.0 else Amount(es[0].totals, f) + GrandTotal(es[1..], f)
  }

  /** `list(d.values())`, each record with the key it is stored under. */
  function Entries<K>(d: Dict<K>): (es: seq<Entry<K>>)
    requires forall k :: k in d.order ==> k in d.at
    ensures |es| == |d.order|
    ensures forall i :: 0 <= i < |es| ==> es[i] == Entry(d.order[i], d.at[d.order[i]])
  {
    seq(|d.order|, i requires 0 <= i < |d.order| => Entry(d.order[i], d.at[d.order[i]]))
  }

  // ---- sums over sequences of entries ----

  lemma {:induction false} SumForConcat<K>(a: seq<Entry<K>>, b: seq<Entry<K>>, k: K, f: Figure)
    ensures SumFor(a + b, k, f) == SumFor(a, k, f) + SumFor(b, k, f)
  {
    if a == [] {
      assert a + b == b;
    } else {
      assert (a + b)[1..] == a[1..] + b;
      SumForConcat(a[1..], b, k, f);
    }
  }

  lemma SumForInsert<K>(a: seq<Entry<K>>, e: Entry<K>, b: seq<Entry<K>>, k: K, f: Figure)
    ensures SumFor(a + [e], k, f) == SumFor(a, k, f) + Charge(e, k, f)
    ensures SumFor(a + [e] + b, k, f) == SumFor(a + b, k, f) + Charge(e, k, f)
  {
    assert [e][1..] == [];
    SumForConcat(a + [e], b, k, f);
    SumForConcat(a, [e], k, f);
    SumForConcat(a, b, k, f);
  }

  lemma {:induction false} SumForAbsent<K>(es: seq<Entry<K>>, k: K, f: Figure)
    requires forall i :: 0 <= i < |es| ==> es[i].key != k
    ensures SumFor(es, k, f) == 0.0
  {
    if es != [] {
      SumForAbsent(es[1..], k, f);
    }
  }

  lemma {:induction false} GrandTotalConcat<K>(a: seq<Entry<K>>, b: seq<Entry<K>>, f: Figure)
    ensures GrandTotal(a + b, f) == GrandTotal(a, f) + GrandTotal(b, f)
  {
    if a == [] {
      assert a + b == b;
    } else {
      assert (a + b)[1..] == a[1..] + b;
      GrandTotalConcat(a[1..], b, f);
    }
  }

  lemma GrandTotalInsert<K>(a: seq<Entry<K>>, e: Entry<K>, b: seq<Entry<K>>, f: Figure)
    ensures GrandTotal(a + [e], f) == GrandTotal(a, f) + Amount(e.totals, f)
    ensures GrandTotal(a + [e] + b, f) == GrandTotal(a, f) + GrandTotal(b, f) + Amount(e.totals, f)
  {
    assert [e][1..] == [];
    GrandTotalConcat(a, [e], f);
    GrandTotalConcat(a + [e], b, f);
  }

  // ---- what an accumulated dictionary holds ----

  /** An accumulated dictionary is well formed, has exactly the keys that occur, and holds under
      each key the sum of that key's entries. */
  lemma {:induction false} AccumulateMeaning<K>(es: seq<Entry<K>>)
    ensures Valid(Accumulate(es))
    ensures forall k :: k in Accumulate(es).at <==> Mentions(es, k)
    ensures forall k, f :: Amount(Get(Accumulate(es), k), f) == SumFor(es, k, f)
  {
    if es != [] {
      var n := |es| - 1;
      var init, last := es[..n], es[n];
      assert es == init + [last];
      AccumulateMeaning(init);
      AddValid(Accumulate(init), last.key, last.totals);
      forall k ensures Mentions(es, k) <==> Mentions(init, k) || last.key == k {
        MentionsSnoc(init, last, k);
      }
      forall k, f ensures SumFor(es, k, f) == SumFor(init, k, f) + Charge(last, k, f) {
        SumForInsert(init, last, [], k, f);
      }
    }
  }

  lemma AddValid<K>(d: Dict<K>, k: K, t: Totals)
    requires Valid(d)
    ensures Valid(Add(d, k, t))
  {
  }

  lemma MentionsSnoc<K>(es: seq<Entry<K>>, e: Entry<K>, k: K)
    ensures Mentions(es + [e], k) <==> Mentions(es, k) || e.key == k
  {
    assert (es + [e])[|es|] == e;
    if Mentions(es, k) {
      var i :| 0 <= i < |es| && es[i].key == k;
      assert (es + [e])[i].key == k;
    }
  }

  lemma {:induction false} SumForOnce<K>(es: seq<Entry<K>>, i: nat, f: Figure)
    requires i < |es|
    requires forall j :: 0 <= j < |es| && j != i ==> es[j].key != es[i].key
    ensures SumFor(es, es[i].key, f) == Amount(es[i].totals, f)
  {
    if i == 0 {
      SumForAbsent(es[1..], es[0].key, f);
    } else {
      SumForOnce(es[1..], i - 1, f);
    }
  }

  lemma EntriesSum<K>(d: Dict<K>, k: K, f: Figure)
    requires Valid(d)
    ensures SumFor(Entries(d), k, f) == Amount(Get(d, k), f)
  {
    if k in d.at {
      var i :| 0 <= i < |d.order| && d.order[i] == k;
      SumForOnce(Entries(d), i, f);
    } else {
      SumForAbsent(Entries(d), k, f);
    }
  }

  /** Adding a group's entries one by one, or their sum at once, leaves the same dictionary. */
  lemma {:induction false} AddGroup<K>(es: seq<Entry<K>>, k: K, group: seq<Entry<K>>)
    requires group != []
    requires forall i :: 0 <= i < |group| ==> group[i].key == k
    ensures Accumulate(es + group) == Add(Accumulate(es), k, Summed(group))
  {
    var n := |group| - 1;
    var init, last := group[..n], group[n];
    assert group == init + [last];
    assert (es + group)[..|es + group| - 1] == es + init;
    assert Accumulate(es + group) == Add(Accumulate(es + init), k, last.totals);
    GrandTotalInsert(init, last, [], InHours);
    GrandTotalInsert(init, last, [], InSize);
    if n == 0 {
      assert es + init == es && init == [];
    } else {
      AddGroup(es, k, init);
      AddTwice(Accumulate(es), k, Summed(init), last.totals);
    }
  }

  function Summed<K>(group: seq<Entry<K>>): Totals {
    Totals(GrandTotal(group, InHours), GrandTotal(group, InSize))
  }

  lemma AddTwice<K>(d: Dict<K>, k: K, t: Totals, u: Totals)
    ensures Add(Add(d, k, t), k, u)
         == Add(d, k, Totals(t.hours + u.hours, t.sizeMonths + u.sizeMonths))
  {
  }

  /** Conservation: grouping records under keys neither loses nor invents usage. */
  lemma {:induction false} AccumulateConserves<K>(es: seq<Entry<K>>, f: Figure)
    ensures Valid(Accumulate(es))
    ensures GrandTotal(Entries(Accumulate(es)), f) == GrandTotal(es, f)
  {
    AccumulateMeaning(es);
    if es != [] {
      var n := |es| - 1;
      var init, last := es[..n], es[n];
      assert es == init + [last];
      AccumulateConserves(init, f);
      GrandTotalInsert(init, last, [], f);
      AddConserves(Accumulate(init), last.key, last.totals, f);
    }
  }

  lemma AddConserves<K>(d: Dict<K>, k: K, t: Totals, f: Figure)
    requires Valid(d) && Valid(Add(d, k, t))
    ensures GrandTotal(Entries(Add(d, k, t)), f) == GrandTotal(Entries(d), f) + Amount(t, f)
  {
    var before, after := Entries(d), Entries(Add(d, k, t));
    if k in d.at {
      var i :| 0 <= i < |d.order| && d.order[i] == k;
      assert after == before[i := after[i]];
      GrandTotalUpdate(before, i, after[i], f);
    } else {
      assert after == before + [Entry(k, t)];
      GrandTotalInsert(before, Entry(k, t), [], f);
    }
  }

  lemma GrandTotalUpdate<K>(es: seq<Entry<K>>, i: nat, e: Entry<K>, f: Figure)
    requires i < |es|
    ensures GrandTotal(es[i := e], f) == GrandTotal(es, f) - Amount(es[i].totals, f) + Amount(e.totals, f)
  {
    assert es == es[..i] + [es[i]] + es[i + 1..];
    assert es[i := e] == es[..i] + [e] + es[i + 1..];
    GrandTotalInsert(es[..i], es[i], es[i + 1..], f);
    GrandTotalInsert(es[..i], e, es[i + 1..], f);
  }

  // ---- insensitivity to order ----

  lemma {:induction false} SumForPermutation<K>(a: seq<Entry<K>>, b: seq<Entry<K>>, k: K, f: Figure)
    requires multiset(a) == multiset(b)
    ensures SumFor(a, k, f) == SumFor(b, k, f)
  {
    if a == [] {
      assert |b| == |multiset(b)| == |multiset(a)| == 0;
    } else {
      var i := Pick(a, b);
      SumForPermutation(a[1..], b[..i] + b[i + 1..], k, f);
      assert b == b[..i] + [b[i]] + b[i + 1..];
      SumForInsert(b[..i], b[i], b[i + 1..], k, f);
    }
  }

  /** Where the head of one ordering sits in the other, and what is left after removing it. */
  lemma Pick<T>(a: seq<T>, b: seq<T>) returns (i: nat)
    requires a != [] && multiset(a) == multiset(b)
    ensures i < |b| && b[i] == a[0] && multiset(a[1..]) == multiset(b[..i] + b[i + 1..])
  {
    assert a[0] in multiset(b);
    i :| 0 <= i < |b| && b[i] == a[0];
    assert a == [a[0]] + a[1..];
    assert b == b[..i] + [b[i]] + b[i + 1..];
    var rest := multiset(b[..i]) + multiset(b[i + 1..]);
    assert multiset(b) == multiset{b[i]} + rest;
    assert multiset(a) == multiset{a[0]} + multiset(a[1..]);
    assert multiset(a[1..]) == multiset(a) - multiset{a[0]} == rest;
  }

  lemma OnceOnly<T>(s: seq<T>, i: nat)
    requires i < |s|
    requires forall j :: 0 <= j < |s| && j != i ==> s[j] != s[i]
    ensures multiset(s)[s[i]] == 1
  {
    assert s == s[..i] + [s[i]] + s[i + 1..];
    assert s[i] !in s[..i] && s[i] !in s[i + 1..];
  }

  lemma DistinctEntries<K>(d: Dict<K>)
    requires Valid(d)
    ensures multiset(Entries(d)) == multiset(set k | k in d.at :: Entry(k, d.at[k]))
  {
    var es := Entries(d);
    var records := set k | k in d.at :: Entry(k, d.at[k]);
    forall e ensures multiset(es)[e] == multiset(records)[e] {
      if e in records {
        var i :| 0 <= i < |d.order| && d.order[i] == e.key;
        OnceOnly(es, i);
      }
    }
  }

  /** Grouping is insensitive to the order of its input: the same map, and the same records up to
      order. */
  lemma AccumulatePermutation<K>(a: seq<Entry<K>>, b: seq<Entry<K>>)
    requires multiset(a) == multiset(b)
    ensures Accumulate(a).at == Accumulate(b).at
    ensures Valid(Accumulate(a)) && Valid(Accumulate(b))
    ensures multiset(Entries(Accumulate(a))) == multiset(Entries(Accumulate(b)))
  {
    SameMentions(a, b);
    SameMentions(b, a);
    forall k, f ensures SumFor(a, k, f) == SumFor(b, k, f) {
      SumForPermutation(a, b, k, f);
    }
    SameSumsSameDict(a, b);
  }

  /** Two sequences of entries that mention the same keys and charge each key alike accumulate to
      the same map, and to the same records up to order. */
  lemma SameSumsSameDict<K>(a: seq<Entry<K>>, b: seq<Entry<K>>)
    requires forall k :: Mentions(a, k) <==> Mentions(b, k)
    requires forall k, f :: SumFor(a, k, f) == SumFor(b, k, f)
    ensures Accumulate(a).at == Accumulate(b).at
    ensures Valid(Accumulate(a)) && Valid(Accumulate(b))
    ensures multiset(Entries(Accumulate(a))) == multiset(Entries(Accumulate(b)))
  {
    AccumulateMeaning(a);
    AccumulateMeaning(b);
    SameFigures(Accumulate(a), Accumulate(b));
  }

  lemma SameFigures<K>(c: Dict<K>, d: Dict<K>)
    requires Valid(c) && Valid(d)
    requires forall k :: k in c.at <==> k in d.at
    requires forall k, f :: Amount(Get(c, k), f) == Amount(Get(d, k), f)
    ensures c.at == d.at
    ensures multiset(Entries(c)) == multiset(Entries(d))
  {
    forall k | k in c.at ensures c.at[k] == d.at[k] {
      assert Amount(Get(c, k), InHours) == Amount(Get(d, k), InHours);
      assert Amount(Get(c, k), InSize) == Amount(Get(d, k), InSize);
    }
    assert c.at.Keys == d.at.Keys;
    DistinctEntries(c);
    DistinctEntries(d);
  }

  lemma SameMentions<K>(a: seq<Entry<K>>, b: seq<Entry<K>>)
    requires multiset(a) == multiset(b)
    ensures forall k :: Mentions(a, k) ==> Mentions(b, k)
  {
    forall k | Mentions(a, k) ensures Mentions(b, k) {
      var i :| 0 <= i < |a| && a[i].key == k;
      assert a[i] in multiset(b);
    }
  }
}
