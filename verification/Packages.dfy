/** Package prices of managed clusters: what a fee is, and where the increment reaches.

    The increment is documented to price clusters larger than the largest package.  The code applies
    it to every count without a package of its own that is not below the smallest one.
 */
module Packages {
  import opened Options
  import opened Rendering

  /** A price that is a package of n worker groups. */
  predicate IsPackage(price: Price, n: nat) {
    PackageGroups(price) == Some(n)
  }

  lemma {:induction false} InsertKeeps(ps: seq<(nat, Price)>, n: nat, price: Price, x: (nat, Price))
    ensures x in InsertPackage(ps, n, price) <==> x in ps || x == (n, price)
  {
    if ps != [] && ps[|ps| - 1].0 > n {
      InsertKeeps(ps[..|ps| - 1], n, price, x);
      assert ps == ps[..|ps| - 1] + [ps[|ps| - 1]];
    }
  }

  predicate Sorted(ps: seq<(nat, Price)>) {
    forall i, j :: 0 <= i < j < |ps| ==> ps[i].0 <= ps[j].0
  }

  lemma {:induction false} InsertSorts(ps: seq<(nat, Price)>, n: nat, price: Price)
    requires Sorted(ps)
    ensures Sorted(InsertPackage(ps, n, price))
  {
    if ps != [] && ps[|ps| - 1].0 > n {
      var init, last := ps[..|ps| - 1], ps[|ps| - 1];
      InsertSorts(init, n, price);
      forall x | x in InsertPackage(init, n, price) ensures x.0 <= last.0 {
        InsertKeeps(init, n, price, x);
      }
      var r := InsertPackage(init, n, price);
      assert forall i :: 0 <= i < |r| ==> r[i] in r;
    }
  }

  /** The packages are exactly the package prices, in order of their group counts. */
  lemma {:induction false} PackagesMeaning(prices: seq<Price>)
    ensures Sorted(Rendering.Packages(prices))
    ensures forall n: nat, price :: (n, price) in Rendering.Packages(prices) <==> price in prices && IsPackage(price, n)
  {
    if prices != [] {
      var init, last := prices[..|prices| - 1], prices[|prices| - 1];
      assert prices == init + [last];
      PackagesMeaning(init);
      if PackageGroups(last).Some? {
        InsertSorts(Rendering.Packages(init), PackageGroups(last).value, last);
        forall n: nat, price
          ensures (n, price) in Rendering.Packages(prices)
             <==> (n, price) in Rendering.Packages(init) || (n, price) == (PackageGroups(last).value, last)
        {
          InsertKeeps(Rendering.Packages(init), PackageGroups(last).value, last, (n, price));
        }
      }
    }
  }

  /** The prices for one group count, as the price list has them. */
  function PricesFor(prices: seq<Price>, groups: int): seq<Price> {
    if prices == [] then []
    else
      var last := prices[|prices| - 1];
      PricesFor(prices[..|prices| - 1], groups)
      + if PackageGroups(last).Some? && PackageGroups(last).value == groups then [last] else []
  }

  function CountedAs(ps: seq<(nat, Price)>, groups: int): seq<Price> {
    if ps == [] then []
    else CountedAs(ps[..|ps| - 1], groups) + if ps[|ps| - 1].0 == groups then [ps[|ps| - 1].1] else []
  }

  lemma {:induction false} InsertStable(ps: seq<(nat, Price)>, n: nat, price: Price, groups: int)
    ensures CountedAs(InsertPackage(ps, n, price), groups)
         == CountedAs(ps, groups) + if groups == n then [price] else []
  {
    if ps != [] && ps[|ps| - 1].0 > n {
      var init, last := ps[..|ps| - 1], ps[|ps| - 1];
      InsertStable(init, n, price, groups);
      var r := InsertPackage(init, n, price);
      assert (r + [last])[..|r|] == r;
    } else {
      assert (ps + [(n, price)])[..|ps|] == ps;
    }
  }

  /** The sort is stable: packages of one count stay in the order of the price list. */
  lemma {:induction false} PackagesStable(prices: seq<Price>, groups: int)
    ensures CountedAs(Rendering.Packages(prices), groups) == PricesFor(prices, groups)
  {
    if prices != [] {
      var init, last := prices[..|prices| - 1], prices[|prices| - 1];
      PackagesStable(init, groups);
      if PackageGroups(last).Some? {
        InsertStable(Rendering.Packages(init), PackageGroups(last).value, last, groups);
      }
    }
  }

  /** The first package of a count is the first price for it. */
  lemma {:induction false} FirstCounted(ps: seq<(nat, Price)>, groups: int, i: nat)
    requires i < |ps| && ps[i].0 == groups && forall k :: 0 <= k < i ==> ps[k].0 != groups
    ensures CountedAs(ps, groups) != [] && CountedAs(ps, groups)[0] == ps[i].1
  {
    if i < |ps| - 1 {
      FirstCounted(ps[..|ps| - 1], groups, i);
    } else {
      NoneCounted(ps[..i], groups);
    }
  }

  lemma {:induction false} NoneCounted(ps: seq<(nat, Price)>, groups: int)
    requires forall k :: 0 <= k < |ps| ==> ps[k].0 != groups
    ensures CountedAs(ps, groups) == []
  {
    if ps != [] {
      NoneCounted(ps[..|ps| - 1], groups);
    }
  }

  predicate Covered(ps: seq<(nat, Price)>, groups: int) {
    exists i :: 0 <= i < |ps| && ps[i].0 == groups
  }

  lemma {:induction false} ExactMeaning(ps: seq<(nat, Price)>, groups: int) returns (i: nat)
    ensures ExactPackage(ps, groups).Some? <==> Covered(ps, groups)
    ensures Covered(ps, groups) ==>
              i < |ps| && ps[i].0 == groups && ExactPackage(ps, groups) == Some(ps[i].1)
              && forall k :: 0 <= k < i ==> ps[k].0 != groups
  {
    i := 0;
    if ps != [] && ps[0].0 != groups {
      var k := ExactMeaning(ps[1..], groups);
      i := k + 1;
      if Covered(ps, groups) {
        var j :| 0 <= j < |ps| && ps[j].0 == groups;
        assert ps[1..][j - 1].0 == groups;
      }
    }
  }

  /** A count with a package costs the first price listed for that count; a smaller count than every package has no
      fee; every other count is priced from the largest package, one increment a group -- upwards
      beyond it, and downwards in a gap below it. */
  lemma FeeMeaning(sn: Snapshot, groups: int)
    ensures var ps := Rendering.Packages(sn.prices);
            var fee := PackageFee(sn, groups);
            var increment := SnapshotPrice(sn, "cluster_management_fee_increment", map[]);
            && (Covered(ps, groups) <==> PricesFor(sn.prices, groups) != [])
            && (Covered(ps, groups) ==>
                  fee == Some((PricesFor(sn.prices, groups)[0].unitPrice, PricesFor(sn.prices, groups)[0].unit)))
            && (!Covered(ps, groups) && (ps == [] || groups < ps[0].0 || increment.None?) ==> fee == None)
            && (!Covered(ps, groups) && ps != [] && groups >= ps[0].0 && increment.Some? ==>
                  fee == Some((ps[|ps| - 1].1.unitPrice
                               + (groups - ps[|ps| - 1].0) as real * increment.value.unitPrice, ps[|ps| - 1].1.unit)))
  {
    hide Rendering.Packages, SnapshotPrice, PricesFor, CountedAs;
    var ps := Rendering.Packages(sn.prices);
    var i := ExactMeaning(ps, groups);
    PackagesStable(sn.prices, groups);
    if Covered(ps, groups) {
      FirstCounted(ps, groups, i);
    } else {
      NoneCounted(ps, groups);
    }
  }

  function Digit(d: nat): (c: char)
    requires d < 10
    ensures '0' <= c <= '9' && c as int == '0' as int + d
  {
    ('0' as int + d) as char
  }

  function Decimal(n: nat): string {
    (if n < 10 then [] else Decimal(n / 10)) + [Digit(n % 10)]
  }

  lemma ParseDigit(s: string, c: char)
    requires '0' <= c <= '9' && (s == [] || ParseNat(s).Some?)
    ensures ParseNat(s + [c]) == Some((if s == [] then 0 else 10 * ParseNat(s).value) + (c as int - '0' as int))
  {
    assert (s + [c])[..|s|] == s;
  }

  /** Group counts are read as they are written. */
  lemma {:induction false} ParseDecimal(n: nat)
    ensures Decimal(n) != [] && ParseNat(Decimal(n)) == Some(n)
  {
    hide ParseNat, Digit;
    if n >= 10 {
      ParseDecimal(n / 10);
    }
    ParseDigit(if n < 10 then [] else Decimal(n / 10), Digit(n % 10));
  }

  /** Packages leave no gap: each has at most one group more than the one before it. */
  predicate Gapless(ps: seq<(nat, Price)>) {
    forall i :: 0 <= i < |ps| - 1 ==> ps[i + 1].0 <= ps[i].0 + 1
  }

  /** Every count from the smallest to the largest package has its own exactly when there is no gap. */
  lemma GaplessIff(ps: seq<(nat, Price)>)
    requires ps != [] && Sorted(ps)
    ensures Gapless(ps) <==> forall groups :: ps[0].0 <= groups <= ps[|ps| - 1].0 ==> Covered(ps, groups)
  {
    if Gapless(ps) {
      forall groups | ps[0].0 <= groups <= ps[|ps| - 1].0 ensures Covered(ps, groups) {
        Reached(ps, groups, |ps| - 1);
      }
    } else {
      var i :| 0 <= i < |ps| - 1 && ps[i + 1].0 > ps[i].0 + 1;
      forall k | 0 <= k < |ps| ensures ps[k].0 != ps[i].0 + 1 {
        assert if k <= i then ps[k].0 <= ps[i].0 else ps[k].0 >= ps[i + 1].0;
      }
      assert !Covered(ps, ps[i].0 + 1);
      assert ps[0].0 <= ps[i].0 + 1 <= ps[|ps| - 1].0;
    }
  }

  /** The increment prices only counts beyond the largest package exactly when the packages leave no gap
      or no increment is priced: then, and only then, every fee of a count up to the largest package is
      that of a package of its own. */
  lemma IncrementOnlyBeyond(sn: Snapshot)
    requires Rendering.Packages(sn.prices) != []
    ensures var ps := Rendering.Packages(sn.prices);
            (Gapless(ps) || SnapshotPrice(sn, "cluster_management_fee_increment", map[]).None?)
            <==> forall groups :: groups <= ps[|ps| - 1].0 && PackageFee(sn, groups).Some? ==> Covered(ps, groups)
  {
    hide Rendering.Packages, SnapshotPrice, PackageFee, Covered, Gapless;
    var ps := Rendering.Packages(sn.prices);
    PackagesMeaning(sn.prices);
    GaplessIff(ps);
    forall groups
      ensures PackageFee(sn, groups).Some? && !Covered(ps, groups) <==>
                !Covered(ps, groups) && groups >= ps[0].0
                && SnapshotPrice(sn, "cluster_management_fee_increment", map[]).Some?
    {
      FeeMeaning(sn, groups);
    }
  }

  lemma {:induction false} Reached(ps: seq<(nat, Price)>, groups: int, k: nat)
    requires k < |ps| && Sorted(ps) && Gapless(ps) && ps[0].0 <= groups <= ps[k].0
    ensures Covered(ps, groups)
  {
    if ps[k].0 != groups {
      assert ps[k - 1].0 + 1 >= ps[k].0;
      Reached(ps, groups, k - 1);
    }
  }

  /** A price list with packages of one and three groups charges two groups less than three: the
      largest package less one increment, though no cluster in it is larger than the largest package. */
  lemma GapExample(sn: Snapshot)
    requires sn.prices == [Price("cluster_management_fee", "worker_groups", "1", "month", 100.0),
                           Price("cluster_management_fee", "worker_groups", "3", "month", 250.0),
                           Price("cluster_management_fee_increment", "", "", "month", 80.0)]
    ensures PackageFee(sn, 2) == Some((170.0, "month"))
  {
    var one, three, more := sn.prices[0], sn.prices[1], sn.prices[2];
    assert PackageGroups(one) == Some(1) && PackageGroups(three) == Some(3) && PackageGroups(more) == None by {
      assert "1"[..0] == "" && "3"[..0] == "";
    }
    assert sn.prices[..2] == [one, three] && sn.prices[..2][..1] == [one] && sn.prices[..1][..0] == [];
    assert sn.prices[..2][..1][..0] == [];
    assert Rendering.Packages([one]) == [(1, one)];
    assert Rendering.Packages([one, three]) == [(1, one), (3, three)];
    assert Rendering.Packages(sn.prices) == [(1, one), (3, three)];
    assert SnapshotPrice(sn, "cluster_management_fee_increment", map[]) == Some(more) by {
      assert sn.prices[1..] == [three, more] && sn.prices[1..][1..] == [more] && [more][1..] == [];
      assert FindPrice([more], "cluster_management_fee_increment", map[], None) == Some(more);
      assert FindPrice([three, more], "cluster_management_fee_increment", map[], None) == Some(more);
    }
    var i := ExactMeaning(Rendering.Packages(sn.prices), 2);
    assert !Covered(Rendering.Packages(sn.prices), 2);
  }
}
