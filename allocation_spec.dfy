/** What the bill view's cost breakdown is, stated as functions of the bill,
    and the laws it obeys: every unassigned item is listed in receipt order,
    each person appears once in first-seen order, item prices are conserved,
    and tax and tip are spread in proportion to each person's items. */
module AllocationSpec {
  import opened BillTypes
  import opened Text

  // ---------------------------------------------------------------------
  // Sums of real amounts over a sequence
  // ---------------------------------------------------------------------

  function Sum<T>(xs: seq<T>, f: T -> real): real
  {
    if xs == [] then 0.0 else Sum(xs[..|xs| - 1], f) + f(xs[|xs| - 1])
  }

  lemma {:induction false} SumAppend<T>(xs: seq<T>, ys: seq<T>, f: T -> real)
    ensures Sum(xs + ys, f) == Sum(xs, f) + Sum(ys, f)
    decreases |ys|
  {
    if ys == [] {
      assert xs + ys == xs;
    } else {
      var zs := ys[..|ys| - 1];
      assert (xs + ys)[..|xs + ys| - 1] == xs + zs;
      SumAppend(xs, zs, f);
    }
  }

  /** Sums agree when the summed amounts agree element by element. */
  lemma {:induction false} SumMapped<A, B>(xs: seq<A>, f: A -> real, ys: seq<B>, g: B -> real)
    requires |xs| == |ys|
    requires forall i :: 0 <= i < |xs| ==> f(xs[i]) == g(ys[i])
    ensures Sum(xs, f) == Sum(ys, g)
    decreases |xs|
  {
    if xs != [] {
      SumMapped(xs[..|xs| - 1], f, ys[..|ys| - 1], g);
    }
  }

  lemma {:induction false} SumAdd<T>(xs: seq<T>, f: T -> real, g: T -> real, h: T -> real)
    requires forall i :: 0 <= i < |xs| ==> h(xs[i]) == f(xs[i]) + g(xs[i])
    ensures Sum(xs, h) == Sum(xs, f) + Sum(xs, g)
    decreases |xs|
  {
    if xs != [] {
      SumAdd(xs[..|xs| - 1], f, g, h);
    }
  }

  lemma {:induction false} SumScale<T>(xs: seq<T>, f: T -> real, c: real, g: T -> real)
    requires forall i :: 0 <= i < |xs| ==> g(xs[i]) == c * f(xs[i])
    ensures Sum(xs, g) == c * Sum(xs, f)
    decreases |xs|
  {
    if xs != [] {
      SumScale(xs[..|xs| - 1], f, c, g);
    }
  }

  lemma {:induction false} SumZero<T>(xs: seq<T>, f: T -> real)
    requires forall i :: 0 <= i < |xs| ==> f(xs[i]) == 0.0
    ensures Sum(xs, f) == 0.0
    decreases |xs|
  {
    if xs != [] {
      SumZero(xs[..|xs| - 1], f);
    }
  }

  // ---------------------------------------------------------------------
  // Names
  // ---------------------------------------------------------------------

  predicate NoDuplicates<T(==)>(s: seq<T>) {
    forall i, j :: 0 <= i < j < |s| ==> s[i] != s[j]
  }

  /** The names of one `assignedTo` list as the map keys them: trimmed, case kept. */
  function TrimAll(names: seq<string>): seq<string>
  {
    seq(|names|, i requires 0 <= i < |names| => Trim(names[i]))
  }

  /** Every assignment entry of the bill, trimmed, item by item in receipt order. */
  function Entries(items: seq<BillItem>): seq<string>
  {
    if items == [] then [] else Entries(items[..|items| - 1]) + TrimAll(items[|items| - 1].assignedTo)
  }

  /** `s` with every repeat of an earlier element dropped: the key order of a
      map filled by setting each element of `s` that it does not yet hold. */
  function Dedup(s: seq<string>): (r: seq<string>)
    ensures NoDuplicates(r)
    ensures forall x :: x in r <==> x in s
  {
    if s == [] then []
    else
      var p := Dedup(s[..|s| - 1]);
      var x := s[|s| - 1];
      assert s == s[..|s| - 1] + [x];
      if x in p then p else p + [x]
  }

  /** The people of the breakdown, in the order the map first saw them. */
  function People(items: seq<BillItem>): seq<string>
  {
    Dedup(Entries(items))
  }

  // ---------------------------------------------------------------------
  // Amounts
  // ---------------------------------------------------------------------

  /** `pricePerPerson`: the price over the number of entries of an assigned item. */
  function PricePerPerson(item: BillItem): real
  {
    var k := |item.assignedTo|;
    if k == 0 then 0.0 else item.price / k as real
  }

  /** What `name` gains when `amount` is added once for every entry of `w` equal to it. */
  function Accrual(w: seq<string>, name: string, amount: real): real
  {
    if w == [] then 0.0 else Accrual(w[..|w| - 1], name, amount) + (if w[|w| - 1] == name then amount else 0.0)
  }

  /** What `name` accrues from one item: `pricePerPerson` for each of the item's
      entries that trims to `name`, nothing from an unassigned item. */
  function ItemShare(item: BillItem, name: string): real
  {
    Accrual(TrimAll(item.assignedTo), name, PricePerPerson(item))
  }

  /** `k` copies of `amount` added up. */
  function Copies(k: nat, amount: real): real
  {
    if k == 0 then 0.0 else Copies(k - 1, amount) + amount
  }

  /** `itemsTotal` of `name` after the first loop over the items. */
  function ItemsTotal(items: seq<BillItem>, name: string): real
  {
    if items == [] then 0.0 else ItemsTotal(items[..|items| - 1], name) + ItemShare(items[|items| - 1], name)
  }

  /** The prices of the items that have at least one assignee. */
  function AssignedSubtotal(items: seq<BillItem>): real
  {
    if items == [] then 0.0
    else
      var last := items[|items| - 1];
      AssignedSubtotal(items[..|items| - 1]) + (if |last.assignedTo| > 0 then last.price else 0.0)
  }

  /** `totalAssignedSubtotal`: the reduce over the map's records. */
  function TotalAssigned(items: seq<BillItem>): real
  {
    Sum(People(items), n => ItemsTotal(items, n))
  }

  /** The reduce, summed with any function that agrees with `ItemsTotal` on every name. */
  lemma TotalAssignedIs(items: seq<BillItem>, f: string -> real)
    requires forall n :: f(n) == ItemsTotal(items, n)
    ensures TotalAssigned(items) == Sum(People(items), f)
  {
    SumMapped(People(items), f, People(items), n => ItemsTotal(items, n));
  }

  /** `shareRatio`: a person's part of the assigned subtotal, 0 unless that subtotal is positive. */
  function ShareRatio(itemsTotal: real, subtotal: real): real
  {
    if subtotal > 0.0 then itemsTotal / subtotal else 0.0
  }

  /** `amount * shareRatio`: the part of `amount` that falls to an items total. */
  function Portion(amount: real, itemsTotal: real, subtotal: real): real
  {
    amount * ShareRatio(itemsTotal, subtotal)
  }

  /** A record as the first loop leaves it: the items total and nothing else yet. */
  function Accrued(name: string, itemsTotal: real): PersonSummary
  {
    PersonSummary(name, itemsTotal, 0.0, 0.0, 0.0)
  }

  /** The second loop's update of one record, given the assigned subtotal. */
  function Settle(p: PersonSummary, subtotal: real, tax: real, tip: real): PersonSummary
  {
    var taxShare := Portion(tax, p.itemsTotal, subtotal);
    var tipShare := Portion(tip, p.itemsTotal, subtotal);
    p.(taxShare := taxShare, tipShare := tipShare, totalOwed := p.itemsTotal + taxShare + tipShare)
  }

  /** The record the two loops leave for `name`. */
  function PersonFor(bill: BillData, name: string): PersonSummary
  {
    Settle(Accrued(name, ItemsTotal(bill.items, name)), TotalAssigned(bill.items), bill.tax, bill.tip)
  }

  /** `summary.people`. */
  function Breakdown(bill: BillData): seq<PersonSummary>
  {
    var names := People(bill.items);
    seq(|names|, i requires 0 <= i < |names| => PersonFor(bill, names[i]))
  }

  /** `summary.unassigned`: the items nobody is assigned to, in receipt order. */
  function Unassigned(items: seq<BillItem>): seq<BillItem>
  {
    if items == [] then []
    else
      var last := items[|items| - 1];
      Unassigned(items[..|items| - 1]) + (if |last.assignedTo| == 0 then [last] else [])
  }

  // ---------------------------------------------------------------------
  // The unassigned list
  // ---------------------------------------------------------------------

  /** An item is listed as unassigned exactly when it is on the bill with an empty `assignedTo`. */
  lemma {:induction false} UnassignedExactly(items: seq<BillItem>, x: BillItem)
    ensures x in Unassigned(items) <==> x in items && x.assignedTo == []
  {
    if items != [] {
      var pre := items[..|items| - 1];
      UnassignedExactly(pre, x);
      assert items == pre + [items[|items| - 1]];
    }
  }

  /** The list keeps receipt order: listing a bill split in two lists the
      first part's unassigned items, then the second part's. */
  lemma {:induction false} UnassignedConcat(a: seq<BillItem>, b: seq<BillItem>)
    ensures Unassigned(a + b) == Unassigned(a) + Unassigned(b)
    decreases |b|
  {
    if b == [] {
      assert a + b == a;
    } else {
      var c := b[..|b| - 1];
      assert (a + b)[..|a + b| - 1] == a + c;
      UnassignedConcat(a, c);
    }
  }

  // ---------------------------------------------------------------------
  // The people list
  // ---------------------------------------------------------------------

  /** Every assignment entry, trimmed, is among the entries. */
  lemma {:induction false} EntryListed(items: seq<BillItem>, i: nat, j: nat)
    requires i < |items| && j < |items[i].assignedTo|
    ensures Trim(items[i].assignedTo[j]) in Entries(items)
    decreases |items|
  {
    var pre := items[..|items| - 1];
    var w := TrimAll(items[|items| - 1].assignedTo);
    assert Entries(items) == Entries(pre) + w;
    if i < |pre| {
      EntryListed(pre, i, j);
      assert items[i] == pre[i];
    } else {
      assert w[j] == Trim(items[i].assignedTo[j]);
    }
  }

  /** Every entry comes from some assignment entry of some item. */
  lemma {:induction false} EntryOrigin(items: seq<BillItem>, name: string) returns (i: nat, j: nat)
    requires name in Entries(items)
    ensures i < |items| && j < |items[i].assignedTo| && Trim(items[i].assignedTo[j]) == name
    decreases |items|
  {
    var pre := items[..|items| - 1];
    var w := TrimAll(items[|items| - 1].assignedTo);
    assert Entries(items) == Entries(pre) + w;
    if name in Entries(pre) {
      i, j := EntryOrigin(pre, name);
      assert items[i] == pre[i];
    } else {
      var k :| 0 <= k < |w| && w[k] == name;
      i, j := |items| - 1, k;
    }
  }

  /** A name is a key exactly when some assignment entry trims to it. */
  lemma EntriesExactly(items: seq<BillItem>, name: string)
    ensures name in Entries(items) <==>
      exists i, j :: 0 <= i < |items| && 0 <= j < |items[i].assignedTo| && Trim(items[i].assignedTo[j]) == name
  {
    if name in Entries(items) {
      var i, j := EntryOrigin(items, name);
    } else {
      forall i, j | 0 <= i < |items| && 0 <= j < |items[i].assignedTo|
        ensures Trim(items[i].assignedTo[j]) != name
      {
        EntryListed(items, i, j);
      }
    }
  }

  /** Each element of `Dedup(s)` occurs in `s` before every occurrence of any later element. */
  lemma {:induction false} DedupFirstSeen(s: seq<string>)
    ensures forall i, j, m :: 0 <= i < j < |Dedup(s)| && 0 <= m < |s| && s[m] == Dedup(s)[j] ==> Dedup(s)[i] in s[..m]
  {
    if s != [] {
      var p := s[..|s| - 1];
      var x := s[|s| - 1];
      DedupFirstSeen(p);
      var d := Dedup(p);
      forall i, j, m | 0 <= i < j < |Dedup(s)| && 0 <= m < |s| && s[m] == Dedup(s)[j]
        ensures Dedup(s)[i] in s[..m]
      {
        assert Dedup(s)[i] == d[i];
        if m < |p| {
          assert s[..m] == p[..m];
          assert p[m] in p;
        } else {
          assert s[..m] == p;
        }
      }
    }
  }

  /** Appending entries only appends keys, and only ones not seen before. */
  lemma {:induction false} DedupExtends(s: seq<string>, t: seq<string>)
    ensures |Dedup(s)| <= |Dedup(s + t)| && Dedup(s + t)[..|Dedup(s)|] == Dedup(s)
    ensures forall y :: y in Dedup(s + t)[|Dedup(s)|..] ==> y !in s
    decreases |t|
  {
    if t == [] {
      assert s + t == s;
    } else {
      var u := t[..|t| - 1];
      DedupExtends(s, u);
      assert (s + t)[..|s + t| - 1] == s + u;
      var d, e := Dedup(s), Dedup(s + u);
      forall y | y in Dedup(s + t)[|d|..] ensures y !in s {
        if y !in e[|d|..] {
          assert Dedup(s + t) == e + [t[|t| - 1]] && y == t[|t| - 1];
          assert e == d + e[|d|..];
        }
      }
    }
  }

  /** `summary.people` holds each trimmed name once, ordered by first appearance. */
  lemma PeopleFirstSeen(items: seq<BillItem>)
    ensures NoDuplicates(People(items))
    ensures forall x :: x in People(items) <==> x in Entries(items)
    ensures forall i, j, m ::
      (&& 0 <= i < j < |People(items)| && 0 <= m < |Entries(items)|
       && Entries(items)[m] == People(items)[j]) ==> People(items)[i] in Entries(items)[..m]
  {
    DedupFirstSeen(Entries(items));
  }

  // ---------------------------------------------------------------------
  // Splitting one item
  // ---------------------------------------------------------------------

  lemma {:induction false} AccrualAbsent(w: seq<string>, name: string, amount: real)
    requires name !in w
    ensures Accrual(w, name, amount) == 0.0
  {
    if w != [] {
      assert w[..|w| - 1] <= w;
      AccrualAbsent(w[..|w| - 1], name, amount);
    }
  }

  /** Over distinct names, what one entry credits to its name sums to `amount`. */
  lemma {:induction false} HitsDistinct(names: seq<string>, x: string, amount: real, h: string -> real)
    requires NoDuplicates(names) && x in names
    requires forall n :: h(n) == if n == x then amount else 0.0
    ensures Sum(names, h) == amount
  {
    var p := names[..|names| - 1];
    if names[|names| - 1] == x {
      assert x !in p;
      SumZero(p, h);
    } else {
      assert names == p + [names[|names| - 1]];
      HitsDistinct(p, x, amount, h);
    }
  }

  /** Summed over distinct names that cover `w`, crediting `amount` per entry of
      `w` hands out `|w|` copies of `amount`. */
  lemma {:induction false} AccrualsCover(names: seq<string>, w: seq<string>, amount: real)
    requires NoDuplicates(names)
    requires forall y :: y in w ==> y in names
    ensures Sum(names, n => Accrual(w, n, amount)) == Copies(|w|, amount)
    decreases |w|
  {
    var f := n => Accrual(w, n, amount);
    if w == [] {
      SumZero(names, f);
    } else {
      var u := w[..|w| - 1];
      var x := w[|w| - 1];
      assert u <= w;
      AccrualsCover(names, u, amount);
      var g := n => Accrual(u, n, amount);
      var h := n => if n == x then amount else 0.0;
      SumAdd(names, g, h, f);
      HitsDistinct(names, x, amount, h);
    }
  }

  lemma {:induction false} CopiesScale(k: nat, amount: real)
    ensures Copies(k, amount) == (k as real) * amount
  {
    if k > 0 {
      CopiesScale(k - 1, amount);
    }
  }

  /** `k` copies of `price / k` add back up to `price`. */
  lemma CopiesOfPricePerPerson(item: BillItem)
    requires item.assignedTo != []
    ensures Copies(|item.assignedTo|, PricePerPerson(item)) == item.price
  {
    var k := |item.assignedTo|;
    CopiesScale(k, PricePerPerson(item));
    RateTimesBase(item.price, k as real);
    assert (k as real) * (item.price / k as real) == (item.price / k as real) * (k as real);
  }

  /** Splitting an item among its `k > 0` entries hands out exactly its price,
      whichever list of distinct names covering its entries is summed over;
      an unassigned item hands out nothing. */
  lemma ItemSharesSumToPrice(item: BillItem, names: seq<string>)
    requires NoDuplicates(names)
    requires forall y :: y in TrimAll(item.assignedTo) ==> y in names
    ensures Sum(names, n => ItemShare(item, n)) == if item.assignedTo == [] then 0.0 else item.price
  {
    var w := TrimAll(item.assignedTo);
    var ppp := PricePerPerson(item);
    AccrualsCover(names, w, ppp);
    SumMapped(names, n => ItemShare(item, n), names, n => Accrual(w, n, ppp));
    if item.assignedTo != [] {
      CopiesOfPricePerPerson(item);
    }
  }

  // ---------------------------------------------------------------------
  // Conservation of the item prices
  // ---------------------------------------------------------------------

  lemma {:induction false} ItemsTotalUnseen(items: seq<BillItem>, name: string)
    requires name !in Entries(items)
    ensures ItemsTotal(items, name) == 0.0
  {
    if items != [] {
      var pre := items[..|items| - 1];
      var w := TrimAll(items[|items| - 1].assignedTo);
      assert Entries(items) == Entries(pre) + w;
      AccrualAbsent(w, name, PricePerPerson(items[|items| - 1]));
      ItemsTotalUnseen(pre, name);
    }
  }

  /** The people's `itemsTotal` values add up to the prices of the assigned items. */
  lemma {:induction false} ItemsTotalConservation(items: seq<BillItem>)
    ensures TotalAssigned(items) == AssignedSubtotal(items)
  {
    if items != [] {
      var pre := items[..|items| - 1];
      var it := items[|items| - 1];
      ItemsTotalConservation(pre);
      var E, w := Entries(pre), TrimAll(it.assignedTo);
      assert Entries(items) == E + w;
      var P, Q := People(pre), People(items);
      DedupExtends(E, w);
      var X := Q[|P|..];
      assert Q == P + X;
      var f := n => ItemsTotal(items, n);
      var g := n => ItemsTotal(pre, n);
      var h := n => ItemShare(it, n);
      SumAdd(Q, g, h, f);
      SumAppend(P, X, g);
      forall i | 0 <= i < |X| ensures g(X[i]) == 0.0 {
        assert X[i] in X;
        ItemsTotalUnseen(pre, X[i]);
      }
      SumZero(X, g);
      SumMapped(P, g, P, n => ItemsTotal(pre, n));
      SumMapped(Q, f, Q, n => ItemsTotal(items, n));
      ItemSharesSumToPrice(it, Q);
    }
  }

  // ---------------------------------------------------------------------
  // The breakdown
  // ---------------------------------------------------------------------

  /** Settling a record keeps its name and items total, makes `totalOwed` the
      sum of the three parts, and gives tax and tip shares in proportion to
      the items total when the subtotal is positive, 0 otherwise. */
  lemma SettleRecord(p: PersonSummary, subtotal: real, tax: real, tip: real)
    ensures var q := Settle(p, subtotal, tax, tip);
      && q.name == p.name && q.itemsTotal == p.itemsTotal
      && q.totalOwed == q.itemsTotal + q.taxShare + q.tipShare
      && q.taxShare == Portion(tax, p.itemsTotal, subtotal) && q.tipShare == Portion(tip, p.itemsTotal, subtotal)
      && (subtotal > 0.0 ==> q.taxShare == tax * (p.itemsTotal / subtotal) && q.tipShare == tip * (p.itemsTotal / subtotal))
      && (!(subtotal > 0.0) ==> q.taxShare == 0.0 && q.tipShare == 0.0 && q.totalOwed == p.itemsTotal)
  {
  }

  /** Every record of the breakdown: its name is a key, its items total is
      what that name accrued, and it is settled against the assigned subtotal. */
  lemma BreakdownRecords(bill: BillData, i: nat)
    requires i < |People(bill.items)|
    ensures var name := People(bill.items)[i];
      Breakdown(bill)[i] == Settle(Accrued(name, ItemsTotal(bill.items, name)), TotalAssigned(bill.items), bill.tax, bill.tip)
  {
  }

  function ItemsTotalOf(p: PersonSummary): real { p.itemsTotal }
  function TaxShareOf(p: PersonSummary): real { p.taxShare }
  function TipShareOf(p: PersonSummary): real { p.tipShare }
  function TotalOwedOf(p: PersonSummary): real { p.totalOwed }

  /** Summing a field over the breakdown is summing it over the people. */
  lemma BreakdownSum(bill: BillData, field: PersonSummary -> real, g: string -> real)
    requires forall n :: g(n) == field(PersonFor(bill, n))
    ensures Sum(Breakdown(bill), field) == Sum(People(bill.items), g)
  {
    SumMapped(Breakdown(bill), field, People(bill.items), g);
  }

  /** The breakdown's `itemsTotal` column adds up to the assigned items' prices. */
  lemma BreakdownItemsTotals(bill: BillData)
    ensures Sum(Breakdown(bill), ItemsTotalOf) == AssignedSubtotal(bill.items)
  {
    var names := People(bill.items);
    var g := n => ItemsTotalOf(PersonFor(bill, n));
    BreakdownSum(bill, ItemsTotalOf, g);
    forall i | 0 <= i < |names| ensures g(names[i]) == ItemsTotal(bill.items, names[i]) {
      SettleRecord(Accrued(names[i], ItemsTotal(bill.items, names[i])), TotalAssigned(bill.items), bill.tax, bill.tip);
    }
    SumMapped(names, g, names, n => ItemsTotal(bill.items, n));
    ItemsTotalConservation(bill.items);
  }

  /** With a positive subtotal, a portion is a fixed rate times the items total. */
  lemma PortionScales(amount: real, itemsTotal: real, subtotal: real)
    requires subtotal > 0.0
    ensures Portion(amount, itemsTotal, subtotal) == (amount / subtotal) * itemsTotal
  {
    assert amount * (itemsTotal / subtotal) == (amount / subtotal) * itemsTotal;
  }

  lemma RatedShares(names: seq<string>, f: string -> real, subtotal: real, amount: real, rate: real, g: string -> real)
    requires subtotal > 0.0 && rate == amount / subtotal
    requires forall i :: 0 <= i < |names| ==> g(names[i]) == Portion(amount, f(names[i]), subtotal)
    ensures forall i :: 0 <= i < |names| ==> g(names[i]) == rate * f(names[i])
  {
    forall i | 0 <= i < |names| ensures g(names[i]) == rate * f(names[i]) {
      PortionScales(amount, f(names[i]), subtotal);
    }
  }

  lemma RatedSum(names: seq<string>, f: string -> real, subtotal: real, amount: real, rate: real, g: string -> real)
    requires subtotal > 0.0 && rate == amount / subtotal && subtotal == Sum(names, f)
    requires forall i :: 0 <= i < |names| ==> g(names[i]) == rate * f(names[i])
    ensures Sum(names, g) == amount
  {
    SumScale(names, f, rate, g);
    RateTimesBase(amount, subtotal);
  }

  lemma UnratedShares(names: seq<string>, f: string -> real, subtotal: real, amount: real, g: string -> real)
    requires !(subtotal > 0.0)
    requires forall i :: 0 <= i < |names| ==> g(names[i]) == Portion(amount, f(names[i]), subtotal)
    ensures Sum(names, g) == 0.0
  {
    SumZero(names, g);
  }

  lemma RateTimesBase(amount: real, subtotal: real)
    requires subtotal > 0.0
    ensures (amount / subtotal) * subtotal == amount
  {
  }

  /** Shares proportional to `f` with ratio `f(n) / subtotal` hand out all of
      `amount` when `subtotal`, the sum of `f`, is positive, and nothing otherwise. */
  lemma ProportionalSum(names: seq<string>, f: string -> real, subtotal: real, amount: real, g: string -> real)
    requires subtotal == Sum(names, f)
    requires forall i :: 0 <= i < |names| ==> g(names[i]) == Portion(amount, f(names[i]), subtotal)
    ensures Sum(names, g) == if subtotal > 0.0 then amount else 0.0
  {
    if subtotal > 0.0 {
      var rate := amount / subtotal;
      RatedShares(names, f, subtotal, amount, rate, g);
      RatedSum(names, f, subtotal, amount, rate, g);
    } else {
      UnratedShares(names, f, subtotal, amount, g);
    }
  }

  /** A person's tax and tip shares are the tax and tip scaled by their share ratio. */
  lemma PersonShares(bill: BillData, name: string)
    ensures PersonFor(bill, name).taxShare == Portion(bill.tax, ItemsTotal(bill.items, name), TotalAssigned(bill.items))
    ensures PersonFor(bill, name).tipShare == Portion(bill.tip, ItemsTotal(bill.items, name), TotalAssigned(bill.items))
  {
    SettleRecord(Accrued(name, ItemsTotal(bill.items, name)), TotalAssigned(bill.items), bill.tax, bill.tip);
  }

  /** The tax shares add up to the tax and the tip shares to the tip whenever
      the assigned subtotal is positive, unassigned items or not; when it is
      not positive, nobody is charged any tax or tip. */
  lemma TaxAndTipDistributed(bill: BillData)
    ensures TotalAssigned(bill.items) > 0.0 ==>
      Sum(Breakdown(bill), TaxShareOf) == bill.tax && Sum(Breakdown(bill), TipShareOf) == bill.tip
    ensures !(TotalAssigned(bill.items) > 0.0) ==>
      Sum(Breakdown(bill), TaxShareOf) == 0.0 && Sum(Breakdown(bill), TipShareOf) == 0.0
  {
    var S := TotalAssigned(bill.items);
    var names := People(bill.items);
    var f := n => ItemsTotal(bill.items, n);
    var tax := n => TaxShareOf(PersonFor(bill, n));
    var tip := n => TipShareOf(PersonFor(bill, n));
    BreakdownSum(bill, TaxShareOf, tax);
    BreakdownSum(bill, TipShareOf, tip);
    TotalAssignedIs(bill.items, f);
    forall i | 0 <= i < |names|
      ensures tax(names[i]) == Portion(bill.tax, f(names[i]), S)
      ensures tip(names[i]) == Portion(bill.tip, f(names[i]), S)
    {
      PersonShares(bill, names[i]);
    }
    ProportionalSum(names, f, S, bill.tax, tax);
    ProportionalSum(names, f, S, bill.tip, tip);
  }

  /** What the people owe together: the assigned subtotal plus the whole tax
      and tip when that subtotal is positive, the subtotal alone otherwise. */
  lemma OwedTotal(bill: BillData)
    ensures var S := AssignedSubtotal(bill.items);
      Sum(Breakdown(bill), TotalOwedOf) == if S > 0.0 then S + bill.tax + bill.tip else S
  {
    var b := Breakdown(bill);
    var taxAndTip := (p: PersonSummary) => p.taxShare + p.tipShare;
    forall i | 0 <= i < |b| ensures b[i].totalOwed == b[i].itemsTotal + taxAndTip(b[i]) {
      BreakdownRecords(bill, i);
      SettleRecord(Accrued(People(bill.items)[i], b[i].itemsTotal), TotalAssigned(bill.items), bill.tax, bill.tip);
    }
    SumAdd(b, ItemsTotalOf, taxAndTip, TotalOwedOf);
    SumAdd(b, TaxShareOf, TipShareOf, taxAndTip);
    BreakdownItemsTotals(bill);
    TaxAndTipDistributed(bill);
    ItemsTotalConservation(bill.items);
  }
}
