/** Worked cases of the cost breakdown, including the two ways the bill view
    matches names: surrounding whitespace is ignored, letter case is not, and
    a name listed twice on one item is paid twice. */
module AllocationExamples {
  import opened BillTypes
  import opened Text
  import opened AllocationSpec

  /** A name listed twice on one item takes both halves of its price. */
  lemma DuplicateEntryPaysTwice(id: string, description: string, price: real, name: string)
    ensures ItemShare(BillItem(id, description, price, [name, name]), Trim(name)) == price
  {
    var item := BillItem(id, description, price, [name, name]);
    var w := TrimAll(item.assignedTo);
    var ppp := PricePerPerson(item);
    assert ppp == price / 2.0;
    assert w == [Trim(name), Trim(name)];
    assert w[..1] == [Trim(name)] && w[..1][..0] == [];
    assert Accrual(w[..1], Trim(name), ppp) == ppp;
    assert Accrual(w, Trim(name), ppp) == ppp + ppp;
  }

  /** Two items with one name each: one person when the names trim alike,
      otherwise two, in receipt order. */
  lemma PeopleOfTwo(i: BillItem, j: BillItem, x: string, y: string)
    requires i.assignedTo == [x] && j.assignedTo == [y]
    ensures People([i, j]) == if Trim(x) == Trim(y) then [Trim(x)] else [Trim(x), Trim(y)]
  {
    var items := [i, j];
    assert items[..1] == [i] && [i][..0] == [];
    assert TrimAll([x]) == [Trim(x)] && TrimAll([y]) == [Trim(y)];
    assert Entries([i]) == [Trim(x)];
    var e := Entries(items);
    assert e == [Trim(x), Trim(y)];
    assert e[..1] == [Trim(x)] && [Trim(x)][..0] == [];
    assert Dedup([Trim(x)]) == [Trim(x)];
    assert Dedup(e) == if Trim(y) in [Trim(x)] then [Trim(x)] else [Trim(x)] + [Trim(y)];
  }

  /** " Tom" and "Tom" are one person; "tom" and "Tom" are two. */
  lemma PaddingMergesCaseSeparates(price: real)
    ensures People([BillItem("1", "Burger", price, [" Tom"]), BillItem("2", "Fries", price, ["Tom"])]) == ["Tom"]
    ensures People([BillItem("1", "Burger", price, ["tom"]), BillItem("2", "Fries", price, ["Tom"])]) == ["tom", "Tom"]
  {
    TrimIgnoresPadding(" ", "Tom", "");
    assert " Tom" == " " + "Tom" + "";
    TrimKeepsTrimmed("Tom");
    TrimKeepsTrimmed("tom");
    PeopleOfTwo(BillItem("1", "Burger", price, [" Tom"]), BillItem("2", "Fries", price, ["Tom"]), " Tom", "Tom");
    PeopleOfTwo(BillItem("1", "Burger", price, ["tom"]), BillItem("2", "Fries", price, ["Tom"]), "tom", "Tom");
  }

  /** The two diners' entries: Tom, then Tom and Amy. */
  lemma TwoDinersEntries(i1: BillItem, i2: BillItem, t: string, a: string)
    requires Trimmed(t) && Trimmed(a)
    requires i1.assignedTo == [t] && i2.assignedTo == [t, a]
    ensures Entries([i1, i2]) == [t, t, a]
  {
    var items := [i1, i2];
    TrimKeepsTrimmed(t);
    TrimKeepsTrimmed(a);
    assert TrimAll([t]) == [t] && TrimAll([t, a]) == [t, a];
    assert items[..1] == [i1] && [i1][..0] == [];
    assert Entries([i1]) == [t];
  }

  /** A repeated name is kept once, where it first appeared. */
  lemma DedupRepeat(t: string, a: string)
    requires t != a
    ensures Dedup([t, t, a]) == [t, a]
  {
    var e := [t, t, a];
    assert e[..2] == [t, t] && [t, t][..1] == [t] && [t][..0] == [];
    assert Dedup([t]) == [t];
    assert Dedup([t, t]) == [t];
  }

  /** The two diners' names, first-seen order. */
  lemma TwoDinersPeople(i1: BillItem, i2: BillItem, t: string, a: string)
    requires Trimmed(t) && Trimmed(a) && t != a
    requires i1.assignedTo == [t] && i2.assignedTo == [t, a]
    ensures People([i1, i2]) == [t, a]
  {
    TwoDinersEntries(i1, i2, t, a);
    DedupRepeat(t, a);
  }

  /** The two diners' items totals: Tom has the burger and half the wine, Amy the other half. */
  lemma TwoDinersTotals(i1: BillItem, i2: BillItem, t: string, a: string)
    requires Trimmed(t) && Trimmed(a) && t != a
    requires i1 == BillItem("i1", "Burger", 10.0, [t]) && i2 == BillItem("i2", "Wine", 20.0, [t, a])
    ensures ItemsTotal([i1, i2], t) == 20.0 && ItemsTotal([i1, i2], a) == 10.0
    ensures TotalAssigned([i1, i2]) == 30.0
  {
    var items := [i1, i2];
    TrimKeepsTrimmed(t);
    TrimKeepsTrimmed(a);
    assert TrimAll([t]) == [t] && TrimAll([t, a]) == [t, a];
    assert items[..1] == [i1] && [i1][..0] == [];
    assert [t, a][..1] == [t] && [t][..0] == [];
    assert PricePerPerson(i1) == 10.0 && PricePerPerson(i2) == 10.0;
    assert Accrual([t], t, 10.0) == 10.0 && Accrual([t], a, 10.0) == 0.0;
    assert ItemShare(i1, t) == 10.0 && ItemShare(i1, a) == 0.0;
    assert Accrual([t, a], t, 10.0) == 10.0 && Accrual([t, a], a, 10.0) == 10.0;
    assert ItemShare(i2, t) == 10.0 && ItemShare(i2, a) == 10.0;
    assert Entries([i1]) == [t];
    ItemsTotalUnseen([i1], a);
    assert ItemsTotal([i1], t) == 10.0;
    ItemsTotalConservation(items);
    assert AssignedSubtotal([i1]) == 10.0;
  }

  /** The two-diner receipt: a 10 burger for Tom, a 20 wine shared by Tom and
      Amy, tax 3 and tip 5. Tom owes 20 + 2 + 10/3, Amy 10 + 1 + 5/3. */
  lemma TwoDiners(t: string, a: string, currency: string)
    requires Trimmed(t) && Trimmed(a) && t != a
    ensures var bill := BillData([BillItem("i1", "Burger", 10.0, [t]), BillItem("i2", "Wine", 20.0, [t, a])],
                                 30.0, 3.0, 5.0, 38.0, currency);
      Breakdown(bill) == [PersonSummary(t, 20.0, 2.0, 10.0 / 3.0, 76.0 / 3.0),
                          PersonSummary(a, 10.0, 1.0, 5.0 / 3.0, 38.0 / 3.0)]
  {
    var i1, i2 := BillItem("i1", "Burger", 10.0, [t]), BillItem("i2", "Wine", 20.0, [t, a]);
    var bill := BillData([i1, i2], 30.0, 3.0, 5.0, 38.0, currency);
    TwoDinersPeople(i1, i2, t, a);
    TwoDinersTotals(i1, i2, t, a);
    BreakdownRecords(bill, 0);
    BreakdownRecords(bill, 1);
    SettleRecord(Accrued(t, 20.0), 30.0, 3.0, 5.0);
    SettleRecord(Accrued(a, 10.0), 30.0, 3.0, 5.0);
  }
}
