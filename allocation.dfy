/** The bill view's `summary` computation as the loops it is written with: one
    pass over the items filling an insertion-ordered map of people, a reduce
    over the map's records, a pass settling each record, and the copy of the
    map's values into an array. Each step is proved against the functions of
    `AllocationSpec`. */
module Allocation {
  import opened BillTypes
  import opened Text
  import opened AllocationSpec

  /** The first pass's state after `items`: the map holds a record for exactly
      the keys, the keys are the people in first-seen order, and each record
      carries its name and the items total accrued so far. */
  ghost predicate Accrues(items: seq<BillItem>, keys: seq<string>, peopleMap: map<string, PersonSummary>)
  {
    && keys == People(items)
    && (forall n :: n in peopleMap <==> n in keys)
    && (forall n :: n in peopleMap ==> peopleMap[n] == Accrued(n, ItemsTotal(items, n)))
  }

  lemma PrefixStep(items: seq<BillItem>, i: nat)
    requires i < |items|
    ensures var s := items[..i + 1];
      && s[..|s| - 1] == items[..i] && s[|s| - 1] == items[i]
      && Entries(s) == Entries(items[..i]) + TrimAll(items[i].assignedTo)
      && (forall n :: ItemsTotal(s, n) == ItemsTotal(items[..i], n) + ItemShare(items[i], n))
      && Unassigned(s) == Unassigned(items[..i]) + (if |items[i].assignedTo| == 0 then [items[i]] else [])
  {
    assert items[..i + 1][..i] == items[..i];
  }

  /** Appending one name to a sequence adds it to the deduplicated order
      exactly when it is new. */
  lemma DedupSnoc(s: seq<string>, x: string)
    ensures Dedup(s + [x]) == if x in s then Dedup(s) else Dedup(s) + [x]
  {
    assert (s + [x])[..|s + [x]| - 1] == s;
  }

  /** A name's items total in the map before the current item: 0 when it has no record yet. */
  ghost function Before(map0: map<string, PersonSummary>, name: string): real
  {
    if name in map0 then map0[name].itemsTotal else 0.0
  }

  /** A name's items total after the trimmed names `w` of the current item. */
  ghost function Running(map0: map<string, PersonSummary>, w: seq<string>, pricePerPerson: real, name: string): real
  {
    Before(map0, name) + Accrual(w, name, pricePerPerson)
  }

  /** The inner loop's state after the trimmed names `w`, on top of the keys
      `seen0` and records `map0` the earlier items left. */
  ghost predicate AccruesNames(seen0: seq<string>, map0: map<string, PersonSummary>, w: seq<string>,
                               pricePerPerson: real, keys: seq<string>, peopleMap: map<string, PersonSummary>)
  {
    && (forall n :: n in map0 ==> n in seen0)
    && keys == Dedup(seen0 + w)
    && (forall n :: n in peopleMap <==> n in keys)
    && (forall n :: n in peopleMap ==>
          peopleMap[n] == Accrued(n, Running(map0, w, pricePerPerson, n)))
  }

  /** One step of the inner loop: a new name gets a zero record and a key at
      the end, then the name's record gains `pricePerPerson`. */
  lemma NameStep(seen0: seq<string>, map0: map<string, PersonSummary>, w: seq<string>, name: string, w': seq<string>,
                 pricePerPerson: real,
                 keys: seq<string>, peopleMap: map<string, PersonSummary>,
                 keys': seq<string>, created: map<string, PersonSummary>, p: PersonSummary,
                 peopleMap': map<string, PersonSummary>)
    requires AccruesNames(seen0, map0, w, pricePerPerson, keys, peopleMap)
    requires w' == w + [name]
    requires keys' == (if name in peopleMap then keys else keys + [name])
    requires created == (if name in peopleMap then peopleMap else peopleMap[name := PersonSummary(name, 0.0, 0.0, 0.0, 0.0)])
    requires name in created && p == created[name]
    requires peopleMap' == created[name := p.(itemsTotal := p.itemsTotal + pricePerPerson)]
    ensures AccruesNames(seen0, map0, w', pricePerPerson, keys', peopleMap')
  {
    KeysStep(seen0, w, name, w', keys, keys');
    DomainStep(name, pricePerPerson, keys, peopleMap, keys', created, p, peopleMap');
    if name !in peopleMap {
      assert name !in seen0 + w;
      AccrualAbsent(w, name, pricePerPerson);
      assert Running(map0, w, pricePerPerson, name) == 0.0;
    }
    RecordsStep(map0, w, name, w', pricePerPerson, peopleMap, created, p, peopleMap');
  }

  /** The records after one step of the inner loop: `name`'s running total
      grows by `pricePerPerson`, every other record stays. */
  lemma RecordsStep(map0: map<string, PersonSummary>, w: seq<string>, name: string, w': seq<string>, pricePerPerson: real,
                    peopleMap: map<string, PersonSummary>, created: map<string, PersonSummary>,
                    p: PersonSummary, peopleMap': map<string, PersonSummary>)
    requires w' == w + [name]
    requires forall n :: n in peopleMap ==> peopleMap[n] == Accrued(n, Running(map0, w, pricePerPerson, n))
    requires name !in peopleMap ==> Running(map0, w, pricePerPerson, name) == 0.0
    requires created == (if name in peopleMap then peopleMap else peopleMap[name := PersonSummary(name, 0.0, 0.0, 0.0, 0.0)])
    requires name in created && p == created[name]
    requires peopleMap' == created[name := p.(itemsTotal := p.itemsTotal + pricePerPerson)]
    ensures forall n :: n in peopleMap' ==> peopleMap'[n] == Accrued(n, Running(map0, w', pricePerPerson, n))
  {
    forall n | n in peopleMap'
      ensures peopleMap'[n] == Accrued(n, Running(map0, w', pricePerPerson, n))
    {
      RecordStep(map0, w, name, w', pricePerPerson, peopleMap, created, p, peopleMap', n);
    }
  }

  /** The keys after one step of the inner loop: a name joins the order the
      first time it is seen. */
  lemma KeysStep(seen0: seq<string>, w: seq<string>, name: string, w': seq<string>, keys: seq<string>, keys': seq<string>)
    requires keys == Dedup(seen0 + w) && w' == w + [name]
    requires keys' == (if name in keys then keys else keys + [name])
    ensures keys' == Dedup(seen0 + w')
  {
    AppendSnoc(seen0, w, name);
    DedupSnoc(seen0 + w, name);
  }

  /** After one step of the inner loop the map still holds a record for exactly the keys. */
  lemma DomainStep(name: string, pricePerPerson: real, keys: seq<string>, peopleMap: map<string, PersonSummary>,
                   keys': seq<string>, created: map<string, PersonSummary>, p: PersonSummary,
                   peopleMap': map<string, PersonSummary>)
    requires forall n :: n in peopleMap <==> n in keys
    requires keys' == (if name in peopleMap then keys else keys + [name])
    requires created == (if name in peopleMap then peopleMap else peopleMap[name := PersonSummary(name, 0.0, 0.0, 0.0, 0.0)])
    requires peopleMap' == created[name := p.(itemsTotal := p.itemsTotal + pricePerPerson)]
    ensures forall n :: n in peopleMap' <==> n in keys'
  {
  }

  /** `RecordsStep` for one name `n`. */
  lemma RecordStep(map0: map<string, PersonSummary>, w: seq<string>, name: string, w': seq<string>, pricePerPerson: real,
                   peopleMap: map<string, PersonSummary>, created: map<string, PersonSummary>,
                   p: PersonSummary, peopleMap': map<string, PersonSummary>, n: string)
    requires w' == w + [name]
    requires forall n :: n in peopleMap ==> peopleMap[n] == Accrued(n, Running(map0, w, pricePerPerson, n))
    requires name !in peopleMap ==> Running(map0, w, pricePerPerson, name) == 0.0
    requires created == (if name in peopleMap then peopleMap else peopleMap[name := PersonSummary(name, 0.0, 0.0, 0.0, 0.0)])
    requires name in created && p == created[name]
    requires peopleMap' == created[name := p.(itemsTotal := p.itemsTotal + pricePerPerson)]
    requires n in peopleMap'
    ensures peopleMap'[n] == Accrued(n, Running(map0, w', pricePerPerson, n))
  {
    AccrualSnoc(w, name, n, pricePerPerson);
  }

  /** Names trimmed one by one are the trimmed names. */
  lemma TrimAllIs(a: seq<string>, w: seq<string>)
    requires |w| == |a| && forall k :: 0 <= k < |a| ==> w[k] == Trim(a[k])
    ensures w == TrimAll(a)
  {
  }

  lemma AppendSnoc(s: seq<string>, w: seq<string>, x: string)
    ensures s + (w + [x]) == (s + w) + [x]
  {
  }

  lemma AccrualSnoc(w: seq<string>, x: string, name: string, amount: real)
    ensures Accrual(w + [x], name, amount) == Accrual(w, name, amount) + (if x == name then amount else 0.0)
  {
    assert (w + [x])[..|w|] == w;
  }

  /** The inner `forEach` over one assigned item's names: each name is trimmed,
      gets a zero record the first time it is seen, and gains `pricePerPerson`. */
  method AccrueItem(prefix: seq<BillItem>, item: BillItem, keys0: seq<string>, map0: map<string, PersonSummary>)
    returns (keys: seq<string>, peopleMap: map<string, PersonSummary>)
    requires |item.assignedTo| > 0
    requires Accrues(prefix, keys0, map0)
    ensures Accrues(prefix + [item], keys, peopleMap)
  {
    var splitCount := |item.assignedTo|;
    var pricePerPerson := item.price / splitCount as real;
    keys, peopleMap := keys0, map0;
    var a := item.assignedTo;
    ghost var seen0 := Entries(prefix);
    ghost var w: seq<string> := [];
    var j := 0;
    AccrueStart(prefix, pricePerPerson, keys, peopleMap);
    while j < |a|
      invariant 0 <= j <= |a|
      invariant |w| == j && forall k {:trigger w[k]} :: 0 <= k < j ==> w[k] == Trim(a[k])
      invariant AccruesNames(seen0, map0, w, pricePerPerson, keys, peopleMap)
    {
      var name := Trim(a[j]);
      ghost var keysBefore, mapBefore := keys, peopleMap;
      if name !in peopleMap {
        peopleMap := peopleMap[name := PersonSummary(name, 0.0, 0.0, 0.0, 0.0)];
        keys := keys + [name];
      }
      ghost var created := peopleMap;
      var p := peopleMap[name];
      peopleMap := peopleMap[name := p.(itemsTotal := p.itemsTotal + pricePerPerson)];
      ghost var w' := w + [name];
      NameStep(seen0, map0, w, name, w', pricePerPerson, keysBefore, mapBefore, keys, created, p, peopleMap);
      w := w';
      j := j + 1;
    }
    TrimAllIs(a, w);
    AccrueFinish(prefix, item, pricePerPerson, keys0, map0, keys, peopleMap);
  }

  lemma AccrueStart(prefix: seq<BillItem>, pricePerPerson: real,
                    keys: seq<string>, peopleMap: map<string, PersonSummary>)
    requires Accrues(prefix, keys, peopleMap)
    ensures AccruesNames(Entries(prefix), peopleMap, [], pricePerPerson, keys, peopleMap)
  {
    assert Entries(prefix) + [] == Entries(prefix);
    forall n | n in peopleMap ensures peopleMap[n] == Accrued(n, Running(peopleMap, [], pricePerPerson, n)) {
      assert Running(peopleMap, [], pricePerPerson, n) == peopleMap[n].itemsTotal;
    }
  }

  lemma AccrueFinish(prefix: seq<BillItem>, item: BillItem, pricePerPerson: real,
                     keys0: seq<string>, map0: map<string, PersonSummary>,
                     keys: seq<string>, peopleMap: map<string, PersonSummary>)
    requires |item.assignedTo| > 0 && pricePerPerson == item.price / |item.assignedTo| as real
    requires Accrues(prefix, keys0, map0)
    requires AccruesNames(Entries(prefix), map0, TrimAll(item.assignedTo), pricePerPerson, keys, peopleMap)
    ensures Accrues(prefix + [item], keys, peopleMap)
  {
    var items := prefix + [item];
    assert items[..|prefix|] == prefix && items[..|prefix| + 1] == items;
    PrefixStep(items, |prefix|);
    forall n | n in peopleMap ensures peopleMap[n] == Accrued(n, ItemsTotal(items, n)) {
      if n !in map0 {
        ItemsTotalUnseen(prefix, n);
      }
    }
  }

  /** An unassigned item leaves the map as it was. */
  lemma SkipUnassigned(items: seq<BillItem>, i: nat, keys: seq<string>, peopleMap: map<string, PersonSummary>)
    requires i < |items| && items[i].assignedTo == []
    requires Accrues(items[..i], keys, peopleMap)
    ensures Accrues(items[..i + 1], keys, peopleMap)
  {
    PrefixStep(items, i);
    assert TrimAll(items[i].assignedTo) == [];
    assert Entries(items[..i + 1]) == Entries(items[..i]);
  }

  /** The outer `forEach` over the items: unassigned items are set aside in
      receipt order, assigned ones are split among their names. */
  method AccrueItems(items: seq<BillItem>)
    returns (keys: seq<string>, peopleMap: map<string, PersonSummary>, unassigned: seq<BillItem>)
    ensures Accrues(items, keys, peopleMap)
    ensures unassigned == Unassigned(items)
  {
    keys, peopleMap, unassigned := [], map[], [];
    var i := 0;
    while i < |items|
      invariant 0 <= i <= |items|
      invariant Accrues(items[..i], keys, peopleMap)
      invariant unassigned == Unassigned(items[..i])
    {
      var item := items[i];
      PrefixStep(items, i);
      if |item.assignedTo| == 0 {
        unassigned := unassigned + [item];
        SkipUnassigned(items, i, keys, peopleMap);
      } else {
        keys, peopleMap := AccrueItem(items[..i], item, keys, peopleMap);
        assert items[..i] + [item] == items[..i + 1];
      }
      i := i + 1;
    }
    assert items[..i] == items;
  }

  /** `totalAssignedSubtotal`: the reduce adding up every record's `itemsTotal`. */
  method ReduceItemsTotals(items: seq<BillItem>, keys: seq<string>, peopleMap: map<string, PersonSummary>)
    returns (total: real)
    requires Accrues(items, keys, peopleMap)
    ensures total == TotalAssigned(items)
  {
    ghost var f := n => ItemsTotal(items, n);
    total := 0.0;
    var k := 0;
    while k < |keys|
      invariant 0 <= k <= |keys|
      invariant total == Sum(keys[..k], f)
    {
      assert keys[..k + 1][..k] == keys[..k];
      assert keys[k] in keys;
      total := total + peopleMap[keys[k]].itemsTotal;
      k := k + 1;
    }
    assert keys[..k] == keys;
    TotalAssignedIs(items, f);
  }

  /** The second `forEach`: every record gets its tax and tip shares and its
      total, in key order. */
  method SettleAll(bill: BillData, keys: seq<string>, map0: map<string, PersonSummary>, total: real)
    returns (peopleMap: map<string, PersonSummary>)
    requires NoDuplicates(keys)
    requires forall n :: n in map0 <==> n in keys
    requires forall n :: n in map0 ==> map0[n] == Accrued(n, ItemsTotal(bill.items, n))
    requires total == TotalAssigned(bill.items)
    ensures forall n :: n in peopleMap <==> n in keys
    ensures forall n :: n in peopleMap ==> peopleMap[n] == PersonFor(bill, n)
  {
    peopleMap := map0;
    var k := 0;
    while k < |keys|
      invariant 0 <= k <= |keys|
      invariant forall n :: n in peopleMap <==> n in keys
      invariant forall t :: 0 <= t < k ==> peopleMap[keys[t]] == PersonFor(bill, keys[t])
      invariant forall t :: k <= t < |keys| ==> peopleMap[keys[t]] == map0[keys[t]]
    {
      var p := peopleMap[keys[k]];
      peopleMap := peopleMap[keys[k] := Settle(p, total, bill.tax, bill.tip)];
      k := k + 1;
    }
    forall n | n in peopleMap ensures peopleMap[n] == PersonFor(bill, n) {
      var t :| 0 <= t < |keys| && keys[t] == n;
    }
  }

  /** `Array.from(peopleMap.values())`: the records in key order. */
  method Values(keys: seq<string>, peopleMap: map<string, PersonSummary>) returns (people: seq<PersonSummary>)
    requires forall n :: n in keys ==> n in peopleMap
    ensures |people| == |keys|
    ensures forall t :: 0 <= t < |keys| ==> people[t] == peopleMap[keys[t]]
  {
    people := [];
    var k := 0;
    while k < |keys|
      invariant 0 <= k <= |keys|
      invariant |people| == k
      invariant forall t :: 0 <= t < k ==> people[t] == peopleMap[keys[t]]
    {
      people := people + [peopleMap[keys[k]]];
      k := k + 1;
    }
  }

  /** The bill view's `summary`: one record per person in first-seen order,
      and the unassigned items in receipt order. */
  method Summarize(bill: BillData) returns (people: seq<PersonSummary>, unassigned: seq<BillItem>)
    ensures people == Breakdown(bill)
    ensures unassigned == Unassigned(bill.items)
  {
    var keys, peopleMap;
    keys, peopleMap, unassigned := AccrueItems(bill.items);
    var total := ReduceItemsTotals(bill.items, keys, peopleMap);
    peopleMap := SettleAll(bill, keys, peopleMap, total);
    people := Values(keys, peopleMap);
  }
}
