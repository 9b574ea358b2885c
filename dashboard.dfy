/** The two dashboard aggregations: the per-state histogram of `home` and the
    cross-order material totals of `report_dashboard`. */
module Dashboard {
  import opened Basics
  import opened Models
  import opened Materials

  // ---------------------------------------------------------------------------
  // The per-state histogram of `home`
  // ---------------------------------------------------------------------------

  /** One row of the grouped query `values('stato').annotate(count=Count('id'))`:
      a stored state code and the number of orders carrying it. */
  datatype StatusGroup = StatusGroup(code: string, count: nat)

  /** The count the last group with `code` reports, or 0 when no group has it. */
  function LastCount(groups: seq<StatusGroup>, code: string): nat
  {
    if groups == [] then 0
    else if groups[|groups| - 1].code == code then groups[|groups| - 1].count
    else LastCount(groups[..|groups| - 1], code)
  }

  /** The histogram of `home`: every one of the five state codes is a key,
      starting at 0; a group whose code is one of them overwrites its entry,
      and a group with any other code is ignored. */
  method StatusHistogram(groups: seq<StatusGroup>) returns (h: map<string, nat>)
    ensures h.Keys == StatusCodes()
    ensures forall c | c in h :: h[c] == LastCount(groups, c)
  {
    h := map c | c in StatusCodes() :: 0;
    for i := 0 to |groups|
      invariant h.Keys == StatusCodes()
      invariant forall c | c in h :: h[c] == LastCount(groups[..i], c)
    {
      var g := groups[i];
      assert groups[..i + 1][..i] == groups[..i];
      if g.code in h {
        h := h[g.code := g.count];
      }
    }
    assert groups[..|groups|] == groups;
  }

  /** `groups` is what the database returns for the stored state codes `codes`:
      one group per distinct code, carrying how many orders have it. */
  ghost predicate GroupedFrom(groups: seq<StatusGroup>, codes: seq<string>)
  {
    && (forall i, j | 0 <= i < j < |groups| :: groups[i].code != groups[j].code)
    && (forall i | 0 <= i < |groups| :: groups[i].count == multiset(codes)[groups[i].code])
    && (forall c | c in codes :: exists i :: 0 <= i < |groups| && groups[i].code == c)
  }

  lemma {:induction false} LastCountAt(groups: seq<StatusGroup>, i: nat)
    requires i < |groups|
    requires forall a, b | 0 <= a < b < |groups| :: groups[a].code != groups[b].code
    ensures LastCount(groups, groups[i].code) == groups[i].count
  {
    var n := |groups| - 1;
    if i < n {
      assert groups[n].code != groups[i].code;
      LastCountAt(groups[..n], i);
    }
  }

  lemma {:induction false} LastCountAbsent(groups: seq<StatusGroup>, code: string)
    requires forall i | 0 <= i < |groups| :: groups[i].code != code
    ensures LastCount(groups, code) == 0
  {
    if groups != [] {
      LastCountAbsent(groups[..|groups| - 1], code);
    }
  }

  /** When the groups come from the stored orders, the count the histogram
      shows for a state is the number of orders in that state. */
  lemma HistogramCountsOrders(groups: seq<StatusGroup>, codes: seq<string>, c: string)
    requires GroupedFrom(groups, codes)
    ensures LastCount(groups, c) == multiset(codes)[c]
  {
    if i :| 0 <= i < |groups| && groups[i].code == c {
      LastCountAt(groups, i);
    } else {
      LastCountAbsent(groups, c);
      assert c !in codes;
    }
  }

  // ---------------------------------------------------------------------------
  // The material totals of `report_dashboard`
  // ---------------------------------------------------------------------------

  /** The three running totals kept per material (`tot_altezza`,
      `tot_larghezza`, `unita_prodotte`). */
  datatype Totals = Totals(height: int, width: int, units: int)

  /** A per-order material entry as the dashboard reads it; each field may be
      missing, and a missing field reads as 0 (`get(field, 0)`). */
  datatype Entry = Entry(height: Option<int>, width: Option<int>, units: Option<int>)

  /** An order as the dashboard sees it: its state and its material entries. */
  datatype OrderNeeds = OrderNeeds(status: Status, needs: map<MaterialKey, Entry>)

  /** The orders the dashboard counts: neither completed nor cancelled. */
  predicate Active(s: Status)
  {
    s != Completato && s != Annullato
  }

  function OrZero(x: Option<int>): int
  {
    if x.Some? then x.value else 0
  }

  const NoTotals := Totals(0, 0, 0)

  /** `setdefault(key, {... 0 ...})`: the running totals of `k`, zero when absent. */
  function TotalsOf(acc: map<MaterialKey, Totals>, k: MaterialKey): Totals
  {
    if k in acc then acc[k] else NoTotals
  }

  /** The three `+=` of one entry. */
  function Plus(t: Totals, e: Entry): Totals
  {
    Totals(t.height + OrZero(e.height), t.width + OrZero(e.width), t.units + OrZero(e.units))
  }

  /** The running totals after one order's entries have been added. */
  function AddNeeds(acc: map<MaterialKey, Totals>, needs: map<MaterialKey, Entry>): map<MaterialKey, Totals>
  {
    map k | k in acc.Keys + needs.Keys :: if k in needs then Plus(TotalsOf(acc, k), needs[k]) else acc[k]
  }

  /** `materiali_da_ordinare` after the orders have been visited in turn. */
  function Merged(orders: seq<OrderNeeds>): map<MaterialKey, Totals>
  {
    if orders == [] then map[]
    else
      var acc, o := Merged(orders[..|orders| - 1]), orders[|orders| - 1];
      if Active(o.status) then AddNeeds(acc, o.needs) else acc
  }

  datatype Field = Height | Width | Units

  function Read(e: Entry, f: Field): int
  {
    match f
    case Height => OrZero(e.height)
    case Width => OrZero(e.width)
    case Units => OrZero(e.units)
  }

  /** What an order adds to field `f` of material `k`. */
  function Share(k: MaterialKey, f: Field): OrderNeeds -> int
  {
    (o: OrderNeeds) => if Active(o.status) && k in o.needs then Read(o.needs[k], f) else 0
  }

  function FieldTotal(orders: seq<OrderNeeds>, k: MaterialKey, f: Field): int
  {
    SumOf(orders, Share(k, f))
  }

  /** The reference for one material: each field summed over the active orders that list it. */
  function KeyTotals(orders: seq<OrderNeeds>, k: MaterialKey): Totals
  {
    Totals(FieldTotal(orders, k, Height), FieldTotal(orders, k, Width), FieldTotal(orders, k, Units))
  }

  function ActiveKeys(orders: seq<OrderNeeds>): set<MaterialKey>
  {
    set o, k | o in orders && Active(o.status) && k in o.needs :: k
  }

  lemma ActiveKeysSnoc(orders: seq<OrderNeeds>, o: OrderNeeds)
    ensures ActiveKeys(orders + [o]) == ActiveKeys(orders) + if Active(o.status) then o.needs.Keys else {}
  {
    forall x
      ensures x in orders + [o] <==> x in orders || x == o
    {
    }
  }

  lemma FieldTotalOutside(orders: seq<OrderNeeds>, k: MaterialKey, f: Field)
    requires k !in ActiveKeys(orders)
    ensures FieldTotal(orders, k, f) == 0
  {
    forall i | 0 <= i < |orders|
      ensures Share(k, f)(orders[i]) == 0
    {
      assert orders[i] in orders;
    }
    SumOfZero(orders, Share(k, f));
  }

  lemma KeyTotalsSnoc(orders: seq<OrderNeeds>, o: OrderNeeds, k: MaterialKey)
    ensures KeyTotals(orders + [o], k) ==
              if Active(o.status) && k in o.needs then Plus(KeyTotals(orders, k), o.needs[k]) else KeyTotals(orders, k)
  {
    SumOfSnoc(orders, o, Share(k, Height));
    SumOfSnoc(orders, o, Share(k, Width));
    SumOfSnoc(orders, o, Share(k, Units));
  }

  /** What the dashboard dictionary means: its keys are the materials some
      active order lists, and each holds, field by field, the sum over the
      active orders listing it (a missing field counted as 0). */
  lemma {:induction false} MergedMeaning(orders: seq<OrderNeeds>)
    ensures Merged(orders).Keys == ActiveKeys(orders)
    ensures forall k | k in Merged(orders) :: Merged(orders)[k] == KeyTotals(orders, k)
  {
    if orders != [] {
      var n := |orders| - 1;
      var init, o := orders[..n], orders[n];
      assert orders == init + [o];
      MergedMeaning(init);
      ActiveKeysSnoc(init, o);
      forall k | k in Merged(orders)
        ensures Merged(orders)[k] == KeyTotals(orders, k)
      {
        KeyTotalsSnoc(init, o, k);
        if k !in ActiveKeys(init) {
          FieldTotalOutside(init, k, Height);
          FieldTotalOutside(init, k, Width);
          FieldTotalOutside(init, k, Units);
        }
      }
    }
  }

  /** The entries of `needs` outside `todo` have been added to `acc`. */
  ghost predicate PartlyAdded(r: map<MaterialKey, Totals>, acc: map<MaterialKey, Totals>, needs: map<MaterialKey, Entry>, todo: set<MaterialKey>)
  {
    && todo <= needs.Keys
    && r.Keys == acc.Keys + (needs.Keys - todo)
    && forall k | k in r :: r[k] == if k in needs && k !in todo then Plus(TotalsOf(acc, k), needs[k]) else acc[k]
  }

  lemma AddStep(r: map<MaterialKey, Totals>, acc: map<MaterialKey, Totals>, needs: map<MaterialKey, Entry>, todo: set<MaterialKey>, k: MaterialKey)
    requires PartlyAdded(r, acc, needs, todo) && k in todo
    ensures PartlyAdded(r[k := Plus(TotalsOf(r, k), needs[k])], acc, needs, todo - {k})
  {
    var r', todo' := r[k := Plus(TotalsOf(r, k), needs[k])], todo - {k};
    assert TotalsOf(r, k) == TotalsOf(acc, k);
    assert r'.Keys == acc.Keys + (needs.Keys - todo') by {
      assert r'.Keys == r.Keys + {k};
      assert needs.Keys - todo' == (needs.Keys - todo) + {k};
    }
    forall j | j in r'
      ensures r'[j] == if j in needs && j !in todo' then Plus(TotalsOf(acc, j), needs[j]) else acc[j]
    {
      if j != k {
        assert r'[j] == r[j];
      }
    }
  }

  lemma AddDone(r: map<MaterialKey, Totals>, acc: map<MaterialKey, Totals>, needs: map<MaterialKey, Entry>)
    requires PartlyAdded(r, acc, needs, {})
    ensures r == AddNeeds(acc, needs)
  {
    MapsEqual(r, AddNeeds(acc, needs));
  }

  /** The inner loop of `report_dashboard`: each entry of one order is added
      to the running totals of its key. */
  method AddOrder(acc: map<MaterialKey, Totals>, needs: map<MaterialKey, Entry>) returns (r: map<MaterialKey, Totals>)
    ensures r == AddNeeds(acc, needs)
  {
    r := acc;
    var todo := needs.Keys;
    while todo != {}
      invariant PartlyAdded(r, acc, needs, todo)
      decreases todo
    {
      var k :| k in todo;
      var e := needs[k];
      var t := TotalsOf(r, k);
      t := t.(height := t.height + OrZero(e.height));
      t := t.(width := t.width + OrZero(e.width));
      t := t.(units := t.units + OrZero(e.units));
      AddStep(r, acc, needs, todo, k);
      r := r[k := t];
      todo := todo - {k};
    }
    AddDone(r, acc, needs);
  }

  /** The material part of `report_dashboard`: the per-order entries of every
      active order, merged key by key. */
  method MaterialsToOrder(orders: seq<OrderNeeds>) returns (acc: map<MaterialKey, Totals>)
    ensures acc == Merged(orders)
    ensures acc.Keys == ActiveKeys(orders)
    ensures forall k | k in acc :: acc[k] == KeyTotals(orders, k)
  {
    acc := map[];
    for i := 0 to |orders|
      invariant acc == Merged(orders[..i])
    {
      var o := orders[i];
      assert orders[..i + 1][..i] == orders[..i];
      if Active(o.status) {
        acc := AddOrder(acc, o.needs);
      }
    }
    assert orders[..|orders|] == orders;
    MergedMeaning(orders);
  }

  /** The totals do not depend on the order the orders are visited in. */
  lemma MergedPermutation(orders: seq<OrderNeeds>, orders': seq<OrderNeeds>)
    requires multiset(orders) == multiset(orders')
    ensures Merged(orders) == Merged(orders')
  {
    MergedMeaning(orders);
    MergedMeaning(orders');
    assert forall o :: o in orders <==> o in orders' by {
      forall o
        ensures o in orders <==> o in orders'
      {
        assert o in orders <==> o in multiset(orders);
        assert o in orders' <==> o in multiset(orders');
      }
    }
    assert ActiveKeys(orders) == ActiveKeys(orders');
    forall k | k in Merged(orders)
      ensures Merged(orders)[k] == Merged(orders')[k]
    {
      SumOfPermutation(orders, orders', Share(k, Height));
      SumOfPermutation(orders, orders', Share(k, Width));
      SumOfPermutation(orders, orders', Share(k, Units));
    }
    MapsEqual(Merged(orders), Merged(orders'));
  }

  /** A completed or cancelled order changes nothing, wherever it stands. */
  lemma InactiveIgnored(before: seq<OrderNeeds>, o: OrderNeeds, after: seq<OrderNeeds>)
    requires !Active(o.status)
    ensures Merged(before + [o] + after) == Merged(before + after)
  {
    var rest := before + after;
    assert multiset(before + [o] + after) == multiset(rest + [o]);
    MergedPermutation(before + [o] + after, rest + [o]);
    assert (rest + [o])[..|rest|] == rest;
  }
}
