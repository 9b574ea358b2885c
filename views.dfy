/** The order views: folding the detail formset into one quantity per size
    (`OrdineCreateView.form_valid`, `OrdineUpdateView.form_valid`), creating an
    order from that dictionary, synchronising an existing order's lines with it,
    adding a single detail line (`DettaglioOrdineCreateView.form_valid`), and the
    two guarded state transitions (`ordine_conferma`, `ordine_annulla`). */
module OrderViews {
  import opened Basics
  import opened Models

  /** One form of the detail formset as the view sees it: whether the form
      validated, its DELETE flag, and the cleaned size and quantity (absent
      when the field was left empty). */
  datatype FormRow = FormRow(valid: bool, delete: bool, size: Option<SizeId>, quantity: Option<int>)

  /** The rows the merge loop adds up: valid, not marked DELETE, and with a size
      and a quantity that are both truthy (a quantity of 0 is skipped). */
  predicate Kept(r: FormRow)
  {
    r.valid && !r.delete && r.size.Some? && r.quantity.Some? && r.quantity.value != 0
  }

  /** What the field validator (`MinValueValidator(1)`) guarantees of a valid
      row: a quantity it carries is at least 1. */
  predicate Cleaned(r: FormRow)
  {
    r.valid && r.quantity.Some? ==> r.quantity.value >= 1
  }

  predicate AllCleaned(rows: seq<FormRow>)
  {
    forall i | 0 <= i < |rows| :: Cleaned(rows[i])
  }

  /** What a row adds to size `s`. */
  function KeptAmount(s: SizeId): FormRow -> int
  {
    r => if Kept(r) && r.size.value == s then r.quantity.value else 0
  }

  /** What a row adds to the order, whatever its size. */
  function KeptQuantity(r: FormRow): int
  {
    if Kept(r) then r.quantity.value else 0
  }

  function KeptSizes(rows: seq<FormRow>): set<SizeId>
  {
    set r | r in rows && Kept(r) :: r.size.value
  }

  function SizeTotal(rows: seq<FormRow>, s: SizeId): int
  {
    SumOf(rows, KeptAmount(s))
  }

  /** `taglie_aggregate` after the rows have been folded in, in formset order:
      a kept row adds its quantity to what its size already holds (`get(taglia, 0)`). */
  function Merged(rows: seq<FormRow>): map<SizeId, int>
  {
    if rows == [] then map[]
    else
      var m, r := Merged(rows[..|rows| - 1]), rows[|rows| - 1];
      if Kept(r) then m[r.size.value := GetOrZero(m, r.size.value) + r.quantity.value] else m
  }

  predicate Distinct(q: seq<SizeId>)
  {
    forall i, j | 0 <= i < j < |q| :: q[i] != q[j]
  }

  /** The position of the first kept row naming size `s`, or `|rows|` when none does:
      the moment the merge loop inserts `s` into the dictionary. */
  function FirstKept(rows: seq<FormRow>, s: SizeId): (p: nat)
    ensures p <= |rows|
    ensures p < |rows| ==> Kept(rows[p]) && rows[p].size.value == s
    ensures forall q | 0 <= q < p :: !(Kept(rows[q]) && rows[q].size.value == s)
    decreases |rows|
  {
    if rows == [] then 0
    else if Kept(rows[0]) && rows[0].size.value == s then 0
    else 1 + FirstKept(rows[1..], s)
  }

  /** Keys listed in the order of their first kept row. */
  predicate InFirstKeptOrder(rows: seq<FormRow>, q: seq<SizeId>)
  {
    forall i, j | 0 <= i < j < |q| :: FirstKept(rows, q[i]) < FirstKept(rows, q[j])
  }

  lemma SizeTotalOutside(rows: seq<FormRow>, s: SizeId)
    requires s !in KeptSizes(rows)
    ensures SizeTotal(rows, s) == 0
  {
    forall i | 0 <= i < |rows|
      ensures KeptAmount(s)(rows[i]) == 0
    {
      assert rows[i] in rows;
    }
    SumOfZero(rows, KeptAmount(s));
  }

  lemma KeptSizesSnoc(rows: seq<FormRow>, r: FormRow)
    ensures KeptSizes(rows + [r]) == KeptSizes(rows) + if Kept(r) then {r.size.value} else {}
  {
    forall x
      ensures x in rows + [r] <==> x in rows || x == r
    {
    }
  }

  /** What the dictionary means: its keys are exactly the sizes named by kept
      rows, and each holds the sum of the quantities of the kept rows naming it. */
  lemma {:induction false} MergedMeaning(rows: seq<FormRow>)
    ensures Merged(rows).Keys == KeptSizes(rows)
    ensures forall s | s in Merged(rows) :: Merged(rows)[s] == SizeTotal(rows, s)
  {
    if rows != [] {
      var n := |rows| - 1;
      var init, r := rows[..n], rows[n];
      assert rows == init + [r];
      MergedMeaning(init);
      KeptSizesSnoc(init, r);
      forall s | s in Merged(rows)
        ensures Merged(rows)[s] == SizeTotal(rows, s)
      {
        SumOfSnoc(init, r, KeptAmount(s));
        if s !in KeptSizes(init) {
          SizeTotalOutside(init, s);
        }
      }
    }
  }

  /** `insertion` after the loop has visited the rows before `i`: the sizes of
      those kept rows, each once, in the order of their first kept row. */
  ghost predicate Inserted(rows: seq<FormRow>, insertion: seq<SizeId>, i: nat)
  {
    && i <= |rows|
    && Distinct(insertion)
    && (forall q | 0 <= q < i && Kept(rows[q]) :: rows[q].size.value in insertion)
    && (forall k | 0 <= k < |insertion| :: FirstKept(rows, insertion[k]) < i)
    && InFirstKeptOrder(rows, insertion)
  }

  /** The key list after one more row: a kept row with a new size appends it. */
  function Insert(insertion: seq<SizeId>, r: FormRow): seq<SizeId>
  {
    if Kept(r) && r.size.value !in insertion then insertion + [r.size.value] else insertion
  }

  /** The keys of `taglie_aggregate` in insertion order, after the rows have been folded in. */
  function InsertionOf(rows: seq<FormRow>): seq<SizeId>
  {
    if rows == [] then [] else Insert(InsertionOf(rows[..|rows| - 1]), rows[|rows| - 1])
  }

  lemma InsertStep(rows: seq<FormRow>, insertion: seq<SizeId>, i: nat)
    requires i < |rows| && Inserted(rows, insertion, i)
    ensures Inserted(rows, Insert(insertion, rows[i]), i + 1)
  {
    if Kept(rows[i]) && rows[i].size.value !in insertion {
      InsertNew(rows, insertion, i);
    }
  }

  /** A kept row whose size is not listed yet is the first kept row of that size. */
  lemma InsertNew(rows: seq<FormRow>, insertion: seq<SizeId>, i: nat)
    requires i < |rows| && Inserted(rows, insertion, i)
    requires Kept(rows[i]) && rows[i].size.value !in insertion
    ensures Inserted(rows, insertion + [rows[i].size.value], i + 1)
  {
    var s := rows[i].size.value;
    var ins := insertion + [s];
    var p := FirstKept(rows, s);
    assert p == i;
    forall a, b | 0 <= a < b < |ins|
      ensures ins[a] != ins[b] && FirstKept(rows, ins[a]) < FirstKept(rows, ins[b])
    {
      assert ins[a] == insertion[a];
      if b < |insertion| {
        assert ins[b] == insertion[b];
      }
    }
    forall k | 0 <= k < |ins|
      ensures FirstKept(rows, ins[k]) < i + 1
    {
      if k < |insertion| {
        assert ins[k] == insertion[k];
      }
    }
    forall q | 0 <= q < i + 1 && Kept(rows[q])
      ensures rows[q].size.value in ins
    {
      if q < i {
        assert rows[q].size.value in insertion;
      }
    }
  }

  lemma {:induction false} InsertionPrefix(rows: seq<FormRow>, i: nat)
    requires i <= |rows|
    ensures Inserted(rows, InsertionOf(rows[..i]), i)
  {
    if i > 0 {
      InsertionPrefix(rows, i - 1);
      assert rows[..i][..i - 1] == rows[..i - 1];
      InsertStep(rows, InsertionOf(rows[..i - 1]), i - 1);
    }
  }

  /** The key list holds each kept size once, in the order of its first kept row. */
  lemma InsertionOrder(rows: seq<FormRow>)
    ensures Distinct(InsertionOf(rows))
    ensures forall s :: s in InsertionOf(rows) <==> s in KeptSizes(rows)
    ensures InFirstKeptOrder(rows, InsertionOf(rows))
  {
    InsertionPrefix(rows, |rows|);
    assert rows[..|rows|] == rows;
    var ins := InsertionOf(rows);
    forall s
      ensures s in ins <==> s in KeptSizes(rows)
    {
      if s in ins {
        var k :| 0 <= k < |ins| && ins[k] == s;
        var p := FirstKept(rows, s);
        assert rows[p] in rows;
      }
      if s in KeptSizes(rows) {
        var r :| r in rows && Kept(r) && r.size.value == s;
        var q :| 0 <= q < |rows| && rows[q] == r;
      }
    }
  }

  /** The merge loop of both form views. Besides the dictionary it returns its
      keys in insertion order, the order in which the views iterate over it. */
  method MergeRows(rows: seq<FormRow>) returns (sizes: map<SizeId, int>, insertion: seq<SizeId>)
    ensures sizes == Merged(rows)
    ensures sizes.Keys == KeptSizes(rows)
    ensures forall s | s in sizes :: sizes[s] == SizeTotal(rows, s)
    ensures Distinct(insertion)
    ensures forall s :: s in sizes <==> s in insertion
    ensures |sizes| == |insertion|
    ensures InFirstKeptOrder(rows, insertion)
  {
    sizes, insertion := map[], [];
    for i := 0 to |rows|
      invariant sizes == Merged(rows[..i])
      invariant forall s :: s in sizes <==> s in insertion
      invariant |sizes| == |insertion|
      invariant insertion == InsertionOf(rows[..i])
    {
      var r := rows[i];
      assert rows[..i + 1][..i] == rows[..i];
      if r.valid && !r.delete {
        if r.size.Some? && r.quantity.Some? && r.quantity.value != 0 {
          var s := r.size.value;
          if s !in sizes {
            insertion := insertion + [s];
          }
          sizes := sizes[s := GetOrZero(sizes, s) + r.quantity.value];
        }
      }
    }
    assert rows[..|rows|] == rows;
    MergedMeaning(rows);
    InsertionOrder(rows);
  }

  /** The dictionary holds the whole contributing quantity: its values add up
      to the sum over the kept rows. */
  lemma {:induction false} MergedTotal(rows: seq<FormRow>)
    ensures MapTotal(Merged(rows)) == SumOf(rows, KeptQuantity)
  {
    if rows != [] {
      var n := |rows| - 1;
      var init, r := rows[..n], rows[n];
      assert rows == init + [r];
      MergedTotal(init);
      SumOfSnoc(init, r, KeptQuantity);
      if Kept(r) {
        var m, k := Merged(init), r.size.value;
        MapTotalUpdate(m, k, GetOrZero(m, k) + r.quantity.value);
      }
    }
  }

  /** With validated rows every merged quantity is at least 1. */
  lemma MergedPositive(rows: seq<FormRow>)
    requires AllCleaned(rows)
    ensures forall s | s in Merged(rows) :: Merged(rows)[s] >= 1
  {
    MergedMeaning(rows);
    forall s | s in Merged(rows)
      ensures Merged(rows)[s] >= 1
    {
      var r :| r in rows && Kept(r) && r.size.value == s;
      var i :| 0 <= i < |rows| && rows[i] == r;
      forall j | 0 <= j < |rows|
        ensures KeptAmount(s)(rows[j]) >= 0
      {
        assert Cleaned(rows[j]);
      }
      SumOfAtLeastTerm(rows, KeptAmount(s), i);
    }
  }

  /** The dictionary is empty exactly when no row contributes. */
  lemma MergedEmpty(rows: seq<FormRow>)
    ensures |Merged(rows)| == 0 <==> forall i | 0 <= i < |rows| :: !Kept(rows[i])
  {
    MergedMeaning(rows);
    forall i | 0 <= i < |rows| && Kept(rows[i])
      ensures rows[i].size.value in Merged(rows)
    {
      assert rows[i] in rows;
    }
    if |Merged(rows)| != 0 {
      var s :| s in Merged(rows);
      var r :| r in rows && Kept(r) && r.size.value == s;
      var i :| 0 <= i < |rows| && rows[i] == r;
      assert Kept(rows[i]);
    }
  }

  /** The dictionary does not depend on the order of the formset's rows. */
  lemma MergedPermutation(rows: seq<FormRow>, rows': seq<FormRow>)
    requires multiset(rows) == multiset(rows')
    ensures Merged(rows) == Merged(rows')
  {
    MergedMeaning(rows);
    MergedMeaning(rows');
    assert forall r :: r in rows <==> r in rows' by {
      forall r
        ensures r in rows <==> r in rows'
      {
        assert r in rows <==> r in multiset(rows);
        assert r in rows' <==> r in multiset(rows');
      }
    }
    assert KeptSizes(rows) == KeptSizes(rows');
    forall s | s in Merged(rows)
      ensures Merged(rows)[s] == Merged(rows')[s]
    {
      SumOfPermutation(rows, rows', KeptAmount(s));
    }
    MapsEqual(Merged(rows), Merged(rows'));
  }

  /** The lines written in insertion order are one per key of the dictionary. */
  lemma InsertionLines(lines: seq<Line>, sizes: map<SizeId, int>, insertion: seq<SizeId>)
    requires Distinct(insertion)
    requires forall s :: s in sizes <==> s in insertion
    requires |sizes| == |insertion|
    requires |lines| == |insertion|
    requires forall j | 0 <= j < |lines| :: insertion[j] in sizes && lines[j] == Line(insertion[j], sizes[insertion[j]])
    ensures UniqueSizes(lines)
    ensures LinesMap(lines) == sizes
    ensures |lines| == |sizes|
    ensures SizesInOrder(lines) == insertion
  {
    InsertionSizes(lines, insertion);
    var m := LinesMap(lines);
    forall s | s in m
      ensures m[s] == sizes[s]
    {
      var j :| 0 <= j < |insertion| && insertion[j] == s;
      assert m[lines[j].size] == lines[j].quantity;
    }
    MapsEqual(m, sizes);
  }

  lemma InsertionSizes(lines: seq<Line>, insertion: seq<SizeId>)
    requires Distinct(insertion)
    requires |lines| == |insertion|
    requires forall j | 0 <= j < |lines| :: lines[j].size == insertion[j]
    ensures UniqueSizes(lines)
    ensures forall s :: s in Sizes(lines) <==> s in insertion
  {
    forall s
      ensures s in Sizes(lines) <==> s in insertion
    {
      if s in insertion {
        var j :| 0 <= j < |insertion| && insertion[j] == s;
        assert lines[j] in lines;
      }
      if s in Sizes(lines) {
        var l :| l in lines && l.size == s;
        var j :| 0 <= j < |lines| && lines[j] == l;
      }
    }
  }

  /** Why a create is refused. */
  datatype CreateError = FormsetInvalid | NoDetailLines

  datatype Created = Created(order: Order) | Rejected(reason: CreateError)

  /** `OrdineCreateView.form_valid`: an invalid formset or an empty dictionary
      is refused and nothing is saved; otherwise the order is saved with the
      main form's state and one line per key of the dictionary. */
  method CreateOrder(formsetValid: bool, rows: seq<FormRow>, status: Status) returns (r: Created)
    ensures !formsetValid ==> r == Rejected(FormsetInvalid)
    ensures formsetValid && |Merged(rows)| == 0 ==> r == Rejected(NoDetailLines)
    ensures formsetValid && |Merged(rows)| != 0 ==> r.Created?
    ensures r.Created? ==> fresh(r.order) && r.order.status == status
    ensures r.Created? ==> UniqueSizes(r.order.lines) && LinesMap(r.order.lines) == Merged(rows)
    ensures r.Created? ==> |r.order.lines| == |Merged(rows)|
    ensures r.Created? ==> InFirstKeptOrder(rows, SizesInOrder(r.order.lines))
    ensures r.Created? ==> TotalQuantity(r.order.lines) == SumOf(rows, KeptQuantity)
    ensures r.Created? && AllCleaned(rows) ==> r.order.Valid()
  {
    if !formsetValid {
      return Rejected(FormsetInvalid);
    }
    var sizes, insertion := MergeRows(rows);
    if |sizes| == 0 {
      return Rejected(NoDetailLines);
    }
    var o := new Order(status, []);
    for i := 0 to |insertion|
      invariant o.status == status
      invariant |o.lines| == i
      invariant forall j | 0 <= j < i :: insertion[j] in sizes && o.lines[j] == Line(insertion[j], sizes[insertion[j]])
    {
      o.lines := o.lines + [Line(insertion[i], sizes[insertion[i]])];
    }
    InsertionLines(o.lines, sizes, insertion);
    StoredFromRows(o.lines, rows);
    return Created(o);
  }

  /** The first line stored for `size` (`filter(...).first()`, and the lookup
      inside `update_or_create`), or `|lines|` when there is none. */
  method FindLine(lines: seq<Line>, size: SizeId) returns (i: nat)
    ensures i <= |lines|
    ensures i < |lines| ==> lines[i].size == size
    ensures forall j | 0 <= j < i :: lines[j].size != size
    ensures i == |lines| <==> size !in Sizes(lines)
  {
    i := 0;
    while i < |lines| && lines[i].size != size
      invariant i <= |lines|
      invariant forall j | 0 <= j < i :: lines[j].size != size
    {
      i := i + 1;
    }
    if i == |lines| {
      forall l | l in lines
        ensures l.size != size
      {
        var j :| 0 <= j < |lines| && lines[j] == l;
      }
    }
  }

  /** `update_or_create(ordine=o, taglia=size, defaults={'quantita': q})`:
      the line for `size` is overwritten in place, or appended when missing. */
  method UpdateOrCreate(o: Order, size: SizeId, q: int)
    requires UniqueSizes(o.lines)
    modifies o
    ensures o.status == old(o.status)
    ensures UniqueSizes(o.lines)
    ensures LinesMap(o.lines) == LinesMap(old(o.lines))[size := q]
    ensures size in Sizes(old(o.lines)) ==> |o.lines| == |old(o.lines)|
    ensures size !in Sizes(old(o.lines)) ==> o.lines == old(o.lines) + [Line(size, q)]
  {
    var i := FindLine(o.lines, size);
    if i < |o.lines| {
      LinesMapReplace(o.lines, i, q);
      o.lines := o.lines[i := Line(size, q)];
    } else {
      UniqueSizesSnoc(o.lines, Line(size, q));
      LinesMapSnoc(o.lines, Line(size, q));
      o.lines := o.lines + [Line(size, q)];
    }
  }

  /** `dettagli.exclude(taglia__pk__in=keep).delete()`: the lines whose size is
      listed stay, in their stored order; the others are deleted. */
  function KeepOnly(lines: seq<Line>, keep: seq<SizeId>): (r: seq<Line>)
    ensures forall l :: l in r <==> l in lines && l.size in keep
  {
    if lines == [] then []
    else
      var n := |lines| - 1;
      assert lines == lines[..n] + [lines[n]];
      var rest := KeepOnly(lines[..n], keep);
      if lines[n].size in keep then rest + [lines[n]] else rest
  }

  /** Deleting lines keeps sizes unique. */
  lemma {:induction false} KeepOnlyUnique(lines: seq<Line>, keep: seq<SizeId>)
    requires UniqueSizes(lines)
    ensures UniqueSizes(KeepOnly(lines, keep))
  {
    if lines != [] {
      var n := |lines| - 1;
      var init, x := lines[..n], lines[n];
      assert lines == init + [x];
      UniqueSizesSnoc(init, x);
      KeepOnlyUnique(init, keep);
      var rest := KeepOnly(init, keep);
      if x.size in keep {
        assert x.size !in Sizes(rest) by {
          forall l | l in rest
            ensures l.size != x.size
          {
            assert l in init;
          }
        }
        UniqueSizesSnoc(rest, x);
      }
    }
  }

  /** Deleting lines restricts the dictionary to the listed sizes. */
  lemma KeepOnlyMap(lines: seq<Line>, keep: seq<SizeId>)
    requires UniqueSizes(lines)
    ensures UniqueSizes(KeepOnly(lines, keep))
    ensures LinesMap(KeepOnly(lines, keep)).Keys == Sizes(lines) * set s | s in keep
    ensures forall s | s in LinesMap(KeepOnly(lines, keep)) :: LinesMap(KeepOnly(lines, keep))[s] == LinesMap(lines)[s]
  {
    KeepOnlyUnique(lines, keep);
    var r := KeepOnly(lines, keep);
    var a, b := LinesMap(r), LinesMap(lines);
    forall s | s in a
      ensures a[s] == b[s]
    {
      var i :| 0 <= i < |r| && r[i].size == s;
      var j :| 0 <= j < |lines| && lines[j] == r[i];
      assert a[r[i].size] == r[i].quantity;
      assert b[lines[j].size] == lines[j].quantity;
    }
    forall s | s in Sizes(lines) && s in keep
      ensures s in Sizes(r)
    {
      var l :| l in lines && l.size == s;
    }
  }

  /** The sizes in `done` already hold their merged quantity. */
  ghost predicate Synced(m: map<SizeId, int>, sizes: map<SizeId, int>, done: seq<SizeId>)
  {
    forall j | 0 <= j < |done| :: done[j] in m && done[j] in sizes && m[done[j]] == sizes[done[j]]
  }

  lemma SyncedStep(m: map<SizeId, int>, sizes: map<SizeId, int>, insertion: seq<SizeId>, i: nat)
    requires Distinct(insertion) && i < |insertion| && insertion[i] in sizes
    requires Synced(m, sizes, insertion[..i])
    ensures Synced(m[insertion[i] := sizes[insertion[i]]], sizes, insertion[..i + 1])
  {
  }

  /** Once every key has been written, deleting the unlisted sizes leaves exactly the dictionary. */
  lemma SyncedKeep(lines: seq<Line>, sizes: map<SizeId, int>, insertion: seq<SizeId>)
    requires UniqueSizes(lines)
    requires forall s :: s in sizes <==> s in insertion
    requires Synced(LinesMap(lines), sizes, insertion)
    ensures UniqueSizes(KeepOnly(lines, insertion))
    ensures LinesMap(KeepOnly(lines, insertion)) == sizes
  {
    KeepOnlyMap(lines, insertion);
    var r := LinesMap(KeepOnly(lines, insertion));
    forall s | s in sizes
      ensures s in r && r[s] == sizes[s]
    {
      var j :| 0 <= j < |insertion| && insertion[j] == s;
    }
    MapsEqual(r, sizes);
  }

  /** The synchronisation step of `OrdineUpdateView.form_valid`: one
      `update_or_create` per key of the dictionary, in insertion order, then
      the deletion of the lines of every size not listed. */
  method SyncLines(o: Order, sizes: map<SizeId, int>, insertion: seq<SizeId>)
    requires UniqueSizes(o.lines)
    requires Distinct(insertion)
    requires forall s :: s in sizes <==> s in insertion
    modifies o
    ensures o.status == old(o.status)
    ensures UniqueSizes(o.lines) && LinesMap(o.lines) == sizes
  {
    var keep: seq<SizeId> := [];
    for i := 0 to |insertion|
      invariant o.status == old(o.status)
      invariant UniqueSizes(o.lines)
      invariant keep == insertion[..i]
      invariant Synced(LinesMap(o.lines), sizes, insertion[..i])
    {
      var s := insertion[i];
      ghost var m := LinesMap(o.lines);
      UpdateOrCreate(o, s, sizes[s]);
      SyncedStep(m, sizes, insertion, i);
      keep := keep + [s];
    }
    assert keep == insertion;
    SyncedKeep(o.lines, sizes, keep);
    o.lines := KeepOnly(o.lines, keep);
  }

  /** Lines that hold exactly the dictionary carry the rows' total, and meet
      the stored constraints when the rows were validated. */
  lemma StoredFromRows(lines: seq<Line>, rows: seq<FormRow>)
    requires UniqueSizes(lines) && LinesMap(lines) == Merged(rows)
    ensures TotalQuantity(lines) == SumOf(rows, KeptQuantity)
    ensures AllCleaned(rows) ==> LinesValid(lines)
  {
    MergedTotal(rows);
    TotalQuantityIsMapTotal(lines);
    LinesValidByMap(lines);
    if AllCleaned(rows) {
      MergedPositive(rows);
    }
  }

  /** `OrdineUpdateView.form_valid`: with an invalid formset nothing changes;
      otherwise the main form's state is saved and the stored lines become
      exactly the dictionary, one per size, the lines of other sizes deleted
      (an empty dictionary deletes every line). */
  method UpdateOrder(o: Order, formsetValid: bool, rows: seq<FormRow>, status: Status) returns (saved: bool)
    requires UniqueSizes(o.lines)
    modifies o
    ensures saved == formsetValid
    ensures !saved ==> o.status == old(o.status) && o.lines == old(o.lines)
    ensures saved ==> o.status == status
    ensures saved ==> UniqueSizes(o.lines) && LinesMap(o.lines) == Merged(rows)
    ensures saved ==> |o.lines| == |Merged(rows)|
    ensures saved ==> TotalQuantity(o.lines) == SumOf(rows, KeptQuantity)
    ensures saved && AllCleaned(rows) ==> o.Valid()
  {
    if !formsetValid {
      return false;
    }
    var sizes, insertion := MergeRows(rows);
    o.status := status;
    SyncLines(o, sizes, insertion);
    StoredFromRows(o.lines, rows);
    LinesMapSize(o.lines);
    return true;
  }

  /** `DettaglioOrdineCreateView.form_valid`: a line already stored for the size
      grows by the new quantity and no line is created; otherwise a new line is
      appended. Either way sizes stay unique and the total grows by `q`. */
  method AddDetail(o: Order, size: SizeId, q: int)
    requires UniqueSizes(o.lines)
    modifies o
    ensures o.status == old(o.status)
    ensures AddedTo(old(o.lines), o.lines, size, q)
    ensures size in Sizes(old(o.lines)) ==> |o.lines| == |old(o.lines)|
    ensures size !in Sizes(old(o.lines)) ==> o.lines == old(o.lines) + [Line(size, q)]
  {
    ghost var before := o.lines;
    var i := FindLine(o.lines, size);
    if i < |o.lines| {
      o.lines := o.lines[i := Line(size, o.lines[i].quantity + q)];
    } else {
      o.lines := o.lines + [Line(size, q)];
    }
    DetailAdded(before, o.lines, i, size, q);
  }

  lemma DetailAdded(before: seq<Line>, after: seq<Line>, i: nat, size: SizeId, q: int)
    requires UniqueSizes(before) && i <= |before|
    requires i < |before| ==> before[i].size == size && after == before[i := Line(size, before[i].quantity + q)]
    requires i == |before| ==> size !in Sizes(before) && after == before + [Line(size, q)]
    ensures AddedTo(before, after, size, q)
  {
    if i < |before| {
      GrowLine(before, i, size, q);
    } else {
      AppendLine(before, size, q);
    }
  }

  /** Every fact `AddDetail` promises about the lines before and after. */
  ghost predicate AddedTo(before: seq<Line>, after: seq<Line>, size: SizeId, q: int)
  {
    && UniqueSizes(before)
    && UniqueSizes(after)
    && LinesMap(after) == LinesMap(before)[size := GetOrZero(LinesMap(before), size) + q]
    && TotalQuantity(after) == TotalQuantity(before) + q
    && (LinesValid(before) && q >= 1 ==> LinesValid(after))
  }

  lemma AppendLine(lines: seq<Line>, size: SizeId, q: int)
    requires UniqueSizes(lines) && size !in Sizes(lines)
    ensures AddedTo(lines, lines + [Line(size, q)], size, q)
  {
    var after := lines + [Line(size, q)];
    UniqueSizesSnoc(lines, Line(size, q));
    LinesMapSnoc(lines, Line(size, q));
    AddedTotal(lines, after, size, q);
    AddedValid(lines, after, size, q);
  }

  lemma GrowLine(lines: seq<Line>, i: nat, size: SizeId, q: int)
    requires UniqueSizes(lines) && i < |lines| && lines[i].size == size
    ensures AddedTo(lines, lines[i := Line(size, lines[i].quantity + q)], size, q)
  {
    var after := lines[i := Line(size, lines[i].quantity + q)];
    assert LinesMap(lines)[lines[i].size] == lines[i].quantity;
    LinesMapReplace(lines, i, lines[i].quantity + q);
    AddedTotal(lines, after, size, q);
    AddedValid(lines, after, size, q);
  }

  /** Adding `q` under one key of the dictionary adds `q` to the total. */
  lemma AddedTotal(before: seq<Line>, after: seq<Line>, size: SizeId, q: int)
    requires UniqueSizes(before) && UniqueSizes(after)
    requires LinesMap(after) == LinesMap(before)[size := GetOrZero(LinesMap(before), size) + q]
    ensures TotalQuantity(after) == TotalQuantity(before) + q
  {
    TotalQuantityIsMapTotal(before);
    TotalQuantityIsMapTotal(after);
    MapTotalAdd(LinesMap(before), LinesMap(after), size, q);
  }

  /** Adding at least 1 under one key of the dictionary keeps the stored constraints. */
  lemma AddedValid(before: seq<Line>, after: seq<Line>, size: SizeId, q: int)
    requires UniqueSizes(before) && UniqueSizes(after)
    requires LinesMap(after) == LinesMap(before)[size := GetOrZero(LinesMap(before), size) + q]
    ensures LinesValid(before) && q >= 1 ==> LinesValid(after)
  {
    LinesValidByMap(before);
    LinesValidByMap(after);
  }

  /** The state after `ordine_conferma`: only a draft moves, and it moves to confirmed. */
  function AfterConfirm(s: Status): (t: Status)
    ensures t != s <==> s == Bozza
    ensures t != s ==> t == Confermato
  {
    if s == Bozza then Confermato else s
  }

  /** The state after `ordine_annulla`: a draft or a confirmed order is cancelled,
      one in production, completed or already cancelled stays as it is. */
  function AfterCancel(s: Status): (t: Status)
    ensures t != s <==> s == Bozza || s == Confermato
    ensures t != s ==> t == Annullato
  {
    if s in [Bozza, Confermato] then Annullato else s
  }

  /** `ordine_conferma`: acts only on a POST request. */
  method Confirm(o: Order, isPost: bool)
    modifies o
    ensures o.status == if isPost then AfterConfirm(old(o.status)) else old(o.status)
    ensures o.lines == old(o.lines)
  {
    if isPost {
      if o.status == Bozza {
        o.status := Confermato;
      }
    }
  }

  /** `ordine_annulla`: acts only on a POST request. */
  method Cancel(o: Order, isPost: bool)
    modifies o
    ensures o.status == if isPost then AfterCancel(old(o.status)) else old(o.status)
    ensures o.lines == old(o.lines)
  {
    if isPost {
      if o.status in [Bozza, Confermato] {
        o.status := Annullato;
      }
    }
  }

  datatype Action = ConfirmAction | CancelAction

  /** The state after a series of confirm and cancel requests. */
  function Apply(s: Status, actions: seq<Action>): Status
  {
    if actions == [] then s
    else
      var t := Apply(s, actions[..|actions| - 1]);
      match actions[|actions| - 1]
      case ConfirmAction => AfterConfirm(t)
      case CancelAction => AfterCancel(t)
  }

  /** Repeating a request changes nothing, and a cancel settles the order
      whether it comes before or after a confirm. */
  lemma TransitionsSettle(s: Status)
    ensures AfterConfirm(AfterConfirm(s)) == AfterConfirm(s)
    ensures AfterCancel(AfterCancel(s)) == AfterCancel(s)
    ensures AfterCancel(AfterConfirm(s)) == AfterCancel(s)
    ensures AfterConfirm(AfterCancel(s)) == AfterCancel(s)
  {
  }

  /** The two views never start or finish production: from a state in production
      or completed no series of requests moves the order, and from any other
      state the order stays draft, confirmed or cancelled. */
  lemma {:induction false} ApplyStaysOnDraftSide(s: Status, actions: seq<Action>)
    ensures s == InProduzione || s == Completato ==> Apply(s, actions) == s
    ensures s in [Bozza, Confermato, Annullato] ==> Apply(s, actions) in [Bozza, Confermato, Annullato]
    ensures s == Annullato ==> Apply(s, actions) == Annullato
  {
    if actions != [] {
      ApplyStaysOnDraftSide(s, actions[..|actions| - 1]);
    }
  }
}
