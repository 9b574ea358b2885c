/** `Ordine.get_materiali_necessari`: for every order line and every component of
    the order's shoe model, look up the component's measurement for the line's
    size; when exactly one is found, add the line's pairs under the key
    (component-type name, colour). No match and several matches are skipped. */
module Materials {
  import opened Basics
  import opened Models

  /** A component of the shoe model: its identity, its type name and its colour, if any. */
  datatype Component = Component(id: nat, typeName: string, colour: Option<nat>)

  /** A `MisuraComponente` row joined with its `CoppiaMisura`: the component it
      belongs to and the shoe size the measurement refers to (may be blank). */
  datatype Measure = Measure(component: nat, refSize: Option<SizeId>)

  /** The dictionary key: component-type name and colour; an absent colour is a key of its own. */
  datatype MaterialKey = MaterialKey(typeName: string, colour: Option<nat>)

  /** The outcome of `MisuraComponente.objects.get(...)`. */
  datatype Lookup = Found(measure: Measure) | DoesNotExist | MultipleObjectsReturned

  function KeyOf(c: Component): MaterialKey
  {
    MaterialKey(c.typeName, c.colour)
  }

  predicate Matches(m: Measure, c: Component, size: SizeId)
  {
    m.component == c.id && m.refSize == Some(size)
  }

  /** How many measurements the lookup for component `c` and `size` would find. */
  function MatchCount(ms: seq<Measure>, c: Component, size: SizeId): nat
  {
    if ms == [] then 0
    else MatchCount(ms[..|ms| - 1], c, size) + (if Matches(ms[|ms| - 1], c, size) then 1 else 0)
  }

  /** The measurement lookup: one match is found, none or several raise. */
  method LookupMeasure(ms: seq<Measure>, c: Component, size: SizeId) returns (r: Lookup)
    ensures r.Found? <==> MatchCount(ms, c, size) == 1
    ensures r.DoesNotExist? <==> MatchCount(ms, c, size) == 0
    ensures r.Found? ==> r.measure in ms && Matches(r.measure, c, size)
  {
    var count := 0;
    var found: Option<Measure> := None;
    for i := 0 to |ms|
      invariant count == MatchCount(ms[..i], c, size)
      invariant count > 0 <==> found.Some?
      invariant found.Some? ==> found.value in ms && Matches(found.value, c, size)
    {
      assert ms[..i + 1][..i] == ms[..i];
      if Matches(ms[i], c, size) {
        count := count + 1;
        found := Some(ms[i]);
      }
    }
    assert ms[..|ms|] == ms;
    if count == 0 {
      r := DoesNotExist;
    } else if count == 1 {
      r := Found(found.value);
    } else {
      r := MultipleObjectsReturned;
    }
  }

  /** What component `c` adds under `key` for line `l`: the line's pairs when `c`
      has that key and exactly one measurement for the line's size, else nothing. */
  function ComponentShare(l: Line, ms: seq<Measure>, key: MaterialKey): Component -> int
  {
    c => if KeyOf(c) == key && MatchCount(ms, c, l.size) == 1 then l.quantity else 0
  }

  /** What line `l` adds under `key` over all components. */
  function LineShare(comps: seq<Component>, ms: seq<Measure>, key: MaterialKey): Line -> int
  {
    l => SumOf(comps, ComponentShare(l, ms, key))
  }

  /** The requirement under `key`: the sum, over (line, component) pairs where the
      component has `key` and exactly one measurement for the line's size, of the
      line's pairs. */
  function Demand(lines: seq<Line>, comps: seq<Component>, ms: seq<Measure>, key: MaterialKey): int
  {
    SumOf(lines, LineShare(comps, ms, key))
  }

  /** The keys for which some line and some component have exactly one measurement. */
  function MaterialKeys(lines: seq<Line>, comps: seq<Component>, ms: seq<Measure>): set<MaterialKey>
  {
    set l, c | l in lines && c in comps && MatchCount(ms, c, l.size) == 1 :: KeyOf(c)
  }

  /** Reference definition of the requirement dictionary. */
  function Requirements(lines: seq<Line>, comps: seq<Component>, ms: seq<Measure>): map<MaterialKey, int>
  {
    map k | k in MaterialKeys(lines, comps, ms) :: Demand(lines, comps, ms, k)
  }

  /** The keys one line reaches through the components `comps`. */
  function LineKeys(line: Line, comps: seq<Component>, ms: seq<Measure>): set<MaterialKey>
  {
    set c | c in comps && MatchCount(ms, c, line.size) == 1 :: KeyOf(c)
  }

  /** `acc` holds the requirements of `lines`. */
  ghost predicate Holds(acc: map<MaterialKey, int>, lines: seq<Line>, comps: seq<Component>, ms: seq<Measure>)
  {
    && acc.Keys == MaterialKeys(lines, comps, ms)
    && forall k | k in acc :: acc[k] == Demand(lines, comps, ms, k)
  }

  /** `acc` is `base` plus what `line` adds through the components `comps`. */
  ghost predicate HoldsPartly(acc: map<MaterialKey, int>, base: map<MaterialKey, int>, line: Line, comps: seq<Component>, ms: seq<Measure>)
  {
    && acc.Keys == base.Keys + LineKeys(line, comps, ms)
    && forall k | k in acc :: acc[k] == GetOrZero(base, k) + SumOf(comps, ComponentShare(line, ms, k))
  }

  lemma LineShareOutside(line: Line, comps: seq<Component>, ms: seq<Measure>, k: MaterialKey)
    requires k !in LineKeys(line, comps, ms)
    ensures SumOf(comps, ComponentShare(line, ms, k)) == 0
  {
    forall j | 0 <= j < |comps|
      ensures ComponentShare(line, ms, k)(comps[j]) == 0
    {
      assert comps[j] in comps;
    }
    SumOfZero(comps, ComponentShare(line, ms, k));
  }

  lemma LineKeysSnoc(line: Line, comps: seq<Component>, c: Component, ms: seq<Measure>)
    ensures LineKeys(line, comps + [c], ms)
            == LineKeys(line, comps, ms) + (if MatchCount(ms, c, line.size) == 1 then {KeyOf(c)} else {})
  {
    var hit := MatchCount(ms, c, line.size) == 1;
    forall k
      ensures k in LineKeys(line, comps + [c], ms) <==> k in LineKeys(line, comps, ms) || (hit && k == KeyOf(c))
    {
      if k in LineKeys(line, comps + [c], ms) {
        var d :| d in comps + [c] && MatchCount(ms, d, line.size) == 1 && KeyOf(d) == k;
        assert d in comps || d == c;
      }
      if k in LineKeys(line, comps, ms) {
        var d :| d in comps && MatchCount(ms, d, line.size) == 1 && KeyOf(d) == k;
        assert d in comps + [c];
      }
      if hit && k == KeyOf(c) {
        assert c in comps + [c];
      }
    }
  }

  lemma PartlyStepAt(acc: map<MaterialKey, int>, base: map<MaterialKey, int>, line: Line, comps: seq<Component>, c: Component, ms: seq<Measure>, k: MaterialKey)
    requires HoldsPartly(acc, base, line, comps, ms)
    ensures GetOrZero(acc, k) + ComponentShare(line, ms, k)(c)
            == GetOrZero(base, k) + SumOf(comps + [c], ComponentShare(line, ms, k))
  {
    SumOfSnoc(comps, c, ComponentShare(line, ms, k));
    if k !in acc {
      LineShareOutside(line, comps, ms, k);
    }
  }

  /** The inner loop's step when component `c` has exactly one measurement for the
      line's size: the line's pairs are added under the component's key. */
  lemma PartlyStepHit(acc: map<MaterialKey, int>, base: map<MaterialKey, int>, line: Line, comps: seq<Component>, c: Component, ms: seq<Measure>)
    requires HoldsPartly(acc, base, line, comps, ms)
    requires MatchCount(ms, c, line.size) == 1
    ensures HoldsPartly(acc[KeyOf(c) := GetOrZero(acc, KeyOf(c)) + line.quantity], base, line, comps + [c], ms)
  {
    var next := acc[KeyOf(c) := GetOrZero(acc, KeyOf(c)) + line.quantity];
    LineKeysSnoc(line, comps, c, ms);
    forall k | k in next
      ensures next[k] == GetOrZero(base, k) + SumOf(comps + [c], ComponentShare(line, ms, k))
    {
      PartlyStepAt(acc, base, line, comps, c, ms, k);
    }
  }

  /** The inner loop's step when component `c` has no or several measurements for
      the line's size: nothing is added. */
  lemma PartlyStepMiss(acc: map<MaterialKey, int>, base: map<MaterialKey, int>, line: Line, comps: seq<Component>, c: Component, ms: seq<Measure>)
    requires HoldsPartly(acc, base, line, comps, ms)
    requires MatchCount(ms, c, line.size) != 1
    ensures HoldsPartly(acc, base, line, comps + [c], ms)
  {
    LineKeysSnoc(line, comps, c, ms);
    forall k | k in acc
      ensures acc[k] == GetOrZero(base, k) + SumOf(comps + [c], ComponentShare(line, ms, k))
    {
      PartlyStepAt(acc, base, line, comps, c, ms, k);
    }
  }

  lemma DemandOutside(lines: seq<Line>, comps: seq<Component>, ms: seq<Measure>, k: MaterialKey)
    requires k !in MaterialKeys(lines, comps, ms)
    ensures Demand(lines, comps, ms, k) == 0
  {
    forall i | 0 <= i < |lines|
      ensures LineShare(comps, ms, k)(lines[i]) == 0
    {
      assert k !in LineKeys(lines[i], comps, ms) by {
        forall c | c in comps && MatchCount(ms, c, lines[i].size) == 1
          ensures KeyOf(c) != k
        {
          assert lines[i] in lines;
        }
      }
      LineShareOutside(lines[i], comps, ms, k);
    }
    SumOfZero(lines, LineShare(comps, ms, k));
  }

  lemma MaterialKeysSnoc(lines: seq<Line>, line: Line, comps: seq<Component>, ms: seq<Measure>)
    ensures MaterialKeys(lines + [line], comps, ms) == MaterialKeys(lines, comps, ms) + LineKeys(line, comps, ms)
  {
    forall k
      ensures k in MaterialKeys(lines + [line], comps, ms) <==> k in MaterialKeys(lines, comps, ms) || k in LineKeys(line, comps, ms)
    {
      if k in MaterialKeys(lines + [line], comps, ms) {
        var l, c :| l in lines + [line] && c in comps && MatchCount(ms, c, l.size) == 1 && KeyOf(c) == k;
        assert l in lines || l == line;
      }
      if k in MaterialKeys(lines, comps, ms) {
        var l, c :| l in lines && c in comps && MatchCount(ms, c, l.size) == 1 && KeyOf(c) == k;
        assert l in lines + [line];
      }
      if k in LineKeys(line, comps, ms) {
        var c :| c in comps && MatchCount(ms, c, line.size) == 1 && KeyOf(c) == k;
        assert line in lines + [line];
      }
    }
  }

  lemma HoldsStepAt(base: map<MaterialKey, int>, lines: seq<Line>, line: Line, comps: seq<Component>, ms: seq<Measure>, k: MaterialKey)
    requires Holds(base, lines, comps, ms)
    ensures Demand(lines + [line], comps, ms, k) == GetOrZero(base, k) + SumOf(comps, ComponentShare(line, ms, k))
  {
    SumOfSnoc(lines, line, LineShare(comps, ms, k));
    if k !in base {
      DemandOutside(lines, comps, ms, k);
    }
  }

  /** The outer loop's step: after the inner loop over all components, `acc` holds
      the requirements of one more line. */
  lemma HoldsStep(acc: map<MaterialKey, int>, base: map<MaterialKey, int>, lines: seq<Line>, line: Line, comps: seq<Component>, ms: seq<Measure>)
    requires Holds(base, lines, comps, ms)
    requires HoldsPartly(acc, base, line, comps, ms)
    ensures Holds(acc, lines + [line], comps, ms)
  {
    MaterialKeysSnoc(lines, line, comps, ms);
    forall k | k in acc
      ensures acc[k] == Demand(lines + [line], comps, ms, k)
    {
      HoldsStepAt(base, lines, line, comps, ms, k);
    }
  }

  lemma HoldsUnique(acc: map<MaterialKey, int>, lines: seq<Line>, comps: seq<Component>, ms: seq<Measure>)
    requires Holds(acc, lines, comps, ms)
    ensures acc == Requirements(lines, comps, ms)
  {
    MapsEqual(acc, Requirements(lines, comps, ms));
  }

  /** The inner loop of `get_materiali_necessari`: one order line against every
      component of the model. */
  method AddLineNeeds(base: map<MaterialKey, int>, line: Line, comps: seq<Component>, ms: seq<Measure>) returns (materiali: map<MaterialKey, int>)
    ensures HoldsPartly(materiali, base, line, comps, ms)
  {
    materiali := base;
    for j := 0 to |comps|
      invariant HoldsPartly(materiali, base, line, comps[..j], ms)
    {
      var c := comps[j];
      ghost var done := comps[..j];
      assert comps[..j + 1] == done + [c];
      var found := LookupMeasure(ms, c, line.size);
      if found.Found? {
        PartlyStepHit(materiali, base, line, done, c, ms);
        var key := KeyOf(c);
        materiali := materiali[key := GetOrZero(materiali, key) + line.quantity];
      } else {
        PartlyStepMiss(materiali, base, line, done, c, ms);
      }
    }
    assert comps[..|comps|] == comps;
  }

  /** `get_materiali_necessari`: the requirement dictionary of an order. */
  method MaterialsNeeded(lines: seq<Line>, comps: seq<Component>, ms: seq<Measure>) returns (materiali: map<MaterialKey, int>)
    ensures materiali == Requirements(lines, comps, ms)
  {
    materiali := map[];
    for i := 0 to |lines|
      invariant Holds(materiali, lines[..i], comps, ms)
    {
      assert lines[..i + 1] == lines[..i] + [lines[i]];
      ghost var base := materiali;
      materiali := AddLineNeeds(materiali, lines[i], comps, ms);
      HoldsStep(materiali, base, lines[..i], lines[i], comps, ms);
    }
    assert lines[..|lines|] == lines;
    HoldsUnique(materiali, lines, comps, ms);
  }
}

/** What the requirement dictionary promises, stated over its reference definition. */
module MaterialsFacts {
  import opened Basics
  import opened Models
  import opened Materials

  /** With every line quantity at least 1 (`MinValueValidator(1)`), every value is at least 1. */
  lemma RequirementsPositive(lines: seq<Line>, comps: seq<Component>, ms: seq<Measure>, k: MaterialKey)
    requires forall i | 0 <= i < |lines| :: lines[i].quantity >= 1
    requires k in Requirements(lines, comps, ms)
    ensures Requirements(lines, comps, ms)[k] >= 1
  {
    var l, c :| l in lines && c in comps && MatchCount(ms, c, l.size) == 1 && KeyOf(c) == k;
    var i :| 0 <= i < |lines| && lines[i] == l;
    var j :| 0 <= j < |comps| && comps[j] == c;
    forall n | 0 <= n < |comps|
      ensures ComponentShare(l, ms, k)(comps[n]) >= 0
    {
    }
    SumOfAtLeastTerm(comps, ComponentShare(l, ms, k), j);
    forall n | 0 <= n < |lines|
      ensures LineShare(comps, ms, k)(lines[n]) >= 0
    {
      forall m | 0 <= m < |comps|
        ensures ComponentShare(lines[n], ms, k)(comps[m]) >= 0
      {
      }
      SumOfNonNegative(comps, ComponentShare(lines[n], ms, k));
    }
    SumOfAtLeastTerm(lines, LineShare(comps, ms, k), i);
  }

  /** The dictionary depends only on which lines and components there are, not on
      the order the database returns them in. */
  lemma RequirementsPermutation(lines: seq<Line>, lines': seq<Line>, comps: seq<Component>, comps': seq<Component>, ms: seq<Measure>)
    requires multiset(lines) == multiset(lines')
    requires multiset(comps) == multiset(comps')
    ensures Requirements(lines, comps, ms) == Requirements(lines', comps', ms)
  {
    var a, b := Requirements(lines, comps, ms), Requirements(lines', comps', ms);
    assert forall l :: l in lines <==> l in lines' by {
      forall l ensures l in lines <==> l in lines' {
        assert l in lines <==> l in multiset(lines);
        assert l in lines' <==> l in multiset(lines');
      }
    }
    assert forall c :: c in comps <==> c in comps' by {
      forall c ensures c in comps <==> c in comps' {
        assert c in comps <==> c in multiset(comps);
        assert c in comps' <==> c in multiset(comps');
      }
    }
    assert MaterialKeys(lines, comps, ms) == MaterialKeys(lines', comps', ms);
    forall k | k in a
      ensures a[k] == b[k]
    {
      SumOfPermutation(lines, lines', LineShare(comps, ms, k));
      forall i | 0 <= i < |lines'|
        ensures LineShare(comps, ms, k)(lines'[i]) == LineShare(comps', ms, k)(lines'[i])
      {
        SumOfPermutation(comps, comps', ComponentShare(lines'[i], ms, k));
      }
      SumOfPointwise(lines', LineShare(comps, ms, k), LineShare(comps', ms, k));
    }
    MapsEqual(a, b);
  }

  /** Every line quantity multiplied by `f`. */
  function Scaled(lines: seq<Line>, f: int): (r: seq<Line>)
    ensures |r| == |lines|
    ensures forall i | 0 <= i < |lines| :: r[i] == Line(lines[i].size, f * lines[i].quantity)
  {
    if lines == [] then [] else Scaled(lines[..|lines| - 1], f) + [Line(lines[|lines| - 1].size, f * lines[|lines| - 1].quantity)]
  }

  lemma ScaledPrefix(lines: seq<Line>, f: int)
    requires lines != []
    ensures Scaled(lines, f)[..|lines| - 1] == Scaled(lines[..|lines| - 1], f)
  {
  }

  lemma Distribute(f: int, a: int, x: int)
    ensures f * (a + x) == f * a + f * x
  {
  }

  lemma {:induction false} ComponentShareScaled(l: Line, comps: seq<Component>, ms: seq<Measure>, k: MaterialKey, f: int)
    ensures SumOf(comps, ComponentShare(Line(l.size, f * l.quantity), ms, k)) == f * SumOf(comps, ComponentShare(l, ms, k))
  {
    if comps != [] {
      var n := |comps| - 1;
      ComponentShareScaled(l, comps[..n], ms, k, f);
      Distribute(f, SumOf(comps[..n], ComponentShare(l, ms, k)), ComponentShare(l, ms, k)(comps[n]));
    }
  }

  lemma {:induction false} DemandScaled(lines: seq<Line>, comps: seq<Component>, ms: seq<Measure>, k: MaterialKey, f: int)
    ensures Demand(Scaled(lines, f), comps, ms, k) == f * Demand(lines, comps, ms, k)
  {
    if lines != [] {
      var n := |lines| - 1;
      var g := LineShare(comps, ms, k);
      var sc := Scaled(lines, f);
      ScaledPrefix(lines, f);
      assert Demand(sc, comps, ms, k) == Demand(sc[..n], comps, ms, k) + g(sc[n]);
      DemandScaled(lines[..n], comps, ms, k, f);
      var before := Demand(lines[..n], comps, ms, k);
      ComponentShareScaled(lines[n], comps, ms, k, f);
      assert g(sc[n]) == f * g(lines[n]);
      Distribute(f, before, g(lines[n]));
    }
  }

  /** Multiplying every line quantity by `f` multiplies every requirement by `f`
      and leaves the keys as they are. */
  lemma RequirementsScaled(lines: seq<Line>, comps: seq<Component>, ms: seq<Measure>, f: int)
    ensures Requirements(Scaled(lines, f), comps, ms).Keys == Requirements(lines, comps, ms).Keys
    ensures forall k | k in Requirements(lines, comps, ms) ::
              Requirements(Scaled(lines, f), comps, ms)[k] == f * Requirements(lines, comps, ms)[k]
  {
    var s := Scaled(lines, f);
    forall k
      ensures k in MaterialKeys(s, comps, ms) <==> k in MaterialKeys(lines, comps, ms)
    {
      if k in MaterialKeys(s, comps, ms) {
        var l, c :| l in s && c in comps && MatchCount(ms, c, l.size) == 1 && KeyOf(c) == k;
        var i :| 0 <= i < |s| && s[i] == l;
        assert lines[i] in lines && lines[i].size == l.size;
      }
      if k in MaterialKeys(lines, comps, ms) {
        var l, c :| l in lines && c in comps && MatchCount(ms, c, l.size) == 1 && KeyOf(c) == k;
        var i :| 0 <= i < |lines| && lines[i] == l;
        assert s[i] in s && s[i].size == l.size;
      }
    }
    forall k | k in Requirements(lines, comps, ms)
      ensures Requirements(s, comps, ms)[k] == f * Requirements(lines, comps, ms)[k]
    {
      DemandScaled(lines, comps, ms, k, f);
    }
  }

  /** One more component of the model: under every other key nothing changes
      (a component without colour has a key of its own, distinct from every
      coloured one), and a component that never has exactly one measurement for
      an ordered size (none, or several) changes nothing at all. */
  lemma RequirementsExtraComponent(lines: seq<Line>, comps: seq<Component>, c: Component, ms: seq<Measure>)
    ensures forall k | k != KeyOf(c) ::
              && (k in Requirements(lines, comps + [c], ms) <==> k in Requirements(lines, comps, ms))
              && GetOrZero(Requirements(lines, comps + [c], ms), k) == GetOrZero(Requirements(lines, comps, ms), k)
    ensures (forall l | l in lines :: MatchCount(ms, c, l.size) != 1) ==>
              Requirements(lines, comps + [c], ms) == Requirements(lines, comps, ms)
  {
    var a, b := Requirements(lines, comps + [c], ms), Requirements(lines, comps, ms);
    var silent := forall l | l in lines :: MatchCount(ms, c, l.size) != 1;
    forall k | k != KeyOf(c) || silent
      ensures (k in a <==> k in b) && GetOrZero(a, k) == GetOrZero(b, k)
    {
      ExtraComponentAt(lines, comps, c, ms, k);
    }
    if silent {
      MapsEqual(a, b);
    }
  }

  lemma ExtraComponentAt(lines: seq<Line>, comps: seq<Component>, c: Component, ms: seq<Measure>, k: MaterialKey)
    requires k != KeyOf(c) || forall l | l in lines :: MatchCount(ms, c, l.size) != 1
    ensures k in MaterialKeys(lines, comps + [c], ms) <==> k in MaterialKeys(lines, comps, ms)
    ensures Demand(lines, comps + [c], ms, k) == Demand(lines, comps, ms, k)
  {
    if k in MaterialKeys(lines, comps + [c], ms) {
      var l, d :| l in lines && d in comps + [c] && MatchCount(ms, d, l.size) == 1 && KeyOf(d) == k;
      assert d in comps;
    }
    if k in MaterialKeys(lines, comps, ms) {
      var l, d :| l in lines && d in comps && MatchCount(ms, d, l.size) == 1 && KeyOf(d) == k;
      assert d in comps + [c];
    }
    forall i | 0 <= i < |lines|
      ensures LineShare(comps + [c], ms, k)(lines[i]) == LineShare(comps, ms, k)(lines[i])
    {
      SumOfSnoc(comps, c, ComponentShare(lines[i], ms, k));
    }
    SumOfPointwise(lines, LineShare(comps + [c], ms, k), LineShare(comps, ms, k));
  }
}
