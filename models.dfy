/** The order entities of the management application: the five order states
    (`Ordine.STATO_ORDINE_CHOICES`), the order lines (`DettaglioOrdine`) with their
    constraints, the order total (`Ordine.quantita_totale`) and the order object
    whose state the views update in place. */
module Models {
  import opened Basics

  /** A shoe size, as the identifier the order lines and the measurements refer to. */
  type SizeId = nat

  /** The order states; by construction an order is always in one of these five. */
  datatype Status = Bozza | Confermato | InProduzione | Completato | Annullato

  /** The choices in the order they are declared. */
  const Choices: seq<Status> := [Bozza, Confermato, InProduzione, Completato, Annullato]

  /** The code stored in the database for a state. */
  function Code(s: Status): string
  {
    match s
    case Bozza => "BOZZA"
    case Confermato => "CONFERMATO"
    case InProduzione => "IN_PRODUZIONE"
    case Completato => "COMPLETATO"
    case Annullato => "ANNULLATO"
  }

  /** The codes of all five states, and nothing else. */
  function StatusCodes(): (codes: set<string>)
    ensures forall c :: c in codes <==> exists s: Status :: Code(s) == c
  {
    forall s: Status
      ensures s in Choices
    {
      assert s == Choices[0] || s == Choices[1] || s == Choices[2] || s == Choices[3] || s == Choices[4];
    }
    set s | s in Choices :: Code(s)
  }

  /** One order line: a size and the number of pairs ordered in it. */
  datatype Line = Line(size: SizeId, quantity: int)

  /** At most one line per size (`unique_together = ['ordine', 'coppia_misura_scarpa']`). */
  predicate UniqueSizes(lines: seq<Line>)
  {
    forall i, j | 0 <= i < j < |lines| :: lines[i].size != lines[j].size
  }

  /** The stored constraints on an order's lines: unique sizes, every quantity at least 1. */
  predicate LinesValid(lines: seq<Line>)
  {
    UniqueSizes(lines) && forall i | 0 <= i < |lines| :: lines[i].quantity >= 1
  }

  /** The sizes of the lines, in the order the lines are stored. */
  function SizesInOrder(lines: seq<Line>): (r: seq<SizeId>)
    ensures |r| == |lines|
    ensures forall i | 0 <= i < |lines| :: r[i] == lines[i].size
  {
    seq(|lines|, i requires 0 <= i < |lines| => lines[i].size)
  }

  function Sizes(lines: seq<Line>): set<SizeId>
  {
    set l | l in lines :: l.size
  }

  lemma UniqueSizesSnoc(lines: seq<Line>, x: Line)
    ensures UniqueSizes(lines + [x]) <==> UniqueSizes(lines) && x.size !in Sizes(lines)
  {
    var all := lines + [x];
    if UniqueSizes(all) {
      assert forall i | 0 <= i < |lines| :: lines[i] == all[i];
      forall l | l in lines
        ensures l.size != x.size
      {
        var i :| 0 <= i < |lines| && lines[i] == l;
        assert all[i] == l && all[|lines|] == x;
      }
    }
  }

  /** The lines of an order read as a size -> quantity dictionary. */
  function LinesMap(lines: seq<Line>): (m: map<SizeId, int>)
    requires UniqueSizes(lines)
    ensures m.Keys == Sizes(lines)
    ensures forall i | 0 <= i < |lines| :: m[lines[i].size] == lines[i].quantity
  {
    map l | l in lines :: l.size := l.quantity
  }

  /** Appending a line for a new size adds that one entry to the dictionary. */
  lemma LinesMapSnoc(lines: seq<Line>, x: Line)
    requires UniqueSizes(lines + [x])
    ensures UniqueSizes(lines) && x.size !in Sizes(lines)
    ensures LinesMap(lines + [x]) == LinesMap(lines)[x.size := x.quantity]
  {
    UniqueSizesSnoc(lines, x);
    var a, b := LinesMap(lines + [x]), LinesMap(lines)[x.size := x.quantity];
    assert Sizes(lines + [x]) == Sizes(lines) + {x.size};
    forall s | s in a
      ensures a[s] == b[s]
    {
      if s != x.size {
        var l :| l in lines && l.size == s;
        var i :| 0 <= i < |lines| && lines[i] == l;
        assert (lines + [x])[i] == l;
      } else {
        assert (lines + [x])[|lines|] == x;
      }
    }
    MapsEqual(a, b);
  }

  /** With unique sizes there is one dictionary entry per line. */
  lemma {:induction false} LinesMapSize(lines: seq<Line>)
    requires UniqueSizes(lines)
    ensures |LinesMap(lines)| == |lines|
  {
    if lines != [] {
      var n := |lines| - 1;
      var init, x := lines[..n], lines[n];
      assert lines == init + [x];
      LinesMapSnoc(init, x);
      LinesMapSize(init);
    }
  }

  /** Overwriting the quantity of the line at `i` changes that one entry of the dictionary. */
  lemma LinesMapReplace(lines: seq<Line>, i: nat, q: int)
    requires UniqueSizes(lines) && i < |lines|
    ensures UniqueSizes(lines[i := Line(lines[i].size, q)])
    ensures LinesMap(lines[i := Line(lines[i].size, q)]) == LinesMap(lines)[lines[i].size := q]
  {
    var next := lines[i := Line(lines[i].size, q)];
    assert forall j | 0 <= j < |lines| :: next[j].size == lines[j].size;
    assert Sizes(next) == Sizes(lines) by {
      forall s | s in Sizes(lines)
        ensures s in Sizes(next)
      {
        var j :| 0 <= j < |lines| && lines[j].size == s;
        assert next[j] in next;
      }
      forall s | s in Sizes(next)
        ensures s in Sizes(lines)
      {
        var j :| 0 <= j < |next| && next[j].size == s;
        assert lines[j] in lines;
      }
    }
    var a, b := LinesMap(next), LinesMap(lines)[lines[i].size := q];
    forall s | s in a
      ensures a[s] == b[s]
    {
      var j :| 0 <= j < |next| && next[j].size == s;
      assert a[next[j].size] == next[j].quantity;
    }
    MapsEqual(a, b);
  }

  /** The stored constraints read off the dictionary: unique sizes and every quantity at least 1. */
  lemma LinesValidByMap(lines: seq<Line>)
    requires UniqueSizes(lines)
    ensures LinesValid(lines) <==> forall s | s in LinesMap(lines) :: LinesMap(lines)[s] >= 1
  {
    var m := LinesMap(lines);
    if LinesValid(lines) {
      forall s | s in m
        ensures m[s] >= 1
      {
        var l :| l in lines && l.size == s;
        var i :| 0 <= i < |lines| && lines[i] == l;
        assert m[lines[i].size] == lines[i].quantity;
      }
    }
  }

  function LineQuantity(l: Line): int
  {
    l.quantity
  }

  /** `Ordine.quantita_totale`: the number of pairs over all lines of the order. */
  function TotalQuantity(lines: seq<Line>): int
  {
    SumOf(lines, LineQuantity)
  }

  /** The total is at least the number of lines, since every line holds at least one pair. */
  lemma {:induction false} TotalQuantityAtLeastLines(lines: seq<Line>)
    requires LinesValid(lines)
    ensures TotalQuantity(lines) >= |lines|
  {
    if lines != [] {
      var n := |lines| - 1;
      assert LinesValid(lines[..n]) by {
        assert forall i | 0 <= i < n :: lines[..n][i] == lines[i];
      }
      TotalQuantityAtLeastLines(lines[..n]);
    }
  }

  /** The total does not depend on the order in which the lines are stored. */
  lemma TotalQuantityPermutation(a: seq<Line>, b: seq<Line>)
    requires multiset(a) == multiset(b)
    ensures TotalQuantity(a) == TotalQuantity(b)
  {
    SumOfPermutation(a, b, LineQuantity);
  }

  /** With unique sizes, the total is the sum of the size -> quantity dictionary. */
  lemma {:induction false} TotalQuantityIsMapTotal(lines: seq<Line>)
    requires UniqueSizes(lines)
    ensures TotalQuantity(lines) == MapTotal(LinesMap(lines))
  {
    if lines != [] {
      var n := |lines| - 1;
      var init, x := lines[..n], lines[n];
      assert lines == init + [x];
      UniqueSizesSnoc(init, x);
      TotalQuantityIsMapTotal(init);
      LinesMapSnoc(init, x);
      MapTotalUpdate(LinesMap(init), x.size, x.quantity);
    }
  }

  /** An order: the views reassign its state and create, update and delete its lines. */
  class Order {
    var status: Status
    var lines: seq<Line>

    /** The stored constraints on the lines. This is not a class invariant: the
        database enforces only one line per size, while the "at least 1" bound
        comes from form validation, so the views keep `Valid()` only for
        validated input. */
    ghost predicate Valid()
      reads this
    {
      LinesValid(lines)
    }

    constructor (status: Status, lines: seq<Line>)
      ensures this.status == status && this.lines == lines
    {
      this.status := status;
      this.lines := lines;
    }
  }
}
