/** The cart line record and the array operations (find, filter, map, reduce) that the three
    cart ledgers build their new line lists from. */
module CartLines {
  import opened Options

  /** One line of a cart (`CartItem`). Money is an exact real, so sums do not depend on order. */
  datatype Line = Line(
    id: string,
    name: string,
    description: string,
    price: real,
    image: string,
    quantity: int,
    restaurantId: Option<string>,
    restaurantName: Option<string>)

  /** The item handed to `addToCart`; `quantity` is the optional signed delta. */
  datatype ItemInput = ItemInput(
    id: string,
    name: string,
    description: string,
    price: real,
    image: string,
    quantity: Option<int>,
    restaurantId: Option<string>,
    restaurantName: Option<string>)

  /** `item.quantity || 1`: a missing or zero quantity counts as one. */
  function OrOne(q: Option<int>): (d: int)
    ensures d != 0
    ensures d < 0 <==> q.Some? && q.value < 0
  {
    if q.Some? && q.value != 0 then q.value else 1
  }

  /** `{ ...item, quantity }`: a new line built from the item's own fields. */
  function NewLine(item: ItemInput, quantity: int): Line
  {
    Line(item.id, item.name, item.description, item.price, item.image, quantity,
         item.restaurantId, item.restaurantName)
  }

  /** The item an existing line is re-submitted as (`{ ...line, quantity: delta }`). */
  function AsInput(l: Line, delta: Option<int>): ItemInput
  {
    ItemInput(l.id, l.name, l.description, l.price, l.image, delta, l.restaurantId, l.restaurantName)
  }

  /** The ids present in a list of lines. */
  function Ids(lines: seq<Line>): set<string>
  {
    set l | l in lines :: l.id
  }

  /** At most one line per id. */
  ghost predicate UniqueIds(lines: seq<Line>)
  {
    forall i, j :: 0 <= i < j < |lines| ==> lines[i].id != lines[j].id
  }

  /** Every line has quantity at least one. */
  ghost predicate PositiveQuantities(lines: seq<Line>)
  {
    forall l :: l in lines ==> l.quantity >= 1
  }

  /** The invariant the live and the alternate cart keep. */
  ghost predicate WellFormed(lines: seq<Line>)
  {
    UniqueIds(lines) && PositiveQuantities(lines)
  }

  /** `lines.find(i => i.id === id)`: the first line with that id. */
  function Find(lines: seq<Line>, id: string): (r: Option<Line>)
    ensures r.None? <==> id !in Ids(lines)
    ensures r.Some? ==> r.value in lines && r.value.id == id
  {
    if lines == [] then None
    else if lines[0].id == id then Some(lines[0])
    else Find(lines[1..], id)
  }

  /** `getItemQuantity(id)`: the quantity of the matching line, or 0. */
  function QuantityOf(lines: seq<Line>, id: string): (q: int)
    ensures id !in Ids(lines) ==> q == 0
    ensures PositiveQuantities(lines) ==> (q >= 1 <==> id in Ids(lines))
  {
    match Find(lines, id)
    case Some(l) => l.quantity
    case None => 0
  }

  /** `lines.filter(i => i.id !== id)`. */
  function RemoveId(lines: seq<Line>, id: string): (r: seq<Line>)
    ensures forall l :: l in r <==> l in lines && l.id != id
    ensures Ids(r) == Ids(lines) - {id}
    ensures |r| <= |lines|
  {
    if lines == [] then []
    else if lines[0].id == id then RemoveId(lines[1..], id)
    else [lines[0]] + RemoveId(lines[1..], id)
  }

  /** `lines.map(i => i.id === id ? { ...i, quantity: q } : i)`. */
  function SetQuantity(lines: seq<Line>, id: string, q: int): (r: seq<Line>)
    ensures |r| == |lines|
  {
    if lines == [] then []
    else [if lines[0].id == id then lines[0].(quantity := q) else lines[0]] + SetQuantity(lines[1..], id, q)
  }

  /** `lines.map(i => i.id === id ? { ...i, quantity: i.quantity + d } : i)`. */
  function ShiftQuantity(lines: seq<Line>, id: string, d: int): (r: seq<Line>)
    ensures |r| == |lines|
  {
    if lines == [] then []
    else [if lines[0].id == id then lines[0].(quantity := lines[0].quantity + d) else lines[0]]
         + ShiftQuantity(lines[1..], id, d)
  }

  /** One line's share of the total, `price * quantity`. */
  function LineTotal(l: Line): (t: real)
    ensures l.price >= 0.0 && l.quantity >= 0 ==> t >= 0.0
  {
    l.price * l.quantity as real
  }

  /** `lines.reduce((t, i) => t + i.price * i.quantity, 0)`. */
  function Total(lines: seq<Line>): (t: real)
    ensures (forall l :: l in lines ==> l.price >= 0.0 && l.quantity >= 0) ==> t >= 0.0
    ensures lines == [] ==> t == 0.0
  {
    if lines == [] then 0.0
    else LineTotal(lines[0]) + Total(lines[1..])
  }

  /** The sum of the quantities (`lines.reduce((s, i) => s + i.quantity, 0)`). */
  function ItemCount(lines: seq<Line>): (n: int)
    ensures PositiveQuantities(lines) ==> n >= |lines|
  {
    if lines == [] then 0 else lines[0].quantity + ItemCount(lines[1..])
  }

  // ---------------------------------------------------------------------------------------
  // Facts about the list operations

  /** `map` acts line by line: lines with the id get quantity q, the others are kept. */
  lemma {:induction false} SetQuantityAt(lines: seq<Line>, id: string, q: int)
    ensures forall k :: 0 <= k < |lines| ==>
              SetQuantity(lines, id, q)[k] == if lines[k].id == id then lines[k].(quantity := q) else lines[k]
  {
    if lines != [] {
      SetQuantityAt(lines[1..], id, q);
    }
  }

  /** `map` acts line by line: lines with the id get their quantity shifted by d, the others are kept. */
  lemma {:induction false} ShiftQuantityAt(lines: seq<Line>, id: string, d: int)
    ensures forall k :: 0 <= k < |lines| ==>
              ShiftQuantity(lines, id, d)[k] ==
                if lines[k].id == id then lines[k].(quantity := lines[k].quantity + d) else lines[k]
  {
    if lines != [] {
      ShiftQuantityAt(lines[1..], id, d);
    }
  }

  lemma IdsCons(x: Line, s: seq<Line>)
    ensures Ids([x] + s) == {x.id} + Ids(s)
  {
    assert forall l :: l in [x] + s <==> l == x || l in s;
  }

  lemma IdsAppend(a: seq<Line>, b: seq<Line>)
    ensures Ids(a + b) == Ids(a) + Ids(b)
  {
    assert forall l :: l in a + b <==> l in a || l in b;
  }

  /** A list with a head has unique ids iff the head's id is not in the tail and the tail is unique. */
  lemma UniqueCons(lines: seq<Line>)
    requires lines != []
    ensures UniqueIds(lines) <==> lines[0].id !in Ids(lines[1..]) && UniqueIds(lines[1..])
  {
    var t := lines[1..];
    if lines[0].id !in Ids(t) && UniqueIds(t) {
      forall i, j | 0 <= i < j < |lines| ensures lines[i].id != lines[j].id {
        if i == 0 {
          assert lines[j] == t[j - 1];
          assert lines[j] in t;
        } else {
          assert lines[i] == t[i - 1] && lines[j] == t[j - 1];
        }
      }
    }
  }

  /** In a list with unique ids, `find` returns the one line with that id. */
  lemma {:induction false} FindUnique(lines: seq<Line>, l: Line)
    requires UniqueIds(lines) && l in lines
    ensures Find(lines, l.id) == Some(l)
  {
    UniqueCons(lines);
    if lines[0] != l {
      assert l in lines[1..];
      FindUnique(lines[1..], l);
    }
  }

  /** In a list with unique ids, `getItemQuantity` reads the quantity of the one matching line. */
  lemma QuantityOfLine(lines: seq<Line>, l: Line)
    requires UniqueIds(lines) && l in lines
    ensures QuantityOf(lines, l.id) == l.quantity
  {
    FindUnique(lines, l);
  }

  /** `find` on a concatenation looks in the second part only when the first has no match. */
  lemma {:induction false} FindAppend(a: seq<Line>, b: seq<Line>, id: string)
    ensures Find(a + b, id) == if id in Ids(a) then Find(a, id) else Find(b, id)
  {
    if a != [] {
      assert (a + b)[1..] == a[1..] + b;
      IdsCons(a[0], a[1..]);
      assert a == [a[0]] + a[1..];
      FindAppend(a[1..], b, id);
    } else {
      assert a + b == b;
    }
  }

  /** Filtering distributes over concatenation, so the kept lines stay in their order. */
  lemma {:induction false} RemoveIdAppend(a: seq<Line>, b: seq<Line>, id: string)
    ensures RemoveId(a + b, id) == RemoveId(a, id) + RemoveId(b, id)
  {
    if a == [] {
      assert a + b == b;
    } else {
      assert (a + b)[1..] == a[1..] + b;
      RemoveIdAppend(a[1..], b, id);
    }
  }

  /** Filtering out an absent id changes nothing. */
  lemma {:induction false} RemoveAbsent(lines: seq<Line>, id: string)
    requires id !in Ids(lines)
    ensures RemoveId(lines, id) == lines
  {
    if lines != [] {
      IdsCons(lines[0], lines[1..]);
      assert lines == [lines[0]] + lines[1..];
      RemoveAbsent(lines[1..], id);
    }
  }

  /** Filtering keeps ids unique. */
  lemma {:induction false} RemoveIdUnique(lines: seq<Line>, id: string)
    requires UniqueIds(lines)
    ensures UniqueIds(RemoveId(lines, id))
  {
    if lines != [] {
      UniqueCons(lines);
      RemoveIdUnique(lines[1..], id);
      if lines[0].id != id {
        var r := RemoveId(lines, id);
        assert r == [lines[0]] + RemoveId(lines[1..], id);
        UniqueCons(r);
      }
    }
  }

  /** Filtering out one id leaves the other ids' first lines where `find` sees them. */
  lemma {:induction false} FindAfterRemove(lines: seq<Line>, id: string, other: string)
    requires other != id
    ensures Find(RemoveId(lines, id), other) == Find(lines, other)
  {
    if lines != [] {
      FindAfterRemove(lines[1..], id, other);
    }
  }

  /** Mapping one id's quantity keeps ids where they were. */
  lemma SetQuantityIds(lines: seq<Line>, id: string, q: int)
    ensures Ids(SetQuantity(lines, id, q)) == Ids(lines)
    ensures UniqueIds(lines) ==> UniqueIds(SetQuantity(lines, id, q))
  {
    SetQuantityAt(lines, id, q);
    var r := SetQuantity(lines, id, q);
    forall x | x in Ids(r) ensures x in Ids(lines) {
      var l :| l in r && l.id == x;
      var k :| 0 <= k < |r| && r[k] == l;
      assert lines[k] in lines;
    }
    forall x | x in Ids(lines) ensures x in Ids(r) {
      var l :| l in lines && l.id == x;
      var k :| 0 <= k < |lines| && lines[k] == l;
      assert r[k] in r;
    }
  }

  /** Shifting one id's quantity keeps ids where they were. */
  lemma ShiftQuantityIds(lines: seq<Line>, id: string, d: int)
    ensures Ids(ShiftQuantity(lines, id, d)) == Ids(lines)
    ensures UniqueIds(lines) ==> UniqueIds(ShiftQuantity(lines, id, d))
  {
    ShiftQuantityAt(lines, id, d);
    var r := ShiftQuantity(lines, id, d);
    forall x | x in Ids(r) ensures x in Ids(lines) {
      var l :| l in r && l.id == x;
      var k :| 0 <= k < |r| && r[k] == l;
      assert lines[k] in lines;
    }
    forall x | x in Ids(lines) ensures x in Ids(r) {
      var l :| l in lines && l.id == x;
      var k :| 0 <= k < |lines| && lines[k] == l;
      assert r[k] in r;
    }
  }

  /** After mapping id's quantity to q, `find` sees the first matching line with quantity q. */
  lemma {:induction false} FindAfterSetQuantity(lines: seq<Line>, id: string, q: int)
    requires id in Ids(lines)
    ensures Find(SetQuantity(lines, id, q), id) == Some(Find(lines, id).value.(quantity := q))
  {
    IdsCons(lines[0], lines[1..]);
    assert lines == [lines[0]] + lines[1..];
    if lines[0].id != id {
      FindAfterSetQuantity(lines[1..], id, q);
    }
  }

  /** Mapping one id's quantity does not disturb the other lines or their order. */
  lemma {:induction false} RemoveAfterSetQuantity(lines: seq<Line>, id: string, q: int)
    ensures RemoveId(SetQuantity(lines, id, q), id) == RemoveId(lines, id)
  {
    if lines != [] {
      RemoveAfterSetQuantity(lines[1..], id, q);
    }
  }

  /** Shifting one id's quantity does not disturb the other lines or their order. */
  lemma {:induction false} RemoveAfterShiftQuantity(lines: seq<Line>, id: string, d: int)
    ensures RemoveId(ShiftQuantity(lines, id, d), id) == RemoveId(lines, id)
  {
    if lines != [] {
      RemoveAfterShiftQuantity(lines[1..], id, d);
    }
  }

  /** After shifting id's quantity by d, `find` sees the first matching line shifted by d. */
  lemma {:induction false} FindAfterShiftQuantity(lines: seq<Line>, f: Line, d: int)
    requires Find(lines, f.id) == Some(f)
    ensures Find(ShiftQuantity(lines, f.id, d), f.id) == Some(f.(quantity := f.quantity + d))
  {
    var tail := ShiftQuantity(lines[1..], f.id, d);
    if lines[0].id == f.id {
      assert ShiftQuantity(lines, f.id, d) == [f.(quantity := f.quantity + d)] + tail;
    } else {
      assert ShiftQuantity(lines, f.id, d) == [lines[0]] + tail;
      FindAfterShiftQuantity(lines[1..], f, d);
    }
  }

  /** Mapping a line's quantity to the value it already has changes nothing when ids are unique. */
  lemma SetQuantityUnchanged(lines: seq<Line>, l: Line)
    requires UniqueIds(lines) && l in lines
    ensures SetQuantity(lines, l.id, l.quantity) == lines
  {
    SetQuantityAt(lines, l.id, l.quantity);
    var r := SetQuantity(lines, l.id, l.quantity);
    forall k | 0 <= k < |lines| ensures r[k] == lines[k] {
      if lines[k].id == l.id {
        var j :| 0 <= j < |lines| && lines[j] == l;
        assert j == k;
      }
    }
  }

  /** Setting a line's quantity to one more and then back to its own leaves the lines unchanged. */
  lemma {:induction false} SetQuantityRestore(lines: seq<Line>, id: string, l: Line)
    requires UniqueIds(lines) && l in lines && l.id == id
    ensures SetQuantity(SetQuantity(lines, id, l.quantity + 1), id, l.quantity) == lines
  {
    calc {
      SetQuantity(SetQuantity(lines, id, l.quantity + 1), id, l.quantity);
      { SetQuantityTwice(lines, id, l.quantity + 1, l.quantity); }
      SetQuantity(lines, id, l.quantity);
      { SetQuantityUnchanged(lines, l); }
      lines;
    }
  }

  /** Mapping twice is mapping to the second quantity. */
  lemma SetQuantityTwice(lines: seq<Line>, id: string, a: int, b: int)
    ensures SetQuantity(SetQuantity(lines, id, a), id, b) == SetQuantity(lines, id, b)
  {
    SetQuantityAt(lines, id, a);
    SetQuantityAt(lines, id, b);
    SetQuantityAt(SetQuantity(lines, id, a), id, b);
  }

  /** `reduce` over a concatenation adds the two partial totals. */
  lemma {:induction false} TotalAppend(a: seq<Line>, b: seq<Line>)
    ensures Total(a + b) == Total(a) + Total(b)
  {
    if a == [] {
      assert a + b == b;
    } else {
      assert (a + b)[1..] == a[1..] + b;
      TotalAppend(a[1..], b);
    }
  }

  /** With unique ids, the total is the total of the other lines plus this line's price times quantity. */
  lemma {:induction false} TotalSplit(lines: seq<Line>, l: Line)
    requires UniqueIds(lines) && l in lines
    ensures Total(lines) == Total(RemoveId(lines, l.id)) + LineTotal(l)
  {
    UniqueCons(lines);
    if lines[0] == l {
      RemoveAbsent(lines[1..], l.id);
    } else {
      assert l in lines[1..];
      TotalSplit(lines[1..], l);
      var r := RemoveId(lines, l.id);
      assert r == [lines[0]] + RemoveId(lines[1..], l.id);
      assert r[1..] == RemoveId(lines[1..], l.id);
    }
  }

  /** The share of the total that belongs to an id: its first line's price times quantity, or 0. */
  function LineShare(lines: seq<Line>, id: string): real
  {
    match Find(lines, id)
    case Some(l) => LineTotal(l)
    case None => 0.0
  }

  /** With unique ids, the total is the other ids' total plus this id's share. */
  lemma TotalById(lines: seq<Line>, id: string)
    requires UniqueIds(lines)
    ensures Total(lines) == Total(RemoveId(lines, id)) + LineShare(lines, id)
  {
    match Find(lines, id)
    case Some(l) => TotalSplit(lines, l);
    case None => RemoveAbsent(lines, id);
  }

  /** With unique ids, filtering out the id of a line removes exactly one line. */
  lemma {:induction false} RemoveIdLength(lines: seq<Line>, l: Line)
    requires UniqueIds(lines) && l in lines
    ensures |RemoveId(lines, l.id)| == |lines| - 1
  {
    UniqueCons(lines);
    if lines[0] == l {
      RemoveAbsent(lines[1..], l.id);
    } else {
      assert l in lines[1..];
      RemoveIdLength(lines[1..], l);
    }
  }

  /** Appending a line whose id is new keeps ids unique. */
  lemma AppendNewUnique(lines: seq<Line>, x: Line)
    requires UniqueIds(lines) && x.id !in Ids(lines)
    ensures UniqueIds(lines + [x])
    ensures Ids(lines + [x]) == Ids(lines) + {x.id}
  {
    var r := lines + [x];
    forall i, j | 0 <= i < j < |r| ensures r[i].id != r[j].id {
      if j == |lines| {
        assert r[i] in lines;
      }
    }
    IdsAppend(lines, [x]);
    assert Ids([x]) == {x.id};
  }

  /** `find` on a list with one line appended at the end whose id is new finds that line. */
  lemma FindAppended(lines: seq<Line>, x: Line)
    requires x.id !in Ids(lines)
    ensures Find(lines + [x], x.id) == Some(x)
  {
    FindAppend(lines, [x], x.id);
  }

  /** Filtering the id of a line appended at the end, whose id is new, gives back the list. */
  lemma {:induction false} RemoveAppended(lines: seq<Line>, x: Line)
    requires x.id !in Ids(lines)
    ensures RemoveId(lines + [x], x.id) == lines
  {
    RemoveIdAppend(lines, [x], x.id);
    assert RemoveId([x], x.id) == [];
    RemoveAbsent(lines, x.id);
  }

  /** Mapping over an id that no line has changes nothing. */
  lemma {:induction false} ShiftQuantityAbsent(lines: seq<Line>, id: string, d: int)
    requires id !in Ids(lines)
    ensures ShiftQuantity(lines, id, d) == lines
  {
    if lines != [] {
      assert lines[0] in lines;
      assert Ids(lines[1..]) <= Ids(lines) by {
        forall l | l in lines[1..] ensures l in lines { }
      }
      ShiftQuantityAbsent(lines[1..], id, d);
    }
  }

  /** Mapping over an id that no line has changes nothing. */
  lemma {:induction false} SetQuantityAbsent(lines: seq<Line>, id: string, q: int)
    requires id !in Ids(lines)
    ensures SetQuantity(lines, id, q) == lines
  {
    if lines != [] {
      assert lines[0] in lines;
      assert Ids(lines[1..]) <= Ids(lines) by {
        forall l | l in lines[1..] ensures l in lines { }
      }
      SetQuantityAbsent(lines[1..], id, q);
    }
  }

  /** Shifting an id's quantities by d and then by -d gives back the list. */
  lemma {:induction false} ShiftQuantityInverse(lines: seq<Line>, id: string, d: int)
    ensures ShiftQuantity(ShiftQuantity(lines, id, d), id, -d) == lines
  {
    if lines != [] {
      ShiftQuantityInverse(lines[1..], id, d);
      var r := ShiftQuantity(lines, id, d);
      assert r[1..] == ShiftQuantity(lines[1..], id, d);
    }
  }
}
