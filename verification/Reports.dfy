/** Grouping, ranking and the monthly report. */
module Reports {
  import opened Options
  import opened Lists
  import opened ObjectOrder

  /** A transaction as the report reads it; an unreadable timestamp is absent, a missing document empty. */
  datatype Trade = Trade(
    direction: string, status: string, senderId: Option<string>, receiverId: Option<string>, ublXml: string,
    timestamp: Option<int>, completedAt: Option<int>)

  // ----- records: properties in the order in which they were first set, and the order in which they are listed

  datatype Entry = Entry(key: string, value: real)

  predicate Holds(acc: seq<Entry>, key: string) {
    exists e <- acc :: e.key == key
  }

  /** The entry with the key, where it is. */
  function Raise(acc: seq<Entry>, key: string, v: real): seq<Entry> {
    if acc == [] then []
    else
      var n := |acc| - 1;
      if acc[n].key == key then acc[..n] + [Entry(key, acc[n].value + v)] else Raise(acc[..n], key, v) + [acc[n]]
  }

  /** `acc[key] = (acc[key] || 0) + v` */
  function Add(acc: seq<Entry>, key: string, v: real): seq<Entry> {
    if Holds(acc, key) then Raise(acc, key, v) else acc + [Entry(key, v)]
  }

  function ValueOf(): Entry -> real {
    (e: Entry) => e.value
  }

  /** The sum of all values of a record. */
  function TotalOf(acc: seq<Entry>): real {
    SumBy(ValueOf(), acc)
  }

  function GroupAndSum(items: seq<Trade>, key: Trade -> string, value: Trade -> real): seq<Entry> {
    if items == [] then [] else Add(GroupAndSum(items[..|items| - 1], key, value), key(items[|items| - 1]), value(items[|items| - 1]))
  }

  lemma {:induction false} RaiseTotal(acc: seq<Entry>, key: string, v: real)
    requires Holds(acc, key)
    ensures TotalOf(Raise(acc, key, v)) == TotalOf(acc) + v
  {
    var n := |acc| - 1;
    assert acc == acc[..n] + [acc[n]];
    if acc[n].key == key {
      assert (acc[..n] + [Entry(key, acc[n].value + v)])[..n] == acc[..n];
    } else {
      RaiseTotal(acc[..n], key, v);
      var next := Raise(acc[..n], key, v) + [acc[n]];
      assert next[..|next| - 1] == Raise(acc[..n], key, v);
    }
  }

  lemma AddTotal(acc: seq<Entry>, key: string, v: real)
    ensures TotalOf(Add(acc, key, v)) == TotalOf(acc) + v
  {
    if Holds(acc, key) {
      RaiseTotal(acc, key, v);
    } else {
      assert (acc + [Entry(key, v)])[..|acc|] == acc;
    }
  }

  // ----- the order of the properties

  function KeyOf(): Entry -> string {
    (e: Entry) => e.key
  }

  function KeysOf(acc: seq<Entry>): seq<string> {
    Map(KeyOf(), acc)
  }

  /** `Object.entries`: what a record is listed as. */
  function Entries(acc: seq<Entry>): seq<Entry> {
    OwnOrder(KeyOf(), acc)
  }

  /** The keys of the items, each where it first appears. */
  function FirstSeen(items: seq<Trade>, key: Trade -> string): seq<string> {
    if items == [] then []
    else
      var before, k := FirstSeen(items[..|items| - 1], key), key(items[|items| - 1]);
      if k in before then before else before + [k]
  }

  lemma {:induction false} RaiseKeys(acc: seq<Entry>, key: string, v: real)
    ensures KeysOf(Raise(acc, key, v)) == KeysOf(acc)
  {
    if acc != [] {
      var n := |acc| - 1;
      RaiseKeys(acc[..n], key, v);
      assert KeysOf(acc) == KeysOf(acc[..n]) + [acc[n].key];
    }
  }

  lemma HoldsKey(acc: seq<Entry>, key: string)
    ensures Holds(acc, key) <==> key in KeysOf(acc)
  {
    if Holds(acc, key) {
      var i :| 0 <= i < |acc| && acc[i].key == key;
      assert KeysOf(acc)[i] == key;
    }
  }

  lemma AddKeys(acc: seq<Entry>, key: string, v: real)
    ensures KeysOf(Add(acc, key, v)) == if key in KeysOf(acc) then KeysOf(acc) else KeysOf(acc) + [key]
  {
    hide Raise, Holds;
    HoldsKey(acc, key);
    RaiseKeys(acc, key, v);
    assert (acc + [Entry(key, v)])[..|acc|] == acc;
  }

  /** The groups are set in the order in which their keys first appear. */
  lemma {:induction false} GroupKeys(items: seq<Trade>, key: Trade -> string, value: Trade -> real)
    ensures KeysOf(GroupAndSum(items, key, value)) == FirstSeen(items, key)
  {
    if items != [] {
      hide Add, KeysOf;
      var n := |items| - 1;
      GroupKeys(items[..n], key, value);
      AddKeys(GroupAndSum(items[..n], key, value), key(items[n]), value(items[n]));
    } else {
      assert KeysOf([]) == [];
    }
  }

  lemma {:induction false} SeenOnce(items: seq<Trade>, key: Trade -> string)
    ensures forall k :: multiset(FirstSeen(items, key))[k] <= 1
  {
    if items != [] {
      SeenOnce(items[..|items| - 1], key);
    }
  }

  /**
   * The groups are listed with the array indices among their keys first, strictly rising, and then the other keys in the
   * order in which they first appear.
   */
  lemma GroupOrder(items: seq<Trade>, key: Trade -> string, value: Trade -> real)
    ensures KeysOf(Entries(GroupAndSum(items, key, value))) == OwnOrder(Same(), FirstSeen(items, key))
    ensures ListedKeys(OwnOrder(Same(), FirstSeen(items, key)), FirstSeen(items, key))
  {
    hide GroupAndSum, FirstSeen, OwnOrder;
    GroupKeys(items, key, value);
    OwnOrderKeys(KeyOf(), GroupAndSum(items, key, value));
    SeenListing(items, key);
  }

  /** Keys in the order of listing, given in the order of setting. */
  predicate ListedKeys(keys: seq<string>, seen: seq<string>) {
    multiset(keys) == multiset(seen) && var n := |Filter(Numbered(Same()), seen)|;
    && n <= |keys| && keys[n..] == Filter(Named(Same()), seen)
    && (forall i :: 0 <= i < n ==> IsIndex(keys[i])) && forall i, j :: 0 <= i < j < n ==> IndexOf(keys[i]) < IndexOf(keys[j])
  }

  lemma SeenListing(items: seq<Trade>, key: Trade -> string)
    ensures ListedKeys(OwnOrder(Same(), FirstSeen(items, key)), FirstSeen(items, key))
  {
    hide FirstSeen, OwnOrder, Filter, IsIndex, IndexOf;
    SeenOnce(items, key);
    OwnOrderLists(Same(), FirstSeen(items, key));
    StrictlyRising(FirstSeen(items, key));
  }

  lemma EntriesSame(acc: seq<Entry>)
    ensures multiset(Entries(acc)) == multiset(acc) && |Entries(acc)| == |acc| && TotalOf(Entries(acc)) == TotalOf(acc)
  {
    hide OwnOrder, SumBy;
    OwnOrderLists(KeyOf(), acc);
    Reordered(ValueOf(), (e: Entry) => [e], Entries(acc), acc);
  }

  /** The values of the groups sum to the values of the items. */
  lemma {:induction false} GroupTotal(items: seq<Trade>, key: Trade -> string, value: Trade -> real)
    ensures TotalOf(GroupAndSum(items, key, value)) == SumBy(value, items)
  {
    if items != [] {
      GroupTotal(items[..|items| - 1], key, value);
      AddTotal(GroupAndSum(items[..|items| - 1], key, value), key(items[|items| - 1]), value(items[|items| - 1]));
    }
  }

  function Having(key: Trade -> string, value: Trade -> real, k: string): Trade -> real {
    (t: Trade) => if key(t) == k then value(t) else 0.0
  }

  // ----- the JavaScript object, which answers for inherited names too

  /** The properties every object literal inherits. */
  const INHERITED: set<string> := {
    "constructor", "toString", "toLocaleString", "valueOf", "hasOwnProperty", "isPrototypeOf", "propertyIsEnumerable",
    PROTO, "__defineGetter__", "__defineSetter__", "__lookupGetter__", "__lookupSetter__" }

  /** An assignment of anything but an object or null to this one is ignored. */
  const PROTO := "__proto__"

  /** A number, or the text that adding a number to an inherited function makes. */
  datatype Cell = Num(x: real) | Text

  datatype Slot = Slot(key: string, cell: Cell)

  function Grown(c: Cell, v: real): Cell {
    match c
    case Num(x) => Num(x + v)
    case Text => Text
  }

  predicate HasKey(acc: seq<Slot>, k: string) {
    exists s <- acc :: s.key == k
  }

  /** The property with the key, where it is. */
  function Change(acc: seq<Slot>, key: string, v: real): seq<Slot> {
    if acc == [] then []
    else
      var n := |acc| - 1;
      if acc[n].key == key then acc[..n] + [Slot(key, Grown(acc[n].cell, v))] else Change(acc[..n], key, v) + [acc[n]]
  }

  function Store(acc: seq<Slot>, key: string, v: real): seq<Slot> {
    if HasKey(acc, key) then Change(acc, key, v) else acc + [Slot(key, if key in INHERITED then Text else Num(v))]
  }

  /** `acc[key] = (acc[key] || 0) + v` on an object. */
  function Bump(acc: seq<Slot>, key: string, v: real): seq<Slot> {
    if key == PROTO then acc else Store(acc, key, v)
  }

  function JsGroup(items: seq<Trade>, key: Trade -> string, value: Trade -> real): seq<Slot> {
    if items == [] then [] else Bump(JsGroup(items[..|items| - 1], key, value), key(items[|items| - 1]), value(items[|items| - 1]))
  }

  /** No key is the name of an inherited property. */
  predicate Ordinary(items: seq<Trade>, key: Trade -> string) {
    forall t <- items :: key(t) !in INHERITED
  }

  function Slots(acc: seq<Entry>): (r: seq<Slot>)
    ensures |r| == |acc| && forall i :: 0 <= i < |acc| ==> r[i] == Slot(acc[i].key, Num(acc[i].value))
  {
    seq(|acc|, i requires 0 <= i < |acc| => Slot(acc[i].key, Num(acc[i].value)))
  }

  lemma {:induction false} ChangeOrdinary(acc: seq<Entry>, key: string, v: real)
    ensures Change(Slots(acc), key, v) == Slots(Raise(acc, key, v))
  {
    if acc != [] {
      var n := |acc| - 1;
      assert Slots(acc)[..n] == Slots(acc[..n]);
      ChangeOrdinary(acc[..n], key, v);
    }
  }

  lemma SlotsHave(acc: seq<Entry>, key: string)
    ensures HasKey(Slots(acc), key) <==> Holds(acc, key)
  {
    if Holds(acc, key) {
      var i :| 0 <= i < |acc| && acc[i].key == key;
      assert Slots(acc)[i].key == key;
    }
  }

  lemma StoreOrdinary(acc: seq<Entry>, key: string, v: real)
    requires key !in INHERITED
    ensures Store(Slots(acc), key, v) == Slots(Add(acc, key, v))
  {
    hide INHERITED, Change, Raise, HasKey, Holds;
    SlotsHave(acc, key);
    ChangeOrdinary(acc, key, v);
  }

  lemma ProtoInherited()
    ensures PROTO in INHERITED
  {
  }

  lemma {:induction false} OrdinaryGroup(items: seq<Trade>, key: Trade -> string, value: Trade -> real)
    requires Ordinary(items, key)
    ensures JsGroup(items, key, value) == Slots(GroupAndSum(items, key, value))
  {
    hide INHERITED, PROTO;
    if items != [] {
      var n := |items| - 1;
      ProtoInherited();
      OrdinaryGroup(items[..n], key, value);
      StoreOrdinary(GroupAndSum(items[..n], key, value), key(items[n]), value(items[n]));
    }
  }

  /** An inherited name never holds a number. */
  predicate Spoilt(acc: seq<Slot>) {
    forall s <- acc :: s.key in INHERITED ==> s.cell.Text?
  }

  lemma SpoiltParts(a: seq<Slot>, s: Slot)
    ensures Spoilt(a + [s]) <==> Spoilt(a) && (s.key in INHERITED ==> s.cell.Text?)
  {
    hide INHERITED;
    assert s in a + [s];
    assert forall x :: x in a + [s] <==> x in a || x == s;
  }

  lemma KeysSplit(a: seq<Slot>, s: Slot)
    ensures forall k :: HasKey(a + [s], k) <==> HasKey(a, k) || s.key == k
  {
    assert forall x :: x in a + [s] <==> x in a || x == s;
  }

  lemma {:induction false} ChangeKeys(acc: seq<Slot>, key: string, v: real)
    requires Spoilt(acc)
    ensures Spoilt(Change(acc, key, v)) && forall k :: HasKey(Change(acc, key, v), k) <==> HasKey(acc, k)
  {
    hide INHERITED, Spoilt, HasKey;
    if acc != [] {
      var n := |acc| - 1;
      var last := if acc[n].key == key then Slot(key, Grown(acc[n].cell, v)) else acc[n];
      assert acc == acc[..n] + [acc[n]];
      SpoiltParts(acc[..n], acc[n]);
      KeysSplit(acc[..n], acc[n]);
      if acc[n].key == key {
        SpoiltParts(acc[..n], last);
        KeysSplit(acc[..n], last);
      } else {
        ChangeKeys(acc[..n], key, v);
        SpoiltParts(Change(acc[..n], key, v), last);
        KeysSplit(Change(acc[..n], key, v), last);
      }
    }
  }

  /** Storing adds the key and keeps all others. */
  lemma StoreKeys(acc: seq<Slot>, key: string, v: real)
    requires Spoilt(acc)
    ensures Spoilt(Store(acc, key, v)) && forall k :: HasKey(Store(acc, key, v), k) <==> k == key || HasKey(acc, k)
  {
    hide INHERITED, Spoilt, HasKey, Change;
    var s := Slot(key, if key in INHERITED then Text else Num(v));
    ChangeKeys(acc, key, v);
    SpoiltParts(acc, s);
    KeysSplit(acc, s);
  }

  lemma SpoiltNothing()
    ensures Spoilt([]) && forall k :: !HasKey([], k)
  {
  }

  lemma {:induction false} JsGroupKeys(items: seq<Trade>, key: Trade -> string, value: Trade -> real)
    ensures Spoilt(JsGroup(items, key, value))
    ensures forall k :: HasKey(JsGroup(items, key, value), k) <==> k != PROTO && exists t <- items :: key(t) == k
  {
    hide Spoilt, INHERITED, PROTO;
    SpoiltNothing();
    if items != [] {
      hide HasKey;
      var n := |items| - 1;
      JsGroupKeys(items[..n], key, value);
      StoreKeys(JsGroup(items[..n], key, value), key(items[n]), value(items[n]));
      assert items == items[..n] + [items[n]];
    }
  }

  // ----- sums of the cells

  /** The sum of the values, if all are numbers. */
  function CellTotal(acc: seq<Slot>): Option<real> {
    if acc == [] then Some(0.0)
    else
      match CellTotal(acc[..|acc| - 1])
      case None => None
      case Some(x) => if acc[|acc| - 1].cell.Num? then Some(x + acc[|acc| - 1].cell.x) else None
  }

  lemma {:induction false} SlotsTotal(acc: seq<Entry>)
    ensures CellTotal(Slots(acc)) == Some(TotalOf(acc))
  {
    if acc != [] {
      SlotsTotal(acc[..|acc| - 1]);
      assert Slots(acc)[..|acc| - 1] == Slots(acc[..|acc| - 1]);
    }
  }

  lemma {:induction false} TextSpoils(acc: seq<Slot>)
    ensures CellTotal(acc).Some? ==> forall s <- acc :: s.cell.Num?
  {
    if acc != [] {
      TextSpoils(acc[..|acc| - 1]);
      assert acc == acc[..|acc| - 1] + [acc[|acc| - 1]];
    }
  }

  /** Unless a key is an inherited name, grouping loses and invents nothing: the groups sum to the items. */
  lemma GroupConserves(items: seq<Trade>, key: Trade -> string, value: Trade -> real)
    requires Ordinary(items, key)
    ensures CellTotal(JsGroup(items, key, value)) == Some(SumBy(value, items))
  {
    hide JsGroup, GroupAndSum, Ordinary;
    OrdinaryGroup(items, key, value);
    SlotsTotal(GroupAndSum(items, key, value));
    GroupTotal(items, key, value);
  }

  /** What the object answers for a key of its own. */
  function CellOf(acc: seq<Slot>, k: string): Option<Cell> {
    if acc == [] then None
    else if acc[|acc| - 1].key == k then Some(acc[|acc| - 1].cell)
    else CellOf(acc[..|acc| - 1], k)
  }

  lemma {:induction false} CellIs(acc: seq<Slot>, k: string)
    ensures CellOf(acc, k).Some? <==> HasKey(acc, k)
    ensures CellOf(acc, k).Some? ==> Slot(k, CellOf(acc, k).value) in acc
  {
    if acc != [] {
      hide HasKey;
      CellIs(acc[..|acc| - 1], k);
      KeysSplit(acc[..|acc| - 1], acc[|acc| - 1]);
      assert acc == acc[..|acc| - 1] + [acc[|acc| - 1]];
    } else {
      SpoiltNothing();
    }
  }

  predicate Occurs(items: seq<Trade>, key: Trade -> string, k: string) {
    exists t <- items :: key(t) == k
  }

  /**
   * For every key that occurs: its group holds the sum of exactly the items with that key, if and only if it is not the
   * name of an inherited property. An inherited name holds text instead, and `__proto__` no value at all.
   */
  lemma GroupExact(items: seq<Trade>, key: Trade -> string, value: Trade -> real, k: string)
    requires Occurs(items, key, k)
    ensures CellOf(JsGroup(items, key, value), k) == Some(Num(SumBy(Having(key, value, k), items))) <==> k !in INHERITED
    ensures k in INHERITED ==> CellOf(JsGroup(items, key, value), k) == if k == "__proto__" then None else Some(Text)
  {
    hide JsGroup, INHERITED, HasKey, CellOf;
    JsGroupKeys(items, key, value);
    CellIs(JsGroup(items, key, value), k);
    ProtoInherited();
    if k !in INHERITED {
      JsGet(items, key, value, k);
    }
  }

  /** A key that is no inherited name is summed up whatever other keys there are. */
  lemma {:induction false} JsGet(items: seq<Trade>, key: Trade -> string, value: Trade -> real, k: string)
    requires k !in INHERITED
    ensures CellOf(JsGroup(items, key, value), k) == if Occurs(items, key, k) then Some(Num(SumBy(Having(key, value, k), items))) else None
    ensures !Occurs(items, key, k) ==> SumBy(Having(key, value, k), items) == 0.0
  {
    hide *;
    if items == [] {
      GetNothing(key, value, k);
    } else {
      var n := |items| - 1;
      var t, acc := items[n], JsGroup(items[..n], key, value);
      assert items == items[..n] + [t];
      JsGet(items[..n], key, value, k);
      GroupStep(items[..n], t, key, value);
      HavingStep(items[..n], t, key, value, k);
      BumpGet(acc, key(t), value(t), k);
      OccursStep(items[..n], t, key, k);
      GrownNum(SumBy(Having(key, value, k), items[..n]), value(t));
    }
  }

  lemma GetNothing(key: Trade -> string, value: Trade -> real, k: string)
    ensures CellOf(JsGroup([], key, value), k) == None && !Occurs([], key, k) && SumBy(Having(key, value, k), []) == 0.0
  {
  }

  lemma OccursStep(items: seq<Trade>, t: Trade, key: Trade -> string, k: string)
    ensures Occurs(items + [t], key, k) <==> Occurs(items, key, k) || key(t) == k
  {
    assert forall x :: x in items + [t] <==> x in items || x == t;
  }

  lemma BumpGet(acc: seq<Slot>, key: string, v: real, k: string)
    requires k !in INHERITED
    ensures CellOf(Bump(acc, key, v), k) ==
      if k != key then CellOf(acc, k)
      else match CellOf(acc, k) { case None => Some(Num(v)) case Some(c) => Some(Grown(c, v)) }
  {
    hide INHERITED, PROTO, Store, CellOf;
    ProtoInherited();
    StoreGet(acc, key, v, k);
  }

  lemma GrownNum(x: real, v: real)
    ensures Grown(Num(x), v) == Num(x + v)
  {
  }

  lemma HavingStep(items: seq<Trade>, t: Trade, key: Trade -> string, value: Trade -> real, k: string)
    ensures SumBy(Having(key, value, k), items + [t]) == SumBy(Having(key, value, k), items) + if key(t) == k then value(t) else 0.0
  {
    assert (items + [t])[..|items|] == items;
  }

  lemma {:induction false} ChangeGet(acc: seq<Slot>, key: string, v: real, k: string)
    ensures CellOf(Change(acc, key, v), k) == match CellOf(acc, k) { case None => None case Some(c) => Some(if k == key then Grown(c, v) else c) }
  {
    if acc != [] {
      var n := |acc| - 1;
      if acc[n].key == key {
        assert (acc[..n] + [Slot(key, Grown(acc[n].cell, v))])[..n] == acc[..n];
      } else {
        ChangeGet(acc[..n], key, v, k);
        var next := Change(acc[..n], key, v) + [acc[n]];
        assert next[..|next| - 1] == Change(acc[..n], key, v);
      }
    }
  }

  lemma StoreGet(acc: seq<Slot>, key: string, v: real, k: string)
    ensures k != key ==> CellOf(Store(acc, key, v), k) == CellOf(acc, k)
    ensures CellOf(Store(acc, key, v), key) == match CellOf(acc, key) {
      case None => Some(if key in INHERITED then Text else Num(v))
      case Some(c) => Some(Grown(c, v)) }
  {
    hide INHERITED, HasKey, Change;
    CellIs(acc, key);
    ChangeGet(acc, key, v, k);
    ChangeGet(acc, key, v, key);
    var s := Slot(key, if key in INHERITED then Text else Num(v));
    assert (acc + [s])[..|acc|] == acc;
  }

  method GroupItems(items: seq<Trade>, key: Trade -> string, value: Trade -> real) returns (acc: seq<Slot>)
    ensures acc == JsGroup(items, key, value)
  {
    acc := [];
    for i := 0 to |items|
      invariant acc == JsGroup(items[..i], key, value)
    {
      assert items[..i + 1][..i] == items[..i];
      acc := Bump(acc, key(items[i]), value(items[i]));
    }
    assert items[..|items|] == items;
  }

  function One(): Trade -> real {
    (t: Trade) => 1.0
  }

  lemma {:induction false} SumOnes(items: seq<Trade>)
    ensures SumBy(One(), items) == |items| as real
  {
    if items != [] {
      SumOnes(items[..|items| - 1]);
    }
  }

  function NotProto(key: Trade -> string): Trade -> bool {
    (t: Trade) => key(t) != PROTO
  }

  lemma {:induction false} ProtoIgnored(items: seq<Trade>, key: Trade -> string, value: Trade -> real)
    ensures JsGroup(items, key, value) == JsGroup(Filter(NotProto(key), items), key, value)
    ensures |Filter(NotProto(key), items)| == |items| <==> forall t <- items :: key(t) != PROTO
  {
    if items != [] {
      hide PROTO, Store, Filter, JsGroup, Bump;
      var n := |items| - 1;
      assert items == items[..n] + [items[n]];
      ProtoIgnored(items[..n], key, value);
      FilterAppend(NotProto(key), items[..n], items[n]);
      GroupStep(items[..n], items[n], key, value);
      GroupStep(Filter(NotProto(key), items[..n]), items[n], key, value);
      ProtoBump(JsGroup(items[..n], key, value), key(items[n]), value(items[n]));
      assert Filter(NotProto(key), items[..n]) + [] == Filter(NotProto(key), items[..n]);
    }
  }

  lemma GroupStep(items: seq<Trade>, t: Trade, key: Trade -> string, value: Trade -> real)
    ensures JsGroup(items + [t], key, value) == Bump(JsGroup(items, key, value), key(t), value(t))
  {
    hide Bump;
    assert (items + [t])[..|items|] == items;
  }

  lemma ProtoBump(acc: seq<Slot>, key: string, v: real)
    ensures key == PROTO ==> Bump(acc, key, v) == acc
  {
    hide Store;
  }

  /** Counts by a key sum to the number of items if and only if no key is an inherited name. */
  lemma CountsConserve(items: seq<Trade>, key: Trade -> string)
    ensures CellTotal(JsGroup(items, key, One())) == Some(|items| as real) <==> Ordinary(items, key)
  {
    hide JsGroup, INHERITED, PROTO, Filter, HasKey, CellTotal;
    if Ordinary(items, key) {
      GroupConserves(items, key, One());
      SumOnes(items);
    } else if CellTotal(JsGroup(items, key, One())).Some? {
      OnlyProtoLeft(items, key);
      var kept := Filter(NotProto(key), items);
      ProtoIgnored(items, key, One());
      GroupConserves(kept, key, One());
      SumOnes(kept);
    }
  }

  /** If all cells are numbers, the only inherited name among the keys is `__proto__`. */
  lemma OnlyProtoLeft(items: seq<Trade>, key: Trade -> string)
    requires CellTotal(JsGroup(items, key, One())).Some?
    ensures Ordinary(Filter(NotProto(key), items), key)
    ensures !Ordinary(items, key) ==> exists t <- items :: key(t) == PROTO
  {
    hide JsGroup, INHERITED, PROTO, CellTotal;
    var group := JsGroup(items, key, One());
    TextSpoils(group);
    JsGroupKeys(items, key, One());
    forall t | t in items && key(t) != PROTO ensures key(t) !in INHERITED {
      assert HasKey(group, key(t));
    }
  }

  /** A participant called `constructor`: its one transaction is counted as text, and the counts add up to nothing. */
  lemma InheritedName(t: Trade, key: Trade -> string)
    requires key(t) == "constructor"
    ensures JsGroup([t], key, One()) == [Slot("constructor", Text)] && CellTotal(JsGroup([t], key, One())) == None
  {
    assert [t][..0] == [];
    assert JsGroup([], key, One()) == [];
  }

  /** The numbers of a record without inherited names. */
  function Numbers(acc: seq<Slot>): (r: seq<Entry>)
    requires forall s <- acc :: s.cell.Num?
    ensures |r| == |acc| && forall i :: 0 <= i < |acc| ==> r[i] == Entry(acc[i].key, acc[i].cell.x)
  {
    seq(|acc|, i requires 0 <= i < |acc| => Entry(acc[i].key, acc[i].cell.x))
  }

  lemma NumbersBack(acc: seq<Entry>)
    ensures (forall s <- Slots(acc) :: s.cell.Num?) && Numbers(Slots(acc)) == acc
  {
  }

  // ----- ranking

  /** Behind every entry that is at least as large. */
  function Place(xs: seq<Entry>, e: Entry): seq<Entry> {
    if xs == [] || xs[|xs| - 1].value >= e.value then xs + [e] else Place(xs[..|xs| - 1], e) + [xs[|xs| - 1]]
  }

  function Rank(xs: seq<Entry>): seq<Entry> {
    if xs == [] then [] else Place(Rank(xs[..|xs| - 1]), xs[|xs| - 1])
  }

  /** The first n of the listed entries, sorted. */
  function TopN(acc: seq<Entry>, n: nat): seq<Entry> {
    var ranked := Rank(Entries(acc));
    if n < |ranked| then ranked[..n] else ranked
  }

  predicate Descending(xs: seq<Entry>) {
    forall i, j :: 0 <= i < j < |xs| ==> xs[i].value >= xs[j].value
  }

  lemma DescendingAppend(xs: seq<Entry>, e: Entry)
    requires Descending(xs) && forall x <- xs :: x.value >= e.value
    ensures Descending(xs + [e])
  {
  }

  lemma DescendingFront(xs: seq<Entry>)
    requires Descending(xs) && xs != []
    ensures Descending(xs[..|xs| - 1]) && (forall x <- xs[..|xs| - 1] :: x.value >= xs[|xs| - 1].value)
    ensures xs == xs[..|xs| - 1] + [xs[|xs| - 1]]
  {
  }

  lemma {:induction false} PlaceSorted(xs: seq<Entry>, e: Entry)
    requires Descending(xs)
    ensures Descending(Place(xs, e)) && multiset(Place(xs, e)) == multiset(xs) + multiset{e} && |Place(xs, e)| == |xs| + 1
  {
    hide Descending;
    if xs == [] {
      DescendingAppend([], e);
    } else {
      var n := |xs| - 1;
      DescendingFront(xs);
      if xs[n].value >= e.value {
        DescendingAppend(xs, e);
      } else {
        PlaceSorted(xs[..n], e);
        forall y | y in Place(xs[..n], e) ensures y.value >= xs[n].value {
          assert y in multiset(Place(xs[..n], e));
        }
        DescendingAppend(Place(xs[..n], e), xs[n]);
      }
    }
  }

  lemma DescendingNone()
    ensures Descending([])
  {
  }

  lemma {:induction false} RankSorted(xs: seq<Entry>)
    ensures Descending(Rank(xs)) && multiset(Rank(xs)) == multiset(xs) && |Rank(xs)| == |xs|
  {
    hide Descending, Place;
    if xs == [] {
      DescendingNone();
    } else {
      var n := |xs| - 1;
      RankSorted(xs[..n]);
      PlaceSorted(Rank(xs[..n]), xs[n]);
      assert xs == xs[..n] + [xs[n]];
    }
  }

  /** The listed entries come from the record, in descending order, and none left out beats a listed one. */
  lemma TopIsTop(acc: seq<Entry>, n: nat)
    ensures var top := TopN(acc, n);
      && |top| == (if n < |acc| then n else |acc|) && Descending(top) && multiset(top) <= multiset(acc)
      && forall e <- acc, listed <- top :: e !in top ==> e.value <= listed.value
  {
    hide Rank, Entries;
    RankSorted(Entries(acc));
    EntriesSame(acc);
    var r, top := Rank(Entries(acc)), TopN(acc, n);
    assert r == top + r[|top|..];
    assert multiset(r) == multiset(top) + multiset(r[|top|..]);
    forall e, listed | e in acc && listed in top && e !in top ensures e.value <= listed.value {
      assert e in multiset(r);
      OutsideTop(r, |top|, e, listed);
    }
  }

  lemma OutsideTop(r: seq<Entry>, n: nat, other: Entry, listed: Entry)
    requires Descending(r) && n <= |r| && other in r && listed in r[..n] && other !in r[..n]
    ensures other.value <= listed.value
  {
    var i :| 0 <= i < |r| && r[i] == other;
    var j :| 0 <= j < n && r[..n][j] == listed;
    forall k | 0 <= k < n ensures r[k] in r[..n] { assert r[..n][k] == r[k]; }
  }
}
