/**
 * The rules behind the record registry of `System`: how `add` resolves a
 * kind name, the queries over the record list and the pool, the camera
 * shift and the frame order of one update, the mouse record and the
 * rescaling of `_resize`. The `System` class of the `Sim` module keeps its
 * state in fields and is proved to follow these functions.
 */
module Registry {
  import opened Wrappers
  import opened Vectors
  import opened Utils
  import opened Editions
  import opened Drawing
  import opened ItemRules
  import opened WorldRules
  import opened Rocks
  import opened Records

  // ------------------------------------------------------------ kinds

  /** What `add` can construct: the library's `Item`, or one of the demo kinds registered in `Classes`. */
  datatype Kind = PlainItem | Pebble | Boulder | EarlyPebble

  /** The names on the library's `exports` object in each edition. */
  function Exports(e: Edition): set<string> {
    {"System", "World", "Utils", "Classes"}
    + (if HasItemClass(e) then {"Item"} else {})
    + (if e != Tutorial5 && e != Tutorial3 then {"Vector"} else {})
  }

  /**
   * How `add` looks up `klass` (once the pool has had no match): first on
   * `exports`, then in `Classes`, otherwise it throws. Of the exports only
   * `Item` makes an item; `new` on the others fails with a TypeError. The
   * demo kinds call `Item` and so fail too where there is none.
   */
  function Resolve(e: Edition, classes: map<string, Kind>, klass: string): Result<Kind> {
    if klass in Exports(e) then
      (if klass == "Item" then Ok(PlainItem) else Err("TypeError: " + klass + " does not construct an item."))
    else if klass in classes then
      (if HasItemClass(e) then Ok(classes[klass]) else Err("TypeError: Item is not defined."))
    else Err(klass + " class does not exist.")
  }

  /**
   * `add` succeeds in making a record exactly for `Item` (where it exists)
   * and for the names registered in `Classes` that are not also exports;
   * a name found in neither place gives the "class does not exist" error.
   */
  lemma ResolveOutcome(e: Edition, classes: map<string, Kind>, klass: string)
    ensures Resolve(e, classes, klass).Ok? <==>
            (klass == "Item" && HasItemClass(e)) || (klass !in Exports(e) && klass in classes && HasItemClass(e))
    ensures Resolve(e, classes, klass).Ok? && klass != "Item" ==> Resolve(e, classes, klass).value == classes[klass]
    ensures klass == "Item" && HasItemClass(e) ==> Resolve(e, classes, klass) == Ok(PlainItem)
    ensures klass !in Exports(e) && klass !in classes <==>
            Resolve(e, classes, klass) == Err(klass + " class does not exist.")
  {
    if klass in Exports(e) || klass in classes {
      var r := Resolve(e, classes, klass);
      if r.Err? {
        DistinctMessages(klass, r.error);
      }
    }
  }

  /** A "class does not exist" message ends differently from the TypeErrors of `Resolve`. */
  lemma DistinctMessages(klass: string, m: string)
    requires m == "TypeError: Item is not defined." || m == "TypeError: " + klass + " does not construct an item."
    ensures m != klass + " class does not exist."
  {
    var t := klass + " class does not exist.";
    assert t[|t| - 6..] == "exist.";
    if m == "TypeError: Item is not defined." {
      assert m[|m| - 6..] == "fined.";
    } else {
      assert m[|m| - 6..] == " item.";
    }
  }

  /** The options a kind's constructor leaves in the map before the `Item` constructor and `init` read it. */
  function KindOptions(k: Kind, o: ItemOptions, d: Draws): ItemOptions {
    match k
      case PlainItem => o
      case Pebble => PebbleOptions(Some(o), d).value
      case Boulder => BoulderOptions(Some(o), d).value
      case EarlyPebble => EarlyPebbleOptions(Some(o), d).value
  }

  /**
   * Through `add` the demo constructors always receive a map (`add` passes
   * `{}` for missing options), so they never fail there; a plain item gets
   * the options unchanged, and a pebble gets size `15 + index`.
   */
  lemma KindOptionsDefined(k: Kind, o: ItemOptions, d: Draws)
    ensures k == PlainItem ==> KindOptions(k, o, d) == o
    ensures k == Pebble ==> PebbleOptions(Some(o), d) == Ok(KindOptions(k, o, d)) &&
                            KindOptions(k, o, d).width == Some(15.0 + Index(o))
    ensures k == Boulder ==> BoulderOptions(Some(o), d) == Ok(KindOptions(k, o, d)) &&
                             KindOptions(k, o, d).width == Some(50.0 + 10.0 * Index(o))
    ensures k == EarlyPebble ==> EarlyPebbleOptions(Some(o), d) == Ok(KindOptions(k, o, d))
    ensures KindOptions(k, o, d).name == o.name && KindOptions(k, o, d).index == o.index
  {
  }

  // ------------------------------------------------------------ ids

  /** Two items with the same name get the same id only from the same serial number. */
  lemma IdsDistinct(name: string, a: nat, b: nat)
    requires Item.IdFor(name, a) == Item.IdFor(name, b)
    ensures a == b
  {
    assert Item.IdFor(name, a)[|name|..] == Decimal(a);
    assert Item.IdFor(name, b)[|name|..] == Decimal(b);
    DecimalInjective(a, b);
  }

  /** Ids are not unique across names: "Item1" with serial 1 and "Item" with serial 11 share an id. */
  lemma IdsCollideAcrossNames()
    ensures Item.IdFor("Item1", 1) == Item.IdFor("Item", 11)
  {
    assert Decimal(1) == "1";
    assert Decimal(11) == Decimal(1) + [DigitChar(1)];
  }

  // ------------------------------------------------------------ queries by name

  /** `getAllItemsByName(name, list)`: the entries of `list` named `name`, in order. */
  function Named(list: seq<Item>, name: string): seq<Item>
    reads list
  {
    if |list| == 0 then []
    else Named(list[..|list| - 1], name) + (if list[|list| - 1].name == name then [list[|list| - 1]] else [])
  }

  /** An item is in the result exactly when it is in the list and carries the name. */
  lemma {:induction false} NamedMembers(list: seq<Item>, name: string, x: Item)
    ensures x in Named(list, name) <==> x in list && x.name == name
    decreases |list|
  {
    if |list| > 0 {
      var init := list[..|list| - 1];
      NamedMembers(init, name, x);
      assert list == init + [list[|list| - 1]];
    }
  }

  /** The query distributes over concatenation, so it keeps the list's order; it is never longer than the list. */
  lemma {:induction false} NamedConcat(a: seq<Item>, b: seq<Item>, name: string)
    ensures Named(a + b, name) == Named(a, name) + Named(b, name)
    ensures |Named(a, name)| <= |a|
    decreases |b|
  {
    if |b| == 0 {
      assert a + b == a;
      NamedLength(a, name);
    } else {
      var b' := b[..|b| - 1];
      assert (a + b)[..|a + b| - 1] == a + b';
      NamedConcat(a, b', name);
    }
  }

  lemma {:induction false} NamedLength(a: seq<Item>, name: string)
    ensures |Named(a, name)| <= |a|
    decreases |a|
  {
    if |a| > 0 {
      NamedLength(a[..|a| - 1], name);
    }
  }

  /** The position of the first occurrence of `key`, the search both `add` and `destroyItem` make. */
  function FirstIndex(keys: seq<string>, key: string): (k: Option<nat>)
    ensures k.Some? ==> k.value < |keys| && keys[k.value] == key &&
                        forall j :: 0 <= j < k.value ==> keys[j] != key
    ensures k.None? ==> forall j :: 0 <= j < |keys| ==> keys[j] != key
  {
    if |keys| == 0 then None
    else if keys[0] == key then Some(0)
    else
      var k := FirstIndex(keys[1..], key);
      if k.Some? then Some(k.value + 1) else None
  }

  /** The names of the entries, in order. */
  function Names(list: seq<Item>): (ns: seq<string>)
    reads list
    ensures |ns| == |list| && forall j :: 0 <= j < |list| ==> ns[j] == list[j].name
  {
    if |list| == 0 then [] else [list[0].name] + Names(list[1..])
  }

  /** The ids of the entries, in order. */
  function Ids(list: seq<Item>): (ns: seq<string>)
    ensures |ns| == |list| && forall j :: 0 <= j < |list| ==> ns[j] == list[j].id
  {
    if |list| == 0 then [] else [list[0].id] + Ids(list[1..])
  }

  /** The position of the first entry named `name`, which the pool reuse in `add` takes. */
  function FirstNamed(list: seq<Item>, name: string): (k: Option<nat>)
    reads list
    ensures k.Some? ==> k.value < |list| && list[k.value].name == name &&
                        forall j :: 0 <= j < k.value ==> list[j].name != name
    ensures k.None? ==> forall j :: 0 <= j < |list| ==> list[j].name != name
  {
    FirstIndex(Names(list), name)
  }

  /** The pool is reused exactly when the query on it is non-empty, and the reused entry is its first result. */
  lemma FirstNamedAgrees(list: seq<Item>, name: string)
    ensures FirstNamed(list, name).Some? <==> |Named(list, name)| > 0
    ensures FirstNamed(list, name).Some? ==> Named(list, name)[0] == list[FirstNamed(list, name).value]
  {
    var k := FirstNamed(list, name);
    if k.Some? {
      NamedFrom(list, name, k.value);
    } else {
      NoneNamed(list, name);
    }
  }

  /** When the first entry named `name` is at `i`, the query's first result is that entry. */
  lemma NamedFrom(list: seq<Item>, name: string, i: nat)
    requires i < |list| && list[i].name == name
    requires forall j :: 0 <= j < i ==> list[j].name != name
    ensures |Named(list, name)| > 0 && Named(list, name)[0] == list[i]
  {
    var before, rest := list[..i], list[i..];
    assert list == before + rest;
    NamedConcat(before, rest, name);
    NoneNamed(before, name);
    assert rest == [list[i]] + rest[1..];
    NamedConcat([list[i]], rest[1..], name);
    assert [list[i]][..0] == [];
  }

  lemma {:induction false} NoneNamed(list: seq<Item>, name: string)
    requires forall j :: 0 <= j < |list| ==> list[j].name != name
    ensures Named(list, name) == []
    decreases |list|
  {
    if |list| > 0 {
      NoneNamed(list[..|list| - 1], name);
    }
  }

  /** The position of the first entry whose id is `id`, which `destroyItem` removes. */
  function FirstWithId(list: seq<Item>, id: string): (k: Option<nat>)
    ensures k.Some? ==> k.value < |list| && list[k.value].id == id &&
                        forall j :: 0 <= j < k.value ==> list[j].id != id
    ensures k.None? ==> forall j :: 0 <= j < |list| ==> list[j].id != id
  {
    FirstIndex(Ids(list), id)
  }

  /** `list.splice(k, 1)`: removing one entry keeps the others in their order. */
  function RemoveAt<T>(list: seq<T>, k: nat): (r: seq<T>)
    requires k < |list|
    ensures |r| == |list| - 1
    ensures forall j :: 0 <= j < k ==> r[j] == list[j]
    ensures forall j :: k <= j < |r| ==> r[j] == list[j + 1]
  {
    list[..k] + list[k + 1..]
  }

  /** Removing an entry of a list without repetitions leaves exactly the other entries. */
  lemma RemoveAtMembers<T>(list: seq<T>, k: nat, x: T)
    requires k < |list| && forall i, j :: 0 <= i < j < |list| ==> list[i] != list[j]
    ensures x in RemoveAt(list, k) <==> x in list && x != list[k]
  {
    var r := RemoveAt(list, k);
    if x in r {
      var j :| 0 <= j < |r| && r[j] == x;
      if j < k { assert list[j] == x; } else { assert list[j + 1] == x; }
    }
    if x in list && x != list[k] {
      var j :| 0 <= j < |list| && list[j] == x;
      if j < k { assert r[j] == x; } else { assert r[j - 1] == x; }
    }
  }

  // ------------------------------------------------------------ queries by attribute

  /** What `getAllItemsByAttribute` compares against: no value, `null`, or a primitive. */
  datatype QueryVal = NoValue | Null | Val(p: Prim)

  /** The object a record stands for. */
  function Obj(r: Record): object {
    if r.WorldRecord? then r.w else r.item
  }

  /** A record is kept when the attribute is defined and, for a value other than `null` or `undefined`, strictly equal to it. */
  predicate Keeps(v: AttrValue, q: QueryVal) {
    v != Undefined && (q.Val? ==> v == Primitive(q.p))
  }

  function AttrOf(r: Record, attr: string): AttrValue
    reads Obj(r)
  {
    if r.WorldRecord? then r.w.Attribute(attr) else r.item.Attribute(attr)
  }

  /** `getAllItemsByAttribute(attr, val)` over `recs`, in order. */
  function ByAttribute(recs: seq<Record>, attr: string, q: QueryVal): seq<Record>
    reads set r | r in recs :: Obj(r)
  {
    if |recs| == 0 then []
    else
      var last := recs[|recs| - 1];
      ByAttribute(recs[..|recs| - 1], attr, q) + (if Keeps(AttrOf(last, attr), q) then [last] else [])
  }

  /**
   * A record is in the result exactly when it is in the list with the
   * attribute defined and matching; `null` and a missing value both mean
   * "any defined value".
   */
  lemma {:induction false} ByAttributeMembers(recs: seq<Record>, attr: string, q: QueryVal, x: Record)
    ensures x in ByAttribute(recs, attr, q) <==> x in recs && Keeps(AttrOf(x, attr), q)
    ensures ByAttribute(recs, attr, Null) == ByAttribute(recs, attr, NoValue)
    decreases |recs|
  {
    if |recs| > 0 {
      var init := recs[..|recs| - 1];
      ByAttributeMembers(init, attr, q, x);
      assert recs == init + [recs[|recs| - 1]];
    }
  }

  // ------------------------------------------------------------ one update

  /** The states of a list of items. */
  function States(its: seq<Item>): (ss: seq<ItemState>)
    reads its
    ensures |ss| == |its|
    ensures forall i :: 0 <= i < |its| ==> ss[i] == its[i].State()
  {
    if |its| == 0 then [] else [its[0].State()] + States(its[1..])
  }

  /** When only the item at `i` has changed, the list of states changes at `i` only. */
  lemma StatesUpdated(its: seq<Item>, ss: seq<ItemState>, i: nat)
    requires |ss| == |its| && i < |its|
    requires forall k :: 0 <= k < |its| && k != i ==> its[k].State() == ss[k]
    ensures States(its) == ss[i := its[i].State()]
  {
  }

  /** A list of states that agrees with every item is the list of their states. */
  lemma StatesAre(its: seq<Item>, ss: seq<ItemState>)
    requires |ss| == |its|
    requires forall k :: 0 <= k < |its| ==> its[k].State() == ss[k]
    ensures States(its) == ss
  {
  }

  /** `_records.list`: the world first, then the items in order. */
  function RecordList(w: World, its: seq<Item>): (rs: seq<Record>)
    ensures |rs| == |its| + 1 && rs[0] == WorldRecord(w)
    ensures forall i :: 0 <= i < |its| ==> rs[i + 1] == ItemRecord(its[i])
  {
    if |its| == 0 then [WorldRecord(w)] else RecordList(w, its[..|its| - 1]) + [ItemRecord(its[|its| - 1])]
  }

  /** Every state in the list can step. */
  predicate AllReady(e: Edition, ss: seq<ItemState>) {
    forall i :: 0 <= i < |ss| ==> Ready(e, ss[i])
  }

  /**
   * The velocity an item that controls the camera hands to its world in
   * `_checkCameraEdges`, read off its state after the step: the velocity
   * after the edge check, which the step keeps.
   */
  function PushOf(e: Edition, t: ItemState): Option<Vec> {
    if HasCamera(e) && t.controlCamera then Some(t.velocity) else None
  }

  /** The push of a step, read off the state before it or after it, is the same. */
  lemma PushOfStep(e: Edition, s: ItemState, w: WorldView, sqrt: real -> real)
    requires Ready(e, s)
    ensures CameraPush(e, s, w, sqrt) == PushOf(e, ItemRules.Step(e, s, w, sqrt))
  {
  }

  /** The camera velocities the items hand to the world during one round of steps, from their new states. */
  function Pushes(e: Edition, ts: seq<ItemState>): (ps: seq<Option<Vec>>)
    ensures |ps| == |ts|
    ensures forall i :: 0 <= i < |ts| ==> ps[i] == PushOf(e, ts[i])
  {
    if |ts| == 0 then [] else [PushOf(e, ts[0])] + Pushes(e, ts[1..])
  }

  /** The item states after one round of steps. */
  function StepAll(e: Edition, ss: seq<ItemState>, w: WorldView, sqrt: real -> real): (ts: seq<ItemState>)
    requires AllReady(e, ss)
    ensures |ts| == |ss|
    ensures forall i :: 0 <= i < |ss| ==> ts[i] == ItemRules.Step(e, ss[i], w, sqrt)
  {
    if |ss| == 0 then [] else [ItemRules.Step(e, ss[0], w, sqrt)] + StepAll(e, ss[1..], w, sqrt)
  }

  /** `_checkCameraEdges` on the world's location, when the item pushes. */
  function Push(location: Vec, p: Option<Vec>): Vec {
    if p.Some? then Add(location, Mult(p.value, -1.0)) else location
  }

  /** The world's location after the items push it, the last item first. */
  function ShiftedBy(location: Vec, ps: seq<Option<Vec>>): Vec {
    if |ps| == 0 then location else Push(ShiftedBy(location, ps[1..]), ps[0])
  }

  /** The world's camera after the items push it, the last item first: the negated velocity of the last push. */
  function CameraAfter(camera: Vec, ps: seq<Option<Vec>>): Vec {
    if |ps| == 0 then camera
    else if ps[0].Some? then Mult(ps[0].value, -1.0)
    else CameraAfter(camera, ps[1..])
  }

  /** The sum of the pushed velocities. */
  function PushSum(ps: seq<Option<Vec>>): Vec {
    if |ps| == 0 then Zero else Add(PushSum(ps[1..]), if ps[0].Some? then ps[0].value else Zero)
  }

  /**
   * The world ends up moved against the sum of the velocities of the items
   * that control the camera, whatever their order; with none it stays.
   */
  lemma {:induction false} ShiftedBySum(location: Vec, ps: seq<Option<Vec>>)
    ensures ShiftedBy(location, ps) == Sub(location, PushSum(ps))
  {
    if |ps| > 0 {
      ShiftedBySum(location, ps[1..]);
      var rest := PushSum(ps[1..]);
      var v := if ps[0].Some? then ps[0].value else Zero;
      assert PushSum(ps) == Add(rest, v);
      assert Push(Sub(location, rest), ps[0]) == Sub(location, Add(rest, v));
    }
  }

  /** Without an item that controls the camera the world stays where it is. */
  lemma {:induction false} NoPushNoShift(location: Vec, ps: seq<Option<Vec>>)
    requires forall i :: 0 <= i < |ps| ==> ps[i].None?
    ensures ShiftedBy(location, ps) == location
  {
    if |ps| > 0 {
      assert forall i :: 0 <= i < |ps[1..]| ==> ps[1..][i] == ps[i + 1];
      NoPushNoShift(location, ps[1..]);
    }
  }

  /** `draw` of the items from the last to the first. */
  function ItemFrames(e: Edition, ss: seq<ItemState>): seq<Frame> {
    if |ss| == 0 then [] else ItemFrames(e, ss[1..]) + [DrawItem(e, ss[0])]
  }

  /** The frames come in reverse list order, one per item. */
  lemma {:induction false} ItemFramesReversed(e: Edition, ss: seq<ItemState>)
    ensures |ItemFrames(e, ss)| == |ss|
    ensures forall k :: 0 <= k < |ss| ==> ItemFrames(e, ss)[k] == DrawItem(e, ss[|ss| - 1 - k])
  {
    if |ss| > 0 {
      ItemFramesReversed(e, ss[1..]);
    }
  }

  /** A world's properties and its items' states: what one update reads and writes. */
  datatype Snapshot = Snapshot(world: WorldState, items: seq<ItemState>)

  /**
   * The items' part of the step loop: each item steps against the world's
   * forces as they stood before the loop, and the world is pushed by the
   * items that control the camera, the last item first.
   */
  function StepItemsRound(e: Edition, s: Snapshot, sqrt: real -> real): Snapshot
    requires AllReady(e, s.items)
  {
    var ts := StepAll(e, s.items, View(s.world), sqrt);
    var ps := Pushes(e, ts);
    Snapshot(s.world.(location := ShiftedBy(s.world.location, ps), camera := CameraAfter(s.world.camera, ps)), ts)
  }

  /**
   * `_checkCameraEdges` of an item whose new state is `t` on its world:
   * a camera-controlling item moves the world against its velocity and
   * sets the camera to the negated velocity; nothing else changes.
   */
  function PushedBy(e: Edition, w: WorldState, t: ItemState): (r: WorldState)
    ensures r == w.(location := r.location, camera := r.camera)
    ensures PushOf(e, t).None? ==> r == w
  {
    var p := PushOf(e, t);
    w.(location := Push(w.location, p), camera := if p.Some? then Mult(p.value, -1.0) else w.camera)
  }

  /**
   * One pass of the step loop: the item at `i` steps against the world's
   * forces and, if it controls the camera, pushes the world.
   */
  function StepItemAt(e: Edition, s: Snapshot, i: nat, sqrt: real -> real): (r: Snapshot)
    requires i < |s.items| && Ready(e, s.items[i])
    ensures |r.items| == |s.items| && r.world == s.world.(location := r.world.location, camera := r.world.camera)
  {
    var t := ItemRules.Step(e, s.items[i], View(s.world), sqrt);
    Snapshot(PushedBy(e, s.world, t), s.items[i := t])
  }

  /**
   * The step loop, given the items' new states `ts`, after it has gone
   * down from the last item to the one at `i`.
   */
  function StepsFrom(e: Edition, s: Snapshot, ts: seq<ItemState>, i: nat): (r: Snapshot)
    requires i <= |s.items| == |ts|
    ensures |r.items| == |ts| && r.world == s.world.(location := r.world.location, camera := r.world.camera)
    ensures forall k :: 0 <= k < i ==> r.items[k] == s.items[k]
    decreases |ts| - i
  {
    if i == |ts| then s
    else
      var r := StepsFrom(e, s, ts, i + 1);
      Snapshot(PushedBy(e, r.world, ts[i]), r.items[i := ts[i]])
  }

  /**
   * Part way down, the items from `i` on have their new states, those
   * before it their old ones, and the world has been pushed by the new
   * ones, the last item first.
   */
  lemma {:induction false} StepsFromState(e: Edition, s: Snapshot, ts: seq<ItemState>, i: nat)
    requires i <= |s.items| == |ts|
    ensures var ps := Pushes(e, ts[i..]);
      StepsFrom(e, s, ts, i) ==
        Snapshot(s.world.(location := ShiftedBy(s.world.location, ps), camera := CameraAfter(s.world.camera, ps)),
                 s.items[..i] + ts[i..])
    decreases |ts| - i
  {
    if i == |ts| {
      assert s.items[..i] + ts[i..] == s.items;
    } else {
      StepsFromState(e, s, ts, i + 1);
      var rest := Pushes(e, ts[i + 1..]);
      SpliceStep(s.items, ts, i);
      assert Pushes(e, ts[i..]) == [PushOf(e, ts[i])] + rest;
      assert ([PushOf(e, ts[i])] + rest)[1..] == rest;
    }
  }

  /** Moving the split point of two sequences down by one. */
  lemma SpliceStep<T>(a: seq<T>, b: seq<T>, i: nat)
    requires |a| == |b| && i < |a|
    ensures (a[..i + 1] + b[i + 1..])[i := b[i]] == a[..i] + b[i..]
  {
    var l, r := (a[..i + 1] + b[i + 1..])[i := b[i]], a[..i] + b[i..];
    assert forall k :: 0 <= k < |l| ==> l[k] == r[k];
  }

  /**
   * Each pass of the loop steps the item at `i`, which has not stepped
   * yet, against the forces of the world before the loop, which the
   * earlier passes did not change.
   */
  lemma StepItemAtFrom(e: Edition, s: Snapshot, i: nat, sqrt: real -> real)
    requires i < |s.items| && AllReady(e, s.items)
    ensures var ts := StepAll(e, s.items, View(s.world), sqrt);
      var prev := StepsFrom(e, s, ts, i + 1);
      Ready(e, prev.items[i]) && StepItemAt(e, prev, i, sqrt) == StepsFrom(e, s, ts, i)
  {
    var ts := StepAll(e, s.items, View(s.world), sqrt);
    var prev := StepsFrom(e, s, ts, i + 1);
    assert prev.items[i] == s.items[i];
    assert View(prev.world) == View(s.world);
  }

  /** Once the loop reaches the first item, it has done the whole round. */
  lemma StepsFromZero(e: Edition, s: Snapshot, sqrt: real -> real)
    requires AllReady(e, s.items)
    ensures StepsFrom(e, s, StepAll(e, s.items, View(s.world), sqrt), 0) == StepItemsRound(e, s, sqrt)
  {
    var ts := StepAll(e, s.items, View(s.world), sqrt);
    StepsFromState(e, s, ts, 0);
    assert s.items[..0] + ts[0..] == ts;
  }

  /**
   * The step loop of `_update` and `_stepForward`: the items step unless
   * the loop is gated and the world is paused, then the world steps last.
   */
  function StepRound(e: Edition, s: Snapshot, gated: bool, mouse: Vec, sqrt: real -> real): Snapshot
    requires AllReady(e, s.items)
  {
    var r := if gated && s.world.pauseStep then s else StepItemsRound(e, s, sqrt);
    r.(world := StepWorld(e, r.world, mouse))
  }

  /**
   * What a round of steps keeps: every item can step again, and the world
   * keeps its size, angle, wind, thermal, looks and pause flag; its gravity
   * changes only where the mouse steers it.
   */
  lemma StepRoundKeeps(e: Edition, s: Snapshot, gated: bool, mouse: Vec, sqrt: real -> real)
    requires AllReady(e, s.items)
    ensures var r := StepRound(e, s, gated, mouse, sqrt);
      AllReady(e, r.items) && |r.items| == |s.items| &&
      r.world == s.world.(location := r.world.location, camera := r.world.camera, gravity := r.world.gravity) &&
      r.world.gravity == (if e == Source then MouseGravity(s.world, mouse) else s.world.gravity)
  {
  }

  /**
   * What a round of steps moves: the items step against the forces of the
   * world before its own step (in the split sources, the gravity the mouse
   * set in the previous update), and the world moves against the sum of
   * the camera pushes; a gated round in a paused world moves nothing but
   * the world's gravity.
   */
  lemma StepRoundMoves(e: Edition, s: Snapshot, gated: bool, mouse: Vec, sqrt: real -> real)
    requires AllReady(e, s.items)
    ensures var r := StepRound(e, s, gated, mouse, sqrt);
      var ps := Pushes(e, r.items);
      (gated && s.world.pauseStep ==>
         r.items == s.items && r.world.location == s.world.location && r.world.camera == s.world.camera) &&
      (!(gated && s.world.pauseStep) ==>
         r.items == StepAll(e, s.items, View(s.world), sqrt) && r.world.location == Sub(s.world.location, PushSum(ps)))
  {
    if !(gated && s.world.pauseStep) {
      ShiftedBySum(s.world.location, Pushes(e, StepAll(e, s.items, View(s.world), sqrt)));
    }
  }

  /** With no items, a round of steps is the world's own step. */
  lemma EmptyRound(e: Edition, w: WorldState, gated: bool, mouse: Vec, sqrt: real -> real)
    ensures StepRound(e, Snapshot(w, []), gated, mouse, sqrt) == Snapshot(StepWorld(e, w, mouse), [])
  {
    assert StepAll(e, [], View(w), sqrt) == [];
  }

  /** The frames of the draw loop: the items from the last to the first, then the world. */
  function Frames(e: Edition, s: Snapshot): seq<Frame> {
    ItemFrames(e, s.items) + [DrawWorld(e, s.world)]
  }

  /** One frame per record, the world's last, the items' in reverse list order. */
  lemma FramesOrder(e: Edition, s: Snapshot)
    ensures var fs := Frames(e, s);
      |fs| == |s.items| + 1 && fs[|s.items|] == DrawWorld(e, s.world) &&
      forall k :: 0 <= k < |s.items| ==> fs[k] == DrawItem(e, s.items[|s.items| - 1 - k])
  {
    ItemFramesReversed(e, s.items);
  }

  // ------------------------------------------------------------ mouse

  /** `System.mouse`. */
  datatype Mouse = Mouse(location: Vec, lastLocation: Vec, velocity: Vec)

  /** The page and client coordinates of a `mousemove` event (None when absent). */
  datatype MouseEvent = MouseEvent(pageX: Option<real>, pageY: Option<real>, clientX: Option<real>, clientY: Option<real>)

  predicate Truthy(v: Option<real>) {
    v.Some? && v.value != 0.0
  }

  /** `_recordMouseLoc(e)`: the page coordinates when both are truthy, else the client ones, else the old location. */
  function MouseAfter(m: Mouse, ev: MouseEvent): Mouse {
    var location :=
      if Truthy(ev.pageX) && Truthy(ev.pageY) then Vec(ev.pageX.value, ev.pageY.value)
      else if Truthy(ev.clientX) && Truthy(ev.clientY) then Vec(ev.clientX.value, ev.clientY.value)
      else m.location;
    Mouse(location, m.location, Sub(m.location, location))
  }

  /**
   * After a move the previous location is kept, the velocity points from
   * the new location back to it, and an event without usable coordinates
   * leaves the location and zeroes the velocity.
   */
  lemma MouseVelocity(m: Mouse, ev: MouseEvent)
    ensures var n := MouseAfter(m, ev);
      n.lastLocation == m.location && Add(n.location, n.velocity) == n.lastLocation &&
      (Truthy(ev.pageX) && Truthy(ev.pageY) ==> n.location == Vec(ev.pageX.value, ev.pageY.value)) &&
      (!(Truthy(ev.pageX) && Truthy(ev.pageY)) && !(Truthy(ev.clientX) && Truthy(ev.clientY)) ==>
         n.location == m.location && n.velocity == Zero)
  {
  }

  // ------------------------------------------------------------ resize and features

  /** `_resize` on one coordinate: `newSize * (x / oldSize)`. */
  function Rescale(x: real, oldSize: real, newSize: real): real
    requires oldSize != 0.0
  {
    newSize * (x / oldSize)
  }

  /**
   * Rescaling keeps the coordinate's proportion of the world, can be undone
   * by rescaling back, and keeps a point inside [0, size] inside the new
   * size.
   */
  lemma RescaleLaws(x: real, oldSize: real, newSize: real)
    requires oldSize != 0.0 && newSize != 0.0
    ensures Rescale(x, oldSize, newSize) / newSize == x / oldSize
    ensures Rescale(Rescale(x, oldSize, newSize), newSize, oldSize) == x
    ensures oldSize > 0.0 && newSize > 0.0 && 0.0 <= x <= oldSize ==> 0.0 <= Rescale(x, oldSize, newSize) <= newSize
  {
    var q := x / oldSize;
    assert Rescale(x, oldSize, newSize) / newSize == q;
    assert Rescale(Rescale(x, oldSize, newSize), newSize, oldSize) == oldSize * q;
    if oldSize > 0.0 && newSize > 0.0 && 0.0 <= x <= oldSize {
      assert 0.0 <= q <= 1.0;
      assert newSize * q <= newSize * 1.0;
    }
  }

  /** An item's state after `_resize` moves it into the new viewport. */
  function Rescaled(s: ItemState, oldWidth: real, oldHeight: real, newWidth: real, newHeight: real): ItemState
    requires oldWidth != 0.0 && oldHeight != 0.0
  {
    s.(location := Vec(Rescale(s.location.x, oldWidth, newWidth), Rescale(s.location.y, oldHeight, newHeight)))
  }

  /** `_resize` on every item of the list. */
  function RescaledAll(ss: seq<ItemState>, oldWidth: real, oldHeight: real, newWidth: real, newHeight: real): (ts: seq<ItemState>)
    requires oldWidth != 0.0 && oldHeight != 0.0
    ensures |ts| == |ss|
    ensures forall i :: 0 <= i < |ss| ==> ts[i] == Rescaled(ss[i], oldWidth, oldHeight, newWidth, newHeight)
  {
    if |ss| == 0 then [] else [Rescaled(ss[0], oldWidth, oldHeight, newWidth, newHeight)] + RescaledAll(ss[1..], oldWidth, oldHeight, newWidth, newHeight)
  }

  /** The browser features `init` is told about. */
  datatype Features = Features(csstransforms3d: bool, csstransforms: bool)

  /** The positioning rule `init` chooses for the CSS text. */
  datatype Positioning = Unchosen | Translate3d | Translate | Absolute

  /** `init`: 3-D transforms if supported, else 2-D transforms, else absolute positioning. */
  function ChoosePositioning(f: Features): (p: Positioning)
    ensures p != Unchosen
    ensures p == Translate3d <==> f.csstransforms3d
    ensures p == Absolute <==> !f.csstransforms3d && !f.csstransforms
  {
    if f.csstransforms3d then Translate3d else if f.csstransforms then Translate else Absolute
  }
}
