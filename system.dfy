/**
 * `System`: the record list (the world first, then the items), the
 * world's pool of destroyed items, the id counter and the id lookup, the
 * mouse record and the handlers that drive one update. The DOM work, the
 * event wiring and the animation-frame loop are not modelled: each
 * handler is a method that runs once, with the viewport, the clock, the
 * random draws and `Math.sqrt` passed in.
 */
module Sim {
  import opened Wrappers
  import opened Vectors
  import opened Utils
  import opened Editions
  import opened Drawing
  import opened ItemRules
  import opened WorldRules
  import opened Rocks
  import opened Records
  import opened Registry

  class System {
    const edition: Edition
    /** `exports.Classes`: the demo kinds registered under their names. */
    const classes: map<string, Kind>
    /** `_records.list[0]`. */
    const world: World
    /** `_records.list[1..]`. */
    var items: seq<Item>
    /**
     * `_records.lookup`: from an item's id to the parent of its element
     * when `add` entered it: the world, or none (`null`) for an element
     * that is no longer in the world's.
     */
    var lookup: map<string, Option<World>>
    /** `_idCount`. */
    var idCount: nat
    var mouse: Mouse
    /** `_resizeTime`, in milliseconds; 0 when no resize is pending. */
    var resizeTime: real
    /** `_stylePosition`, the positioning rule of the CSS text. */
    var positioning: Positioning
    /** How many times the setup callback has run. */
    var setupRuns: nat

    /**
     * Every item lives in this system's world and can step; no record is
     * listed twice, in the list or in the pool, and none is in both.
     */
    ghost predicate Valid()
      reads this`items, world`pool, items`mass
    {
      world.edition == edition &&
      (forall i :: 0 <= i < |items| ==> items[i].world == world && (UsesForces(edition) ==> items[i].mass != 0.0)) &&
      (forall i, j :: 0 <= i < j < |items| ==> items[i] != items[j]) &&
      (forall i, j :: 0 <= i < j < |world.pool| ==> world.pool[i] != world.pool[j]) &&
      (forall i, j :: 0 <= i < |items| && 0 <= j < |world.pool| ==> items[i] != world.pool[j]) &&
      (forall j :: 0 <= j < |world.pool| ==> world.pool[j].world == world)
    }

    /** `it.el.parentNode`: the world while the item's element is shown in it, otherwise `null`. */
    function ParentNode(it: Item): Option<World>
      reads world`shown
    {
      if it in world.shown then Some(world) else None
    }

    /** The world's properties and the items' states. */
    function Snap(): Snapshot
      reads this`items, world, items
    {
      Snapshot(world.State(), States(items))
    }

    /** `_records.list`. */
    function Records(): seq<Record>
      reads this
    {
      RecordList(world, items)
    }

    constructor(e: Edition, classes: map<string, Kind>, w: World, p: Positioning)
      requires w.edition == e && w.pool == []
      ensures edition == e && this.classes == classes && world == w && positioning == p
      ensures items == [] && lookup == map[] && idCount == 0 && mouse == Mouse(Zero, Zero, Zero)
      ensures resizeTime == 0.0 && setupRuns == 0
      ensures Valid()
    {
      edition := e;
      this.classes := classes;
      world := w;
      items := [];
      lookup := map[];
      idCount := 0;
      mouse := Mouse(Zero, Zero, Zero);
      resizeTime := 0.0;
      positioning := p;
      setupRuns := 0;
    }

    /**
     * `System.init(setup, worldOptions, world, supportedFeatures)`: the
     * editions from step 7 on read `supportedFeatures` without a check and
     * so throw without it; the world element defaults to the document body
     * and the world constructor throws on a non-object; the world is the
     * first record, the setup callback runs once and, where there is one,
     * the first update follows.
     */
    static method Create(e: Edition, classes: map<string, Kind>, worldOptions: Option<WorldOptions>,
                         el: ElementArg, features: Option<Features>, vp: Viewport, now: real, sqrt: real -> real)
      returns (r: Result<System>)
      ensures HasFeatures(e) && features.None? ==> r == Err("TypeError: supportedFeatures is null")
      ensures r.Ok? <==> (!HasFeatures(e) || features.Some?) && el != NonObject
      ensures r.Ok? ==> fresh(r.value) && fresh(r.value.world)
      ensures r.Ok? ==> var s := r.value;
        s.Valid() && s.edition == e && s.items == [] && s.world.pool == [] && s.world.shown == {} && s.setupRuns == 1 &&
        s.idCount == 0 && s.lookup == map[] && s.mouse == Mouse(Zero, Zero, Zero) && s.resizeTime == 0.0 &&
        s.positioning == (if HasFeatures(e) then ChoosePositioning(features.value) else Unchosen) &&
        var w0 := InitWorld(e, if e == Release then OrElse(worldOptions, NoWorldOptions) else NoWorldOptions, vp);
        s.world.State() == (if HasUpdate(e) then StepWorld(e, w0, Zero) else w0)
    {
      var p := Unchosen;
      if HasFeatures(e) {
        if features.None? {
          return Err("TypeError: supportedFeatures is null");
        }
        p := ChoosePositioning(features.value);
      }
      var options := if e == Release then OrElse(worldOptions, NoWorldOptions) else NoWorldOptions;
      var element := if el == NoElement then DomObject else el;
      var w := World.Create(e, element, options, vp);
      if w.Err? {
        return Err(w.error);
      }
      var s := Launch(e, classes, w.value, p, now, sqrt);
      return Ok(s);
    }

    /** A system on a new world: the records start empty, then `Start` runs. */
    static method Launch(e: Edition, classes: map<string, Kind>, w: World, p: Positioning, now: real, sqrt: real -> real)
      returns (s: System)
      requires w.edition == e && w.pool == []
      modifies w`pauseStep, w`location, w`camera, w`gravity
      ensures fresh(s) && s.world == w && s.Valid() && s.edition == e && s.classes == classes && s.positioning == p
      ensures s.items == [] && w.pool == [] && s.setupRuns == 1 && s.idCount == 0 && s.lookup == map[]
      ensures s.mouse == Mouse(Zero, Zero, Zero) && s.resizeTime == 0.0
      ensures w.State() == if HasUpdate(e) then StepWorld(e, old(w.State()), Zero) else old(w.State())
    {
      s := new System(e, classes, w, p);
      s.Start(now, sqrt);
    }

    /** The end of `init`: the setup callback runs once, then the first update follows where there is one. */
    method Start(now: real, sqrt: real -> real)
      requires Valid() && items == [] && resizeTime == 0.0 && mouse.location == Zero
      modifies this`setupRuns, this`resizeTime, world`pauseStep, world`location, world`camera, world`gravity, items`location, items`velocity, items`acceleration, items`angle
      ensures Valid() && items == [] && setupRuns == old(setupRuns) + 1 && resizeTime == old(resizeTime)
      ensures world.State() == if HasUpdate(edition) then StepWorld(edition, old(world.State()), Zero) else old(world.State())
    {
      setupRuns := setupRuns + 1;
      if HasUpdate(edition) {
        ghost var w0 := world.State();
        assert Snap() == Snapshot(w0, []);
        var frames := Update(now, sqrt);
        EmptyRound(edition, w0, HasControls(edition), Zero, sqrt);
      }
    }

    /** `getNewId()`: the counter goes up by one and its new value is returned. */
    method GetNewId() returns (n: nat)
      modifies this`idCount
      ensures idCount == old(idCount) + 1 && n == idCount
    {
      idCount := idCount + 1;
      n := idCount;
    }

    /**
     * `add(klass, options)`. The released edition first reuses the first
     * pooled item named `klass`: it moves from the pool to the end of the
     * list with its old id, the counter stays, and it gets the options map.
     * Otherwise the kind is resolved; an unknown one throws and changes
     * nothing; a known one is constructed with the next id and appended.
     * Either way the item is entered in the lookup and initialised with the
     * options (with the options a demo kind rewrote).
     */
    method Add(klass: string, opt: Option<ItemOptions>, d: Draws) returns (r: Result<Item>)
      requires Valid()
      modifies this`items, this`lookup, this`idCount, world`pool, world`shown, world.pool
      ensures Valid()
      ensures world.State() == old(world.State())
      ensures var o := OrElse(opt, NoOptions);
        var k := if HasPool(edition) then old(FirstNamed(world.pool, klass)) else None;
        (k.Some? ==>
           r.Ok? && r.value == old(world.pool)[k.value] && world.pool == RemoveAt(old(world.pool), k.value) &&
           items == old(items) + [r.value] && idCount == old(idCount) &&
           lookup == old(lookup)[r.value.id := ParentNode(r.value)] && r.value.hasOptions &&
           world.shown == old(world.shown) &&
           r.value.name == (if o.name.Some? then o.name.value else klass) &&
           r.value.index == (if o.index.Some? then o.index else old(r.value.index)) &&
           r.value.State() == InitState(edition, o, world.width, world.height, old(r.value.State()))) &&
        (k.None? ==> world.pool == old(world.pool))
      ensures forall x :: x in old(world.pool) && (r.Err? || x != r.value) ==> unchanged(x)
      ensures var k := if HasPool(edition) then old(FirstNamed(world.pool, klass)) else None;
        k.None? ==> Built(klass, OrElse(opt, NoOptions), d, r, old(items), old(idCount), old(lookup), old(world.shown))
    {
      var o := OrElse(opt, NoOptions);
      if HasPool(edition) {
        var reused := Recycle(klass, o);
        if reused.Some? {
          return Ok(reused.value);
        }
      }
      r := Build(klass, o, d);
    }

    /**
     * What the construction half of `add` leaves, from the list, counter,
     * lookup and shown elements before it: an unknown kind throws and
     * changes nothing; a known one is constructed with the next id, its
     * element shown, appended, entered in the lookup under the world and
     * initialised with the options its kind rewrote.
     */
    ghost predicate Built(klass: string, o: ItemOptions, d: Draws, r: Result<Item>,
                          items0: seq<Item>, idCount0: nat, lookup0: map<string, Option<World>>, shown0: set<Item>)
      reads this, world, if r.Ok? then {r.value} else {}
    {
      var res := Resolve(edition, classes, klass);
      (res.Err? ==>
         r == Err(res.error) && items == items0 && idCount == idCount0 && lookup == lookup0 && world.shown == shown0) &&
      (res.Ok? ==>
         var o' := KindOptions(res.value, o, d);
         r.Ok? && items == items0 + [r.value] && idCount == idCount0 + 1 &&
         r.value.id == Item.IdFor(OrString(o'.name, "Item"), idCount) &&
         lookup == lookup0[r.value.id := Some(world)] && !r.value.hasOptions &&
         world.shown == shown0 + {r.value} &&
         r.value.name == (if edition == Release && o'.name.Some? then o'.name.value else OrString(o'.name, "Item")) &&
         r.value.index == (if edition == Release then o'.index else None) &&
         r.value.State() == InitState(edition, o', world.width, world.height, Unset))
    }

    /** The construction half of `add`: the kind is resolved, then constructed. */
    method Build(klass: string, o: ItemOptions, d: Draws) returns (r: Result<Item>)
      requires Valid()
      modifies this`items, this`lookup, this`idCount, world`shown
      ensures Valid() && world.State() == old(world.State())
      ensures r.Ok? ==> fresh(r.value)
      ensures Built(klass, o, d, r, old(items), old(idCount), old(lookup), old(world.shown))
    {
      var res := Resolve(edition, classes, klass);
      if res.Err? {
        return Err(res.error);
      }
      var it := Construct(KindOptions(res.value, o, d));
      return Ok(it);
    }

    /**
     * The pool half of `add`: when the query on the pool finds an item
     * named `klass`, the search loop picks the first one and it is revived;
     * otherwise nothing changes.
     */
    method Recycle(klass: string, o: ItemOptions) returns (r: Option<Item>)
      requires Valid() && HasPool(edition)
      modifies this`items, this`lookup, world`pool, world.pool
      ensures Valid()
      ensures var k := old(FirstNamed(world.pool, klass));
        (k.Some? ==>
           r.Some? && r.value == old(world.pool)[k.value] && world.pool == RemoveAt(old(world.pool), k.value) &&
           items == old(items) + [r.value] && lookup == old(lookup)[r.value.id := ParentNode(r.value)] && r.value.hasOptions &&
           r.value.name == (if o.name.Some? then o.name.value else klass) &&
           r.value.index == (if o.index.Some? then o.index else old(r.value.index)) &&
           r.value.State() == InitState(edition, o, world.width, world.height, old(r.value.State()))) &&
        (k.None? ==> r.None? && world.pool == old(world.pool) && items == old(items) && lookup == old(lookup))
      ensures forall x :: x in old(world.pool) && (r.None? || x != r.value) ==> unchanged(x)
    {
      var hits := GetAllItemsByName(klass, Some(world.pool));
      FirstNamedAgrees(world.pool, klass);
      if |hits| == 0 {
        return None;
      }
      var i := FindPooled(klass);
      var it := Revive(i, o);
      return Some(it);
    }

    /** The search of `add` through the pool: the position of the first pooled item with the name. */
    method FindPooled(klass: string) returns (i: nat)
      requires FirstNamed(world.pool, klass).Some?
      ensures i < |world.pool| && world.pool[i].name == klass
      ensures forall j :: 0 <= j < i ==> world.pool[j].name != klass
      ensures FirstNamed(world.pool, klass) == Some(i)
    {
      ghost var k := FirstNamed(world.pool, klass).value;
      i := 0;
      while world.pool[i].name != klass
        invariant 0 <= i <= k
        invariant forall j :: 0 <= j < i ==> world.pool[j].name != klass
        decreases k - i
      {
        i := i + 1;
      }
    }

    /** The reuse half of `add`: the pooled item at `k` goes to the end of the list and is re-initialised. */
    method Revive(k: nat, o: ItemOptions) returns (it: Item)
      requires Valid() && HasPool(edition) && k < |world.pool|
      modifies this`items, this`lookup, world`pool, world.pool[k]
      ensures Valid()
      ensures it == old(world.pool[k]) && world.pool == RemoveAt(old(world.pool), k)
      ensures items == old(items) + [it] && lookup == old(lookup)[it.id := ParentNode(it)] && it.hasOptions
      ensures it.name == (if o.name.Some? then o.name.value else old(it.name))
      ensures it.index == (if o.index.Some? then o.index else old(it.index))
      ensures it.State() == InitState(edition, o, world.width, world.height, old(it.State()))
      ensures forall x :: x in old(world.pool) && x != it ==> unchanged(x)
    {
      it := world.pool[k];
      RemoveAtMembers(world.pool, k, it);
      world.pool := RemoveAt(world.pool, k);
      items := items + [it];
      it.hasOptions := true;
      lookup := lookup[it.id := ParentNode(it)];
      InitMass(edition, o, world.width, world.height, it.State());
      it.Init(o);
      forall x | x in world.pool
        ensures x in old(world.pool) && x != it
      {
        RemoveAtMembers(old(world.pool), k, x);
      }
    }

    /** The construction half of `add`: a new item with the next id, appended, entered in the lookup and initialised. */
    method Construct(o: ItemOptions) returns (it: Item)
      requires Valid()
      modifies this`items, this`lookup, this`idCount, world`shown
      ensures Valid()
      ensures fresh(it) && items == old(items) + [it] && idCount == old(idCount) + 1
      ensures it.id == Item.IdFor(OrString(o.name, "Item"), idCount) && lookup == old(lookup)[it.id := Some(world)]
      ensures world.shown == old(world.shown) + {it}
      ensures it.name == (if edition == Release && o.name.Some? then o.name.value else OrString(o.name, "Item"))
      ensures it.index == (if edition == Release then o.index else None)
      ensures !it.hasOptions && it.State() == InitState(edition, o, world.width, world.height, Unset)
    {
      var serial := GetNewId();
      it := new Item(o, world, serial);
      items := items + [it];
      lookup := lookup[it.id := ParentNode(it)];
      if edition != Tutorial3 {
        InitMass(edition, o, world.width, world.height, it.State());
      }
      it.Init(o);
    }

    /**
     * `destroyItem(obj)`: the first record whose id is `obj.id` leaves the
     * list, the others keep their order, and it goes to the end of the
     * pool; without a match nothing changes.
     */
    method DestroyItem(obj: Item)
      requires Valid() && HasPool(edition)
      modifies this`items, world`pool
      ensures Valid()
      ensures var k := FirstWithId(old(items), obj.id);
        (k.Some? ==> items == RemoveAt(old(items), k.value) && world.pool == old(world.pool) + [old(items)[k.value]]) &&
        (k.None? ==> items == old(items) && world.pool == old(world.pool))
    {
      var i := 0;
      while i < |items| && items[i].id != obj.id
        invariant 0 <= i <= |items|
        invariant forall j :: 0 <= j < i ==> items[j].id != obj.id
      {
        i := i + 1;
      }
      if i < |items| {
        var it := items[i];
        forall x | x in RemoveAt(items, i)
          ensures x in items && x != it
        {
          RemoveAtMembers(items, i, x);
        }
        items := RemoveAt(items, i);
        world.pool := world.pool + [it];
      }
    }

    /** `getAllItemsByName(name, list)`, which only the released edition has: the entries of `list`, or of the record list, named `name`. */
    method GetAllItemsByName(name: string, optList: Option<seq<Item>>) returns (arr: seq<Item>)
      requires HasPool(edition)
      ensures arr == Named(if optList.Some? then optList.value else items, name)
    {
      var list := if optList.Some? then optList.value else items;
      arr := [];
      var i := 0;
      while i < |list|
        invariant 0 <= i <= |list|
        invariant arr == Named(list[..i], name)
      {
        assert list[..i + 1][..i] == list[..i];
        if list[i].name == name {
          arr := arr + [list[i]];
        }
        i := i + 1;
      }
      assert list[..|list|] == list;
    }

    /** `getAllItemsByAttribute(attr, val)`, which only the released edition has: the records whose `attr` is defined and, when a value is given, equal to it. */
    method GetAllItemsByAttribute(attr: string, q: QueryVal) returns (arr: seq<Record>)
      requires HasPool(edition)
      ensures arr == ByAttribute(Records(), attr, q)
    {
      var recs := Records();
      arr := [];
      var i := 0;
      while i < |recs|
        invariant 0 <= i <= |recs|
        invariant arr == ByAttribute(recs[..i], attr, q)
      {
        assert recs[..i + 1][..i] == recs[..i];
        var v := AttrOf(recs[i], attr);
        if Keeps(v, q) {
          arr := arr + [recs[i]];
        }
        i := i + 1;
      }
      assert recs[..|recs|] == recs;
    }

    /**
     * The step loop of `_update` and `_stepForward`: from the last record
     * down to the world. With `gated`, an item whose world is paused does
     * not step; the pause test gives the same answer for every item, as
     * no step changes it. The world itself always steps, last, so the
     * items see the gravity of the previous update.
     */
    method StepRecords(gated: bool, sqrt: real -> real)
      requires Valid()
      modifies world`location, world`camera, world`gravity, items`location, items`velocity, items`acceleration, items`angle
      ensures Valid()
      ensures Snap() == StepRound(edition, old(Snap()), gated, mouse.location, sqrt)
    {
      if !(gated && world.pauseStep) {
        StepItems(sqrt);
      }
      StepWorldLast(mouse.location);
    }

    /** The world's step at the end of the loop; the items are not touched. */
    method StepWorldLast(m: Vec)
      requires Valid()
      modifies world`gravity
      ensures Valid() && States(items) == old(States(items))
      ensures world.State() == WorldRules.StepWorld(edition, old(world.State()), m)
    {
      ghost var ss := States(items);
      world.Step(m);
      StatesAre(items, ss);
    }

    /**
     * The items' part of the step loop, from the last item to the first:
     * each steps against the unchanged forces and, if it controls the
     * camera, pushes the world by its new velocity.
     */
    method StepItems(sqrt: real -> real)
      requires Valid()
      modifies world`location, world`camera, items`location, items`velocity, items`acceleration, items`angle
      ensures Valid()
      ensures Snap() == StepItemsRound(edition, old(Snap()), sqrt)
    {
      ghost var s0 := Snap();
      ghost var ts := StepAll(edition, s0.items, View(s0.world), sqrt);
      var i := |items|;
      while i > 0
        invariant 0 <= i <= |items|
        invariant Valid()
        invariant Snap() == StepsFrom(edition, s0, ts, i)
      {
        i := i - 1;
        StepItemAtFrom(edition, s0, i, sqrt);
        StepOne(i, sqrt);
      }
      StepsFromZero(edition, s0, sqrt);
    }

    /** One pass of the step loop: the item at `i` steps and pushes the world; no other item changes. */
    method StepOne(i: nat, sqrt: real -> real)
      requires Valid() && i < |items|
      modifies world`location, world`camera, items`location, items`velocity, items`acceleration, items`angle
      ensures Valid()
      ensures Snap() == StepItemAt(edition, old(Snap()), i, sqrt)
    {
      ghost var s0 := Snap();
      var it := items[i];
      assert forall k :: 0 <= k < |items| && k != i ==> items[k] != it;
      MoveOne(it, sqrt);
      StatesUpdated(items, s0.items, i);
    }

    /** The step of one item and its push on the world. */
    method MoveOne(it: Item, sqrt: real -> real)
      requires it.world == world && world.edition == edition && Ready(edition, it.State())
      modifies world`location, world`camera, it`location, it`velocity, it`acceleration, it`angle
      ensures it.State() == ItemRules.Step(edition, old(it.State()), old(world.Forces()), sqrt)
      ensures world.State() == PushedBy(edition, old(world.State()), it.State())
    {
      ghost var v := world.Forces();
      PushOfStep(edition, it.State(), v, sqrt);
      it.Step(sqrt);
    }

    /** The draw loop: the items from the last to the first, then the world. */
    method DrawRecords() returns (frames: seq<Frame>)
      requires Valid()
      ensures Valid() && frames == Frames(edition, Snap())
      ensures Snap() == old(Snap()) && resizeTime == old(resizeTime) && mouse == old(mouse)
    {
      ghost var ss := States(items);
      frames := [];
      var i := |items|;
      while i > 0
        invariant 0 <= i <= |items|
        invariant frames == ItemFrames(edition, ss[i..])
      {
        i := i - 1;
        var f := items[i].Draw();
        assert ss[i..][1..] == ss[i + 1..];
        frames := frames + [f];
      }
      var f := world.Draw();
      frames := frames + [f];
    }

    /**
     * `_update()`, one tick. The released edition first ends a resize that
     * settled more than 250 ms ago, which unpauses the world; then every
     * record steps (items only while the world is unpaused, where pausing
     * exists) and then every record is drawn, so the frames show the new
     * states.
     */
    method Update(now: real, sqrt: real -> real) returns (frames: seq<Frame>)
      requires Valid() && HasUpdate(edition)
      modifies this`resizeTime, world`pauseStep, world`location, world`camera, world`gravity, items`location, items`velocity, items`acceleration, items`angle
      ensures Valid()
      ensures var settle := Settles(edition, old(resizeTime), now);
        resizeTime == (if settle then 0.0 else old(resizeTime)) &&
        Snap() == StepRound(edition, Unpaused(old(Snap()), settle), HasControls(edition), mouse.location, sqrt)
      ensures frames == Frames(edition, Snap())
    {
      Tick(now, sqrt);
      frames := DrawRecords();
    }

    /** The state change of `_update`: the resize check, then the step loop. */
    method Tick(now: real, sqrt: real -> real)
      requires Valid()
      modifies this`resizeTime, world`pauseStep, world`location, world`camera, world`gravity, items`location, items`velocity, items`acceleration, items`angle
      ensures Valid()
      ensures var settle := Settles(edition, old(resizeTime), now);
        resizeTime == (if settle then 0.0 else old(resizeTime)) &&
        Snap() == StepRound(edition, Unpaused(old(Snap()), settle), HasControls(edition), mouse.location, sqrt)
    {
      SettleResize(now);
      StepRecords(HasControls(edition), sqrt);
    }

    /** The released edition's check for a resize that has settled: more than 250 ms since the last one. */
    method SettleResize(now: real)
      requires Valid()
      modifies this`resizeTime, world`pauseStep
      ensures Valid() && mouse == old(mouse)
      ensures var settle := Settles(edition, old(resizeTime), now);
        resizeTime == (if settle then 0.0 else old(resizeTime)) &&
        Snap() == Unpaused(old(Snap()), settle)
    {
      if Settles(edition, resizeTime, now) {
        resizeTime := 0.0;
        world.pauseStep := false;
      }
    }

    /** `_stepForward()`: pauses the world, steps every record regardless of the pause, and draws. */
    method StepForward(sqrt: real -> real) returns (frames: seq<Frame>)
      requires Valid() && HasControls(edition)
      modifies world`pauseStep, world`location, world`camera, world`gravity, items`location, items`velocity, items`acceleration, items`angle
      ensures Valid()
      ensures Snap() == StepRound(edition, Paused(old(Snap())), false, mouse.location, sqrt)
      ensures frames == Frames(edition, Snap())
    {
      SetPause(true);
      StepRecords(false, sqrt);
      frames := DrawRecords();
    }

    /** Sets the world's pause flag; nothing else changes. */
    method SetPause(b: bool)
      requires Valid()
      modifies world`pauseStep
      ensures Valid() && States(items) == old(States(items))
      ensures world.State() == old(world.State()).(pauseStep := b)
    {
      ghost var ss := States(items);
      world.pauseStep := b;
      StatesAre(items, ss);
    }

    /**
     * `_resetSystem()`: unpauses the world, moves it to the viewport's
     * centre, drops every item from the list (the pool, the lookup and the
     * counter stay) and runs the setup callback again.
     */
    method ResetSystem(vp: Viewport)
      requires Valid() && HasControls(edition)
      modifies this`items, this`setupRuns, world`pauseStep, world`location, world`shown
      ensures Valid()
      ensures items == [] && setupRuns == old(setupRuns) + 1 && world.shown == {}
      ensures world.State() == old(world.State()).(pauseStep := false, location := Centre(vp))
      ensures world.pool == old(world.pool) && lookup == old(lookup) && idCount == old(idCount)
    {
      world.pauseStep := false;
      world.shown := {};
      world.location := Centre(vp);
      items := [];
      setupRuns := setupRuns + 1;
    }

    /**
     * `_keyup(e)`: the right arrow (39) steps forward, `p` (80) toggles the
     * pause, `r` (82) resets; any other key changes nothing.
     */
    method Keyup(code: int, vp: Viewport, sqrt: real -> real) returns (frames: seq<Frame>)
      requires Valid() && HasControls(edition)
      modifies this`items, this`setupRuns, world`pauseStep, world`location, world`camera, world`gravity, world`shown,
               items`location, items`velocity, items`acceleration, items`angle
      ensures Valid()
      ensures code == 39 ==> Snap() == StepRound(edition, Paused(old(Snap())), false, mouse.location, sqrt) &&
                             frames == Frames(edition, Snap())
      ensures code == 80 ==> world.State() == old(world.State()).(pauseStep := !old(world.pauseStep)) &&
                             items == old(items) && States(items) == old(States(items)) && frames == []
      ensures code == 82 ==> items == [] && world.State() == old(world.State()).(pauseStep := false, location := Centre(vp)) &&
                             world.pool == old(world.pool) && world.shown == {} && setupRuns == old(setupRuns) + 1 && frames == []
      ensures code != 82 ==> items == old(items) && world.shown == old(world.shown)
      ensures code != 39 && code != 80 && code != 82 ==>
                unchanged(this) && unchanged(world) && States(items) == old(States(items)) && frames == []
    {
      ghost var ss := States(items);
      frames := [];
      if code == 39 {
        frames := StepForward(sqrt);
      } else if code == 80 {
        SetPause(!world.pauseStep);
      } else if code == 82 {
        ResetSystem(vp);
      } else {
        StatesAre(items, ss);
      }
    }

    /** `_recordMouseLoc(e)`. */
    method RecordMouseLoc(ev: MouseEvent)
      requires HasControls(edition)
      modifies this`mouse
      ensures mouse == MouseAfter(old(mouse), ev)
    {
      mouse := mouse.(lastLocation := mouse.location);
      if Truthy(ev.pageX) && Truthy(ev.pageY) {
        mouse := mouse.(location := Vec(ev.pageX.value, ev.pageY.value));
      } else if Truthy(ev.clientX) && Truthy(ev.clientY) {
        mouse := mouse.(location := Vec(ev.clientX.value, ev.clientY.value));
      }
      mouse := mouse.(velocity := Sub(mouse.lastLocation, mouse.location));
    }

    /**
     * `_resize()`: the released edition records the time and pauses; each
     * item keeps its position relative to the world's size; the world takes
     * the viewport's size and centre.
     */
    method Resize(vp: Viewport, now: real)
      requires Valid() && HasResize(edition) && world.width != 0.0 && world.height != 0.0
      modifies this`resizeTime, world`pauseStep, world`width, world`height, world`location, items`location
      ensures Valid()
      ensures edition == Release ==> resizeTime == now && world.pauseStep
      ensures edition != Release ==> resizeTime == old(resizeTime) && world.pauseStep == old(world.pauseStep)
      ensures world.width == vp.width && world.height == vp.height && world.location == Centre(vp)
      ensures States(items) == RescaledAll(old(States(items)), old(world.width), old(world.height), vp.width, vp.height)
    {
      RescaleItems(world.width, world.height, vp);
      ResizeWorld(vp, now);
    }

    /** The world's part of `_resize`: the released edition records the time and pauses; the world takes the viewport. */
    method ResizeWorld(vp: Viewport, now: real)
      requires Valid()
      modifies this`resizeTime, world`pauseStep, world`width, world`height, world`location
      ensures Valid() && States(items) == old(States(items))
      ensures edition == Release ==> resizeTime == now && world.pauseStep
      ensures edition != Release ==> resizeTime == old(resizeTime) && world.pauseStep == old(world.pauseStep)
      ensures world.width == vp.width && world.height == vp.height && world.location == Centre(vp)
    {
      ghost var ss := States(items);
      if edition == Release {
        resizeTime := now;
        world.pauseStep := true;
      }
      world.width := vp.width;
      world.height := vp.height;
      world.location := Centre(vp);
      StatesAre(items, ss);
    }

    /** The items' part of `_resize`: each location scaled from the old size to the viewport's. */
    method RescaleItems(oldWidth: real, oldHeight: real, vp: Viewport)
      requires Valid() && oldWidth != 0.0 && oldHeight != 0.0
      modifies items`location
      ensures Valid()
      ensures States(items) == RescaledAll(old(States(items)), oldWidth, oldHeight, vp.width, vp.height)
    {
      ghost var ss := States(items);
      var i := 0;
      while i < |items|
        invariant 0 <= i <= |items|
        invariant Valid()
        invariant forall j :: 0 <= j < i ==> items[j].State() == Rescaled(ss[j], oldWidth, oldHeight, vp.width, vp.height)
        invariant forall j :: i <= j < |items| ==> items[j].State() == ss[j]
      {
        RescaleOne(i, oldWidth, oldHeight, vp);
        i := i + 1;
      }
      assert States(items) == RescaledAll(ss, oldWidth, oldHeight, vp.width, vp.height);
    }

    /** One iteration of the resize loop: the item at `i` moves, no other item changes. */
    method RescaleOne(i: nat, oldWidth: real, oldHeight: real, vp: Viewport)
      requires Valid() && i < |items| && oldWidth != 0.0 && oldHeight != 0.0
      modifies items`location
      ensures Valid()
      ensures items[i].State() == Rescaled(old(items[i].State()), oldWidth, oldHeight, vp.width, vp.height)
      ensures forall j :: 0 <= j < |items| && j != i ==> items[j].State() == old(items[j].State())
    {
      var it := items[i];
      it.location := Vec(Rescale(it.location.x, oldWidth, vp.width), Rescale(it.location.y, oldHeight, vp.height));
    }
  }

  /** `_update` of the released edition ends a resize pause once more than 250 ms have passed since the resize. */
  predicate Settles(e: Edition, resizeTime: real, now: real) {
    e == Release && resizeTime != 0.0 && now - resizeTime > 250.0
  }

  /** The snapshot with the world unpaused, when `settle`. */
  function Unpaused(s: Snapshot, settle: bool): Snapshot {
    if settle then s.(world := s.world.(pauseStep := false)) else s
  }

  /** The snapshot with the world paused, as `_stepForward` leaves it before the step loop. */
  function Paused(s: Snapshot): Snapshot {
    s.(world := s.world.(pauseStep := true))
  }
}
