/** Configuration documents as mutable object trees, merged and cloned in place. */
module Objects {
  import opened Json
  import opened Merge

  /** A property holds a plain value or another mapping, which is shared by reference. */
  datatype Slot = Leaf(v: Value) | Node(o: JsObject) {

    ghost function Root(): set<JsObject> {
      if Node? then {o} else {}
    }

    ghost function Repr(): set<JsObject>
      reads Root()
    {
      if Node? then o.repr else {}
    }

    ghost predicate Valid()
      reads Root(), Repr()
      decreases Repr(), 1
    {
      if Node? then o.Valid() else !v.Obj?
    }

    function View(): Value
      requires Valid()
      reads Root(), Repr()
      decreases Repr(), 1
    {
      if Node? then Obj(o.View()) else v
    }
  }

  /** One mapping. `repr` bounds the objects reachable from it. */
  class JsObject {
    var fields: map<string, Slot>
    ghost var repr: set<JsObject>

    constructor ()
      ensures Valid() && repr == {this} && fields == map[] && View() == map[]
    {
      fields := map[];
      repr := {this};
    }

    /** The object is the root of a tree: children never overlap and never reach back up. */
    ghost predicate Valid()
      reads this, repr
      decreases repr, 0
      ensures Valid() ==> this in repr
    {
      && this in repr
      && (forall k | k in fields ::
            fields[k].Root() <= repr && fields[k].Repr() <= repr - {this} && fields[k].Valid())
      && (forall j, k | j in fields && k in fields && j != k :: fields[j].Repr() !! fields[k].Repr())
    }

    /** The value this tree of objects spells out. */
    function View(): Fields
      requires Valid()
      reads this, repr
      decreases repr, 0
    {
      map k | k in fields :: fields[k].View()
    }

    /** The objects below one key. */
    ghost function Region(k: string): set<JsObject>
      requires Valid()
      reads this, repr
    {
      if k in fields then fields[k].Repr() else {}
    }
  }

  /** The whole tree is as it was. */
  twostate predicate Kept(o: JsObject)
    reads o, o.repr
  {
    && old(o.Valid()) && o.Valid() && o.View() == old(o.View()) && o.fields == old(o.fields) && o.repr == old(o.repr)
    && forall x | x in old(o.repr) :: unchanged(x)
  }

  twostate lemma Framed(o: JsObject)
    requires old(o.Valid()) && forall x | x in old(o.repr) :: unchanged(x)
    ensures Kept(o)
  {
  }

  /** A slot none of whose objects changed. */
  twostate lemma SlotKept(s: Slot)
    requires old(s.Valid()) && forall o | o in old(s.Repr()) :: unchanged(o)
    ensures s.Valid() && s.Repr() == old(s.Repr()) && s.View() == old(s.View())
  {
    if s.Node? {
      assert old(s.Repr()) == old(s.o.repr);
      Framed(s.o);
    }
  }

  /** A slot added to a tree it does not overlap: every object but the root is as it was. */
  twostate lemma Attached(target: JsObject, new key: string, new val: Slot)
    requires old(allocated(val)) && old(target.Valid()) && old(val.Valid()) && old(target.repr) !! old(val.Repr())
    requires target.fields == old(target.fields)[key := val] && target.repr == old(target.repr) + old(val.Repr())
    requires forall o | o in old(target.repr) && o != target :: unchanged(o)
    requires forall o | o in old(val.Repr()) :: unchanged(o)
    ensures forall k | k in target.fields ::
      target.fields[k].Valid() &&
        target.fields[k].Repr() == if k == key then old(val.Repr()) else old(target.fields[k].Repr())
    ensures forall k | k in target.fields ::
      target.fields[k].View() == if k == key then old(val.View()) else old(target.fields[k].View())
  {
    forall k | k in target.fields
      ensures target.fields[k].Valid()
      ensures target.fields[k].Repr() == if k == key then old(val.Repr()) else old(target.fields[k].Repr())
      ensures target.fields[k].View() == if k == key then old(val.View()) else old(target.fields[k].View())
    {
      SlotKept(target.fields[k]);
    }
  }

  /** A plain assignment of one property. */
  method Assign(target: JsObject, key: string, val: Slot)
    requires target.Valid() && val.Valid() && target.repr !! val.Repr()
    modifies target
    ensures target.Valid() && target.repr == old(target.repr) + val.Repr()
    ensures target.fields == old(target.fields)[key := val]
    ensures target.View() == old(target.View())[key := old(val.View())]
  {
    target.fields := target.fields[key := val];
    target.repr := target.repr + val.Repr();
    Attached(target, key, val);
  }

  /** What a key ends up holding. */
  ghost function OverlayKey(base: Fields, key: string, over: Value): Fields {
    base[key := if key in base then Overlay(base[key], over) else over]
  }

  /** Only `key` was written, and only objects of `extra` joined the tree. */
  twostate predicate OnlyKey(target: JsObject, key: string, extra: set<JsObject>)
    reads target, target.repr
  {
    && old(target.Valid()) && target.Valid()
    && old(target.repr) <= target.repr <= old(target.repr) + extra
    && target.fields.Keys == old(target.fields.Keys) + {key}
    && forall k | k != key && k in old(target.fields) ::
         target.fields[k] == old(target.fields[k]) && target.Region(k) == old(target.Region(k))
  }

  /** A change confined to one child leaves the rest of the tree as it was. */
  twostate lemma ChildChanged(target: JsObject, new key: string)
    requires old(target.Valid()) && key in old(target.fields) && old(target.fields[key]).Node?
    requires target.fields == old(target.fields) && target.repr == old(target.repr) + target.fields[key].Repr()
    requires target.fields[key].Valid() && target !in target.fields[key].Repr()
    requires target.fields[key].Repr() * old(target.repr) <= old(target.Region(key))
    requires forall o | o in old(target.repr) && o != target && o !in old(target.Region(key)) :: unchanged(o)
    ensures target.Valid()
    ensures forall k | k in target.fields && k != key :: target.Region(k) == old(target.Region(k))
    ensures target.View() == old(target.View())[key := target.fields[key].View()]
  {
    forall k | k in target.fields && k != key
      ensures target.fields[k].Repr() == old(target.fields[k].Repr()) && target.fields[k].Valid()
      ensures target.fields[k].View() == old(target.fields[k].View())
    {
      SlotKept(target.fields[k]);
    }
  }

  /** Both sides hold a mapping at `key`: merge inside it. */
  method MergeChild(target: JsObject, key: string, src: JsObject)
    requires target.Valid() && src.Valid() && target.repr !! src.repr
    requires key in target.fields && target.fields[key].Node?
    modifies target`repr, target.Region(key)
    ensures OnlyKey(target, key, src.repr)
    ensures target.View() == old(target.View())[key := Overlay(old(target.View())[key], Obj(old(src.View())))]
    decreases src.repr, 2
  {
    var child := target.fields[key].o;
    DeepMerge(child, src);
    target.repr := target.repr + child.repr;
    ChildChanged(target, key);
  }

  /** Store one property of the source, merging when both sides hold a mapping. */
  method MergeKey(target: JsObject, key: string, val: Slot)
    requires target.Valid() && val.Valid() && target.repr !! val.Repr()
    modifies target, target.Region(key)
    ensures OnlyKey(target, key, val.Repr())
    ensures target.View() == OverlayKey(old(target.View()), key, old(val.View()))
    decreases val.Repr(), 3
  {
    if val.Node? && key in target.fields && target.fields[key].Node? {
      MergeChild(target, key, val.o);
    } else {
      Assign(target, key, val);
    }
  }

  /** The properties of `s` already copied while `todo` is still pending. */
  ghost function Done(s: Fields, todo: set<string>): Fields {
    map k | k in s && k !in todo :: s[k]
  }

  lemma RoundStart(s: Fields)
    ensures Done(RoundFields(s), s.Keys) == map[] && Done(RoundFields(s), {}) == RoundFields(s)
  {
  }

  lemma RoundOneMore(s: Fields, todo: set<string>, key: string)
    requires key in todo && key in s
    ensures Done(RoundFields(s), todo)[key := JsonRound(s[key])] == Done(RoundFields(s), todo - {key})
  {
  }

  lemma OverlayNothing(base: Fields, over: Fields)
    ensures OverlayFields(base, Done(over, over.Keys)) == base
    ensures Done(over, {}) == over
  {
  }

  lemma OverlayOneMore(base: Fields, over: Fields, todo: set<string>, key: string)
    requires key in todo && key in over
    ensures OverlayKey(OverlayFields(base, Done(over, todo)), key, over[key])
         == OverlayFields(base, Done(over, todo - {key}))
  {
    var left := OverlayKey(OverlayFields(base, Done(over, todo)), key, over[key]);
    var right := OverlayFields(base, Done(over, todo - {key}));
    assert left.Keys == right.Keys;
    forall k | k in left ensures left[k] == right[k] {
    }
  }

  /** The keys still to be merged are untouched: `start` tells what each led to at the outset. */
  ghost predicate Pending(target: JsObject, src: JsObject, todo: set<string>, start: map<string, set<JsObject>>)
    requires target.Valid() && src.Valid()
    reads target, target.repr, src, src.repr
  {
    && todo <= src.fields.Keys
    && src !in target.repr && target !in src.repr
    && forall k | k in todo ::
         && src.fields[k].Repr() !! target.repr
         && (if k in start then k in target.fields && target.Region(k) == start[k] else k !in target.fields)
         && target.Region(k) !! src.repr
  }

  lemma AllPending(target: JsObject, src: JsObject)
    requires target.Valid() && src.Valid() && target.repr !! src.repr
    ensures Pending(target, src, src.fields.Keys, map k | k in target.fields :: target.Region(k))
    ensures src.View().Keys == src.fields.Keys
  {
  }

  lemma Child(o: JsObject, key: string)
    requires o.Valid() && key in o.fields
    ensures o.fields[key].Valid() && o.fields[key].Repr() < o.repr
    ensures o.View()[key] == o.fields[key].View()
  {
  }

  twostate lemma PendingStep(target: JsObject, new src: JsObject, new todo: set<string>, new key: string,
                             new start: map<string, set<JsObject>>)
    requires old(allocated(src)) && old(allocated(start))
    requires old(target.Valid()) && old(src.Valid()) && old(Pending(target, src, todo, start)) && key in todo
    requires forall o | o in old(src.repr) :: unchanged(o)
    requires OnlyKey(target, key, src.fields[key].Repr())
    ensures src.Valid() && Pending(target, src, todo - {key}, start)
  {
  }

  /** Merge the property `key`, one of those still pending. */
  method MergeNext(target: JsObject, src: JsObject, key: string, ghost todo: set<string>,
                   ghost start: map<string, set<JsObject>>)
    requires target.Valid() && src.Valid() && Pending(target, src, todo, start) && key in todo
    modifies target, target.Region(key)
    ensures src.repr == old(src.repr) && target.Valid() &&
      old(target.repr) <= target.repr <= old(target.repr) + src.repr
    ensures src.Valid() && src.View() == old(src.View()) && Pending(target, src, todo - {key}, start)
    ensures target.View() == OverlayKey(old(target.View()), key, old(src.View())[key])
    decreases src.repr, 0
  {
    Child(src, key);
    MergeKey(target, key, src.fields[key]);
    PendingStep(target, src, todo, key, start);
  }

  lemma Grown(a: set<JsObject>, b: set<JsObject>, c: set<JsObject>, extra: set<JsObject>)
    requires a <= b <= a + extra && b <= c <= b + extra
    ensures a <= c <= a + extra
  {
  }

  /** The in-place merge computes the overlay and never writes an object of `src`. */
  method DeepMerge(target: JsObject, src: JsObject)
    requires target.Valid() && src.Valid() && target.repr !! src.repr
    modifies target.repr
    ensures target.Valid() && old(target.repr) <= target.repr <= old(target.repr) + src.repr
    ensures target.View() == OverlayFields(old(target.View()), old(src.View()))
    decreases src.repr, 1
  {
    ghost var tv, sv, below := target.View(), src.View(), src.repr;
    ghost var start := map k | k in target.fields :: target.Region(k);
    var todo := src.fields.Keys;
    AllPending(target, src);
    OverlayNothing(tv, sv);
    while todo != {}
      invariant target.Valid() && old(target.repr) <= target.repr <= old(target.repr) + below
      invariant src.repr == below && src.Valid() && src.View() == sv && Pending(target, src, todo, start)
      invariant target.View() == OverlayFields(tv, Done(sv, todo))
    {
      var key :| key in todo;
      OverlayOneMore(tv, sv, todo, key);
      ghost var reached := target.repr;
      MergeNext(target, src, key, todo, start);
      Grown(old(target.repr), reached, target.repr, below);
      todo := todo - {key};
    }
  }

  // ----- cloning -----

  /** A JSON clone shares no object with its original. */
  method DeepClone(o: JsObject) returns (c: JsObject)
    requires o.Valid()
    ensures c.Valid() && fresh(c.repr)
    ensures c.View() == RoundFields(o.View())
    decreases o.repr, 1
  {
    ghost var view := o.View();
    c := new JsObject();
    var todo := o.fields.Keys;
    RoundStart(view);
    while todo != {}
      invariant todo <= view.Keys
      invariant c.Valid() && fresh(c.repr)
      invariant c.repr !! o.repr && o.Valid() && o.View() == view
      invariant c.View() == Done(RoundFields(view), todo)
    {
      var key :| key in todo;
      RoundOneMore(view, todo, key);
      CloneKey(o, key, c);
      todo := todo - {key};
    }
  }

  /** Copy one property of `o` into the clone `c`. */
  method CloneKey(o: JsObject, key: string, c: JsObject)
    requires o.Valid() && key in o.fields && c.Valid() && c.repr !! o.repr
    modifies c
    ensures c.Valid() && forall x | x in c.repr :: x in old(c.repr) || fresh(x)
    ensures Kept(o)
    ensures c.View() == old(c.View())[key := JsonRound(o.View()[key])]
    decreases o.repr, 0
  {
    Child(o, key);
    var copy := CloneSlot(o.fields[key]);
    ghost var slot := copy.View();
    assert slot == JsonRound(old(o.View()[key]));
    Framed(c);
    Assign(c, key, copy);
    Framed(o);
  }

  method CloneSlot(s: Slot) returns (c: Slot)
    requires s.Valid()
    ensures c.Valid() && fresh(c.Repr()) && fresh(c.Root())
    ensures c.View() == JsonRound(s.View())
    decreases s.Repr(), 2
  {
    if s.Node? {
      var o := DeepClone(s.o);
      c := Node(o);
    } else {
      c := Leaf(JsonRound(s.v));
    }
  }

  // ----- writing one value deep inside a tree -----

  /** Every key on the path leads from a mapping to a mapping. */
  predicate Leads(f: Fields, path: Path)
    decreases |path|
  {
    path == [] || (path[0] in f && f[path[0]].Obj? && Leads(f[path[0]].fields, path[1..]))
  }

  function SetAt(f: Fields, path: Path, key: string, v: Value): Fields
    requires Leads(f, path)
    decreases |path|
  {
    if path == [] then f[key := v]
    else f[path[0] := Obj(SetAt(f[path[0]].fields, path[1..], key, v))]
  }

  method SetPath(root: JsObject, path: Path, key: string, v: Value)
    requires root.Valid() && Leads(root.View(), path) && !v.Obj?
    modifies root.repr
    ensures root.Valid() && root.repr == old(root.repr)
    ensures root.View() == SetAt(old(root.View()), path, key, v)
    decreases |path|
  {
    if path == [] {
      Assign(root, key, Leaf(v));
    } else {
      Child(root, path[0]);
      SetPath(root.fields[path[0]].o, path[1..], key, v);
      assert root.repr == root.repr + root.fields[path[0]].Repr();
      ChildChanged(root, path[0]);
    }
  }

  // ----- building a tree from a value -----

  method Plant(v: Value) returns (s: Slot)
    ensures s.Valid() && fresh(s.Repr()) && fresh(s.Root()) && s.View() == v
    decreases v, 2
  {
    if v.Obj? {
      var o := PlantFields(v.fields);
      s := Node(o);
    } else {
      s := Leaf(v);
    }
  }

  lemma DoneOneMore(f: Fields, todo: set<string>, key: string)
    requires key in todo && key in f
    ensures Done(f, todo)[key := f[key]] == Done(f, todo - {key})
  {
  }

  method PlantFields(f: Fields) returns (o: JsObject)
    ensures o.Valid() && fresh(o.repr) && o.View() == f
    decreases Obj(f), 1
  {
    o := new JsObject();
    var todo := f.Keys;
    OverlayNothing(map[], f);
    while todo != {}
      invariant todo <= f.Keys && o.Valid() && fresh(o.repr) && o.View() == Done(f, todo)
    {
      var key :| key in todo;
      DoneOneMore(f, todo, key);
      PlantKey(o, f, key);
      todo := todo - {key};
    }
  }

  method PlantKey(o: JsObject, f: Fields, key: string)
    requires o.Valid() && key in f
    modifies o
    ensures o.Valid() && forall x | x in o.repr :: x in old(o.repr) || fresh(x)
    ensures o.View() == old(o.View())[key := f[key]]
    decreases Obj(f), 0
  {
    var s := Plant(f[key]);
    Framed(o);
    Assign(o, key, s);
  }

  /** Store any value, as a tree of its own, under a path of mappings. */
  method PlantAt(root: JsObject, path: Path, key: string, v: Value)
    requires root.Valid() && Leads(root.View(), path)
    modifies root.repr
    ensures root.Valid() && old(root.repr) <= root.repr && forall x | x in root.repr :: x in old(root.repr) || fresh(x)
    ensures root.View() == SetAt(old(root.View()), path, key, v)
    decreases |path|
  {
    if path == [] {
      var s := Plant(v);
      Assign(root, key, s);
    } else {
      Child(root, path[0]);
      var child := root.fields[path[0]].o;
      PlantAt(child, path[1..], key, v);
      root.repr := root.repr + child.repr;
      ChildChanged(root, path[0]);
    }
  }
}
