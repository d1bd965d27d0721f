/** The recursive overlay computed by `deepMerge`, and the laws it obeys. */
module Merge {
  import opened Json

  /** `over` laid over `base`: mappings merge key by key, anything else in `over` replaces. */
  function Overlay(base: Value, over: Value): Value
    decreases over
  {
    if base.Obj? && over.Obj? then
      Obj(map k | k in base.fields.Keys + over.fields.Keys ::
        if k !in over.fields then base.fields[k]
        else if k !in base.fields then over.fields[k]
        else Overlay(base.fields[k], over.fields[k]))
    else over
  }

  function OverlayFields(base: Fields, over: Fields): Fields {
    Overlay(Obj(base), Obj(over)).fields
  }

  // ----- looking values up by path -----

  type Path = seq<string>

  /** `Missing`: a mapping on the path lacks the next key. `Blocked`: a leaf sits above the path. */
  datatype Lookup = Found(v: Value) | Missing | Blocked

  function At(v: Value, path: Path): Lookup
    decreases |path|
  {
    if path == [] then Found(v)
    else if !v.Obj? then Blocked
    else if path[0] !in v.fields then Missing
    else At(v.fields[path[0]], path[1..])
  }

  /** What an overlay shows at a path, told from what each layer alone shows there. */
  predicate PathOutcome(base: Lookup, over: Lookup, merged: Lookup) {
    match over
    case Blocked => merged == Blocked
    case Missing => if base.Found? then merged == base else !merged.Found?
    case Found(w) =>
      merged == Found(if w.Obj? && base.Found? && base.v.Obj? then Overlay(base.v, w) else w)
  }

  lemma {:induction false} PathLaw(base: Value, over: Value, path: Path)
    requires base.Obj? && over.Obj?
    ensures PathOutcome(At(base, path), At(over, path), At(Overlay(base, over), path))
    decreases |path|
  {
    if path != [] {
      var k := path[0];
      if k in over.fields && k in base.fields && over.fields[k].Obj? && base.fields[k].Obj? {
        PathLaw(base.fields[k], over.fields[k], path[1..]);
      } else if k in over.fields && k in base.fields {
        if !base.fields[k].Obj? && path[1..] != [] {
          assert At(base, path).Blocked?;
        }
      }
    }
  }

  /** A leaf of the override wins at its own path and hides everything the base had below it. */
  lemma LeafWinsAndHides(base: Value, over: Value, path: Path, below: Path)
    requires base.Obj? && over.Obj?
    requires At(over, path).Found? && !At(over, path).v.Obj?
    requires below != []
    ensures At(Overlay(base, over), path) == At(over, path)
    ensures At(Overlay(base, over), path + below) == Blocked
  {
    PathLaw(base, over, path);
    PathLaw(base, over, path + below);
    BelowALeaf(over, path, below);
  }

  lemma {:induction false} BelowALeaf(v: Value, path: Path, below: Path)
    requires At(v, path).Found? && !At(v, path).v.Obj? && below != []
    ensures At(v, path + below) == Blocked
    decreases |path|
  {
    if path == [] {
      assert path + below == below;
    } else {
      assert (path + below)[1..] == path[1..] + below;
      BelowALeaf(v.fields[path[0]], path[1..], below);
    }
  }

  // ----- idempotence -----

  lemma {:induction false} SelfOverlay(v: Value)
    ensures Overlay(v, v) == v
  {
    if v.Obj? {
      forall k | k in v.fields ensures Overlay(v.fields[k], v.fields[k]) == v.fields[k] {
        SelfOverlay(v.fields[k]);
      }
      assert OverlayFields(v.fields, v.fields) == v.fields;
    }
  }

  /** Applying the same override a second time changes nothing. */
  lemma {:induction false} OverlayIsIdempotent(base: Value, over: Value)
    ensures Overlay(Overlay(base, over), over) == Overlay(base, over)
    decreases over
  {
    if base.Obj? && over.Obj? {
      var once := OverlayFields(base.fields, over.fields);
      forall k | k in over.fields
        ensures Overlay(once[k], over.fields[k]) == once[k]
      {
        if k in base.fields {
          OverlayIsIdempotent(base.fields[k], over.fields[k]);
        } else {
          SelfOverlay(over.fields[k]);
        }
      }
      assert OverlayFields(once, over.fields) == once;
    } else {
      SelfOverlay(over);
    }
  }

  // ----- three layers -----

  /** Laying `c` over `a` leaves nothing of `a` visible. */
  predicate Redundant(a: Value, c: Value)
    decreases c
  {
    a.Obj? && c.Obj? ==>
      forall k | k in a.fields :: k in c.fields && Redundant(a.fields[k], c.fields[k])
  }

  lemma {:induction false} RedundantIff(a: Value, c: Value)
    ensures Overlay(a, c) == c <==> Redundant(a, c)
    decreases c
  {
    if a.Obj? && c.Obj? {
      var m := OverlayFields(a.fields, c.fields);
      forall k | k in a.fields && k in c.fields
        ensures m[k] == c.fields[k] <==> Redundant(a.fields[k], c.fields[k])
      {
        RedundantIff(a.fields[k], c.fields[k]);
      }
      if Overlay(a, c) == c {
        assert forall k | k in a.fields :: k in m;
      }
      if Redundant(a, c) {
        assert m == c.fields;
      }
    }
  }

  /** No leaf of the middle layer stands between two mappings, unless the outer one hides the inner. */
  predicate NoBarrier(a: Value, b: Value, c: Value)
    decreases c
  {
    a.Obj? && c.Obj? ==>
      if b.Obj?
      then forall k | k in a.fields && k in b.fields && k in c.fields ::
             NoBarrier(a.fields[k], b.fields[k], c.fields[k])
      else Redundant(a, c)
  }

  /** Three-layer merging may be regrouped exactly when the middle layer sets up no barrier. */
  lemma {:induction false} AssociativeIff(a: Value, b: Value, c: Value)
    ensures Overlay(Overlay(a, b), c) == Overlay(a, Overlay(b, c)) <==> NoBarrier(a, b, c)
    decreases c
  {
    if a.Obj? && b.Obj? && c.Obj? {
      var left := Overlay(Overlay(a, b), c).fields;
      var right := Overlay(a, Overlay(b, c)).fields;
      assert left.Keys == right.Keys;
      forall k | k in left && !(k in a.fields && k in b.fields && k in c.fields)
        ensures left[k] == right[k]
      {
      }
      forall k | k in a.fields && k in b.fields && k in c.fields
        ensures left[k] == right[k] <==> NoBarrier(a.fields[k], b.fields[k], c.fields[k])
      {
        AssociativeIff(a.fields[k], b.fields[k], c.fields[k]);
      }
      if left == right {
        assert forall k | k in a.fields && k in b.fields && k in c.fields :: left[k] == right[k];
      }
      if NoBarrier(a, b, c) {
        assert left == right;
      }
    } else if a.Obj? && c.Obj? {
      RedundantIff(a, c);
    }
  }

  // ----- clones -----

  /** What a JSON clone shows at a path, told from what the original shows there. */
  lemma {:induction false} RoundLaw(v: Value, path: Path)
    ensures match At(v, path)
      case Missing => At(JsonRound(v), path) == Missing
      case Blocked => At(JsonRound(v), path) == Blocked
      case Found(w) =>
        && At(JsonRound(v), path).Found?
        && var u := At(JsonRound(v), path).v;
          match w
          case NotFinite => u == Null
          case Arr(items) =>
            u.Arr? && |u.items| == |items| && forall i | 0 <= i < |items| :: u.items[i] == JsonRound(items[i])
          case Obj(fields) => u.Obj? && u.fields.Keys == fields.Keys
          case _ => u == w
    decreases |path|
  {
    if path != [] && v.Obj? && path[0] in v.fields {
      RoundLaw(v.fields[path[0]], path[1..]);
    }
  }
}
