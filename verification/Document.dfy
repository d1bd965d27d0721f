/** One configuration document laid over the defaults, with its special rule for `backends`. */
module Document {
  import opened Json
  import opened Merge
  import opened Objects

  datatype Problem =
    | NotAMapping
    | BackendsNotAMapping
    | EntryNotAMapping(id: string)
    | EnabledNotBoolean(id: string)

  // ----- what the document means -----

  /** One entry under `backends`. */
  datatype Entry = Rejected(problem: Problem) | Disabled | Active(fields: Fields)

  function ReadEntry(builtin: Fields, id: string, v: Value): Entry {
    if Turned(id, v).Some? then Turned(id, v).value else Active(OverlayFields(Inherited(builtin, id), v.fields))
  }

  /** Entries that are refused or switched off need no merging. */
  function Turned(id: string, v: Value): (e: Option<Entry>)
    ensures e.None? ==> v.Obj?
  {
    if !v.Obj? then Some(Rejected(EntryNotAMapping(id)))
    else if "enabled" in v.fields && !v.fields["enabled"].Bool? then Some(Rejected(EnabledNotBoolean(id)))
    else if "enabled" in v.fields && !v.fields["enabled"].b then Some(Disabled)
    else None
  }

  /** The clone of the same-named built-in backend, or nothing. */
  function Inherited(builtin: Fields, id: string): Fields {
    if id in builtin && builtin[id].Obj? then RoundFields(builtin[id].fields) else map[]
  }

  function ActiveBackends(builtin: Fields, file: Fields): Fields {
    map id | id in file && ReadEntry(builtin, id, file[id]).Active? ::
      Obj(ReadEntry(builtin, id, file[id]).fields)
  }

  /** Built-in ids the file omits, and ids it switches off. */
  function RemovedIds(builtin: Fields, file: Fields): set<string> {
    (builtin.Keys - file.Keys) + DisabledIds(builtin, file)
  }

  function DisabledIds(builtin: Fields, file: Fields): set<string> {
    set id | id in file && ReadEntry(builtin, id, file[id]).Disabled?
  }

  function Problems(builtin: Fields, file: Fields): set<Problem> {
    set id | id in file && ReadEntry(builtin, id, file[id]).Rejected? :: ReadEntry(builtin, id, file[id]).problem
  }

  // ----- the imperative reader -----

  lemma Shape(o: JsObject, key: string)
    requires o.Valid()
    ensures key in o.View() <==> key in o.fields
    ensures key in o.fields ==> o.fields[key].Valid() && o.View()[key] == o.fields[key].View()
  {
  }

  method CloneBuiltin(builtin: JsObject, id: string) returns (c: JsObject)
    requires builtin.Valid()
    ensures c.Valid() && fresh(c.repr) && c.View() == Inherited(builtin.View(), id)
  {
    Shape(builtin, id);
    if id in builtin.fields && builtin.fields[id].Node? {
      c := DeepClone(builtin.fields[id].o);
    } else {
      c := new JsObject();
    }
  }

  /** The built-in backend of that name with the entry merged into a clone of it. */
  method Configure(builtin: JsObject, id: string, entry: JsObject) returns (c: JsObject)
    requires builtin.Valid() && entry.Valid()
    ensures c.Valid() && fresh(c.repr - entry.repr)
    ensures c.View() == OverlayFields(Inherited(builtin.View(), id), entry.View())
  {
    c := CloneBuiltin(builtin, id);
    DeepMerge(c, entry);
  }

  method SortEntry(id: string, entry: Slot) returns (e: Option<Entry>)
    requires entry.Valid()
    ensures e == Turned(id, entry.View())
  {
    if entry.Leaf? {
      return Some(Rejected(EntryNotAMapping(id)));
    }
    Shape(entry.o, "enabled");
    if "enabled" in entry.o.fields {
      var flag := entry.o.fields["enabled"];
      if flag.Node? || !flag.v.Bool? {
        return Some(Rejected(EnabledNotBoolean(id)));
      }
      if !flag.v.b {
        return Some(Disabled);
      }
    }
    e := None;
  }

  /** The registry under construction, `configured`, stays clear of the entries still pending. */
  ghost predicate ClearOf(configured: JsObject, file: JsObject, todo: set<string>)
    requires file.Valid()
    reads configured, file, file.repr
  {
    && todo <= file.fields.Keys
    && configured !in file.repr
    && forall k | k in todo :: configured.repr !! file.fields[k].Repr()
  }

  twostate lemma StillClear(file: JsObject, new configured: JsObject, new todo: set<string>, new id: string)
    requires old(allocated(configured)) && Kept(file) && id in todo
    requires old(ClearOf(configured, file, todo))
    requires fresh(configured.repr - old(configured.repr) - file.fields[id].Repr())
    ensures ClearOf(configured, file, todo - {id})
  {
    forall k | k in todo - {id} ensures configured.repr !! file.fields[k].Repr() {
      assert file.fields[k].Repr() == old(file.fields[k].Repr());
    }
  }

  /** Merge one remaining entry over its built-in namesake and store the result. */
  method Store(builtin: JsObject, file: JsObject, id: string, configured: JsObject, ghost todo: set<string>)
    requires builtin.Valid() && file.Valid() && configured.Valid()
    requires ClearOf(configured, file, todo) && id in todo && file.fields[id].Node? && configured !in builtin.repr
    modifies configured
    ensures Kept(builtin) && Kept(file)
    ensures configured.Valid() && fresh(configured.repr - old(configured.repr) - file.fields[id].Repr())
    ensures ClearOf(configured, file, todo - {id})
    ensures id in file.View() && file.View()[id].Obj?
    ensures configured.View() ==
      old(configured.View())[id := Obj(OverlayFields(Inherited(builtin.View(), id), file.View()[id].fields))]
  {
    Shape(file, id);
    ghost var before := configured.View();
    var merged := Configure(builtin, id, file.fields[id].o);
    ghost var value := Obj(merged.View());
    assert value == Obj(OverlayFields(Inherited(old(builtin.View()), id), old(file.View())[id].fields));
    assert configured.Valid() && configured.View() == before;
    Assign(configured, id, Node(merged));
    assert configured.View() == before[id := value];
    Framed(builtin);
    Framed(file);
    StillClear(file, configured, todo, id);
  }

  /** What has been read when the entries `todo` are still pending. */
  datatype Reading = Reading(active: Fields, removed: set<string>, problems: set<Problem>)

  function Read(builtin: Fields, file: Fields, todo: set<string>): Reading {
    var seen := Seen(file, todo);
    Reading(ActiveBackends(builtin, seen), (builtin.Keys - file.Keys) + DisabledIds(builtin, seen),
      Problems(builtin, seen))
  }

  function Seen(file: Fields, todo: set<string>): Fields {
    map id | id in file && id !in todo :: file[id]
  }

  function Record(r: Reading, id: string, e: Entry): Reading {
    match e
    case Rejected(p) => r.(problems := r.problems + {p})
    case Disabled => r.(removed := r.removed + {id})
    case Active(f) => r.(active := r.active[id := Obj(f)])
  }

  lemma ReadEnds(builtin: Fields, file: Fields)
    ensures Read(builtin, file, file.Keys) == Reading(map[], builtin.Keys - file.Keys, {})
    ensures Read(builtin, file, {}).active == ActiveBackends(builtin, file)
    ensures Read(builtin, file, {}).removed == RemovedIds(builtin, file)
    ensures Read(builtin, file, {}).problems == Problems(builtin, file)
  {
    assert Seen(file, file.Keys) == map[] && Seen(file, {}) == file;
  }

  lemma ReadOneMore(builtin: Fields, file: Fields, todo: set<string>, id: string)
    requires id in todo && id in file
    ensures Record(Read(builtin, file, todo), id, ReadEntry(builtin, id, file[id]))
         == Read(builtin, file, todo - {id})
  {
    var e := ReadEntry(builtin, id, file[id]);
    var r, r' := Record(Read(builtin, file, todo), id, e), Read(builtin, file, todo - {id});
    assert r.active == r'.active;
    assert r.removed == r'.removed;
    forall p | p in r'.problems ensures p in r.problems {
    }
    if e.Rejected? {
      assert id in Seen(file, todo - {id});
    }
    assert r.problems == r'.problems;
  }

  /** Read one entry. */
  method ReadNext(builtin: JsObject, file: JsObject, id: string, configured: JsObject, ghost todo: set<string>,
                  removed: set<string>, problems: set<Problem>)
    returns (removed': set<string>, problems': set<Problem>)
    requires builtin.Valid() && file.Valid() && configured.Valid()
    requires ClearOf(configured, file, todo) && id in todo && configured !in builtin.repr
    modifies configured
    ensures Kept(builtin) && Kept(file)
    ensures configured.Valid() && forall x | x in configured.repr ::
      x in old(configured.repr) || x in file.repr || fresh(x)
    ensures ClearOf(configured, file, todo - {id})
    ensures id in file.View() && Reading(configured.View(), removed', problems')
      == Record(Reading(old(configured.View()), removed, problems), id, ReadEntry(builtin.View(), id, file.View()[id]))
  {
    Shape(file, id);
    removed', problems' := removed, problems;
    var turned := SortEntry(id, file.fields[id]);
    if turned.None? {
      Store(builtin, file, id, configured, todo);
    } else if turned.value.Rejected? {
      problems' := problems + {turned.value.problem};
    } else {
      removed' := removed + {id};
    }
  }

  /** Read every entry under `backends`, in any order. */
  method ReadBackends(builtin: JsObject, file: JsObject)
    returns (configured: JsObject, removed: set<string>, problems: set<Problem>)
    requires builtin.Valid() && file.Valid()
    ensures configured.Valid() && fresh(configured.repr - file.repr)
    ensures configured.View() == ActiveBackends(builtin.View(), file.View())
    ensures removed == RemovedIds(builtin.View(), file.View()) && problems == Problems(builtin.View(), file.View())
  {
    configured := new JsObject();
    ghost var bv, fv := builtin.View(), file.View();
    removed := builtin.fields.Keys - file.fields.Keys;
    problems := {};
    var todo := file.fields.Keys;
    ReadEnds(bv, fv);
    while todo != {}
      invariant builtin.Valid() && builtin.View() == bv && file.Valid() && file.View() == fv
      invariant configured.Valid() && fresh(configured) && forall x | x in configured.repr :: x in file.repr || fresh(x)
      invariant configured !in builtin.repr && ClearOf(configured, file, todo)
      invariant Reading(configured.View(), removed, problems) == Read(bv, fv, todo)
    {
      var id :| id in todo;
      Shape(file, id);
      ReadOneMore(bv, fv, todo, id);
      removed, problems := ReadNext(builtin, file, id, configured, todo, removed, problems);
      todo := todo - {id};
    }
  }

  // ----- the whole document -----

  datatype Merged = Merged(cfg: Fields, removed: set<string>)

  /** What the document makes of the base configuration, and which backend ids it takes away. */
  function MergeDocument(builtin: Fields, base: Fields, doc: Value): Result<Merged, set<Problem>> {
    if !doc.Obj? then Err({NotAMapping})
    else
      var plain := OverlayFields(base, doc.fields - {"backends"});
      if "backends" !in doc.fields then Ok(Merged(plain, {}))
      else if !doc.fields["backends"].Obj? then Err({BackendsNotAMapping})
      else Replace(builtin, plain, doc.fields["backends"].fields)
  }

  /** `rest` is `doc` without one key: it is a tree of its own. */
  lemma WithoutKey(doc: JsObject, rest: JsObject, key: string)
    requires doc.Valid() && rest !in doc.repr
    requires rest.fields == doc.fields - {key} && rest.repr == {rest} + (doc.repr - {doc} - doc.Region(key))
    ensures rest.Valid()
  {
    forall k | k in rest.fields ensures rest.fields[k].Repr() <= rest.repr - {rest} &&
      rest.fields[k].Root() <= rest.repr {
    }
  }

  /** The document without its `backends` key, sharing every other subtree with it. */
  method Rest(doc: JsObject) returns (rest: JsObject)
    requires doc.Valid()
    ensures rest.Valid() && fresh(rest) && rest.repr == {rest} + (doc.repr - {doc} - doc.Region("backends"))
    ensures rest.View() == doc.View() - {"backends"}
  {
    rest := new JsObject();
    rest.fields := doc.fields - {"backends"};
    rest.repr := {rest} + (doc.repr - {doc} - doc.Region("backends"));
    WithoutKey(doc, rest, "backends");
  }

  /** The declared registry replaces the one in `base`. */
  function Replace(builtin: Fields, plain: Fields, file: Fields): Result<Merged, set<Problem>> {
    if Problems(builtin, file) != {} then Err(Problems(builtin, file))
    else Ok(Merged(plain["backends" := Obj(ActiveBackends(builtin, file))], RemovedIds(builtin, file)))
  }

  /** `got` and the state `cfg` it left behind are what `want` asks for. */
  predicate Delivers(want: Result<Merged, set<Problem>>, got: Result<set<string>, set<Problem>>, cfg: Fields) {
    match want
    case Ok(m) => got == Ok(m.removed) && cfg == m.cfg
    case Err(p) => got == Err(p)
  }

  method ReplaceBackends(builtin: JsObject, base: JsObject, file: JsObject)
    returns (r: Result<set<string>, set<Problem>>)
    requires builtin.Valid() && base.Valid() && file.Valid() && base.repr !! file.repr && base !in builtin.repr
    modifies base
    ensures base.Valid() && forall x | x in base.repr :: x in old(base.repr) || x in file.repr || fresh(x)
    ensures Delivers(Replace(old(builtin.View()), old(base.View()), old(file.View())), r, base.View())
  {
    ghost var before := base.View();
    var configured, removed, problems := ReadBackends(builtin, file);
    Framed(base);
    if problems != {} {
      return Err(problems);
    }
    Assign(base, "backends", Node(configured));
    r := Ok(removed);
  }

  /** Everything but `backends` is an ordinary merge. */
  method MergePlain(base: JsObject, doc: JsObject)
    requires base.Valid() && doc.Valid() && base.repr !! doc.repr
    modifies base.repr
    ensures Kept(doc) && base.Valid() && base.View() == OverlayFields(old(base.View()), doc.View() - {"backends"})
    ensures forall x | x in base.repr :: x in old(base.repr) || x in doc.repr || fresh(x)
    ensures base.repr !! doc.Region("backends") && base !in doc.repr
  {
    var rest := Rest(doc);
    DeepMerge(base, rest);
    Framed(doc);
  }

  /** Lay one parsed document over `base`; `defaults` is only ever cloned. */
  method MergeConfigDocument(defaults: JsObject, base: JsObject, doc: Slot)
    returns (r: Result<set<string>, set<Problem>>)
    requires defaults.Valid() && base.Valid() && doc.Valid() && base.repr !! doc.Repr()
    requires defaults.repr !! base.repr && defaults.repr !! doc.Repr() && Leads(defaults.View(), ["backends"])
    modifies base.repr
    ensures base.Valid() && forall x | x in base.repr :: x in old(base.repr) || x in doc.Repr() || fresh(x)
    ensures Delivers(MergeDocument(old(defaults.View())["backends"].fields, old(base.View()), old(doc.View())), r,
      base.View())
  {
    if doc.Leaf? {
      return Err({NotAMapping});
    }
    Shape(doc.o, "backends");
    Shape(defaults, "backends");
    MergePlain(base, doc.o);
    if "backends" !in doc.o.fields {
      return Ok({});
    }
    var declared := doc.o.fields["backends"];
    if declared.Leaf? {
      return Err({BackendsNotAMapping});
    }
    Framed(defaults);
    Shape(doc.o, "backends");
    Shape(defaults, "backends");
    r := ReplaceBackends(defaults.fields["backends"].o, base, declared.o);
  }
}
