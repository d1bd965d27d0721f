/** Shared physical-capacity domains: the nested validation loop and the partition it accepts. */
module Capacity {
  import opened Json

  datatype Problem =
    | DomainNotAnObject(id: string)
    | BadMax(id: string)
    | BadQueue(id: string)
    | BadTimeout(id: string)
    | NoMembers(id: string)
    | MissingItself(id: string)
    | NotAName(id: string)
    | MemberRemoved(id: string, route: string)
    | UnknownRoute(id: string, route: string)
    | AlreadyOwned(id: string, route: string, prior: string)

  // ----- what is accepted -----

  /** The ids a member may name: live backends and the ones the document took away. */
  datatype Routes = Routes(declared: set<string>, removed: set<string>)

  predicate IdChar(c: char) {
    'A' <= c <= 'Z' || 'a' <= c <= 'z' || '0' <= c <= '9' || c == '.' || c == '_' || c == '-'
  }

  predicate RegistryId(s: string) {
    "reg:" <= s && |s| > 4 && forall i | 4 <= i < |s| :: IdChar(s[i])
  }

  function ConfiguredId(member: string): string {
    if "reg:" <= member then member[4..] else member
  }

  predicate AtLeast(v: Option<Value>, low: int) {
    IsInteger(v) && v.value.n >= low as real
  }

  predicate LimitsOk(v: Value) {
    AtLeast(Field(v, "max"), 1) && AtLeast(Field(v, "maxQueue"), 0) && AtLeast(Field(v, "queueTimeoutMs"), 1)
  }

  function Members(v: Value): seq<Value> {
    match Field(v, "members")
    case Some(Arr(items)) => items
    case _ => []
  }

  predicate Named(v: Value) {
    v.Str? && v.s != ""
  }

  predicate MemberOk(v: Value, routes: Routes) {
    && Named(v)
    && ConfiguredId(v.s) !in routes.removed
    && (v.s in routes.declared || RegistryId(v.s))
  }

  predicate DomainOk(id: string, v: Value, routes: Routes) {
    v.Obj? && LimitsOk(v) && Str(id) in Members(v) && forall i | 0 <= i < |Members(v)| ::
      MemberOk(Members(v)[i], routes)
  }

  /** The `i`-th member of domain `d`. */
  function Listed(domains: Fields, d: string, i: nat): Value
    requires d in domains && i < |Members(domains[d])|
  {
    Members(domains[d])[i]
  }

  /** Among the first `upto[d]` members of each domain, no route is listed twice. */
  ghost predicate Distinct(domains: Fields, upto: map<string, nat>)
    requires Within(domains, upto)
  {
    forall d, e, i, j | d in upto && e in upto && 0 <= i < upto[d] && 0 <= j < upto[e] && (d != e || i != j) ::
      Listed(domains, d, i) != Listed(domains, e, j)
  }

  ghost predicate Within(domains: Fields, upto: map<string, nat>) {
    forall d | d in upto :: d in domains && upto[d] <= |Members(domains[d])|
  }

  function Everything(domains: Fields): (upto: map<string, nat>)
    ensures Within(domains, upto)
  {
    map d | d in domains :: |Members(domains[d])|
  }

  ghost predicate WellFormed(domains: Fields, routes: Routes) {
    && (forall d | d in domains :: DomainOk(d, domains[d], routes))
    && Distinct(domains, Everything(domains))
  }

  // ----- the owners table -----

  type Owners = map<string, string>

  /** Every entry records a member already visited. */
  ghost predicate Sound(domains: Fields, upto: map<string, nat>, owners: Owners)
    requires Within(domains, upto)
  {
    forall r | r in owners :: owners[r] in upto && exists k | 0 <= k < upto[owners[r]] ::
      Listed(domains, owners[r], k) == Str(r)
  }

  /** Every member already visited is recorded under its own domain. */
  ghost predicate Complete(domains: Fields, upto: map<string, nat>, owners: Owners)
    requires Within(domains, upto)
  {
    forall d, i | d in upto && 0 <= i < upto[d] ::
      var m := Listed(domains, d, i);
      m.Str? && m.s in owners && owners[m.s] == d
  }

  /** One more member of `id` has been visited and, if `route` is given, recorded. */
  lemma SoundStep(domains: Fields, upto: map<string, nat>, owners: Owners, id: string, route: string)
    requires Within(domains, upto) && Sound(domains, upto, owners)
    requires id in upto && upto[id] < |Members(domains[id])|
    ensures Sound(domains, upto[id := upto[id] + 1], owners)
    ensures Members(domains[id])[upto[id]] == Str(route) ==>
      Sound(domains, upto[id := upto[id] + 1], owners[route := id])
  {
    var more := upto[id := upto[id] + 1];
    forall r | r in owners ensures exists k | 0 <= k < more[owners[r]] :: Listed(domains, owners[r], k) == Str(r) {
      var k :| 0 <= k < upto[owners[r]] && Listed(domains, owners[r], k) == Str(r);
    }
    if Members(domains[id])[upto[id]] == Str(route) {
      assert Listed(domains, id, upto[id]) == Str(route);
    }
  }

  lemma CompleteStep(domains: Fields, upto: map<string, nat>, owners: Owners, id: string, route: string)
    requires Within(domains, upto) && Complete(domains, upto, owners) && Distinct(domains, upto)
    requires id in upto && upto[id] < |Members(domains[id])| && Members(domains[id])[upto[id]] == Str(route)
    requires route !in owners
    ensures Complete(domains, upto[id := upto[id] + 1], owners[route := id])
    ensures Distinct(domains, upto[id := upto[id] + 1])
  {
    var more := upto[id := upto[id] + 1];
    forall d, i | d in upto && 0 <= i < upto[d] ensures Listed(domains, d, i) != Str(route) {
    }
    assert Listed(domains, id, upto[id]) == Str(route);
  }

  /** A route recorded before and met again is listed twice. */
  lemma MetAgain(domains: Fields, upto: map<string, nat>, owners: Owners, id: string, route: string)
    requires Within(domains, upto) && Sound(domains, upto, owners) && route in owners
    requires id in upto && upto[id] < |Members(domains[id])| && Members(domains[id])[upto[id]] == Str(route)
    ensures !Distinct(domains, Everything(domains))
    ensures ClashesOf([AlreadyOwned(id, route, owners[route])], id, domains)
  {
    var d, all := owners[route], Everything(domains);
    var k :| 0 <= k < upto[d] && Listed(domains, d, k) == Str(route);
    assert d in all && id in all && k < all[d] && upto[id] < all[id];
    assert Listed(domains, d, k) == Listed(domains, id, upto[id]);
    assert TwoPlaces(Members(domains[id]), upto[id], Members(domains[d]), k, Str(route));
  }

  // ----- what is reported -----

  /** A problem of the member `m` by itself. */
  predicate MemberFault(p: Problem, id: string, m: Value, routes: Routes) {
    && p.id == id
    && match p
       case NotAName(_) => !Named(m)
       case MemberRemoved(_, backend) =>
         Named(m) && backend in routes.removed && m.s == if "reg:" <= m.s then "reg:" + backend else backend
       case UnknownRoute(_, route) => route != "" && m == Str(route) && route !in routes.declared && !RegistryId(route)
       case _ => false
  }

  /** A problem of the domain `v`, clashes apart. */
  predicate DomainFault(p: Problem, id: string, v: Value, routes: Routes) {
    && p.id == id
    && match p
       case DomainNotAnObject(_) => !v.Obj?
       case BadMax(_) => v.Obj? && !AtLeast(Field(v, "max"), 1)
       case BadQueue(_) => v.Obj? && !AtLeast(Field(v, "maxQueue"), 0)
       case BadTimeout(_) => v.Obj? && !AtLeast(Field(v, "queueTimeoutMs"), 1)
       case NoMembers(_) => v.Obj? && Members(v) == []
       case MissingItself(_) => Members(v) != [] && Str(id) !in Members(v)
       case AlreadyOwned(_, _, _) => false
       case _ => exists m | m in Members(v) :: MemberFault(p, id, m, routes)
  }

  /** The route has two places, one in this domain and one in the domain said to own it. */
  ghost predicate Clash(p: Problem, domains: Fields) {
    && p.AlreadyOwned? && p.id in domains && p.prior in domains
    && exists i: nat, j: nat ::
         TwoPlaces(Members(domains[p.id]), i, Members(domains[p.prior]), j, Str(p.route)) && (p.id != p.prior || i != j)
  }

  ghost predicate ClashesOf(found: seq<Problem>, id: string, domains: Fields) {
    forall p | p in found :: p.AlreadyOwned? && p.id == id && Clash(p, domains)
  }

  predicate TwoPlaces(a: seq<Value>, i: nat, b: seq<Value>, j: nat, m: Value) {
    i < |a| && j < |b| && a[i] == m == b[j]
  }

  /** Each clash reported is one, and the other problems reported are just those of these members. */
  ghost predicate MembersReported(found: seq<Problem>, domains: Fields, id: string, ms: seq<Value>, routes: Routes) {
    && (forall p | p in found && p.AlreadyOwned? :: p.id == id && Clash(p, domains))
    && (forall p: Problem | !p.AlreadyOwned? :: p in found <==> exists m | m in ms :: MemberFault(p, id, m, routes))
  }

  lemma OneMoreReported(found: seq<Problem>, more: seq<Problem>, domains: Fields, id: string, ms: seq<Value>, m: Value,
                        routes: Routes)
    requires MembersReported(found, domains, id, ms, routes) && MembersReported(more, domains, id, [m], routes)
    ensures MembersReported(found + more, domains, id, ms + [m], routes)
  {
    var all := found + more;
    forall p ensures p in all <==> p in found || p in more {
    }
    forall v ensures v in ms + [m] <==> v in ms || v == m {
    }
  }

  /** A member read is recorded under its domain, or its clash with the owner has been reported. */
  ghost predicate Told(id: string, m: Value, owners: Owners, found: seq<Problem>) {
    Named(m) && id != "" ==>
      m.s in owners && (owners[m.s] == id || exists prior :: AlreadyOwned(id, m.s, prior) in found)
  }

  /** An owner once recorded stays. */
  predicate Keeps(before: Owners, after: Owners) {
    forall r | r in before :: r in after && (before[r] != "" ==> after[r] == before[r])
  }

  lemma StillTold(id: string, ms: seq<Value>, before: Owners, after: Owners, found: seq<Problem>, more: seq<Problem>)
    requires Keeps(before, after) && forall m | m in ms :: Told(id, m, before, found)
    ensures forall m | m in ms :: Told(id, m, after, found + more)
  {
    forall m | m in ms && Named(m) && id != "" ensures Told(id, m, after, found + more) {
      assert Told(id, m, before, found);
      if before[m.s] != id {
        var prior :| AlreadyOwned(id, m.s, prior) in found;
        assert AlreadyOwned(id, m.s, prior) in found + more;
      }
    }
  }

  // ----- the validator -----

  /** What is known once the first `upto[d]` members of each domain have been visited. */
  ghost predicate Checked(domains: Fields, upto: map<string, nat>, owners: Owners) {
    "" !in upto && Within(domains, upto) && Complete(domains, upto, owners) && Distinct(domains, upto)
  }

  lemma NothingVisited(domains: Fields, upto: map<string, nat>, owners: Owners, id: string)
    requires Within(domains, upto) && id in domains && id !in upto && id != "" && Checked(domains, upto, owners)
    ensures Checked(domains, upto[id := 0], owners)
  {
  }

  /** The errors a member earns by itself. */
  method CheckName(id: string, member: Value, routes: Routes) returns (found: seq<Problem>)
    ensures found == [] <==> MemberOk(member, routes)
    ensures forall p :: p in found <==> MemberFault(p, id, member, routes)
  {
    if !Named(member) {
      return [NotAName(id)];
    }
    found := [];
    if ConfiguredId(member.s) in routes.removed {
      found := found + [MemberRemoved(id, ConfiguredId(member.s))];
    }
    if member.s !in routes.declared && !RegistryId(member.s) {
      found := found + [UnknownRoute(id, member.s)];
    }
  }

  lemma BadMember(domains: Fields, routes: Routes, id: string, i: nat)
    requires id in domains && i < |Members(domains[id])|
    ensures WellFormed(domains, routes) ==> MemberOk(Members(domains[id])[i], routes)
  {
  }

  lemma CheckedStep(domains: Fields, upto: map<string, nat>, owners: Owners, id: string, route: string)
    requires Within(domains, upto) && id in upto && upto[id] < |Members(domains[id])| &&
      Members(domains[id])[upto[id]] == Str(route)
    requires Sound(domains, upto, owners) && !(route in owners && owners[route] != "") && Checked(domains, upto, owners)
    ensures Checked(domains, upto[id := upto[id] + 1], owners[route := id])
  {
    CompleteStep(domains, upto, owners, id, route);
  }

  ghost predicate ClaimOk(domains: Fields, id: string, m: Value, before: Owners, found: seq<Problem>, after: Owners) {
    Keeps(before, after) && Told(id, m, after, found) && ClashesOf(found, id, domains)
  }

  /** What claiming the member `m` comes to. */
  predicate Claimed(id: string, m: Value, before: Owners, found: seq<Problem>, after: Owners) {
    if !Named(m) then found == [] && after == before
    else if m.s in before && before[m.s] != "" then found == [AlreadyOwned(id, m.s, before[m.s])] && after == before
    else found == [] && after == before[m.s := id]
  }

  lemma ClaimTold(domains: Fields, upto: map<string, nat>, id: string, m: Value, before: Owners, found: seq<Problem>,
                  after: Owners)
    requires Within(domains, upto) && Sound(domains, upto, before) && Claimed(id, m, before, found, after)
    requires id in upto && upto[id] < |Members(domains[id])| && Members(domains[id])[upto[id]] == m
    ensures ClaimOk(domains, id, m, before, found, after)
  {
    if Named(m) && m.s in before && before[m.s] != "" {
      MetAgain(domains, upto, before, id, m.s);
      assert AlreadyOwned(id, m.s, before[m.s]) in found;
    }
  }

  /** Record the route's owner unless it has one. */
  method ClaimRoute(domains: Fields, routes: Routes, id: string, route: string, owners: Owners,
                    ghost upto: map<string, nat>, ghost good: bool)
    returns (found: seq<Problem>, owners': Owners)
    requires Within(domains, upto) && id in upto && upto[id] < |Members(domains[id])| &&
      Members(domains[id])[upto[id]] == Str(route)
    requires Sound(domains, upto, owners) && (good ==> Checked(domains, upto, owners))
    ensures Sound(domains, upto[id := upto[id] + 1], owners')
    ensures found != [] ==> !WellFormed(domains, routes)
    ensures good && found == [] ==> Checked(domains, upto[id := upto[id] + 1], owners')
    ensures route != "" ==> Claimed(id, Str(route), owners, found, owners')
  {
    SoundStep(domains, upto, owners, id, route);
    if route in owners && owners[route] != "" {
      MetAgain(domains, upto, owners, id, route);
      return [AlreadyOwned(id, route, owners[route])], owners;
    }
    if good {
      CheckedStep(domains, upto, owners, id, route);
    }
    return [], owners[route := id];
  }

  lemma SoundSkip(domains: Fields, upto: map<string, nat>, owners: Owners, id: string)
    requires Within(domains, upto) && Sound(domains, upto, owners) && id in upto && upto[id] < |Members(domains[id])|
    ensures Sound(domains, upto[id := upto[id] + 1], owners)
  {
    SoundStep(domains, upto, owners, id, id);
  }

  /** Only a named member can claim a route. */
  method ClaimMember(domains: Fields, routes: Routes, id: string, member: Value, owners: Owners,
                     ghost upto: map<string, nat>, ghost good: bool)
    returns (found: seq<Problem>, owners': Owners)
    requires Within(domains, upto) && id in upto && upto[id] < |Members(domains[id])| &&
      Members(domains[id])[upto[id]] == member
    requires Sound(domains, upto, owners) && (good ==> Checked(domains, upto, owners))
    ensures Sound(domains, upto[id := upto[id] + 1], owners')
    ensures found != [] ==> !WellFormed(domains, routes)
    ensures good && found == [] && Named(member) ==> Checked(domains, upto[id := upto[id] + 1], owners')
    ensures Claimed(id, member, owners, found, owners')
  {
    if !Named(member) {
      SoundSkip(domains, upto, owners, id);
      return [], owners;
    }
    assert member == Str(member.s);
    found, owners' := ClaimRoute(domains, routes, id, member.s, owners, upto, good);
  }

  lemma TakenReported(found: seq<Problem>, taken: seq<Problem>, domains: Fields, id: string, m: Value, owners: Owners,
                      routes: Routes)
    requires forall p :: p in found <==> MemberFault(p, id, m, routes)
    requires ClashesOf(taken, id, domains)
    requires Told(id, m, owners, taken)
    ensures MembersReported(found + taken, domains, id, [m], routes) && Told(id, m, owners, found + taken)
  {
    forall p ensures p in found + taken <==> p in found || p in taken {
    }
  }

  /** One member: the errors it adds, and the owner it records. */
  method CheckMember(domains: Fields, routes: Routes, id: string, member: Value, owners: Owners,
                     ghost upto: map<string, nat>, ghost good: bool)
    returns (found: seq<Problem>, owners': Owners)
    requires Within(domains, upto) && id in upto && upto[id] < |Members(domains[id])| &&
      Members(domains[id])[upto[id]] == member
    requires Sound(domains, upto, owners) && (good ==> Checked(domains, upto, owners))
    ensures Sound(domains, upto[id := upto[id] + 1], owners')
    ensures found != [] ==> !WellFormed(domains, routes)
    ensures found == [] ==> MemberOk(member, routes)
    ensures good && found == [] ==> Checked(domains, upto[id := upto[id] + 1], owners')
    ensures Keeps(owners, owners') && Told(id, member, owners', found)
    ensures MembersReported(found, domains, id, [member], routes)
  {
    found := CheckName(id, member, routes);
    BadMember(domains, routes, id, upto[id]);
    var taken;
    taken, owners' := ClaimMember(domains, routes, id, member, owners, upto, good);
    ClaimTold(domains, upto, id, member, owners, taken, owners');
    TakenReported(found, taken, domains, id, member, owners', routes);
    found := found + taken;
  }

  /** State of the member loop: `ok` while no error was found. */
  ghost predicate Going(domains: Fields, routes: Routes, upto: map<string, nat>, id: string, i: nat, ok: bool,
                        owners: Owners, good: bool) {
    && Within(domains, upto) && id in upto && upto[id] == i && Sound(domains, upto, owners)
    && (if ok then forall k | 0 <= k < i :: MemberOk(Members(domains[id])[k], routes) else !WellFormed(domains, routes))
    && (good && ok && id != "" ==> Checked(domains, upto, owners))
  }

  lemma GoingStarts(domains: Fields, routes: Routes, upto: map<string, nat>, owners: Owners, id: string, good: bool)
    requires id in domains && Within(domains, upto) && id !in upto && Sound(domains, upto, owners)
    requires good ==> Checked(domains, upto, owners)
    ensures Going(domains, routes, upto[id := 0], id, 0, true, owners, good)
  {
    assert Sound(domains, upto[id := 0], owners);
    if good && id != "" {
      NothingVisited(domains, upto, owners, id);
    }
  }

  lemma GoingOn(domains: Fields, routes: Routes, upto: map<string, nat>, id: string, i: nat, ok: bool, owners: Owners,
                good: bool, found: seq<Problem>)
    requires Within(domains, upto) && id in upto && upto[id] == i < |Members(domains[id])|
    requires if ok then forall k | 0 <= k < i :: MemberOk(Members(domains[id])[k], routes)
             else !WellFormed(domains, routes)
    requires Sound(domains, upto[id := upto[id] + 1], owners)
    requires found != [] ==> !WellFormed(domains, routes)
    requires found == [] ==> MemberOk(Members(domains[id])[i], routes)
    requires good && ok && id != "" && found == [] ==> Checked(domains, upto[id := upto[id] + 1], owners)
    ensures Going(domains, routes, upto[id := i + 1], id, i + 1, ok && found == [], owners, good)
  {
    assert upto[id := upto[id] + 1] == upto[id := i + 1];
  }

  /** One turn of the member loop. */
  method VisitMember(domains: Fields, routes: Routes, id: string, i: nat, owners: Owners,
                     ghost upto: map<string, nat>, ghost ok: bool, ghost good: bool)
    returns (found: seq<Problem>, owners': Owners)
    requires Going(domains, routes, upto, id, i, ok, owners, good) && i < |Members(domains[id])|
    ensures Going(domains, routes, upto[id := i + 1], id, i + 1, ok && found == [], owners', good)
    ensures Keeps(owners, owners') && Told(id, Members(domains[id])[i], owners', found)
    ensures MembersReported(found, domains, id, [Members(domains[id])[i]], routes)
  {
    found, owners' := CheckMember(domains, routes, id, Members(domains[id])[i], owners, upto, good && ok && id != "");
    GoingOn(domains, routes, upto, id, i, ok, owners', good, found);
  }

  lemma Rebind(upto: map<string, nat>, id: string, i: nat, j: nat)
    ensures upto[id := i][id := j] == upto[id := j]
  {
  }

  /** What is known of the members read so far. */
  ghost predicate AllTold(domains: Fields, routes: Routes, id: string, ms: seq<Value>, before: Owners, after: Owners,
                          found: seq<Problem>) {
    && Keeps(before, after) && MembersReported(found, domains, id, ms, routes)
    && forall m | m in ms :: Told(id, m, after, found)
  }

  lemma OneMoreTold(domains: Fields, routes: Routes, id: string, ms: seq<Value>, m: Value, before: Owners,
                    mid: Owners, after: Owners, found: seq<Problem>, more: seq<Problem>)
    requires AllTold(domains, routes, id, ms, before, mid, found) && Keeps(mid, after)
    requires Told(id, m, after, more) && MembersReported(more, domains, id, [m], routes)
    ensures AllTold(domains, routes, id, ms + [m], before, after, found + more)
  {
    OneMoreReported(found, more, domains, id, ms, m, routes);
    StillTold(id, ms, mid, after, found, more);
    assert Told(id, m, after, found + more) by {
      ToldLater(id, m, after, found, more);
    }
  }

  lemma ToldLater(id: string, m: Value, owners: Owners, found: seq<Problem>, more: seq<Problem>)
    requires Told(id, m, owners, more)
    ensures Told(id, m, owners, found + more)
  {
    if Named(m) && id != "" && owners[m.s] != id {
      var prior :| AlreadyOwned(id, m.s, prior) in more;
      assert AlreadyOwned(id, m.s, prior) in found + more;
    }
  }

  method CheckMembers(domains: Fields, routes: Routes, id: string, owners: Owners, ghost upto: map<string, nat>,
                      ghost good: bool)
    returns (found: seq<Problem>, owners': Owners)
    requires id in domains && Within(domains, upto) && id !in upto && Sound(domains, upto, owners)
    requires good ==> Checked(domains, upto, owners)
    ensures Sound(domains, upto[id := |Members(domains[id])|], owners')
    ensures found != [] ==> !WellFormed(domains, routes)
    ensures found == [] ==> forall i | 0 <= i < |Members(domains[id])| :: MemberOk(Members(domains[id])[i], routes)
    ensures good && found == [] && id != "" ==>
      Checked(domains, upto[id := |Members(domains[id])|], owners')
    ensures AllTold(domains, routes, id, Members(domains[id]), owners, owners', found)
  {
    var items := Members(domains[id]);
    found, owners' := [], owners;
    ghost var sofar := upto[id := 0];
    GoingStarts(domains, routes, upto, owners, id, good);
    for i := 0 to |items|
      invariant sofar == upto[id := i] && Going(domains, routes, sofar, id, i, found == [], owners', good)
      invariant AllTold(domains, routes, id, items[..i], owners, owners', found)
    {
      var more;
      ghost var before := owners';
      more, owners' := VisitMember(domains, routes, id, i, owners', sofar, found == [], good);
      assert items[..i + 1] == items[..i] + [items[i]];
      OneMoreTold(domains, routes, id, items[..i], items[i], owners, before, owners', found, more);
      found := found + more;
      Rebind(upto, id, i, i + 1);
      sofar := sofar[id := i + 1];
    }
  }

  /** What is known of a domain after its turn. */
  ghost predicate DomainTold(domains: Fields, routes: Routes, id: string, before: Owners, after: Owners,
                             found: seq<Problem>)
    requires id in domains
  {
    && Keeps(before, after) && (forall m | m in Members(domains[id]) :: Told(id, m, after, found))
    && (forall p | p in found && p.AlreadyOwned? :: p.id == id && Clash(p, domains))
    && (forall p: Problem | !p.AlreadyOwned? :: p in found <==> DomainFault(p, id, domains[id], routes))
  }

  predicate LimitFault(p: Problem, id: string, v: Value) {
    && p.id == id
    && match p
       case BadMax(_) => !AtLeast(Field(v, "max"), 1)
       case BadQueue(_) => !AtLeast(Field(v, "maxQueue"), 0)
       case BadTimeout(_) => !AtLeast(Field(v, "queueTimeoutMs"), 1)
       case _ => false
  }

  lemma DomainReported(domains: Fields, routes: Routes, id: string, before: Owners, after: Owners,
                       found: seq<Problem>, more: seq<Problem>)
    requires id in domains && AllTold(domains, routes, id, Members(domains[id]), before, after, more)
    requires forall p :: p in found <==>
      LimitFault(p, id, domains[id]) || (p == MissingItself(id) && Str(id) !in Members(domains[id]))
    requires domains[id].Obj? && Members(domains[id]) != []
    ensures DomainTold(domains, routes, id, before, after, found + more)
  {
    forall p ensures p in found + more <==> p in found || p in more {
    }
    forall m | m in Members(domains[id]) ensures Told(id, m, after, found + more) {
      ToldLater(id, m, after, found, more);
    }
  }

  lemma NoMembersTold(domains: Fields, routes: Routes, id: string, owners: Owners, found: seq<Problem>)
    requires id in domains && domains[id].Obj? && Members(domains[id]) == []
    requires forall p :: p in found <==> LimitFault(p, id, domains[id])
    ensures DomainTold(domains, routes, id, owners, owners, found + [NoMembers(id)])
  {
    forall p ensures p in found + [NoMembers(id)] <==> p in found || p == NoMembers(id) {
    }
  }

  lemma NotAnObjectTold(domains: Fields, routes: Routes, id: string, owners: Owners)
    requires id in domains && !domains[id].Obj?
    ensures DomainTold(domains, routes, id, owners, owners, [DomainNotAnObject(id)])
  {
  }

  method CheckLimits(id: string, domain: Value) returns (found: seq<Problem>)
    ensures found == [] <==> LimitsOk(domain)
    ensures forall p :: p in found <==> LimitFault(p, id, domain)
  {
    found := [];
    if !AtLeast(Field(domain, "max"), 1) {
      found := found + [BadMax(id)];
    }
    if !AtLeast(Field(domain, "maxQueue"), 0) {
      found := found + [BadQueue(id)];
    }
    if !AtLeast(Field(domain, "queueTimeoutMs"), 1) {
      found := found + [BadTimeout(id)];
    }
  }

  /** One domain. */
  method CheckDomain(domains: Fields, routes: Routes, id: string, owners: Owners, ghost upto: map<string, nat>,
                     ghost good: bool)
    returns (found: seq<Problem>, owners': Owners)
    requires id in domains && Within(domains, upto) && id !in upto && Sound(domains, upto, owners)
    requires good ==> Checked(domains, upto, owners)
    ensures Sound(domains, upto[id := |Members(domains[id])|], owners')
    ensures found != [] ==> !WellFormed(domains, routes)
    ensures found == [] ==> DomainOk(id, domains[id], routes)
    ensures good && found == [] ==> Checked(domains, upto[id := |Members(domains[id])|], owners')
    ensures DomainTold(domains, routes, id, owners, owners', found)
  {
    var domain := domains[id];
    if !domain.Obj? {
      NotAnObjectTold(domains, routes, id, owners);
      return [DomainNotAnObject(id)], owners;
    }
    found := CheckLimits(id, domain);
    if Members(domain) == [] {
      NoMembersTold(domains, routes, id, owners, found);
      return found + [NoMembers(id)], owners;
    }
    if Str(id) !in Members(domain) {
      found := found + [MissingItself(id)];
    }
    var more;
    more, owners' := CheckMembers(domains, routes, id, owners, upto, good);
    DomainReported(domains, routes, id, owners, owners', found, more);
    found := found + more;
  }

  /** Every domain not in `todo` has been visited to its end. */
  function Finished(domains: Fields, todo: set<string>): map<string, nat> {
    map d | d in domains && d !in todo :: |Members(domains[d])|
  }

  lemma FinishOne(domains: Fields, todo: set<string>, id: string)
    requires id in todo && id in domains
    ensures id !in Finished(domains, todo)
    ensures Finished(domains, todo)[id := |Members(domains[id])|] == Finished(domains, todo - {id})
  {
  }

  lemma AllFinished(domains: Fields)
    ensures Finished(domains, domains.Keys) == map[] && Finished(domains, {}) == Everything(domains)
  {
  }

  lemma Owned(domains: Fields, owners: Owners)
    requires Sound(domains, Everything(domains), owners) && Complete(domains, Everything(domains), owners)
    ensures IsOwnership(domains, owners)
  {
    forall d, r | d in domains && Str(r) in Members(domains[d]) ensures r in owners && owners[r] == d {
      var k :| 0 <= k < |Members(domains[d])| && Members(domains[d])[k] == Str(r);
      assert Listed(domains, d, k) == Str(r);
    }
    forall r | r in owners ensures owners[r] in domains && Str(r) in Members(domains[owners[r]]) {
      var k :| 0 <= k < |Members(domains[owners[r]])| && Listed(domains, owners[r], k) == Str(r);
    }
  }

  /** One turn of the outer loop. */
  method VisitDomain(domains: Fields, routes: Routes, id: string, owners: Owners, ghost todo: set<string>,
                     ghost found: seq<Problem>)
    returns (more: seq<Problem>, owners': Owners)
    requires todo <= domains.Keys && id in todo && Swept(domains, routes, todo, found == [], owners)
    requires Report(domains, domains.Keys - todo, routes, owners, found)
    ensures Swept(domains, routes, todo - {id}, found + more == [], owners')
    ensures Report(domains, domains.Keys - (todo - {id}), routes, owners', found + more)
  {
    FinishOne(domains, todo, id);
    more, owners' := CheckDomain(domains, routes, id, owners, Finished(domains, todo), found == []);
    ReportGrows(domains, domains.Keys - todo, routes, id, owners, owners', found, more);
    assert domains.Keys - todo + {id} == domains.Keys - (todo - {id});
  }

  lemma NothingSwept(domains: Fields, routes: Routes)
    ensures Swept(domains, routes, domains.Keys, true, map[])
    ensures Report(domains, domains.Keys - domains.Keys, routes, map[], [])
  {
    AllFinished(domains);
  }

  lemma SweptEnds(domains: Fields, routes: Routes, errs: seq<Problem>, found: seq<Problem>, owners: Owners)
    requires Swept(domains, routes, {}, found == [], owners)
    requires Report(domains, domains.Keys - {}, routes, owners, found)
    ensures found == [] <==> WellFormed(domains, routes)
    ensures found == [] ==> IsOwnership(domains, owners)
    ensures Report(domains, domains.Keys, routes, owners, (errs + found)[|errs|..])
  {
    AllFinished(domains);
    assert domains.Keys - {} == domains.Keys && (errs + found)[|errs|..] == found;
    if found == [] {
      Owned(domains, owners);
    }
  }

  /** Validation stays silent exactly on the well-formed partitions, and then knows every owner; otherwise it
    * reports what is wrong. */
  method CheckDomains(domains: Fields, routes: Routes, errs: seq<Problem>)
    returns (errs': seq<Problem>, owners: Owners)
    ensures errs <= errs'
    ensures errs' == errs <==> WellFormed(domains, routes)
    ensures errs' == errs ==> IsOwnership(domains, owners)
    ensures Report(domains, domains.Keys, routes, owners, errs'[|errs|..])
  {
    errs', owners := errs, map[];
    var todo := domains.Keys;
    ghost var found := [];
    NothingSwept(domains, routes);
    while todo != {}
      invariant todo <= domains.Keys && errs' == errs + found
      invariant Swept(domains, routes, todo, found == [], owners)
      invariant Report(domains, domains.Keys - todo, routes, owners, found)
    {
      var id :| id in todo;
      var more;
      more, owners := VisitDomain(domains, routes, id, owners, todo, found);
      errs', found := errs' + more, found + more;
      todo := todo - {id};
    }
    SweptEnds(domains, routes, errs, found, owners);
  }

  /** The report on the domains `done`: every problem that is not a clash exactly when it is one; a clash only if it
    * is one; and for a route of a named domain, its clash unless that domain is on record as the owner. */
  ghost predicate Report(domains: Fields, done: set<string>, routes: Routes, owners: Owners, found: seq<Problem>)
    requires done <= domains.Keys
  {
    && (forall p: Problem | !p.AlreadyOwned? ::
         p in found <==> p.id in done && DomainFault(p, p.id, domains[p.id], routes))
    && (forall p | p in found && p.AlreadyOwned? :: Clash(p, domains))
    && (forall d, m | d in done && m in Members(domains[d]) :: Told(d, m, owners, found))
  }

  lemma ReportGrows(domains: Fields, done: set<string>, routes: Routes, id: string, before: Owners, after: Owners,
                    found: seq<Problem>, more: seq<Problem>)
    requires done <= domains.Keys && id in domains && Report(domains, done, routes, before, found)
    requires DomainTold(domains, routes, id, before, after, more)
    ensures Report(domains, done + {id}, routes, after, found + more)
  {
    var all := found + more;
    forall p ensures p in all <==> p in found || p in more {
    }
    forall d, m | d in done + {id} && m in Members(domains[d]) ensures Told(d, m, after, all) {
      if d == id && Told(id, m, after, more) {
        ToldLater(id, m, after, found, more);
      } else {
        StillTold(d, Members(domains[d]), before, after, found, more);
      }
    }
  }

  /** A route listed by two named domains is reported for at least one of them. */
  lemma ClashIsReported(domains: Fields, routes: Routes, owners: Owners, found: seq<Problem>, d: string, e: string,
                        route: string)
    requires Report(domains, domains.Keys, routes, owners, found) && route != ""
    requires d in domains && e in domains && d != e && d != "" && e != ""
    requires Str(route) in Members(domains[d]) && Str(route) in Members(domains[e])
    ensures exists p :: p in found && p.AlreadyOwned? && p.route == route && p.id in {d, e}
  {
    assert Told(d, Str(route), owners, found) && Told(e, Str(route), owners, found);
  }

  /** State of the outer loop: `ok` while no error was found. */
  ghost predicate Swept(domains: Fields, routes: Routes, todo: set<string>, ok: bool, owners: Owners) {
    var upto := Finished(domains, todo);
    && Sound(domains, upto, owners)
    && if ok then Checked(domains, upto, owners) && forall d | d in upto :: DomainOk(d, domains[d], routes)
       else !WellFormed(domains, routes)
  }

  // ----- what acceptance gives -----

  /** `owners` maps each listed route to the one domain listing it, and nothing else. */
  ghost predicate IsOwnership(domains: Fields, owners: Owners) {
    && (forall r | r in owners :: owners[r] in domains && Str(r) in Members(domains[owners[r]]))
    && (forall d, r | d in domains && Str(r) in Members(domains[d]) :: r in owners && owners[r] == d)
  }

  /** Domains with an ownership relation have disjoint member sets. */
  lemma OwnedAreDisjoint(domains: Fields, owners: Owners, d: string, e: string, route: string)
    requires IsOwnership(domains, owners)
    requires d in domains && e in domains && Str(route) in Members(domains[d]) && Str(route) in Members(domains[e])
    ensures d == e
  {
  }

  /** Each accepted domain id is owned by itself, so there are at least as many routes as domains. */
  lemma AcceptedOwnThemselves(domains: Fields, routes: Routes, owners: Owners)
    requires WellFormed(domains, routes) && IsOwnership(domains, owners)
    ensures forall d | d in domains :: d in owners && owners[d] == d
    ensures |domains| <= |owners|
  {
    forall d | d in domains ensures d in owners && owners[d] == d {
      assert DomainOk(d, domains[d], routes);
      assert Str(d) in Members(domains[d]);
    }
    Subset(domains.Keys, owners.Keys);
  }

  /** No accepted member names a backend the document took away. */
  lemma AcceptedNameNoRemoved(domain: Value, routes: Routes, d: string, route: string)
    requires DomainOk(d, domain, routes) && Str(route) in Members(domain)
    ensures ConfiguredId(route) !in routes.removed
    ensures route in routes.declared || RegistryId(route)
  {
    var i :| 0 <= i < |Members(domain)| && Members(domain)[i] == Str(route);
    assert MemberOk(Members(domain)[i], routes);
  }

  lemma Subset(a: set<string>, b: set<string>)
    requires a <= b
    ensures |a| <= |b|
  {
    assert b == a + (b - a);
  }
}
