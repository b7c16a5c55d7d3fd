// The policy engine: compiled policies cached by type, kept in priority order
// while policies are created, updated and deleted in the repository.
module PolicyEngine {
  import opened Basics

  type Kind = string
  type Rego = int

  datatype Policy = Policy(id: Id, name: string, kind: Kind, priority: int, active: bool, rego: Rego)

  datatype Prepared = Prepared(id: Id, name: string, priority: int, rego: Rego)

  // What the deny query of a compiled policy yields on an input.
  datatype DenyAnswer = Undenied | Broken | Denies(reason: string)

  // changes is empty when the modify query is undefined, fails or yields no object.
  datatype Answer = Answer(deny: DenyAnswer, changes: map<string, int>)

  datatype Result = Allowed(changes: map<string, int>) | Denied(reason: string, name: string) | EvalFailed(name: string)

  type Cache = map<Kind, seq<Prepared>>

  function Compiled(p: Policy): Prepared { Prepared(p.id, p.name, p.priority, p.rego) }

  function ListOf(cache: Cache, kind: Kind): seq<Prepared> { if kind in cache then cache[kind] else [] }

  // ---------------------------------------------------------------------
  // Lists in priority order
  // ---------------------------------------------------------------------

  ghost predicate Ordered(ps: seq<Prepared>) {
    forall i, j :: 0 <= i < j < |ps| ==> ps[i].priority >= ps[j].priority
  }

  // The sort is not stable: any ordering of equal priorities may come out.
  ghost predicate Sorts(before: seq<Prepared>, after: seq<Prepared>) {
    Ordered(after) && multiset(after) == multiset(before)
  }

  lemma InsertSorts(before: seq<Prepared>, sorted: seq<Prepared>, i: nat, p: Prepared)
    requires Sorts(before, sorted) && i <= |sorted|
    requires forall k :: 0 <= k < i ==> sorted[k].priority >= p.priority
    requires forall k :: i <= k < |sorted| ==> sorted[k].priority < p.priority
    ensures Sorts(before + [p], sorted[..i] + [p] + sorted[i..])
  {
    assert sorted == sorted[..i] + sorted[i..];
  }

  method SortByPriority(ps: seq<Prepared>) returns (sorted: seq<Prepared>)
    ensures Sorts(ps, sorted)
  {
    sorted := [];
    for n := 0 to |ps|
      invariant Sorts(ps[..n], sorted)
    {
      var i := |sorted|;
      while i > 0 && sorted[i - 1].priority < ps[n].priority
        invariant 0 <= i <= |sorted|
        invariant forall k :: i <= k < |sorted| ==> sorted[k].priority < ps[n].priority
      {
        i := i - 1;
      }
      InsertSorts(ps[..n], sorted, i, ps[n]);
      assert ps[..n + 1] == ps[..n] + [ps[n]];
      sorted := sorted[..i] + [ps[n]] + sorted[i..];
    }
    assert ps[..|ps|] == ps;
  }

  function PlaceOf(ps: seq<Prepared>, id: Id): (i: nat)
    ensures i <= |ps|
    ensures forall k :: 0 <= k < i ==> ps[k].id != id
    ensures i < |ps| ==> ps[i].id == id
  {
    if ps == [] || ps[0].id == id then 0 else 1 + PlaceOf(ps[1..], id)
  }

  function Replaced(ps: seq<Prepared>, p: Prepared): seq<Prepared> {
    var i := PlaceOf(ps, p.id);
    if i < |ps| then ps[i := p] else ps + [p]
  }

  function Removed(ps: seq<Prepared>, id: Id): seq<Prepared> {
    var i := PlaceOf(ps, id);
    if i < |ps| then ps[..i] + ps[i + 1..] else ps
  }

  // ---------------------------------------------------------------------
  // Edits and what they do to the cache
  // ---------------------------------------------------------------------

  // Adding or replacing one policy; a policy that does not compile changes nothing.
  ghost predicate Loads(compiles: Policy -> bool, cache: Cache, p: Policy, cache': Cache) {
    if compiles(p) then
      p.kind in cache' && cache' == cache[p.kind := cache'[p.kind]] &&
      Sorts(Replaced(ListOf(cache, p.kind), Compiled(p)), cache'[p.kind])
    else cache' == cache
  }

  function Drops(cache: Cache, id: Id, kind: Kind): Cache {
    var ps := ListOf(cache, kind);
    if PlaceOf(ps, id) < |ps| then cache[kind := Removed(ps, id)] else cache
  }

  // The policy a create or an update stores, or the one a delete takes away.
  datatype Edit = Create(policy: Policy) | Update(policy: Policy) | Delete(id: Id)

  // Identifiers are fresh, and an update cannot change the type.
  predicate Applies(rows: map<Id, Policy>, edit: Edit) {
    match edit
    case Create(p) => p.id !in rows
    case Update(p) => p.id in rows && rows[p.id].kind == p.kind
    case Delete(id) => id in rows
  }

  function RowsAfter(rows: map<Id, Policy>, edit: Edit): map<Id, Policy> {
    match edit
    case Create(p) => rows[p.id := p]
    case Update(p) => rows[p.id := p]
    case Delete(id) => rows - {id}
  }

  ghost predicate CacheAfter(compiles: Policy -> bool, rows: map<Id, Policy>, cache: Cache, edit: Edit, cache': Cache)
    requires Applies(rows, edit)
  {
    match edit
    case Create(p) => if p.active then Loads(compiles, cache, p, cache') else cache' == cache
    case Update(p) => if p.active then Loads(compiles, cache, p, cache') else cache' == Drops(cache, p.id, p.kind)
    case Delete(id) => cache' == Drops(cache, id, rows[id].kind)
  }

  // ---------------------------------------------------------------------
  // Evaluation
  // ---------------------------------------------------------------------

  function EvaluateFrom(ps: seq<Prepared>, ask: Prepared -> Answer, merged: map<string, int>): Result
    decreases |ps|
  {
    if ps == [] then Allowed(merged)
    else
      match ask(ps[0]).deny
      case Broken => EvalFailed(ps[0].name)
      case Denies(reason) => Denied(reason, ps[0].name)
      case Undenied => EvaluateFrom(ps[1..], ask, merged + ask(ps[0]).changes)
  }

  function Evaluated(ps: seq<Prepared>, ask: Prepared -> Answer): Result {
    EvaluateFrom(ps, ask, map[])
  }

  // ---------------------------------------------------------------------
  // The engine and the service
  // ---------------------------------------------------------------------

  class Engine {
    // Whether the policy's code compiles; the compiler itself is not modelled.
    const compiles: Policy -> bool
    var prepared: Cache

    constructor (compiles: Policy -> bool)
      ensures this.compiles == compiles && prepared == map[]
    {
      this.compiles := compiles;
      prepared := map[];
    }

    method LoadPolicies(policies: seq<Policy>) returns (ok: bool)
      modifies this
      ensures ok <==> forall p :: p in policies ==> compiles(p)
      ensures !ok ==> prepared == old(prepared)
      ensures ok ==> forall kind :: Sorts(Group(policies, kind), ListOf(prepared, kind))
    {
      var grouped: Cache := map[];
      for i := 0 to |policies|
        invariant forall p :: p in policies[..i] ==> compiles(p)
        invariant forall kind :: ListOf(grouped, kind) == Group(policies[..i], kind)
      {
        var p := policies[i];
        assert policies[..i + 1] == policies[..i] + [p];
        if !compiles(p) {
          return false;
        }
        grouped := grouped[p.kind := ListOf(grouped, p.kind) + [Compiled(p)]];
      }
      assert policies[..|policies|] == policies;
      var kinds := grouped.Keys;
      ghost var unsorted := grouped;
      while kinds != {}
        invariant kinds <= grouped.Keys == unsorted.Keys
        invariant forall kind :: kind in kinds ==> grouped[kind] == unsorted[kind]
        invariant forall kind :: kind in grouped && kind !in kinds ==> Sorts(unsorted[kind], grouped[kind])
        decreases |kinds|
      {
        var kind :| kind in kinds;
        var sorted := SortByPriority(grouped[kind]);
        grouped := grouped[kind := sorted];
        kinds := kinds - {kind};
      }
      prepared := grouped;
      return true;
    }

    method LoadPolicy(p: Policy) returns (ok: bool)
      modifies this
      ensures ok <==> compiles(p)
      ensures Loads(compiles, old(prepared), p, prepared)
    {
      if !compiles(p) {
        return false;
      }
      var policies := ListOf(prepared, p.kind);
      var i := 0;
      var found := false;
      while i < |policies| && !found
        invariant 0 <= i <= |policies|
        invariant !found ==> policies == ListOf(prepared, p.kind) && forall k :: 0 <= k < i ==> policies[k].id != p.id
        invariant found ==> policies == Replaced(ListOf(prepared, p.kind), Compiled(p))
        decreases |policies| - i, !found
      {
        if policies[i].id == p.id {
          assert PlaceOf(policies, p.id) == i;
          policies := policies[i := Compiled(p)];
          found := true;
        } else {
          i := i + 1;
        }
      }
      if !found {
        policies := policies + [Compiled(p)];
      }
      policies := SortByPriority(policies);
      prepared := prepared[p.kind := policies];
      return true;
    }

    method RemovePolicy(id: Id, kind: Kind)
      modifies this
      ensures prepared == Drops(old(prepared), id, kind)
    {
      var policies := ListOf(prepared, kind);
      for i := 0 to |policies|
        invariant forall k :: 0 <= k < i ==> policies[k].id != id
        invariant prepared == old(prepared)
      {
        if policies[i].id == id {
          assert PlaceOf(policies, id) == i;
          prepared := prepared[kind := policies[..i] + policies[i + 1..]];
          return;
        }
      }
    }

    method Evaluate(kind: Kind, ask: Prepared -> Answer) returns (r: Result)
      ensures r == Evaluated(ListOf(prepared, kind), ask)
    {
      var policies := ListOf(prepared, kind);
      if |policies| == 0 {
        return Allowed(map[]);
      }
      var merged: map<string, int> := map[];
      for i := 0 to |policies|
        invariant Evaluated(policies, ask) == EvaluateFrom(policies[i..], ask, merged)
      {
        var p := policies[i];
        assert policies[i..][0] == p && policies[i..][1..] == policies[i + 1..];
        match ask(p).deny {
          case Broken => return EvalFailed(p.name);
          case Denies(reason) => return Denied(reason, p.name);
          case Undenied =>
        }
        merged := merged + ask(p).changes;
      }
      return Allowed(merged);
    }
  }

  function Group(policies: seq<Policy>, kind: Kind): seq<Prepared> {
    if policies == [] then []
    else
      var front := Group(policies[..|policies| - 1], kind);
      var p := policies[|policies| - 1];
      if p.kind == kind then front + [Compiled(p)] else front
  }

  class Service {
    const engine: Engine
    var rows: map<Id, Policy>
    var next: Id

    ghost predicate Valid()
      reads this
    {
      0 <= next && forall id :: id in rows ==> 0 <= id < next && rows[id].id == id
    }

    constructor (compiles: Policy -> bool)
      ensures Valid() && rows == map[] && engine.prepared == map[] && engine.compiles == compiles && fresh(engine)
    {
      engine := new Engine(compiles);
      rows, next := map[], 0;
    }

    method FindByName(name: string) returns (found: bool)
      requires Valid()
      ensures found <==> exists id :: id in rows && rows[id].name == name
    {
      for id := 0 to next
        invariant forall k :: k in rows && k < id ==> rows[k].name != name
      {
        if id in rows && rows[id].name == name {
          return true;
        }
      }
      return false;
    }

    // valid: the code passes the syntax check that precedes every store.
    method CreatePolicy(name: string, kind: Kind, rego: Rego, valid: bool, priority: Option<int>, active: Option<bool>)
      returns (p: Option<Policy>)
      requires Valid()
      modifies this, engine
      ensures Valid()
      ensures p.None? <==> !valid || exists id :: id in old(rows) && old(rows)[id].name == name
      ensures p.None? ==> rows == old(rows) && engine.prepared == old(engine.prepared)
      ensures p.Some? ==> Applies(old(rows), Create(p.value)) && rows == RowsAfter(old(rows), Create(p.value)) &&
                          CacheAfter(engine.compiles, old(rows), old(engine.prepared), Create(p.value), engine.prepared)
      ensures p.Some? ==> p.value == Policy(old(next), name, kind, if priority.Some? then priority.value else 0,
                                            active.None? || active.value, rego)
    {
      var taken := FindByName(name);
      if taken {
        return None;
      }
      if !valid {
        return None;
      }
      var row := Policy(next, name, kind, 0, true, rego);
      if priority.Some? {
        row := row.(priority := priority.value);
      }
      if active.Some? {
        row := row.(active := active.value);
      }
      rows := rows[next := row];
      next := next + 1;
      if row.active {
        var ok := engine.LoadPolicy(row);
      }
      return Some(row);
    }

    method UpdatePolicy(id: Id, rego: Option<Rego>, valid: bool, name: Option<string>, priority: Option<int>,
                        active: Option<bool>) returns (p: Option<Policy>)
      requires Valid()
      modifies this`rows, engine
      ensures Valid()
      ensures p.None? <==> id !in old(rows) || (rego.Some? && !valid)
      ensures p.None? ==> rows == old(rows) && engine.prepared == old(engine.prepared)
      ensures p.Some? ==> p.value.id == id &&
                          Applies(old(rows), Update(p.value)) && rows == RowsAfter(old(rows), Update(p.value)) &&
                          CacheAfter(engine.compiles, old(rows), old(engine.prepared), Update(p.value), engine.prepared)
      ensures p.Some? ==> var r := old(rows)[id];
                          p.value.rego == (if rego.Some? then rego.value else r.rego) &&
                          p.value.name == (if name.Some? then name.value else r.name) &&
                          p.value.priority == (if priority.Some? then priority.value else r.priority) &&
                          p.value.active == (if active.Some? then active.value else r.active)
    {
      if id !in rows {
        return None;
      }
      var row := rows[id];
      if rego.Some? {
        if !valid {
          return None;
        }
        row := row.(rego := rego.value);
      }
      if name.Some? {
        row := row.(name := name.value);
      }
      if priority.Some? {
        row := row.(priority := priority.value);
      }
      if active.Some? {
        row := row.(active := active.value);
      }
      rows := rows[id := row];
      if row.active {
        var ok := engine.LoadPolicy(row);
      } else {
        engine.RemovePolicy(row.id, row.kind);
      }
      return Some(row);
    }

    method DeletePolicy(id: Id) returns (ok: bool)
      requires Valid()
      modifies this`rows, engine
      ensures Valid()
      ensures ok <==> id in old(rows)
      ensures !ok ==> rows == old(rows) && engine.prepared == old(engine.prepared)
      ensures ok ==> rows == RowsAfter(old(rows), Delete(id)) &&
                     CacheAfter(engine.compiles, old(rows), old(engine.prepared), Delete(id), engine.prepared)
    {
      if id !in rows {
        return false;
      }
      var row := rows[id];
      rows := rows - {id};
      engine.RemovePolicy(id, row.kind);
      return true;
    }

    method ListAllActive() returns (policies: seq<Policy>)
      requires Valid()
      ensures Lists(rows, policies)
    {
      policies := [];
      for id := 0 to next
        invariant forall p :: multiset(policies)[p] == if p.id in rows && p.id < id && p == rows[p.id] && p.active
                                                       then 1 else 0
      {
        if id in rows && rows[id].active {
          policies := policies + [rows[id]];
        }
      }
    }

    // With nothing active the cache is left as it is.
    method LoadAll() returns (ok: bool)
      requires Valid()
      modifies engine
      ensures ok <==> forall id :: id in rows && rows[id].active ==> engine.compiles(rows[id])
      ensures !ok || (forall id :: id in rows ==> !rows[id].active) ==> engine.prepared == old(engine.prepared)
      ensures ok && (exists id :: id in rows && rows[id].active) ==> Synced(rows, engine.prepared)
    {
      var policies := ListAllActive();
      ListedAreActive(rows, policies);
      if |policies| == 0 {
        return true;
      }
      ok := engine.LoadPolicies(policies);
      if ok {
        LoadedIsSynced(rows, policies, engine.prepared);
      }
    }
  }

  // Every active policy once, in any order.
  ghost predicate Lists(rows: map<Id, Policy>, policies: seq<Policy>) {
    forall p :: multiset(policies)[p] == if p.id in rows && p == rows[p.id] && p.active then 1 else 0
  }

  // ---------------------------------------------------------------------
  // The cache agrees with the table
  // ---------------------------------------------------------------------

  predicate Wanted(rows: map<Id, Policy>, kind: Kind, p: Prepared) {
    p.id in rows && rows[p.id].active && rows[p.id].kind == kind && p == Compiled(rows[p.id])
  }

  // Exactly the active policies of the type, each once, in priority order.
  ghost predicate InSync(rows: map<Id, Policy>, kind: Kind, ps: seq<Prepared>) {
    Ordered(ps) && forall p :: multiset(ps)[p] == if Wanted(rows, kind, p) then 1 else 0
  }

  ghost predicate Synced(rows: map<Id, Policy>, cache: Cache) {
    forall kind :: InSync(rows, kind, ListOf(cache, kind))
  }

  lemma ListedAreActive(rows: map<Id, Policy>, policies: seq<Policy>)
    requires Lists(rows, policies) && forall id :: id in rows ==> rows[id].id == id
    ensures forall p :: p in policies <==> p.id in rows && p == rows[p.id] && p.active
    ensures forall id :: id in rows && rows[id].active ==> rows[id] in policies
  {
    forall p ensures p in policies <==> p.id in rows && p == rows[p.id] && p.active {
      assert p in policies <==> multiset(policies)[p] > 0;
    }
  }

  lemma {:induction false} GroupCount(rows: map<Id, Policy>, policies: seq<Policy>, kind: Kind, q: Prepared)
    requires forall p :: p in policies ==> p.id in rows && p == rows[p.id]
    requires forall id :: id in rows ==> rows[id].id == id
    ensures multiset(Group(policies, kind))[q] ==
            if q.id in rows && rows[q.id].kind == kind && q == Compiled(rows[q.id])
            then multiset(policies)[rows[q.id]] else 0
  {
    if policies != [] {
      var front, p := policies[..|policies| - 1], policies[|policies| - 1];
      assert policies == front + [p];
      GroupCount(rows, front, kind, q);
    }
  }

  lemma LoadedIsSynced(rows: map<Id, Policy>, policies: seq<Policy>, cache: Cache)
    requires Lists(rows, policies) && forall id :: id in rows ==> rows[id].id == id
    requires forall kind :: Sorts(Group(policies, kind), ListOf(cache, kind))
    ensures Synced(rows, cache)
  {
    ListedAreActive(rows, policies);
    forall kind ensures InSync(rows, kind, ListOf(cache, kind)) {
      forall q ensures multiset(ListOf(cache, kind))[q] == if Wanted(rows, kind, q) then 1 else 0 {
        assert Sorts(Group(policies, kind), ListOf(cache, kind));
        GroupCount(rows, policies, kind, q);
      }
    }
  }

  lemma ReplacedCount(ps: seq<Prepared>, p: Prepared, q: Prepared)
    ensures var i := PlaceOf(ps, p.id);
            multiset(Replaced(ps, p))[q] ==
            multiset(ps)[q] + (if q == p then 1 else 0) - (if i < |ps| && q == ps[i] then 1 else 0)
  {
    var i := PlaceOf(ps, p.id);
    if i < |ps| {
      assert multiset(ps[i := p]) == multiset(ps) - multiset{ps[i]} + multiset{p};
      assert multiset(ps)[ps[i]] > 0;
    } else {
      assert multiset(ps + [p]) == multiset(ps) + multiset{p};
    }
  }

  lemma RemovedCount(ps: seq<Prepared>, id: Id, q: Prepared)
    requires PlaceOf(ps, id) < |ps|
    ensures multiset(Removed(ps, id))[q] == multiset(ps)[q] - (if q == ps[PlaceOf(ps, id)] then 1 else 0)
  {
    var i := PlaceOf(ps, id);
    CutAt(ps, i);
    assert Removed(ps, id) == ps[..i] + ps[i + 1..];
  }

  lemma CutAt(ps: seq<Prepared>, i: nat)
    requires i < |ps|
    ensures multiset(ps) == multiset(ps[..i] + ps[i + 1..]) + multiset{ps[i]}
  {
    var a, b := ps[..i], ps[i + 1..];
    assert ps == a + ([ps[i]] + b);
    assert multiset(a + ([ps[i]] + b)) == multiset(a) + multiset([ps[i]] + b);
    assert multiset([ps[i]] + b) == multiset{ps[i]} + multiset(b);
    assert multiset(a + b) == multiset(a) + multiset(b);
  }

  lemma RemovedOrdered(ps: seq<Prepared>, id: Id)
    requires Ordered(ps)
    ensures Ordered(Removed(ps, id))
  {
    var i, r := PlaceOf(ps, id), Removed(ps, id);
    if i < |ps| {
      assert forall k :: 0 <= k < |r| ==> r[k] == if k < i then ps[k] else ps[k + 1];
    }
  }

  // In a list that is in sync, the entry found for an identifier is the
  // active policy's, and there is none when the policy is not active.
  lemma FoundEntry(rows: map<Id, Policy>, kind: Kind, ps: seq<Prepared>, id: Id)
    requires InSync(rows, kind, ps) && (id in rows ==> rows[id].id == id)
    ensures PlaceOf(ps, id) < |ps| <==> id in rows && rows[id].active && rows[id].kind == kind
    ensures PlaceOf(ps, id) < |ps| ==> ps[PlaceOf(ps, id)] == Compiled(rows[id])
  {
    var i := PlaceOf(ps, id);
    if i < |ps| {
      assert multiset(ps)[ps[i]] > 0;
    }
    if id in rows && rows[id].active && rows[id].kind == kind {
      assert multiset(ps)[Compiled(rows[id])] == 1;
      assert Compiled(rows[id]) in ps;
    }
  }

  ghost predicate Keyed(rows: map<Id, Policy>) {
    forall id :: id in rows ==> rows[id].id == id
  }

  lemma LoadKeepsOrder(rows: map<Id, Policy>, p: Policy, ps: seq<Prepared>, ps': seq<Prepared>)
    requires Keyed(rows) && InSync(rows, p.kind, ps) && (p.id in rows ==> rows[p.id].kind == p.kind) && p.active
    requires Sorts(Replaced(ps, Compiled(p)), ps')
    ensures InSync(rows[p.id := p], p.kind, ps')
  {
    FoundEntry(rows, p.kind, ps, p.id);
    forall q ensures multiset(ps')[q] == if Wanted(rows[p.id := p], p.kind, q) then 1 else 0 {
      ReplacedCount(ps, Compiled(p), q);
      assert multiset(ps)[q] == if Wanted(rows, p.kind, q) then 1 else 0;
    }
  }

  lemma DropKeepsOrder(rows: map<Id, Policy>, id: Id, rows': map<Id, Policy>, ps: seq<Prepared>)
    requires Keyed(rows) && id in rows && InSync(rows, rows[id].kind, ps)
    requires forall k :: k != id ==> (k in rows' <==> k in rows) && (k in rows ==> rows'[k] == rows[k])
    requires id in rows' ==> !rows'[id].active
    ensures InSync(rows', rows[id].kind, if PlaceOf(ps, id) < |ps| then Removed(ps, id) else ps)
  {
    var kind := rows[id].kind;
    var ps' := if PlaceOf(ps, id) < |ps| then Removed(ps, id) else ps;
    FoundEntry(rows, kind, ps, id);
    RemovedOrdered(ps, id);
    forall q ensures multiset(ps')[q] == if Wanted(rows', kind, q) then 1 else 0 {
      if PlaceOf(ps, id) < |ps| {
        RemovedCount(ps, id, q);
      }
      assert multiset(ps)[q] == if Wanted(rows, kind, q) then 1 else 0;
    }
  }

  // The edit reaches the cache: what it stores compiles, is inactive, or is
  // what the cache already holds.
  predicate Reaches(compiles: Policy -> bool, rows: map<Id, Policy>, edit: Edit) {
    edit.Delete? || !edit.policy.active || compiles(edit.policy) ||
    (edit.Update? && edit.policy.id in rows && rows[edit.policy.id].active &&
     Compiled(rows[edit.policy.id]) == Compiled(edit.policy))
  }

  // An edit keeps every list of the cache in sync exactly when it reaches it.
  lemma EditKeepsSyncIff(compiles: Policy -> bool, rows: map<Id, Policy>, cache: Cache, edit: Edit, cache': Cache)
    requires Keyed(rows) && Synced(rows, cache) && Applies(rows, edit)
    requires CacheAfter(compiles, rows, cache, edit, cache')
    ensures Keyed(RowsAfter(rows, edit))
    ensures Synced(RowsAfter(rows, edit), cache') <==> Reaches(compiles, rows, edit)
  {
    if !edit.Delete? && edit.policy.active && !compiles(edit.policy) {
      UnreachedIsStale(compiles, rows, cache, edit, cache');
    } else if !edit.Delete? && edit.policy.active {
      LoadKeepsSync(compiles, rows, cache, edit.policy, cache');
    } else if edit.Create? {
      OthersStay(rows, RowsAfter(rows, edit), edit.policy.id, cache, cache', None);
    } else {
      DropKeepsSync(rows, cache, if edit.Delete? then edit.id else edit.policy.id, RowsAfter(rows, edit));
    }
  }

  // Lists of the types an edit does not concern stay in sync.
  lemma OthersStay(rows: map<Id, Policy>, rows': map<Id, Policy>, id: Id, cache: Cache, cache': Cache,
                   kind: Option<Kind>)
    requires Keyed(rows) && Keyed(rows') && Synced(rows, cache)
    requires forall k :: k != id ==> (k in rows' <==> k in rows) && (k in rows ==> rows'[k] == rows[k])
    requires id in rows && rows[id].active ==> kind == Some(rows[id].kind)
    requires id in rows' && rows'[id].active ==> kind == Some(rows'[id].kind)
    requires forall k :: Some(k) != kind ==> ListOf(cache', k) == ListOf(cache, k)
    ensures forall k :: Some(k) != kind ==> InSync(rows', k, ListOf(cache', k))
  {
    forall k | Some(k) != kind ensures InSync(rows', k, ListOf(cache', k)) {
      assert InSync(rows, k, ListOf(cache, k));
      forall q ensures Wanted(rows', k, q) <==> Wanted(rows, k, q) {
      }
    }
  }

  lemma LoadKeepsSync(compiles: Policy -> bool, rows: map<Id, Policy>, cache: Cache, p: Policy, cache': Cache)
    requires Keyed(rows) && Synced(rows, cache) && (p.id in rows ==> rows[p.id].kind == p.kind)
    requires p.active && compiles(p) && Loads(compiles, cache, p, cache')
    ensures Synced(rows[p.id := p], cache')
  {
    assert InSync(rows, p.kind, ListOf(cache, p.kind));
    LoadKeepsOrder(rows, p, ListOf(cache, p.kind), ListOf(cache', p.kind));
    OthersStay(rows, rows[p.id := p], p.id, cache, cache', Some(p.kind));
  }

  lemma DropKeepsSync(rows: map<Id, Policy>, cache: Cache, id: Id, rows': map<Id, Policy>)
    requires Keyed(rows) && Keyed(rows') && Synced(rows, cache) && id in rows
    requires forall k :: k != id ==> (k in rows' <==> k in rows) && (k in rows ==> rows'[k] == rows[k])
    requires id in rows' ==> !rows'[id].active
    ensures Synced(rows', Drops(cache, id, rows[id].kind))
  {
    var kind := rows[id].kind;
    assert InSync(rows, kind, ListOf(cache, kind));
    DropKeepsOrder(rows, id, rows', ListOf(cache, kind));
    OthersStay(rows, rows', id, cache, Drops(cache, id, kind), Some(kind));
  }

  lemma UnreachedIsStale(compiles: Policy -> bool, rows: map<Id, Policy>, cache: Cache, edit: Edit, cache': Cache)
    requires Keyed(rows) && Synced(rows, cache) && Applies(rows, edit)
    requires !edit.Delete? && edit.policy.active && !compiles(edit.policy)
    requires CacheAfter(compiles, rows, cache, edit, cache')
    ensures Synced(RowsAfter(rows, edit), cache') <==> Reaches(compiles, rows, edit)
  {
    var p, rows' := edit.policy, RowsAfter(rows, edit);
    assert InSync(rows, p.kind, ListOf(cache, p.kind));
    if Reaches(compiles, rows, edit) {
      forall k ensures InSync(rows', k, ListOf(cache', k)) {
        assert InSync(rows, k, ListOf(cache, k));
        assert forall q :: Wanted(rows', k, q) <==> Wanted(rows, k, q);
      }
    } else {
      assert Wanted(rows', p.kind, Compiled(p)) && !Wanted(rows, p.kind, Compiled(p));
      assert multiset(ListOf(cache, p.kind))[Compiled(p)] == 0;
    }
  }

  // ---------------------------------------------------------------------
  // Runs of edits
  // ---------------------------------------------------------------------

  // From an empty table and cache, edit after edit.
  ghost predicate History(compiles: Policy -> bool, rows: seq<map<Id, Policy>>, caches: seq<Cache>, edits: seq<Edit>) {
    |rows| == |caches| == |edits| + 1 && rows[0] == map[] && caches[0] == map[] &&
    forall i :: 0 <= i < |edits| ==>
      Applies(rows[i], edits[i]) && rows[i + 1] == RowsAfter(rows[i], edits[i]) &&
      CacheAfter(compiles, rows[i], caches[i], edits[i], caches[i + 1])
  }

  // After any edits whose policies compile, each type's list holds every
  // active policy of the type exactly once, in non-increasing priority.
  lemma {:induction false} CacheStaysSynced(compiles: Policy -> bool, rows: seq<map<Id, Policy>>, caches: seq<Cache>,
                                            edits: seq<Edit>, n: nat)
    requires History(compiles, rows, caches, edits) && n <= |edits|
    requires forall i :: 0 <= i < n ==> Reaches(compiles, rows[i], edits[i])
    ensures Keyed(rows[n]) && Synced(rows[n], caches[n])
  {
    if n > 0 {
      CacheStaysSynced(compiles, rows, caches, edits, n - 1);
      assert rows[n - 1 + 1] == RowsAfter(rows[n - 1], edits[n - 1]);
      EditKeepsSyncIff(compiles, rows[n - 1], caches[n - 1], edits[n - 1], caches[n]);
    }
  }

  // ---------------------------------------------------------------------
  // The cache answers as a fresh load would
  // ---------------------------------------------------------------------

  ghost predicate DistinctPriorities(rows: map<Id, Policy>, kind: Kind) {
    forall a, b | a in rows && b in rows && a != b && rows[a].active && rows[b].active ::
      rows[a].kind == kind && rows[b].kind == kind ==> rows[a].priority != rows[b].priority
  }

  // Elements of equal priority in the list are equal.
  ghost predicate Told(a: seq<Prepared>) {
    forall i, j :: 0 <= i < |a| && 0 <= j < |a| && a[i].priority == a[j].priority ==> a[i] == a[j]
  }

  lemma SameHead(a: seq<Prepared>, b: seq<Prepared>)
    requires Ordered(a) && Ordered(b) && multiset(a) == multiset(b) && Told(a) && a != []
    ensures b != [] && a[0] == b[0]
  {
    assert a[0] in multiset(b);
    var k :| 0 <= k < |b| && b[k] == a[0];
    assert b[0] in multiset(a);
    var j :| 0 <= j < |a| && a[j] == b[0];
  }

  lemma EmptyOnly(a: seq<Prepared>, b: seq<Prepared>)
    requires multiset(a) == multiset(b)
    ensures |a| == |b|
  {
    assert |multiset(a)| == |multiset(b)|;
  }

  lemma SameTail(a: seq<Prepared>, b: seq<Prepared>)
    requires a != [] && b != [] && a[0] == b[0] && multiset(a) == multiset(b)
    ensures multiset(a[1..]) == multiset(b[1..])
  {
    assert a == [a[0]] + a[1..] && b == [b[0]] + b[1..];
    assert multiset(a[1..]) == multiset(a) - multiset{a[0]};
    assert multiset(b[1..]) == multiset(b) - multiset{b[0]};
  }

  lemma {:induction false} OrderDeterminesList(a: seq<Prepared>, b: seq<Prepared>)
    requires Ordered(a) && Ordered(b) && multiset(a) == multiset(b) && Told(a)
    ensures a == b
  {
    if a == [] {
      EmptyOnly(a, b);
    } else {
      SameHead(a, b);
      SameTail(a, b);
      OrderDeterminesList(a[1..], b[1..]);
      assert a == [a[0]] + a[1..] && b == [b[0]] + b[1..];
    }
  }

  // With distinct priorities the cache and a fresh load agree, list and answer.
  lemma CacheEqualsReload(rows: map<Id, Policy>, cache: Cache, reloaded: Cache, kind: Kind, ask: Prepared -> Answer)
    requires Keyed(rows) && Synced(rows, cache) && Synced(rows, reloaded) && DistinctPriorities(rows, kind)
    ensures ListOf(cache, kind) == ListOf(reloaded, kind)
    ensures Evaluated(ListOf(cache, kind), ask) == Evaluated(ListOf(reloaded, kind), ask)
  {
    var a, b := ListOf(cache, kind), ListOf(reloaded, kind);
    assert InSync(rows, kind, a) && InSync(rows, kind, b);
    assert multiset(a) == multiset(b);
    forall i, j | 0 <= i < |a| && 0 <= j < |a| && a[i].priority == a[j].priority ensures a[i] == a[j] {
      assert multiset(a)[a[i]] > 0 && multiset(a)[a[j]] > 0;
      assert Wanted(rows, kind, a[i]) && Wanted(rows, kind, a[j]);
    }
    OrderDeterminesList(a, b);
  }

  function Swapped(ps: seq<Prepared>, i: nat, j: nat): seq<Prepared>
    requires i < j < |ps|
  {
    ps[i := ps[j]][j := ps[i]]
  }

  lemma SwappedCount(ps: seq<Prepared>, i: nat, j: nat)
    requires i < j < |ps|
    ensures multiset(Swapped(ps, i, j)) == multiset(ps)
  {
    var mid := ps[i := ps[j]];
    assert multiset(mid) == multiset(ps) - multiset{ps[i]} + multiset{ps[j]};
    assert multiset(mid[j := ps[i]]) == multiset(mid) - multiset{mid[j]} + multiset{ps[i]};
    assert multiset(ps)[ps[i]] > 0 && multiset(mid)[mid[j]] > 0;
  }

  lemma SwappedInSync(rows: map<Id, Policy>, kind: Kind, ps: seq<Prepared>, i: nat, j: nat)
    requires InSync(rows, kind, ps) && i < j < |ps| && ps[i].priority == ps[j].priority
    ensures InSync(rows, kind, Swapped(ps, i, j))
  {
    SwappedCount(ps, i, j);
    var qs := Swapped(ps, i, j);
    assert forall k :: 0 <= k < |ps| ==> qs[k].priority == ps[k].priority;
    assert Ordered(qs);
  }

  // Two active policies of equal priority, by their places in a list in sync.
  lemma TiedPlaces(rows: map<Id, Policy>, kind: Kind, ps: seq<Prepared>) returns (i: nat, j: nat)
    requires Keyed(rows) && InSync(rows, kind, ps) && !DistinctPriorities(rows, kind)
    ensures i < j < |ps| && ps[i].priority == ps[j].priority && ps[i] != ps[j]
  {
    var a, b :| a in rows && b in rows && a != b && rows[a].active && rows[b].active &&
                rows[a].kind == kind && rows[b].kind == kind && rows[a].priority == rows[b].priority;
    FoundEntry(rows, kind, ps, a);
    FoundEntry(rows, kind, ps, b);
    i, j := PlaceOf(ps, a), PlaceOf(ps, b);
    if j < i {
      i, j := j, i;
    }
  }

  // Each of two policies denies for a reason of its own.
  function Denying(p: Prepared, q: Prepared): Prepared -> Answer {
    (x: Prepared) => Answer(if x == p then Denies("first") else if x == q then Denies("second") else Undenied, map[])
  }

  lemma SwapShows(ps: seq<Prepared>, i: nat, j: nat)
    requires i < j < |ps| && ps[i] != ps[j]
    requires forall k, l :: 0 <= k < l < |ps| ==> ps[k] != ps[l]
    ensures Evaluated(ps, Denying(ps[i], ps[j])) == Denied("first", ps[i].name)
    ensures Evaluated(Swapped(ps, i, j), Denying(ps[i], ps[j])) == Denied("second", ps[j].name)
  {
    var ask, qs := Denying(ps[i], ps[j]), Swapped(ps, i, j);
    assert FirstStop(ps, ask, i);
    FirstStopDecides(ps, ask, map[], i);
    assert forall k :: 0 <= k < i ==> qs[k] == ps[k];
    assert FirstStop(qs, ask, i);
    FirstStopDecides(qs, ask, map[], i);
  }

  lemma InSyncIsDistinct(rows: map<Id, Policy>, kind: Kind, ps: seq<Prepared>)
    requires InSync(rows, kind, ps)
    ensures forall k, l :: 0 <= k < l < |ps| ==> ps[k] != ps[l]
  {
    forall k, l | 0 <= k < l < |ps| ensures ps[k] != ps[l] {
      CutAt(ps, l);
      var rest := ps[..l] + ps[l + 1..];
      assert rest[k] == ps[k] && multiset(rest)[rest[k]] > 0;
      assert multiset(ps)[ps[l]] <= 1;
    }
  }

  // All caches in sync with a table answer alike for a type, whatever the
  // policies say, exactly when its active policies have distinct priorities.
  lemma AnswersDeterminedIff(rows: map<Id, Policy>, cache: Cache, kind: Kind)
    requires Keyed(rows) && Synced(rows, cache)
    ensures (forall other: Cache, ask: Prepared -> Answer :: Synced(rows, other) ==>
               Evaluated(ListOf(other, kind), ask) == Evaluated(ListOf(cache, kind), ask))
            <==> DistinctPriorities(rows, kind)
  {
    if DistinctPriorities(rows, kind) {
      forall other: Cache, ask: Prepared -> Answer | Synced(rows, other)
        ensures Evaluated(ListOf(other, kind), ask) == Evaluated(ListOf(cache, kind), ask)
      {
        CacheEqualsReload(rows, cache, other, kind, ask);
      }
    } else {
      var ps := ListOf(cache, kind);
      assert InSync(rows, kind, ps);
      var i, j := TiedPlaces(rows, kind, ps);
      InSyncIsDistinct(rows, kind, ps);
      SwapShows(ps, i, j);
      SwappedInSync(rows, kind, ps, i, j);
      var other := cache[kind := Swapped(ps, i, j)];
      assert Synced(rows, other) by {
        forall k ensures InSync(rows, k, ListOf(other, k)) {
          assert InSync(rows, k, ListOf(cache, k));
        }
      }
      assert Evaluated(ListOf(other, kind), Denying(ps[i], ps[j])) != Evaluated(ps, Denying(ps[i], ps[j]));
    }
  }

  // A cache a fresh load of the table may leave: any listing of the active
  // policies, sorted by any sort.
  ghost predicate LoadedFrom(rows: map<Id, Policy>, policies: seq<Policy>, cache: Cache) {
    Lists(rows, policies) && forall kind :: Sorts(Group(policies, kind), ListOf(cache, kind))
  }

  // Two policies of equal priority, created one after the other: the cache has
  // them in one order, a fresh load may have them in the other, and the two
  // deny for different reasons.
  lemma TiesMayDiffer(compiles: Policy -> bool, p: Policy, q: Policy)
      returns (rows: seq<map<Id, Policy>>, caches: seq<Cache>, edits: seq<Edit>, policies: seq<Policy>, loaded: Cache)
    requires p.id != q.id && p.kind == q.kind && p.priority == q.priority && p.active && q.active
    requires compiles(p) && compiles(q)
    ensures History(compiles, rows, caches, edits) && |edits| == 2
    ensures LoadedFrom(rows[2], policies, loaded)
    ensures var ask := Denying(Compiled(p), Compiled(q));
            Evaluated(ListOf(caches[2], p.kind), ask) == Denied("first", p.name) &&
            Evaluated(ListOf(loaded, p.kind), ask) == Denied("second", q.name)
  {
    var x, y := Compiled(p), Compiled(q);
    edits := [Create(p), Create(q)];
    rows := [map[], map[p.id := p], map[p.id := p][q.id := q]];
    caches := [map[], map[p.kind := [x]], map[p.kind := [x, y]]];
    policies, loaded := [q, p], map[p.kind := [y, x]];
    FirstLoads(compiles, p);
    SecondLoads(compiles, p, q);
    PairLists(p, q);
    PairSorts(p, q);
    SwapShows([x, y], 0, 1);
    assert Swapped([x, y], 0, 1) == [y, x];
  }

  lemma FirstLoads(compiles: Policy -> bool, p: Policy)
    requires compiles(p)
    ensures Loads(compiles, map[], p, map[p.kind := [Compiled(p)]])
  {
    assert Replaced([], Compiled(p)) == [Compiled(p)];
  }

  lemma SecondLoads(compiles: Policy -> bool, p: Policy, q: Policy)
    requires compiles(q) && p.id != q.id && p.kind == q.kind && p.priority == q.priority
    ensures Loads(compiles, map[p.kind := [Compiled(p)]], q, map[p.kind := [Compiled(p), Compiled(q)]])
  {
    var x, y := Compiled(p), Compiled(q);
    assert PlaceOf([x], y.id) == 1;
    assert Replaced([x], y) == [x, y];
  }

  lemma PairLists(p: Policy, q: Policy)
    requires p.id != q.id && p.active && q.active
    ensures Lists(map[p.id := p][q.id := q], [q, p])
  {
  }

  lemma PairSorts(p: Policy, q: Policy)
    requires p.kind == q.kind && p.priority == q.priority
    ensures forall kind :: Sorts(Group([q, p], kind), ListOf(map[p.kind := [Compiled(q), Compiled(p)]], kind))
  {
    var loaded := map[p.kind := [Compiled(q), Compiled(p)]];
    forall kind ensures Sorts(Group([q, p], kind), ListOf(loaded, kind)) {
      GroupSnoc([], q, kind);
      GroupSnoc([q], p, kind);
      assert [] + [q] == [q] && [q] + [p] == [q, p];
    }
  }

  lemma GroupSnoc(policies: seq<Policy>, p: Policy, kind: Kind)
    ensures Group(policies + [p], kind) == Group(policies, kind) + (if p.kind == kind then [Compiled(p)] else [])
  {
    assert (policies + [p])[..|policies|] == policies;
  }

  // An active policy that is stored although it does not compile: the cache no
  // longer holds every active policy.
  lemma UncompiledGoesStale(compiles: Policy -> bool, p: Policy)
      returns (rows: seq<map<Id, Policy>>, caches: seq<Cache>, edits: seq<Edit>)
    requires p.active && !compiles(p)
    ensures History(compiles, rows, caches, edits) && |edits| == 1
    ensures p.id in rows[1] && rows[1][p.id] == p && ListOf(caches[1], p.kind) == [] && !Synced(rows[1], caches[1])
  {
    edits, rows, caches := [Create(p)], [map[], map[p.id := p]], [map[], map[]];
    assert Wanted(rows[1], p.kind, Compiled(p));
    assert !InSync(rows[1], p.kind, ListOf(caches[1], p.kind));
  }

  // ---------------------------------------------------------------------
  // What an evaluation means
  // ---------------------------------------------------------------------

  predicate Stops(ask: Prepared -> Answer, p: Prepared) { ask(p).deny != Undenied }

  predicate Sets(ask: Prepared -> Answer, p: Prepared, key: string) { key in ask(p).changes }

  // i is the first policy of the list that denies, or whose deny query fails.
  ghost predicate FirstStop(ps: seq<Prepared>, ask: Prepared -> Answer, i: int) {
    0 <= i < |ps| && Stops(ask, ps[i]) && forall j :: 0 <= j < i ==> !Stops(ask, ps[j])
  }

  // i is the last policy of the list that sets the key.
  ghost predicate LastSetter(ps: seq<Prepared>, ask: Prepared -> Answer, key: string, i: int) {
    0 <= i < |ps| && Sets(ask, ps[i], key) && forall j :: i < j < |ps| ==> !Sets(ask, ps[j], key)
  }

  predicate StopsWith(ask: Prepared -> Answer, p: Prepared, r: Result) {
    match ask(p).deny
    case Broken => r == EvalFailed(p.name)
    case Denies(reason) => r == Denied(reason, p.name)
    case Undenied => false
  }

  // The first policy in priority order whose deny query denies or fails decides.
  lemma {:induction false} FirstStopDecides(ps: seq<Prepared>, ask: Prepared -> Answer, merged: map<string, int>,
                                            i: int)
    requires FirstStop(ps, ask, i)
    ensures StopsWith(ask, ps[i], EvaluateFrom(ps, ask, merged))
  {
    if i > 0 {
      assert !Stops(ask, ps[0]);
      assert forall j :: 0 <= j < i - 1 ==> ps[1..][j] == ps[j + 1];
      FirstStopDecides(ps[1..], ask, merged + ask(ps[0]).changes, i - 1);
    }
  }

  // When none does, each key has the value of the last policy that sets it:
  // the lowest priority wins.
  lemma {:induction false} LastSetterWins(ps: seq<Prepared>, ask: Prepared -> Answer, merged: map<string, int>,
                                          key: string, i: int)
    requires forall j :: 0 <= j < |ps| ==> !Stops(ask, ps[j])
    requires LastSetter(ps, ask, key, i) || (i == -1 && forall j :: 0 <= j < |ps| ==> !Sets(ask, ps[j], key))
    ensures var r := EvaluateFrom(ps, ask, merged);
            r.Allowed? &&
            if i == -1 then (key in r.changes <==> key in merged) && (key in merged ==> r.changes[key] == merged[key])
            else key in r.changes && r.changes[key] == ask(ps[i]).changes[key]
  {
    if ps != [] {
      assert !Stops(ask, ps[0]);
      assert forall j :: 0 <= j < |ps| - 1 ==> ps[1..][j] == ps[j + 1];
      if i == -1 {
        assert !Sets(ask, ps[0], key);
      }
      LastSetterWins(ps[1..], ask, merged + ask(ps[0]).changes, key, if i <= 0 then -1 else i - 1);
    }
  }
}
