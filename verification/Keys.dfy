// Signing-key rotation: key rows in the database, the active key and the
// verification keys in the memory of the one process that serves.
module SigningKeys {
  import opened Basics

  datatype Key = Key(active: bool, expiresAt: Option<Time>)

  // memory holds the keys tokens are verified with; a process that is down
  // has none. Rows are never deleted.
  datatype Server = Server(now: Time, next: Id, rows: map<Id, Key>, up: bool, activeKey: Option<Id>, memory: set<Id>)

  const Fresh: Server := Server(0, 0, map[], false, None, {})

  const GRACE: int := 24 * HOUR

  // How a rotation goes: it may stop between deactivating the old key and
  // storing the new one, with the process (Dies) or without (CreateFails);
  // and the query that reloads the verification keys may fail.
  datatype Outcome = Completes | CreateFails | Dies | ReloadFails

  // ---------------------------------------------------------------------
  // Repository
  // ---------------------------------------------------------------------

  function Deactivated(rows: map<Id, Key>, grace: Time): map<Id, Key> {
    map k | k in rows :: if rows[k].active then Key(false, Some(grace)) else rows[k]
  }

  predicate Usable(key: Key, now: Time) { key.active || (key.expiresAt.Some? && key.expiresAt.value > now) }

  function AllValid(rows: map<Id, Key>, now: Time): set<Id> {
    set k | k in rows && Usable(rows[k], now)
  }

  // The active row created last, below n.
  function LatestActive(rows: map<Id, Key>, n: Id): (r: Option<Id>)
    ensures r.None? ==> forall k :: k in rows && 0 <= k < n ==> !rows[k].active
    ensures r.Some? ==> 0 <= r.value < n && r.value in rows && rows[r.value].active
    ensures r.Some? ==> forall k :: k in rows && r.value < k < n ==> !rows[k].active
    decreases n
  {
    if n <= 0 then None
    else if n - 1 in rows && rows[n - 1].active then Some(n - 1)
    else LatestActive(rows, n - 1)
  }

  // ---------------------------------------------------------------------
  // What the service does
  // ---------------------------------------------------------------------

  function Down(s: Server): Server { s.(up := false, activeKey := None, memory := {}) }

  function Reloaded(s: Server): Server { s.(memory := AllValid(s.rows, s.now)) }

  function Rotated(s: Server, outcome: Outcome): Server {
    var s1 := s.(rows := Deactivated(s.rows, s.now + GRACE));
    match outcome
    case Dies => Down(s1)
    case CreateFails => s1
    case _ =>
      var s2 := s1.(rows := s1.rows[s.next := Key(true, None)], next := s.next + 1, activeKey := Some(s.next));
      if outcome == ReloadFails then s2 else Reloaded(s2)
  }

  // Starting up; a first key that cannot be stored ends the process again.
  function Booted(s: Server, outcome: Outcome): Server {
    var found := LatestActive(s.rows, s.next);
    if s.up then s
    else if found.Some? then
      var s1 := s.(up := true, activeKey := found);
      if outcome == ReloadFails then s1 else Reloaded(s1)
    else
      var s1 := Rotated(s.(up := true), outcome);
      if outcome == CreateFails then Down(s1) else s1
  }

  datatype Op = Tick(elapsed: nat) | Rotate(outcome: Outcome) | Boot(outcome: Outcome) | Crash

  function Step(s: Server, op: Op): Server {
    match op
    case Tick(d) => s.(now := s.now + d)
    case Rotate(outcome) => if s.up then Rotated(s, outcome) else s
    case Boot(outcome) => Booted(s, outcome)
    case Crash => Down(s)
  }

  function Run(s: Server, ops: seq<Op>): Server
    decreases |ops|
  {
    if ops == [] then s else Run(Step(s, ops[0]), ops[1..])
  }

  // The exp claim is in whole seconds; a token verifies strictly before it.
  function Exp(now: Time, ttl: int): Time { (now + ttl) / SECOND * SECOND }

  predicate Verifies(s: Server, kid: Id, exp: Time) { s.up && kid in s.memory && s.now < exp }

  // ---------------------------------------------------------------------
  // Invariant
  // ---------------------------------------------------------------------

  ghost predicate OneActive(rows: map<Id, Key>) {
    forall a, b :: a in rows && b in rows && rows[a].active && rows[b].active ==> a == b
  }

  ghost predicate Inv(s: Server) {
    && OneActive(s.rows)
    && (forall k :: k in s.rows ==> 0 <= k < s.next)
    && (forall k :: k in s.rows && !s.rows[k].active ==> s.rows[k].expiresAt.Some?)
    && (s.up ==> s.activeKey.Some? && s.activeKey.value in s.rows)
    && (s.up ==> forall k :: k in s.rows && s.rows[k].active ==> s.activeKey == Some(k))
    && (!s.up ==> s.memory == {} && s.activeKey.None?)
    && 0 <= s.next
  }

  lemma StepKeeps(s: Server, op: Op)
    requires Inv(s)
    ensures Inv(Step(s, op))
  {
  }

  // Whatever rotations, restarts, failures and crashes a run holds, at most one
  // key is active.
  lemma {:induction false} AtMostOneActive(s: Server, ops: seq<Op>)
    requires Inv(s)
    ensures Inv(Run(s, ops)) && OneActive(Run(s, ops).rows)
    decreases |ops|
  {
    if ops != [] {
      StepKeeps(s, ops[0]);
      AtMostOneActive(Step(s, ops[0]), ops[1..]);
    }
  }

  lemma EveryRunHasOneActive(ops: seq<Op>)
    ensures Inv(Run(Fresh, ops))
  {
    AtMostOneActive(Fresh, ops);
  }

  // ---------------------------------------------------------------------
  // A token finds its key as long as it lives
  // ---------------------------------------------------------------------

  // Every start loads the verification keys.
  predicate Loads(op: Op) { op.Boot? ==> op.outcome != ReloadFails }

  // The row outlives the token: it is active, or kept until the token expires.
  predicate Outlives(s: Server, kid: Id, exp: Time) {
    kid in s.rows && (s.rows[kid].active || (s.rows[kid].expiresAt.Some? && exp <= s.rows[kid].expiresAt.value))
  }

  // A process that serves before exp verifies the token.
  predicate Honoured(s: Server, kid: Id, exp: Time) {
    s.up && s.now < exp ==> Verifies(s, kid, exp)
  }

  lemma StepKeepsKey(s: Server, op: Op, kid: Id, exp: Time)
    requires Inv(s) && Loads(op) && exp <= s.now + GRACE
    requires Outlives(s, kid, exp) && Honoured(s, kid, exp)
    ensures Outlives(Step(s, op), kid, exp) && Honoured(Step(s, op), kid, exp) && s.now <= Step(s, op).now
  {
  }

  // At every instant before exp at which a process serves, the token verifies.
  ghost predicate AlwaysHonoured(s: Server, kid: Id, exp: Time) {
    forall ops :: (forall op :: op in ops ==> Loads(op)) ==> Honoured(Run(s, ops), kid, exp)
  }

  lemma {:induction false} RunKeepsKey(s: Server, ops: seq<Op>, kid: Id, exp: Time)
    requires Inv(s) && exp <= s.now + GRACE && Outlives(s, kid, exp) && Honoured(s, kid, exp)
    requires forall op :: op in ops ==> Loads(op)
    ensures Honoured(Run(s, ops), kid, exp)
    decreases |ops|
  {
    if ops != [] {
      StepKeeps(s, ops[0]);
      StepKeepsKey(s, ops[0], kid, exp);
      RunKeepsKey(Step(s, ops[0]), ops[1..], kid, exp);
    }
  }

  // A key whose row is gone before the token is stranded by the next rotation.
  lemma RotationStrands(s: Server, kid: Id, exp: Time) returns (ops: seq<Op>)
    requires Inv(s) && s.up && kid in s.rows && s.now < exp && !Outlives(s, kid, exp)
    ensures forall op :: op in ops ==> Loads(op)
    ensures !Honoured(Run(s, ops), kid, exp)
  {
    var e := s.rows[kid].expiresAt.value;
    var wait := if e < s.now then 0 else e - s.now;
    var t := s.(now := s.now + wait);
    ops := [Tick(wait), Rotate(Completes)];
    assert Step(s, ops[0]) == t;
    assert Run(s, ops) == Run(t, [Rotate(Completes)]) by {
      assert ops[1..] == [Rotate(Completes)];
    }
    assert Run(t, [Rotate(Completes)]) == Rotated(t, Completes) by {
      assert [Rotate(Completes)][1..] == [];
    }
  }

  // A token signed now, with a lifetime of at most a day, can be verified at
  // every later instant before it expires exactly when the key it was signed
  // with is loaded, and is active or kept at least that long.
  lemma TokenAlwaysVerifiesIff(s: Server, ttl: int)
    requires Inv(s) && s.up && ttl <= GRACE && s.now < Exp(s.now, ttl)
    ensures var kid, exp := s.activeKey.value, Exp(s.now, ttl);
            AlwaysHonoured(s, kid, exp) <==> kid in s.memory && Outlives(s, kid, exp)
  {
    var kid, exp := s.activeKey.value, Exp(s.now, ttl);
    if kid in s.memory && Outlives(s, kid, exp) {
      forall ops | forall op :: op in ops ==> Loads(op) ensures Honoured(Run(s, ops), kid, exp) {
        RunKeepsKey(s, ops, kid, exp);
      }
    } else if kid in s.memory {
      var ops := RotationStrands(s, kid, exp);
      assert !Honoured(Run(s, ops), kid, exp);
    } else {
      assert Run(s, []) == s;
    }
  }

  // ---------------------------------------------------------------------
  // Runs in which a rotation finishes or takes the process down
  // ---------------------------------------------------------------------

  predicate Sound(op: Op) {
    (op.Rotate? ==> op.outcome == Completes || op.outcome == Dies) && (op.Boot? ==> op.outcome != ReloadFails)
  }

  // The serving process signs with the active row, and has it loaded.
  ghost predicate Current(s: Server) {
    s.up ==> s.activeKey.Some? && s.activeKey.value in s.rows && s.rows[s.activeKey.value].active &&
             s.activeKey.value in s.memory
  }

  lemma StepStaysCurrent(s: Server, op: Op)
    requires Inv(s) && Current(s) && Sound(op)
    ensures Current(Step(s, op))
  {
  }

  lemma {:induction false} StaysCurrent(s: Server, ops: seq<Op>)
    requires Inv(s) && Current(s) && forall op :: op in ops ==> Sound(op)
    ensures Inv(Run(s, ops)) && Current(Run(s, ops))
    decreases |ops|
  {
    if ops != [] {
      StepKeeps(s, ops[0]);
      assert Sound(ops[0]);
      StepStaysCurrent(s, ops[0]);
      StaysCurrent(Step(s, ops[0]), ops[1..]);
    }
  }

  // In such runs every token with a lifetime of at most a day verifies at every
  // instant before it expires at which a process serves, through rotations,
  // crashes and restarts alike.
  lemma KeysOutliveTokens(before: seq<Op>, ttl: int, after: seq<Op>)
    requires forall op :: op in before ==> Sound(op)
    requires forall op :: op in after ==> Loads(op)
    requires var s := Run(Fresh, before); s.up && ttl <= GRACE
    ensures var s := Run(Fresh, before);
            s.activeKey.Some? && Honoured(Run(s, after), s.activeKey.value, Exp(s.now, ttl))
  {
    var s := Run(Fresh, before);
    StaysCurrent(Fresh, before);
    RunKeepsKey(s, after, s.activeKey.value, Exp(s.now, ttl));
  }

  // When storing the new key fails and the process stays up, it goes on
  // signing with a key whose row expires a day later: a day-long token signed
  // an hour after the failure is lost to the next rotation.
  lemma CreateFailureStrandsTokens() returns (before: seq<Op>, after: seq<Op>)
    ensures forall op :: op in before + after ==> Loads(op)
    ensures var s := Run(Fresh, before);
            s.up && s.activeKey.Some? && !Honoured(Run(s, after), s.activeKey.value, Exp(s.now, GRACE))
  {
    before := [Boot(Completes), Rotate(CreateFails), Tick(HOUR)];
    var a := Booted(Fresh, Completes);
    var b := Rotated(a, CreateFails);
    var c := b.(now := HOUR);
    assert LatestActive(Fresh.rows, 0).None?;
    assert before[1..][1..] == [Tick(HOUR)] && before[1..] == [Rotate(CreateFails), Tick(HOUR)];
    assert before[1..][1..][1..] == [];
    assert Step(Fresh, before[0]) == a && Step(a, Rotate(CreateFails)) == b && Step(b, Tick(HOUR)) == c;
    assert Run(c, []) == c && Run(b, [Tick(HOUR)]) == c;
    assert Run(a, before[1..]) == c;
    assert Run(Fresh, before) == c;
    AtMostOneActive(Fresh, before);
    assert c.rows[0] == Key(false, Some(GRACE));
    after := RotationStrands(c, 0, Exp(HOUR, GRACE));
  }

  // A rotation that finishes puts a new key in charge and keeps every other for
  // verification: the one that was active for another day, at most.
  lemma RotationReplaces(s: Server, k: Id)
    requires Inv(s) && s.up
    ensures var t := Step(s, Rotate(Completes));
            && t.activeKey.Some? && t.activeKey.value !in s.rows && t.activeKey.value in t.rows
            && t.rows[t.activeKey.value].active && t.activeKey.value in t.memory
            && (k in s.rows ==>
                  && k in t.rows && !t.rows[k].active
                  && t.rows[k].expiresAt == (if s.rows[k].active then Some(s.now + GRACE) else s.rows[k].expiresAt)
                  && (k in t.memory <==> s.now < t.rows[k].expiresAt.value))
  {
  }

  // ---------------------------------------------------------------------
  // The service, step by step
  // ---------------------------------------------------------------------

  class Service {
    var now: Time
    var next: Id
    var rows: map<Id, Key>
    var up: bool
    var activeKey: Option<Id>
    var allKeys: set<Id>

    ghost function State(): Server
      reads this
    {
      Server(now, next, rows, up, activeKey, allKeys)
    }

    constructor ()
      ensures State() == Fresh
    {
      now, next, rows, up, activeKey, allKeys := 0, 0, map[], false, None, {};
    }

    method FindActive() returns (key: Option<Id>)
      ensures key == LatestActive(rows, next)
    {
      var n := next;
      while n > 0
        invariant LatestActive(rows, next) == LatestActive(rows, n)
      {
        n := n - 1;
        if n in rows && rows[n].active {
          return Some(n);
        }
      }
      return None;
    }

    method DeactivateActive(grace: Time)
      modifies this`rows
      ensures rows == Deactivated(old(rows), grace)
    {
      rows := Deactivated(rows, grace);
    }

    method Stop()
      modifies this
      ensures State() == Down(old(State()))
    {
      up, activeKey, allKeys := false, None, {};
    }

    method LoadAllKeys(outcome: Outcome)
      modifies this`allKeys
      ensures State() == if outcome == ReloadFails then old(State()) else Reloaded(old(State()))
    {
      if outcome == ReloadFails {
        return;
      }
      allKeys := AllValid(rows, now);
    }

    method RotateKey(outcome: Outcome) returns (ok: bool)
      modifies this
      ensures State() == Rotated(old(State()), outcome)
      ensures ok <==> outcome == Completes || outcome == ReloadFails
    {
      var gracePeriod := now + 24 * HOUR;
      DeactivateActive(gracePeriod);
      if outcome == Dies {
        Stop();
        return false;
      }
      if outcome == CreateFails {
        return false;
      }
      var id := next;
      rows := rows[id := Key(true, None)];
      next := next + 1;
      activeKey := Some(id);
      LoadAllKeys(outcome);
      return true;
    }

    method EnsureSigningKey(outcome: Outcome)
      requires !up
      modifies this
      ensures State() == Booted(old(State()), outcome)
    {
      var key := FindActive();
      up := true;
      if key.None? {
        var ok := RotateKey(outcome);
        if outcome == CreateFails {
          Stop();
        }
        return;
      }
      activeKey := key;
      LoadAllKeys(outcome);
    }

    // A token's key is looked up among the keys in memory; the rows are not read.
    method ValidateToken(kid: Id, exp: Time) returns (ok: bool)
      ensures ok <==> Verifies(State(), kid, exp)
    {
      if !up {
        return false;
      }
      if kid !in allKeys {
        return false;
      }
      return now < exp;
    }
  }
}
