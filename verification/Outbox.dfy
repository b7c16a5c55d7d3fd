// The email outbox: rows leased by any number of concurrent workers, each
// inside a transaction that commits or is lost, with bounded retries.
module EmailOutbox {
  import opened Basics

  datatype Status = Pending | Sent | Failed

  datatype Mail = Mail(status: Status, attempts: int, maxAttempts: int, nextRetryAt: Time, createdAt: Time)

  // One worker's open transaction: the rows it holds locks on, split into
  // those still to be handed to the mail server and those already updated.
  datatype Batch = Batch(startedAt: Time, waiting: seq<Id>, drafts: map<Id, Mail>)

  // delivered and wasted are history: how often a row was accepted by the mail
  // server, and how many of those times the transaction was lost.
  datatype Outbox = Outbox(now: Time, next: Id, rows: map<Id, Mail>, batches: map<Id, Batch>,
                           delivered: map<Id, nat>, wasted: map<Id, nat>)

  const Empty: Outbox := Outbox(0, 0, map[], map[], map[], map[])

  // ---------------------------------------------------------------------
  // Backoff
  // ---------------------------------------------------------------------

  function Pow2(n: nat): (p: nat)
    ensures p >= 1
  {
    if n == 0 then 1 else 2 * Pow2(n - 1)
  }

  function Min(a: int, b: int): int { if a < b then a else b }

  // The delay before retry n: 2^n minutes, at most an hour.
  function Backoff(attempts: int): int {
    if attempts <= 1 then 2 * MINUTE else Min(Pow2(attempts), 60) * MINUTE
  }

  lemma {:induction false} Pow2Grows(a: nat, b: nat)
    requires a <= b
    ensures Pow2(a) <= Pow2(b)
    decreases b
  {
    if a < b {
      Pow2Grows(a, b - 1);
    }
  }

  method ExpBackoff(attempts: int) returns (d: int)
    ensures d == Backoff(attempts)
  {
    d := 2 * MINUTE;
    var i := 1;
    while i < attempts
      invariant 1 <= i && (i <= attempts || i == 1)
      invariant d == Pow2(i) * MINUTE && d < HOUR
    {
      d := d * 2;
      i := i + 1;
      if d >= HOUR {
        Pow2Grows(i, attempts);
        return HOUR;
      }
    }
  }

  // The delays before a row of maxAttempts attempts is given up.
  function RetryWindow(maxAttempts: nat): int {
    if maxAttempts <= 1 then 0 else RetryWindow(maxAttempts - 1) + Backoff(maxAttempts - 1)
  }

  // 2^m - 2 minutes for up to six attempts, an hour more for each after that:
  // half an hour for the default five.
  lemma {:induction false} RetryWindowIs(m: nat)
    ensures 1 <= m <= 6 ==> RetryWindow(m) == (Pow2(m) - 2) * MINUTE
    ensures m >= 6 ==> RetryWindow(m) == (62 + 60 * (m - 6)) * MINUTE
    ensures RetryWindow(5) == 30 * MINUTE
  {
    assert Pow2(1) == 2 && Pow2(2) == 4 && Pow2(3) == 8 && Pow2(4) == 16 && Pow2(5) == 32 && Pow2(6) == 64;
    assert RetryWindow(2) == 2 * MINUTE && RetryWindow(3) == 6 * MINUTE && RetryWindow(4) == 14 * MINUTE;
    assert RetryWindow(5) == 30 * MINUTE && RetryWindow(6) == 62 * MINUTE;
    if m > 6 {
      RetryWindowIs(m - 1);
      Pow2Grows(6, m - 1);
    }
  }

  // ---------------------------------------------------------------------
  // One attempt on one row
  // ---------------------------------------------------------------------

  function Attempted(row: Mail, ok: bool, now: Time): Mail {
    var tried := row.(attempts := row.attempts + 1);
    if ok then tried.(status := Sent)
    else if tried.attempts >= tried.maxAttempts then tried.(status := Failed)
    else tried.(nextRetryAt := now + Backoff(tried.attempts))
  }

  predicate Due(row: Mail, now: Time) { row.status == Pending && row.nextRetryAt <= now }

  predicate Leased(b: Batch, id: Id) { id in b.waiting || id in b.drafts }

  predicate Locked(batches: map<Id, Batch>, id: Id) {
    exists w | w in batches :: Leased(batches[w], id)
  }

  predicate Distinct(ids: seq<Id>) {
    forall i, j :: 0 <= i < j < |ids| ==> ids[i] != ids[j]
  }

  // The due rows nobody holds, earliest first, up to the limit.
  ghost predicate Selects(rows: map<Id, Mail>, locked: set<Id>, now: Time, limit: nat, ids: seq<Id>) {
    && Distinct(ids) && |ids| <= limit
    && (forall i :: 0 <= i < |ids| ==> ids[i] in rows && Due(rows[ids[i]], now) && ids[i] !in locked)
    && (forall i, j :: 0 <= i < j < |ids| ==> rows[ids[i]].nextRetryAt <= rows[ids[j]].nextRetryAt)
    && (forall k :: k in rows && Due(rows[k], now) && k !in locked && k !in ids ==>
          |ids| == limit && forall j :: j in ids ==> rows[j].nextRetryAt <= rows[k].nextRetryAt)
  }

  // ---------------------------------------------------------------------
  // Steps
  // ---------------------------------------------------------------------

  datatype Op =
    | Tick(elapsed: nat)
    | Enqueue(maxAttempts: int)
    | Lease(worker: Id, limit: nat, ids: seq<Id>)
    | Deliver(worker: Id, ok: bool)
    | Commit(worker: Id)
    | Abort(worker: Id)
    | Purge

  const DEFAULT_ATTEMPTS := 5
  const RETENTION: int := 7 * DAY

  function LockedIds(s: Outbox): set<Id> {
    set k | k in s.rows && Locked(s.batches, k)
  }

  // When a step may be taken. A lease selects what the query would.
  ghost predicate Enabled(s: Outbox, op: Op) {
    match op
    case Lease(w, limit, ids) => w !in s.batches && Selects(s.rows, LockedIds(s), s.now, limit, ids)
    case Deliver(w, ok) => w in s.batches && s.batches[w].waiting != []
    case Commit(w) => w in s.batches && s.batches[w].waiting == []
    case Abort(w) => w in s.batches
    case _ => true
  }

  function Count(m: map<Id, nat>, id: Id): nat { if id in m then m[id] else 0 }

  function Enqueued(now: Time, maxAttempts: int): Mail {
    Mail(Pending, 0, if maxAttempts == 0 then DEFAULT_ATTEMPTS else maxAttempts, now, now)
  }

  function Wasted(drafts: map<Id, Mail>, wasted: map<Id, nat>): map<Id, nat> {
    map k | k in drafts.Keys + wasted.Keys ::
      Count(wasted, k) + (if k in drafts && drafts[k].status == Sent then 1 else 0)
  }

  function Step(s: Outbox, op: Op): Outbox
    requires Enabled(s, op)
  {
    match op
    case Tick(d) => s.(now := s.now + d)
    case Enqueue(max) => s.(next := s.next + 1, rows := s.rows[s.next := Enqueued(s.now, max)])
    case Lease(w, limit, ids) => s.(batches := s.batches[w := Batch(s.now, ids, map[])])
    case Deliver(w, ok) =>
      var b := s.batches[w];
      var id := b.waiting[0];
      if id !in s.rows then s
      else
        s.(batches := s.batches[w := b.(waiting := b.waiting[1..],
                                        drafts := b.drafts[id := Attempted(s.rows[id], ok, b.startedAt)])],
           delivered := if ok then s.delivered[id := Count(s.delivered, id) + 1] else s.delivered)
    case Commit(w) => s.(rows := s.rows + s.batches[w].drafts, batches := s.batches - {w})
    case Abort(w) => s.(batches := s.batches - {w}, wasted := Wasted(s.batches[w].drafts, s.wasted))
    case Purge => s.(rows := map k | k in s.rows && !Purged(s.rows[k], s.now) :: s.rows[k])
  }

  predicate Purged(row: Mail, now: Time) { row.status != Pending && row.createdAt < now - RETENTION }

  // A run, as the sequence of its states.
  ghost predicate Execution(states: seq<Outbox>, ops: seq<Op>) {
    |states| == |ops| + 1 && states[0] == Empty &&
    forall i :: 0 <= i < |ops| ==> Enabled(states[i], ops[i]) && states[i + 1] == Step(states[i], ops[i])
  }

  // ---------------------------------------------------------------------
  // What every run keeps
  // ---------------------------------------------------------------------

  // A batch holds each row once.
  ghost predicate BatchOk(rows: map<Id, Mail>, b: Batch) {
    && Distinct(b.waiting) && (forall k :: k in b.waiting ==> k !in b.drafts)
    && (forall k :: Leased(b, k) ==> k in rows && rows[k].status == Pending)
    && (forall k :: k in b.drafts ==> exists ok :: b.drafts[k] == Attempted(rows[k], ok, b.startedAt))
  }

  // No row is leased twice at once.
  ghost predicate Exclusive(batches: map<Id, Batch>) {
    forall v, w, k :: v in batches && w in batches && Leased(batches[v], k) && Leased(batches[w], k) ==> v == w
  }

  ghost predicate Retryable(rows: map<Id, Mail>) {
    forall k :: k in rows && rows[k].status == Pending ==> rows[k].attempts < rows[k].maxAttempts
  }

  ghost predicate Below(next: Id, rows: map<Id, Mail>) {
    forall k :: k in rows ==> 0 <= k < next
  }

  ghost predicate Leases(s: Outbox) {
    Exclusive(s.batches) && (forall w :: w in s.batches ==> BatchOk(s.rows, s.batches[w])) &&
    Below(s.next, s.rows) && 0 <= s.next
  }

  predicate InFlight(batches: map<Id, Batch>, k: Id) {
    exists w | w in batches :: k in batches[w].drafts && batches[w].drafts[k].status == Sent
  }

  lemma LeaseKeeps(s: Outbox, op: Op)
    requires Leases(s) && op.Lease? && Enabled(s, op)
    ensures Leases(Step(s, op))
  {
    var s' := Step(s, op);
    forall k | k in op.ids ensures !Locked(s.batches, k) {
      assert k !in LockedIds(s);
    }
    assert Exclusive(s'.batches);
  }

  lemma DeliverKeeps(s: Outbox, op: Op)
    requires Leases(s) && op.Deliver? && Enabled(s, op)
    ensures Leases(Step(s, op))
  {
    var s', b := Step(s, op), s.batches[op.worker];
    var id := b.waiting[0];
    assert Leased(b, id);
    var b' := s'.batches[op.worker];
    assert b'.drafts[id] == Attempted(s.rows[id], op.ok, b.startedAt);
    assert forall k :: k in b'.drafts && k != id ==> k in b.drafts && b'.drafts[k] == b.drafts[k];
    assert forall k :: Leased(b', k) <==> Leased(b, k) by {
      assert b.waiting == [id] + b.waiting[1..];
    }
    assert BatchOk(s'.rows, b');
  }

  lemma CommitKeeps(s: Outbox, op: Op)
    requires Leases(s) && op.Commit? && Enabled(s, op)
    ensures Leases(Step(s, op))
  {
    var s', b := Step(s, op), s.batches[op.worker];
    assert forall k :: k in b.drafts ==> Leased(b, k);
    forall w | w in s'.batches ensures BatchOk(s'.rows, s'.batches[w]) {
      assert BatchOk(s.rows, s.batches[w]);
      forall k | Leased(s.batches[w], k) ensures k !in b.drafts {
      }
    }
  }

  lemma StepKeepsLeases(s: Outbox, op: Op)
    requires Leases(s) && Enabled(s, op)
    ensures Leases(Step(s, op))
  {
    match op
    case Lease(w, limit, ids) => LeaseKeeps(s, op);
    case Deliver(w, ok) => DeliverKeeps(s, op);
    case Commit(w) => CommitKeeps(s, op);
    case Enqueue(max) => PendingRowsStay(s, Step(s, op).rows);
    case Purge => PendingRowsStay(s, Step(s, op).rows);
    case Abort(w) =>
    case Tick(d) =>
  }

  lemma PendingRowsStay(s: Outbox, rows: map<Id, Mail>)
    requires Leases(s)
    requires forall k :: k in s.rows && s.rows[k].status == Pending ==> k in rows && rows[k] == s.rows[k]
    ensures forall w :: w in s.batches ==> BatchOk(rows, s.batches[w])
  {
    forall w | w in s.batches ensures BatchOk(rows, s.batches[w]) {
      var b := s.batches[w];
      assert BatchOk(s.rows, b);
      assert forall k :: Leased(b, k) ==> rows[k] == s.rows[k];
      forall k | k in b.drafts ensures exists ok :: b.drafts[k] == Attempted(rows[k], ok, b.startedAt) {
        assert Leased(b, k);
      }
    }
  }

  // With any number of workers, no row is ever leased twice at once, and a
  // leased row is pending.
  lemma {:induction false} NoDoubleLease(states: seq<Outbox>, ops: seq<Op>, n: nat)
    requires Execution(states, ops) && n <= |ops|
    ensures Leases(states[n])
  {
    if n > 0 {
      NoDoubleLease(states, ops, n - 1);
      assert states[n - 1 + 1] == Step(states[n - 1], ops[n - 1]);
      StepKeepsLeases(states[n - 1], ops[n - 1]);
    }
  }

  // ---------------------------------------------------------------------
  // Sent and failed are absorbing
  // ---------------------------------------------------------------------

  // A row is finished for good: it keeps its value until it is purged.
  lemma {:induction false} FinishedIsAbsorbing(states: seq<Outbox>, ops: seq<Op>, i: nat, j: nat, k: Id)
    requires Execution(states, ops) && i <= j <= |ops|
    requires k in states[i].rows && states[i].rows[k].status != Pending
    ensures k in states[j].rows ==> states[j].rows[k] == states[i].rows[k]
    ensures k < states[j].next
    decreases j - i
  {
    NoDoubleLease(states, ops, i);
    if i < j {
      FinishedIsAbsorbing(states, ops, i, j - 1, k);
      NoDoubleLease(states, ops, j - 1);
      var s, op := states[j - 1], ops[j - 1];
      assert states[j - 1 + 1] == Step(s, op);
      assert op.Commit? ==> !Leased(s.batches[op.worker], k);
    }
  }

  // ---------------------------------------------------------------------
  // Attempts
  // ---------------------------------------------------------------------

  // Enqueuing keeps "pending means attempts remain" exactly when it is not
  // asked for a negative number of attempts; every other step keeps it.
  lemma StepKeepsRetryableIff(s: Outbox, op: Op)
    requires Leases(s) && Enabled(s, op) && Retryable(s.rows)
    ensures Retryable(Step(s, op).rows) <==> !(op.Enqueue? && op.maxAttempts < 0)
  {
    var s' := Step(s, op);
    if op.Enqueue? {
      assert s'.rows[s.next] == Enqueued(s.now, op.maxAttempts);
    } else if op.Commit? {
      var b := s.batches[op.worker];
      forall k | k in b.drafts && b.drafts[k].status == Pending
        ensures b.drafts[k].attempts < b.drafts[k].maxAttempts
      {
        assert Leased(b, k);
        var ok :| b.drafts[k] == Attempted(s.rows[k], ok, b.startedAt);
      }
    }
  }

  lemma {:induction false} PendingMeansAttemptsRemain(states: seq<Outbox>, ops: seq<Op>, n: nat)
    requires Execution(states, ops) && n <= |ops|
    requires forall i :: 0 <= i < n && ops[i].Enqueue? ==> ops[i].maxAttempts >= 0
    ensures Retryable(states[n].rows)
  {
    if n > 0 {
      PendingMeansAttemptsRemain(states, ops, n - 1);
      NoDoubleLease(states, ops, n - 1);
      assert states[n - 1 + 1] == Step(states[n - 1], ops[n - 1]);
      StepKeepsRetryableIff(states[n - 1], ops[n - 1]);
    }
  }

  function Left(rows: map<Id, Mail>, k: Id): int {
    if k in rows && rows[k].status == Pending then rows[k].maxAttempts - rows[k].attempts else 0
  }

  // Attempts still to be made on the rows below n.
  function Remaining(rows: map<Id, Mail>, n: nat): int {
    if n == 0 then 0 else Remaining(rows, n - 1) + Left(rows, n - 1)
  }

  function Size(drafts: map<Id, Mail>, n: nat): nat {
    if n == 0 then 0 else Size(drafts, n - 1) + (if n - 1 in drafts then 1 else 0)
  }

  // Every row a batch commits uses up at least one attempt, so the total left
  // falls by at least the number of rows committed.
  lemma {:induction false} CommitUsesAttempts(s: Outbox, w: Id, n: nat)
    requires Leases(s) && Retryable(s.rows) && w in s.batches
    ensures Remaining(s.rows + s.batches[w].drafts, n) <= Remaining(s.rows, n) - Size(s.batches[w].drafts, n)
  {
    if n > 0 {
      CommitUsesAttempts(s, w, n - 1);
      var b, k := s.batches[w], n - 1;
      if k in b.drafts {
        assert Leased(b, k);
        var ok :| b.drafts[k] == Attempted(s.rows[k], ok, b.startedAt);
      }
    }
  }

  lemma {:induction false} SameRemaining(a: map<Id, Mail>, b: map<Id, Mail>, n: nat)
    requires forall k :: Left(a, k) == Left(b, k)
    ensures Remaining(a, n) == Remaining(b, n)
  {
    if n > 0 {
      SameRemaining(a, b, n - 1);
    }
  }

  // Over steps that enqueue nothing, the attempts left never grow, and each
  // commit of rows brings them strictly down: retrying ends.
  lemma RetryingEnds(s: Outbox, op: Op)
    requires Leases(s) && Retryable(s.rows) && Enabled(s, op) && !op.Enqueue? && 0 <= s.next
    ensures Remaining(Step(s, op).rows, s.next) <=
            Remaining(s.rows, s.next) - (if op.Commit? then Size(s.batches[op.worker].drafts, s.next) else 0)
  {
    if op.Commit? {
      CommitUsesAttempts(s, op.worker, s.next);
    } else {
      SameRemaining(s.rows, Step(s, op).rows, s.next);
    }
  }

  // ---------------------------------------------------------------------
  // Deliveries
  // ---------------------------------------------------------------------

  predicate IsSent(rows: map<Id, Mail>, k: Id) { k in rows && rows[k].status == Sent }

  // Every acceptance by the mail server is accounted for: it made its row
  // sent, is about to, or its transaction was lost.
  ghost predicate Accounted(s: Outbox, k: Id) {
    Count(s.delivered, k) ==
    Count(s.wasted, k) + (if IsSent(s.rows, k) then 1 else 0) + (if InFlight(s.batches, k) then 1 else 0)
  }

  lemma DeliverAccounts(s: Outbox, op: Op, k: Id)
    requires Leases(s) && op.Deliver? && Enabled(s, op) && Accounted(s, k)
    ensures Accounted(Step(s, op), k)
  {
    var s', b := Step(s, op), s.batches[op.worker];
    var id := b.waiting[0];
    assert Leased(b, id);
    var b' := s'.batches[op.worker];
    if k == id {
      assert !InFlight(s.batches, k) by {
        if w :| w in s.batches && k in s.batches[w].drafts && s.batches[w].drafts[k].status == Sent {
          assert Leased(s.batches[w], k);
        }
      }
      if op.ok {
        assert b'.drafts[k].status == Sent;
      } else {
        assert forall w :: w in s'.batches && k in s'.batches[w].drafts ==> w == op.worker || w in s.batches;
      }
    } else {
      assert k in b'.drafts <==> k in b.drafts;
      InFlightAgrees(s.batches, s'.batches, k);
    }
  }

  lemma InFlightAgrees(a: map<Id, Batch>, b: map<Id, Batch>, k: Id)
    requires forall w :: w in a <==> w in b
    requires forall w :: w in a ==> (k in a[w].drafts <==> k in b[w].drafts)
    requires forall w :: w in a && k in a[w].drafts ==> a[w].drafts[k] == b[w].drafts[k]
    ensures InFlight(a, k) <==> InFlight(b, k)
  {
  }

  // Closing a batch ends what it had in flight, and nothing else.
  lemma CloseInFlight(s: Outbox, w: Id, k: Id)
    requires Leases(s) && w in s.batches
    ensures k in s.batches[w].drafts ==> !InFlight(s.batches - {w}, k)
    ensures k in s.batches[w].drafts ==> (InFlight(s.batches, k) <==> s.batches[w].drafts[k].status == Sent)
    ensures k !in s.batches[w].drafts ==> (InFlight(s.batches - {w}, k) <==> InFlight(s.batches, k))
  {
    if k in s.batches[w].drafts {
      assert Leased(s.batches[w], k);
      forall v | v in s.batches && k in s.batches[v].drafts ensures v == w {
        assert Leased(s.batches[v], k);
      }
    } else if InFlight(s.batches, k) {
      var v :| v in s.batches && k in s.batches[v].drafts && s.batches[v].drafts[k].status == Sent;
      assert v in s.batches - {w};
    }
  }

  lemma StepAccounts(s: Outbox, op: Op, k: Id)
    requires Leases(s) && Enabled(s, op) && !op.Purge? && Accounted(s, k)
    requires k >= s.next ==> Count(s.delivered, k) == 0
    ensures Accounted(Step(s, op), k)
  {
    match op
    case Deliver(w, ok) => DeliverAccounts(s, op, k);
    case Commit(w) =>
      CloseInFlight(s, w, k);
      if k in s.batches[w].drafts {
        assert Leased(s.batches[w], k);
      }
    case Abort(w) =>
      CloseInFlight(s, w, k);
      if k in s.batches[w].drafts {
        assert Leased(s.batches[w], k);
      }
    case Lease(w, limit, ids) =>
      var s' := Step(s, op);
      if InFlight(s.batches, k) {
        var v :| v in s.batches && k in s.batches[v].drafts && s.batches[v].drafts[k].status == Sent;
        assert v in s'.batches && s'.batches[v] == s.batches[v];
      }
    case Enqueue(max) =>
    case Tick(d) =>
  }

  ghost predicate Ledger(s: Outbox) {
    (forall k :: k in s.rows || k >= s.next ==> Accounted(s, k)) &&
    (forall k :: k >= s.next ==> Count(s.delivered, k) == 0)
  }

  lemma StepKeepsLedger(s: Outbox, op: Op)
    requires Leases(s) && Ledger(s) && Enabled(s, op)
    ensures Ledger(Step(s, op))
  {
    var s' := Step(s, op);
    if op.Purge? {
      forall k | k in s'.rows || k >= s'.next ensures Accounted(s', k) {
        assert Accounted(s, k);
      }
    } else {
      forall k | k in s'.rows || k >= s'.next ensures Accounted(s', k) {
        if op.Commit? && k in s.batches[op.worker].drafts {
          assert Leased(s.batches[op.worker], k);
        }
        assert Accounted(s, k);
        StepAccounts(s, op, k);
      }
      if op.Deliver? {
        var id := s.batches[op.worker].waiting[0];
        assert Leased(s.batches[op.worker], id);
        assert forall k :: k != id ==> Count(s'.delivered, k) == Count(s.delivered, k);
      }
    }
  }

  lemma {:induction false} DeliveriesAreAccounted(states: seq<Outbox>, ops: seq<Op>, n: nat)
    requires Execution(states, ops) && n <= |ops|
    ensures Ledger(states[n])
  {
    if n > 0 {
      DeliveriesAreAccounted(states, ops, n - 1);
      NoDoubleLease(states, ops, n - 1);
      assert states[n - 1 + 1] == Step(states[n - 1], ops[n - 1]);
      StepKeepsLedger(states[n - 1], ops[n - 1]);
    }
  }

  // A sent row was accepted by the mail server, once more than the times a
  // transaction was lost after an acceptance; any other row at rest, never
  // without such a loss.
  lemma SentMeansDelivered(states: seq<Outbox>, ops: seq<Op>, n: nat, k: Id)
    requires Execution(states, ops) && n <= |ops| && k in states[n].rows
    ensures states[n].rows[k].status == Sent ==>
              Count(states[n].delivered, k) == 1 + Count(states[n].wasted, k)
    ensures states[n].rows[k].status != Sent && !InFlight(states[n].batches, k) ==>
              Count(states[n].delivered, k) == Count(states[n].wasted, k)
  {
    DeliveriesAreAccounted(states, ops, n);
    NoDoubleLease(states, ops, n);
  }

  // ---------------------------------------------------------------------
  // Waiting between attempts
  // ---------------------------------------------------------------------

  // A row was due when the batch that holds it began.
  ghost predicate WereDue(rows: map<Id, Mail>, b: Batch) {
    forall k :: Leased(b, k) && k in rows ==> rows[k].nextRetryAt <= b.startedAt
  }

  ghost predicate AllWereDue(s: Outbox) { forall w :: w in s.batches ==> WereDue(s.rows, s.batches[w]) }

  lemma StepKeepsDue(s: Outbox, op: Op)
    requires Leases(s) && Enabled(s, op) && AllWereDue(s)
    ensures AllWereDue(Step(s, op))
  {
    var t := Step(s, op);
    forall w | w in t.batches ensures WereDue(t.rows, t.batches[w]) {
      if w in s.batches {
        assert WereDue(s.rows, s.batches[w]) && BatchOk(s.rows, s.batches[w]);
      }
      forall k | Leased(t.batches[w], k) && k in t.rows ensures t.rows[k].nextRetryAt <= t.batches[w].startedAt {
        if op.Commit? {
          assert Leased(s.batches[w], k);
        } else if op.Deliver? && w == op.worker {
          assert Leased(s.batches[w], k);
        } else if op.Lease? && w == op.worker {
          assert k in op.ids;
        } else {
          assert Leased(s.batches[w], k);
        }
      }
    }
  }

  lemma {:induction false} LeasedWereDue(states: seq<Outbox>, ops: seq<Op>, n: nat)
    requires Execution(states, ops) && n <= |ops|
    ensures Leases(states[n]) && AllWereDue(states[n])
  {
    NoDoubleLease(states, ops, n);
    if n > 0 {
      LeasedWereDue(states, ops, n - 1);
      assert states[n - 1 + 1] == Step(states[n - 1], ops[n - 1]);
      StepKeepsDue(states[n - 1], ops[n - 1]);
    }
  }

  // No attempt comes early: a row is only tried in a batch that began when it
  // was due, and after a failure it is not due again for the delay of that many
  // attempts, so that two tries of a row are at least that far apart.
  lemma AttemptsWait(states: seq<Outbox>, ops: seq<Op>, n: nat, k: Id)
    requires Execution(states, ops) && n < |ops| && ops[n].Commit? && k in states[n].batches[ops[n].worker].drafts
    ensures var began := states[n].batches[ops[n].worker].startedAt;
            && k in states[n].rows && k in states[n + 1].rows
            && var before, after := states[n].rows[k], states[n + 1].rows[k];
               && before.status == Pending && before.nextRetryAt <= began
               && after.attempts == before.attempts + 1
               && (after.status == Pending ==> after.nextRetryAt == began + Backoff(after.attempts))
  {
    LeasedWereDue(states, ops, n);
    var b := states[n].batches[ops[n].worker];
    assert Leased(b, k) && BatchOk(states[n].rows, b) && WereDue(states[n].rows, b);
    var ok :| b.drafts[k] == Attempted(states[n].rows[k], ok, b.startedAt);
    assert states[n + 1] == Step(states[n], ops[n]);
  }

  // ---------------------------------------------------------------------
  // The repository, step by step
  // ---------------------------------------------------------------------

  predicate Present(rows: map<Id, Mail>, ids: seq<Id>) {
    forall i :: 0 <= i < |ids| ==> ids[i] in rows
  }

  // What a whole batch makes of the rows it selected.
  function Drafts(rows: map<Id, Mail>, ids: seq<Id>, accepted: set<Id>, now: Time): map<Id, Mail>
    requires Present(rows, ids)
  {
    map k | k in ids :: Attempted(rows[k], k in accepted, now)
  }

  predicate AllSaved(ids: seq<Id>, unsaved: set<Id>) {
    forall i :: 0 <= i < |ids| ==> ids[i] !in unsaved
  }

  lemma DraftsSnoc(rows: map<Id, Mail>, ids: seq<Id>, i: nat, accepted: set<Id>, now: Time)
    requires i < |ids| && Distinct(ids) && Present(rows, ids)
    ensures ids[i] in ids && ids[i] in rows && ids[i] !in ids[..i]
    ensures ids[..i + 1] == ids[..i] + [ids[i]]
    ensures Drafts(rows, ids[..i + 1], accepted, now) ==
            Drafts(rows, ids[..i], accepted, now)[ids[i] := Attempted(rows[ids[i]], ids[i] in accepted, now)]
  {
    var k := ids[i];
    assert k in ids && k in rows;
    assert ids[..i + 1] == ids[..i] + [k];
  }

  class Repository {
    var now: Time
    var next: Id
    var rows: map<Id, Mail>

    ghost predicate Valid()
      reads this
    {
      0 <= next && Below(next, rows)
    }

    constructor ()
      ensures Valid() && rows == map[]
    {
      now, next, rows := 0, 0, map[];
    }

    method Add(maxAttempts: int) returns (id: Id)
      requires Valid()
      modifies this`next, this`rows
      ensures Valid() && id == old(next) && rows == old(rows)[id := Enqueued(now, maxAttempts)]
    {
      var max := maxAttempts;
      if max == 0 {
        max := 5;
      }
      id := next;
      rows := rows[id := Mail(Pending, 0, max, now, now)];
      next := next + 1;
    }

    method EarliestDue(locked: set<Id>, chosen: seq<Id>) returns (best: Option<Id>)
      requires Valid()
      ensures best.None? ==> forall k :: k in rows && Due(rows[k], now) && k !in locked ==> k in chosen
      ensures best.Some? ==> var b := best.value;
                b in rows && Due(rows[b], now) && b !in locked && b !in chosen &&
                forall k :: k in rows && Due(rows[k], now) && k !in locked && k !in chosen ==>
                  rows[b].nextRetryAt <= rows[k].nextRetryAt
    {
      best := None;
      for id := 0 to next
        invariant best.None? ==> forall k :: k in rows && k < id && Due(rows[k], now) && k !in locked ==> k in chosen
        invariant best.Some? ==> var b := best.value;
                    b in rows && Due(rows[b], now) && b !in locked && b !in chosen &&
                    forall k :: k in rows && k < id && Due(rows[k], now) && k !in locked && k !in chosen ==>
                      rows[b].nextRetryAt <= rows[k].nextRetryAt
      {
        if id in rows && Due(rows[id], now) && id !in locked && id !in chosen &&
           (best.None? || rows[id].nextRetryAt < rows[best.value].nextRetryAt) {
          best := Some(id);
        }
      }
    }

    method SelectDue(limit: nat, locked: set<Id>) returns (ids: seq<Id>)
      requires Valid()
      ensures Selects(rows, locked, now, limit, ids)
    {
      ids := [];
      while |ids| < limit
        invariant |ids| <= limit && Distinct(ids)
        invariant forall k :: k in ids ==> k in rows && Due(rows[k], now) && k !in locked
        invariant forall i, j :: 0 <= i < j < |ids| && ids[i] in rows && ids[j] in rows ==>
                    rows[ids[i]].nextRetryAt <= rows[ids[j]].nextRetryAt
        invariant forall k, j :: k in rows && Due(rows[k], now) && k !in locked && k !in ids && j in ids ==>
                    rows[j].nextRetryAt <= rows[k].nextRetryAt
      {
        var best := EarliestDue(locked, ids);
        if best.None? {
          return;
        }
        ids := ids + [best.value];
      }
    }

    // accepted: the rows the mail server takes; unsaved: those whose update
    // fails, which undoes the whole batch.
    method ProcessBatch(limit: nat, locked: set<Id>, accepted: set<Id>, unsaved: set<Id>)
      returns (processed: nat, ok: bool, ids: seq<Id>)
      requires Valid()
      modifies this`rows
      ensures Valid()
      ensures Selects(old(rows), locked, now, limit, ids) && Present(old(rows), ids)
      ensures ok <==> AllSaved(ids, unsaved)
      ensures ok ==> processed == |ids| && rows == old(rows) + Drafts(old(rows), ids, accepted, now)
      ensures !ok ==> rows == old(rows)
    {
      ids := SelectDue(limit, locked);
      var tx: map<Id, Mail>;
      processed, ok, tx := AttemptAll(ids, accepted, unsaved);
      if ok {
        rows := tx;
      }
    }

    // The transaction: tx is its view of the table.
    method AttemptAll(ids: seq<Id>, accepted: set<Id>, unsaved: set<Id>)
      returns (processed: nat, ok: bool, tx: map<Id, Mail>)
      requires Distinct(ids) && Present(rows, ids)
      ensures ok <==> AllSaved(ids, unsaved)
      ensures ok ==> processed == |ids| && tx == rows + Drafts(rows, ids, accepted, now)
    {
      tx := rows;
      processed := 0;
      for i := 0 to |ids|
        invariant processed == i && AllSaved(ids[..i], unsaved)
        invariant tx == rows + Drafts(rows, ids[..i], accepted, now)
      {
        DraftsSnoc(rows, ids, i, accepted, now);
        var row := AttemptRow(tx[ids[i]], ids[i] in accepted);
        if ids[i] in unsaved {
          return processed, false, tx;
        }
        tx := tx[ids[i] := row];
        processed := processed + 1;
      }
      assert ids[..|ids|] == ids;
      return processed, true, tx;
    }

    method AttemptRow(row: Mail, taken: bool) returns (row': Mail)
      ensures row' == Attempted(row, taken, now)
    {
      row' := row.(attempts := row.attempts + 1);
      if taken {
        row' := row'.(status := Sent);
      } else if row'.attempts >= row'.maxAttempts {
        row' := row'.(status := Failed);
      } else {
        var delay := ExpBackoff(row'.attempts);
        row' := row'.(nextRetryAt := now + delay);
      }
    }

    method PendingCount() returns (count: nat)
      requires Valid()
      ensures count == PendingBelow(rows, next)
    {
      count := 0;
      for id := 0 to next
        invariant count == PendingBelow(rows, id)
      {
        if id in rows && rows[id].status == Pending {
          count := count + 1;
        }
      }
    }
  }

  function PendingBelow(rows: map<Id, Mail>, n: nat): nat {
    if n == 0 then 0
    else PendingBelow(rows, n - 1) + (if n - 1 in rows && rows[n - 1].status == Pending then 1 else 0)
  }

  // A batch nobody interrupts goes through the steps of the machine: leased,
  // handed over row by row and committed, it stores exactly those drafts.
  lemma {:induction false} DeliveringMakesDrafts(s: Outbox, w: Id, ids: seq<Id>, i: nat, accepted: set<Id>)
      returns (s': Outbox)
    requires Leases(s) && w in s.batches && Distinct(ids) && i <= |ids|
    requires Present(s.rows, ids)
    requires s.batches[w].waiting == ids[i..]
    requires s.batches[w].drafts == Drafts(s.rows, ids[..i], accepted, s.batches[w].startedAt)
    ensures Leases(s') && s'.rows == s.rows && w in s'.batches && s'.batches[w].waiting == []
    ensures s'.batches[w].drafts == Drafts(s.rows, ids, accepted, s.batches[w].startedAt)
    ensures Enabled(s', Commit(w))
    ensures Step(s', Commit(w)).rows == s.rows + Drafts(s.rows, ids, accepted, s.batches[w].startedAt)
    decreases |ids| - i
  {
    if i == |ids| {
      assert ids[..i] == ids;
      s' := s;
    } else {
      var op := Deliver(w, ids[i] in accepted);
      StepKeepsLeases(s, op);
      DraftsSnoc(s.rows, ids, i, accepted, s.batches[w].startedAt);
      assert ids[i..][1..] == ids[i + 1..];
      s' := DeliveringMakesDrafts(Step(s, op), w, ids, i + 1, accepted);
    }
  }
}
