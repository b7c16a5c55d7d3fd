// Second factors of one user: a TOTP enrolment and its backup codes.
module SecondFactor {
  import opened Basics

  // Codes as typed by the user; a stored hash is written as the code itself,
  // the digest being injective.
  type Code = Id

  // The code an authenticator shows for a secret at a time step. Two steps may
  // well share a code.
  type Otp = (Id, int) -> Code

  const PERIOD: int := 30 * SECOND
  const BACKUP_CODES := 10

  datatype Enrolment = Enrolment(id: Id, secret: Id, verified: bool, lastStep: int, backup: seq<Code>)

  // issued and used are history: the backup codes last issued, and those of
  // them accepted since.
  datatype Factor = Factor(now: Time, next: Id, enrolled: Option<Enrolment>, issued: seq<Code>, used: multiset<Code>)

  const Initial: Factor := Factor(0, 0, None, [], multiset{})

  datatype Result = Missing | Rejected | Conflict | Retry | AcceptedTotp(step: int) | AcceptedBackup(code: Code) | Ok

  function StepAt(now: Time): int { now / PERIOD }

  // The library accepts the codes of the step before and the one after too.
  predicate Shows(otp: Otp, secret: Id, code: Code, step: int) {
    code == otp(secret, step - 1) || code == otp(secret, step) || code == otp(secret, step + 1)
  }

  // ---------------------------------------------------------------------
  // Operations
  // ---------------------------------------------------------------------

  function IndexOf(codes: seq<Code>, code: Code): (i: nat)
    ensures i <= |codes|
    ensures i < |codes| ==> codes[i] == code
    ensures forall k :: 0 <= k < i ==> codes[k] != code
  {
    if codes == [] || codes[0] == code then 0 else 1 + IndexOf(codes[1..], code)
  }

  function Without(codes: seq<Code>, i: nat): seq<Code>
    requires i < |codes|
  {
    codes[..i] + codes[i + 1..]
  }

  function Enroll(s: Factor, secret: Id): (Factor, Result) {
    if s.enrolled.Some? && s.enrolled.value.verified then (s, Conflict)
    else (s.(next := s.next + 1, enrolled := Some(Enrolment(s.next, secret, false, 0, [])),
             issued := [], used := multiset{}), Ok)
  }

  // Ten fresh codes are issued together with the outcome.
  function Verify(otp: Otp, s: Factor, code: Code, drawn: seq<Code>): (Factor, Result) {
    if s.enrolled.None? then (s, Missing)
    else if s.enrolled.value.verified || !Shows(otp, s.enrolled.value.secret, code, StepAt(s.now)) then (s, Rejected)
    else (Issued(s.(enrolled := Some(s.enrolled.value.(verified := true))), drawn), Ok)
  }

  function Issued(s: Factor, drawn: seq<Code>): Factor
    requires s.enrolled.Some?
  {
    s.(enrolled := Some(s.enrolled.value.(backup := drawn)), issued := drawn, used := multiset{})
  }

  // saved: the update that burns the code went through.
  function Validate(otp: Otp, s: Factor, code: Code, saved: bool): (Factor, Result) {
    if s.enrolled.None? || !s.enrolled.value.verified then (s, Missing)
    else
      var m, step := s.enrolled.value, StepAt(s.now);
      var i := IndexOf(m.backup, code);
      if Shows(otp, m.secret, code, step) then
        if step <= m.lastStep then (s, Rejected)
        else if !saved then (s, Retry)
        else (s.(enrolled := Some(m.(lastStep := step))), AcceptedTotp(step))
      else if i == |m.backup| then (s, Rejected)
      else if !saved then (s, Retry)
      else (s.(enrolled := Some(m.(backup := Without(m.backup, i))), used := s.used + multiset{code}),
            AcceptedBackup(code))
  }

  function Regenerate(otp: Otp, s: Factor, code: Code, drawn: seq<Code>): (Factor, Result) {
    if s.enrolled.None? || !s.enrolled.value.verified then (s, Missing)
    else if !Shows(otp, s.enrolled.value.secret, code, StepAt(s.now)) then (s, Rejected)
    else (Issued(s, drawn), Ok)
  }

  function Dropped(s: Factor): Factor { s.(enrolled := None, issued := [], used := multiset{}) }

  function Disable(otp: Otp, s: Factor, code: Code): (Factor, Result) {
    if s.enrolled.None? || !s.enrolled.value.verified then (s, Missing)
    else if !Shows(otp, s.enrolled.value.secret, code, StepAt(s.now)) then (s, Rejected)
    else (Dropped(s), Ok)
  }

  function ForceDisable(s: Factor): (Factor, Result) {
    if s.enrolled.None? || !s.enrolled.value.verified then (s, Ok) else (Dropped(s), Ok)
  }

  datatype Op =
    | Tick(elapsed: nat)
    | DoEnroll(secret: Id)
    | DoVerify(code: Code, codes: seq<Code>)
    | DoValidate(code: Code, saved: bool)
    | DoRegenerate(code: Code, codes: seq<Code>)
    | DoDisable(code: Code)
    | DoForceDisable

  function Do(otp: Otp, s: Factor, op: Op): (Factor, Result) {
    match op
    case Tick(d) => (s.(now := s.now + d), Ok)
    case DoEnroll(secret) => Enroll(s, secret)
    case DoVerify(code, codes) => Verify(otp, s, code, codes)
    case DoValidate(code, saved) => Validate(otp, s, code, saved)
    case DoRegenerate(code, codes) => Regenerate(otp, s, code, codes)
    case DoDisable(code) => Disable(otp, s, code)
    case DoForceDisable => ForceDisable(s)
  }

  function Run(otp: Otp, s: Factor, ops: seq<Op>): Factor
    decreases |ops|
  {
    if ops == [] then s else Run(otp, Do(otp, s, ops[0]).0, ops[1..])
  }

  // Every issue hands out ten codes.
  predicate Issues(op: Op) {
    (op.DoVerify? || op.DoRegenerate?) ==> |op.codes| == BACKUP_CODES
  }

  // ---------------------------------------------------------------------
  // Backup codes
  // ---------------------------------------------------------------------

  // Remaining and accepted codes make up what was issued.
  ghost predicate Balanced(s: Factor) {
    s.enrolled.Some? && s.enrolled.value.verified ==>
      |s.issued| == BACKUP_CODES && multiset(s.enrolled.value.backup) + s.used == multiset(s.issued)
  }

  ghost predicate Fresh(s: Factor) { s.enrolled.Some? ==> s.enrolled.value.id < s.next }

  lemma BurnBalances(codes: seq<Code>, i: nat, used: multiset<Code>, issued: multiset<Code>)
    requires i < |codes| && multiset(codes) + used == issued
    ensures multiset(Without(codes, i)) + (used + multiset{codes[i]}) == issued
  {
    assert codes == codes[..i] + [codes[i]] + codes[i + 1..];
  }

  lemma StepBalances(otp: Otp, s: Factor, op: Op)
    requires Balanced(s) && Fresh(s) && Issues(op)
    ensures Balanced(Do(otp, s, op).0) && Fresh(Do(otp, s, op).0)
  {
    if op.DoValidate? && Do(otp, s, op).1.AcceptedBackup? {
      var m := s.enrolled.value;
      BurnBalances(m.backup, IndexOf(m.backup, op.code), s.used, multiset(s.issued));
    }
  }

  lemma {:induction false} RunBalances(otp: Otp, s: Factor, ops: seq<Op>)
    requires Balanced(s) && Fresh(s) && forall op :: op in ops ==> Issues(op)
    ensures Balanced(Run(otp, s, ops)) && Fresh(Run(otp, s, ops))
    decreases |ops|
  {
    if ops != [] {
      StepBalances(otp, s, ops[0]);
      RunBalances(otp, Do(otp, s, ops[0]).0, ops[1..]);
    }
  }

  // At every point of every run, the backup codes left and those accepted
  // since the last issue number ten, and no code has been accepted more often
  // than it was issued.
  lemma BackupCodesAreConserved(otp: Otp, ops: seq<Op>, code: Code)
    requires forall op :: op in ops ==> Issues(op)
    ensures var s := Run(otp, Initial, ops);
            s.enrolled.Some? && s.enrolled.value.verified ==>
              |s.enrolled.value.backup| + |s.used| == BACKUP_CODES && s.used[code] <= multiset(s.issued)[code]
  {
    RunBalances(otp, Initial, ops);
    var s := Run(otp, Initial, ops);
    if s.enrolled.Some? && s.enrolled.value.verified {
      var left := multiset(s.enrolled.value.backup);
      assert |left + s.used| == |multiset(s.issued)|;
      assert (left + s.used)[code] == multiset(s.issued)[code];
    }
  }

  // ---------------------------------------------------------------------
  // TOTP steps
  // ---------------------------------------------------------------------

  // The same enrolment is still there, and its last step has not gone back.
  predicate Later(id: Id, step: int, s: Factor) {
    s.enrolled.Some? && s.enrolled.value.id == id ==> s.enrolled.value.lastStep >= step
  }

  lemma {:induction false} LastStepNeverFalls(otp: Otp, s: Factor, ops: seq<Op>, id: Id, step: int)
    requires Fresh(s) && id < s.next && Later(id, step, s)
    ensures Later(id, step, Run(otp, s, ops))
    decreases |ops|
  {
    if ops != [] {
      LastStepNeverFalls(otp, Do(otp, s, ops[0]).0, ops[1..], id, step);
    }
  }

  // Within one enrolment, two TOTP codes accepted one after the other are
  // accepted at strictly increasing steps.
  lemma AcceptedStepsIncrease(otp: Otp, s: Factor, code: Code, ops: seq<Op>, code': Code)
    requires Fresh(s)
    requires Validate(otp, s, code, true).1.AcceptedTotp?
    requires var t := Run(otp, Validate(otp, s, code, true).0, ops);
             t.enrolled.Some? && t.enrolled.value.id == s.enrolled.value.id &&
             Validate(otp, t, code', true).1.AcceptedTotp?
    ensures var t := Run(otp, Validate(otp, s, code, true).0, ops);
            StepAt(s.now) < StepAt(t.now) &&
            Validate(otp, s, code, true).1 == AcceptedTotp(StepAt(s.now)) &&
            Validate(otp, t, code', true).1 == AcceptedTotp(StepAt(t.now))
  {
    var s1 := Validate(otp, s, code, true).0;
    LastStepNeverFalls(otp, s1, ops, s.enrolled.value.id, StepAt(s.now));
  }

  // The code is accepted as a TOTP code at some later point of the enrolment.
  ghost predicate AcceptedAgain(otp: Otp, s: Factor, code: Code, id: Id) {
    exists ops :: AcceptedAfter(otp, s, ops, code, id)
  }

  predicate AcceptedAfter(otp: Otp, s: Factor, ops: seq<Op>, code: Code, id: Id) {
    var t := Run(otp, s, ops);
    t.enrolled.Some? && t.enrolled.value.id == id && Validate(otp, t, code, true).1.AcceptedTotp?
  }

  predicate SameSecret(id: Id, secret: Id, s: Factor) {
    s.enrolled.Some? && s.enrolled.value.id == id ==> s.enrolled.value.secret == secret
  }

  lemma {:induction false} SecretStays(otp: Otp, s: Factor, ops: seq<Op>, id: Id, secret: Id)
    requires Fresh(s) && id < s.next && SameSecret(id, secret, s)
    ensures SameSecret(id, secret, Run(otp, s, ops))
    decreases |ops|
  {
    if ops != [] {
      SecretStays(otp, Do(otp, s, ops[0]).0, ops[1..], id, secret);
    }
  }

  // Whether an accepted code is spent for good: it is never accepted again in
  // its enrolment exactly when the authenticator shows it at no step from the
  // present one on.
  lemma CodeIsSpentIff(otp: Otp, s: Factor, code: Code)
    requires Fresh(s) && Validate(otp, s, code, true).1.AcceptedTotp?
    ensures !AcceptedAgain(otp, Validate(otp, s, code, true).0, code, s.enrolled.value.id) <==>
            forall j :: j >= StepAt(s.now) ==> otp(s.enrolled.value.secret, j) != code
  {
    var s1, m := Validate(otp, s, code, true).0, s.enrolled.value;
    if j :| j >= StepAt(s.now) && otp(m.secret, j) == code {
      var wait := (j + 1) * PERIOD - s.now;
      StepStartsAt(j + 1);
      var ops := [Tick(wait)];
      assert ops[1..] == [];
      assert Run(otp, s1, ops) == s1.(now := (j + 1) * PERIOD);
      assert AcceptedAfter(otp, s1, ops, code, m.id);
    } else {
      forall ops ensures !AcceptedAfter(otp, s1, ops, code, m.id) {
        if AcceptedAfter(otp, s1, ops, code, m.id) {
          AcceptedStepsIncrease(otp, s, code, ops, code);
          SecretStays(otp, s1, ops, m.id, m.secret);
        }
      }
    }
  }

  // For a code that belongs to step k alone, that is when it is handed in a
  // step late, in the last step it shows.
  lemma LateCodeIsSpent(otp: Otp, s: Factor, code: Code, k: int)
    requires Fresh(s) && s.enrolled.Some? && code == otp(s.enrolled.value.secret, k)
    requires forall j :: j != k ==> otp(s.enrolled.value.secret, j) != code
    requires Validate(otp, s, code, true).1.AcceptedTotp?
    ensures !AcceptedAgain(otp, Validate(otp, s, code, true).0, code, s.enrolled.value.id) <==> StepAt(s.now) == k + 1
  {
    CodeIsSpentIff(otp, s, code);
  }

  lemma StepStartsAt(k: int)
    ensures StepAt(k * PERIOD) == k
  {
  }

  // What is recorded is the step of the wall clock, not the one the code
  // belongs to. A user enrols and confirms; one step later the code of the next
  // step, read off a clock that runs ahead, is accepted, and again at each of
  // the two steps after.
  function ThreeTimes(otp: Otp, secret: Id, codes: seq<Code>): seq<Op> {
    [DoEnroll(secret), DoVerify(otp(secret, 0), codes), Tick(30 * SECOND),
     DoValidate(otp(secret, 2), true), Tick(30 * SECOND), DoValidate(otp(secret, 2), true), Tick(30 * SECOND)]
  }

  lemma OneCodeThreeSteps(otp: Otp, secret: Id, codes: seq<Code>)
    ensures var ops, code := ThreeTimes(otp, secret, codes), otp(secret, 2);
            && Validate(otp, Run(otp, Initial, ops[..3]), code, true).1 == AcceptedTotp(1)
            && Validate(otp, Run(otp, Initial, ops[..5]), code, true).1 == AcceptedTotp(2)
            && Validate(otp, Run(otp, Initial, ops), code, true).1 == AcceptedTotp(3)
  {
    var ops, code := ThreeTimes(otp, secret, codes), otp(secret, 2);
    var m := Enrolment(0, secret, true, 0, codes);
    var a := Factor(PERIOD, 1, Some(m), codes, multiset{});
    var b := a.(now := 2 * PERIOD, enrolled := Some(m.(lastStep := 1)));
    var c := a.(now := 3 * PERIOD, enrolled := Some(m.(lastStep := 2)));
    StepStartsAt(1);
    StepStartsAt(2);
    StepStartsAt(3);
    Confirmed(otp, secret, codes);
    assert ops[..3] == Confirming(otp, secret, codes, 30 * SECOND);
    assert ops[..5] == ops[..3] + [ops[3], ops[4]] && ops == ops[..5] + [ops[5], ops[6]];
    RunAppend(otp, Initial, ops[..3], [ops[3], ops[4]]);
    RunTwo(otp, a, ops[3], ops[4]);
    RunAppend(otp, Initial, ops[..5], [ops[5], ops[6]]);
    RunTwo(otp, b, ops[5], ops[6]);
  }

  // Enrolling, confirming with the code of the first step, and waiting.
  function Confirming(otp: Otp, secret: Id, codes: seq<Code>, wait: nat): seq<Op> {
    [DoEnroll(secret), DoVerify(otp(secret, 0), codes), Tick(wait)]
  }

  lemma Confirmed(otp: Otp, secret: Id, codes: seq<Code>)
    ensures Run(otp, Initial, Confirming(otp, secret, codes, 30 * SECOND)) ==
            Factor(PERIOD, 1, Some(Enrolment(0, secret, true, 0, codes)), codes, multiset{})
  {
    var ops := Confirming(otp, secret, codes, 30 * SECOND);
    var s1 := Do(otp, Initial, ops[0]).0;
    assert ops == [ops[0]] + [ops[1], ops[2]];
    RunAppend(otp, Initial, [ops[0]], [ops[1], ops[2]]);
    assert [ops[0]][1..] == [];
    assert Run(otp, Initial, [ops[0]]) == s1;
    RunTwo(otp, s1, ops[1], ops[2]);
  }

  lemma {:induction false} RunAppend(otp: Otp, s: Factor, a: seq<Op>, b: seq<Op>)
    ensures Run(otp, s, a + b) == Run(otp, Run(otp, s, a), b)
    decreases |a|
  {
    if a == [] {
      assert a + b == b;
    } else {
      assert (a + b)[1..] == a[1..] + b;
      RunAppend(otp, Do(otp, s, a[0]).0, a[1..], b);
    }
  }

  lemma RunTwo(otp: Otp, s: Factor, a: Op, b: Op)
    ensures Run(otp, s, [a, b]) == Do(otp, Do(otp, s, a).0, b).0
  {
    var s1 := Do(otp, s, a).0;
    assert [a, b][1..] == [b] && [b][1..] == [];
    assert Run(otp, s1, [b]) == Run(otp, Do(otp, s1, b).0, []);
  }

  // Verifying an enrolment does not record a step: its code validates again.
  // The condition holds from the second step of the clock on.
  lemma VerifyingCodeValidatesAgain(otp: Otp, s: Factor, code: Code, codes: seq<Code>)
    requires Verify(otp, s, code, codes).1 == Ok
    ensures Validate(otp, Verify(otp, s, code, codes).0, code, true).1 == AcceptedTotp(StepAt(s.now)) <==>
            s.enrolled.value.lastStep < StepAt(s.now)
  {
  }

  // A run in which it does.
  lemma VerifyingCodeTwice(otp: Otp, secret: Id, codes: seq<Code>)
    ensures var s := Run(otp, Initial, [Tick(30 * SECOND), DoEnroll(secret)]);
            var (t, r) := Verify(otp, s, otp(secret, 1), codes);
            r == Ok && Validate(otp, t, otp(secret, 1), true).1 == AcceptedTotp(1)
  {
    RunTwo(otp, Initial, Tick(30 * SECOND), DoEnroll(secret));
    StepStartsAt(1);
  }

  // ---------------------------------------------------------------------
  // What it takes to change an enrolment
  // ---------------------------------------------------------------------

  predicate Active(s: Factor) { s.enrolled.Some? && s.enrolled.value.verified }

  // The authenticator of the enrolment shows the code now.
  predicate Proved(otp: Otp, s: Factor, code: Code) {
    s.enrolled.Some? && Shows(otp, s.enrolled.value.secret, code, StepAt(s.now))
  }

  // A code is accepted exactly when it is shown and of a later step than any
  // before, or is not shown and is an unused backup code; a backup code goes
  // when it is accepted, and nothing else changes.
  lemma ValidationIff(otp: Otp, s: Factor, code: Code, saved: bool)
    ensures var (t, r) := Validate(otp, s, code, saved);
            && (r.AcceptedTotp? <==> saved && Active(s) && Proved(otp, s, code) &&
                                     s.enrolled.value.lastStep < StepAt(s.now))
            && (r.AcceptedBackup? <==> saved && Active(s) && !Proved(otp, s, code) && code in s.enrolled.value.backup)
            && (r.AcceptedTotp? ==> t == s.(enrolled := Some(s.enrolled.value.(lastStep := StepAt(s.now)))))
            && (r.AcceptedBackup? ==>
                  && t.enrolled.Some? && t.enrolled.value == s.enrolled.value.(backup := t.enrolled.value.backup)
                  && multiset(t.enrolled.value.backup) == multiset(s.enrolled.value.backup) - multiset{code})
            && (!r.AcceptedTotp? && !r.AcceptedBackup? ==> t == s)
  {
    if Active(s) && code in s.enrolled.value.backup {
      var codes := s.enrolled.value.backup;
      var i := IndexOf(codes, code);
      assert i < |codes|;
      assert codes == codes[..i] + [codes[i]] + codes[i + 1..];
    }
  }

  // op ends the active enrolment: on a code it shows, or by an administrator.
  predicate Ends(otp: Otp, s: Factor, op: Op) {
    op.DoForceDisable? || (op.DoDisable? && Proved(otp, s, op.code))
  }

  // op replaces the backup codes: on a code the enrolment shows.
  predicate Replaces(otp: Otp, s: Factor, op: Op) { op.DoRegenerate? && Proved(otp, s, op.code) }

  // op uses one of them up.
  predicate UsesUp(otp: Otp, s: Factor, op: Op) { op.DoValidate? && Do(otp, s, op).1.AcceptedBackup? }

  // A step leaves an active enrolment, its secret and its backup codes alone,
  // but for those.
  lemma ActiveStays(otp: Otp, s: Factor, op: Op)
    requires Active(s)
    ensures var t := Do(otp, s, op).0;
            && (if Ends(otp, s, op) then t.enrolled.None?
                else Active(t) && t.enrolled.value.id == s.enrolled.value.id &&
                     t.enrolled.value.secret == s.enrolled.value.secret)
            && (!Ends(otp, s, op) && !Replaces(otp, s, op) && !UsesUp(otp, s, op) ==>
                  t.enrolled.value.backup == s.enrolled.value.backup)
            && (Replaces(otp, s, op) ==> t.enrolled.value.backup == op.codes)
  {
  }

  // Over any run an active enrolment is there, secret and all, until somebody
  // gives a code it shows at that very step, or an administrator removes it.
  lemma {:induction false} EnrolmentsEndByProof(otp: Otp, s: Factor, ops: seq<Op>) returns (k: nat)
    requires Active(s)
    requires var t := Run(otp, s, ops);
             !(Active(t) && t.enrolled.value.id == s.enrolled.value.id && t.enrolled.value.secret == s.enrolled.value.secret)
    ensures k < |ops|
    ensures var t := Run(otp, s, ops[..k]);
            Active(t) && t.enrolled.value.id == s.enrolled.value.id &&
            t.enrolled.value.secret == s.enrolled.value.secret && Ends(otp, t, ops[k])
    decreases |ops|
  {
    if ops == [] {
      assert false;
    } else if Ends(otp, s, ops[0]) {
      k := 0;
    } else {
      ActiveStays(otp, s, ops[0]);
      var j := EnrolmentsEndByProof(otp, Do(otp, s, ops[0]).0, ops[1..]);
      k := j + 1;
      assert ops[..k][1..] == ops[1..][..j];
    }
  }

  // And its backup codes are the same until one is used up, or they are
  // replaced on such a code.
  lemma {:induction false} BackupCodesChangeByProof(otp: Otp, s: Factor, ops: seq<Op>) returns (k: nat)
    requires Active(s)
    requires var t := Run(otp, s, ops);
             Active(t) && t.enrolled.value.id == s.enrolled.value.id && t.enrolled.value.backup != s.enrolled.value.backup
    ensures k < |ops|
    ensures var t := Run(otp, s, ops[..k]);
            Active(t) && (Ends(otp, t, ops[k]) || Replaces(otp, t, ops[k]) || UsesUp(otp, t, ops[k]))
    decreases |ops|
  {
    if ops == [] {
      assert false;
    } else if Ends(otp, s, ops[0]) || Replaces(otp, s, ops[0]) || UsesUp(otp, s, ops[0]) {
      k := 0;
    } else {
      ActiveStays(otp, s, ops[0]);
      var j := BackupCodesChangeByProof(otp, Do(otp, s, ops[0]).0, ops[1..]);
      k := j + 1;
      assert ops[..k][1..] == ops[1..][..j];
    }
  }

  // An enrolment becomes active only on a code it shows, and then with the ten
  // codes handed out.
  lemma ActivationNeedsProof(otp: Otp, s: Factor, op: Op)
    requires !Active(s) && Active(Do(otp, s, op).0)
    ensures op.DoVerify? && Proved(otp, s, op.code)
    ensures Do(otp, s, op).0.enrolled.value == s.enrolled.value.(verified := true, backup := op.codes)
  {
  }

  // ---------------------------------------------------------------------
  // The service, step by step
  // ---------------------------------------------------------------------

  class Service {
    const otp: Otp
    var now: Time
    var next: Id
    var row: Option<Enrolment>
    ghost var issued: seq<Code>
    ghost var used: multiset<Code>

    ghost function State(): Factor
      reads this
    {
      Factor(now, next, row, issued, used)
    }

    constructor (otp: Otp)
      ensures this.otp == otp && State() == Initial
    {
      this.otp, now, next, row, issued, used := otp, 0, 0, None, [], multiset{};
    }

    method FindVerified() returns (m: Option<Enrolment>)
      ensures m == if row.Some? && row.value.verified then row else None
    {
      if row.Some? && row.value.verified {
        return row;
      }
      return None;
    }

    method EnrollTotp(secret: Id) returns (r: Result)
      modifies this
      ensures (State(), r) == Enroll(old(State()), secret)
    {
      if row.Some? && row.value.verified {
        return Conflict;
      }
      if row.Some? {
        row := None;
      }
      row := Some(Enrolment(next, secret, false, 0, []));
      next := next + 1;
      issued, used := [], multiset{};
      return Ok;
    }

    // The ten codes of an issue, from ten random strings.
    method GenerateBackupCodes(random: int -> Code) returns (codes: seq<Code>)
      ensures |codes| == BACKUP_CODES && forall i :: 0 <= i < |codes| ==> codes[i] == random(i)
    {
      codes := [];
      for i := 0 to 10
        invariant |codes| == i && forall k :: 0 <= k < i ==> codes[k] == random(k)
      {
        codes := codes + [random(i)];
      }
    }

    method VerifyTotp(code: Code, random: int -> Code) returns (r: Result, codes: seq<Code>)
      modifies this
      ensures |codes| == BACKUP_CODES && (State(), r) == Verify(otp, old(State()), code, codes)
    {
      codes := GenerateBackupCodes(random);
      if row.None? {
        return Missing, codes;
      }
      var m := row.value;
      if m.verified {
        return Rejected, codes;
      }
      if !Shows(otp, m.secret, code, now / PERIOD) {
        return Rejected, codes;
      }
      m := m.(verified := true, backup := codes);
      row := Some(m);
      issued, used := codes, multiset{};
      return Ok, codes;
    }

    method ValidateCode(code: Code, saved: bool) returns (r: Result)
      modifies this`row, this`used
      ensures (State(), r) == Validate(otp, old(State()), code, saved)
    {
      var found := FindVerified();
      if found.None? {
        return Missing;
      }
      var m := found.value;
      if Shows(otp, m.secret, code, now / PERIOD) {
        var currentStep := now / PERIOD;
        if currentStep <= m.lastStep {
          return Rejected;
        }
        if !saved {
          return Retry;
        }
        row := Some(m.(lastStep := currentStep));
        return AcceptedTotp(currentStep);
      }
      for i := 0 to |m.backup|
        invariant forall k :: 0 <= k < i ==> m.backup[k] != code
        invariant row == old(row) && used == old(used)
      {
        if m.backup[i] == code {
          assert IndexOf(m.backup, code) == i;
          if !saved {
            return Retry;
          }
          row := Some(m.(backup := m.backup[..i] + m.backup[i + 1..]));
          used := used + multiset{code};
          return AcceptedBackup(code);
        }
      }
      return Rejected;
    }

    method RegenerateBackupCodes(code: Code, random: int -> Code) returns (r: Result, codes: seq<Code>)
      modifies this
      ensures |codes| == BACKUP_CODES && (State(), r) == Regenerate(otp, old(State()), code, codes)
    {
      codes := GenerateBackupCodes(random);
      var found := FindVerified();
      if found.None? {
        return Missing, codes;
      }
      if !Shows(otp, found.value.secret, code, now / PERIOD) {
        return Rejected, codes;
      }
      row := Some(found.value.(backup := codes));
      issued, used := codes, multiset{};
      return Ok, codes;
    }

    method DisableTotp(code: Code) returns (r: Result)
      modifies this
      ensures (State(), r) == Disable(otp, old(State()), code)
    {
      var found := FindVerified();
      if found.None? {
        return Missing;
      }
      if !Shows(otp, found.value.secret, code, now / PERIOD) {
        return Rejected;
      }
      row, issued, used := None, [], multiset{};
      return Ok;
    }

    method ForceDisableTotp() returns (r: Result)
      modifies this
      ensures (State(), r) == ForceDisable(old(State()))
    {
      var found := FindVerified();
      if found.None? {
        return Ok;
      }
      row, issued, used := None, [], multiset{};
      return Ok;
    }
  }
}
