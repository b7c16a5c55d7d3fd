// Importing users from another identity system: a report of what was done,
// a dry run that writes nothing, and a run that can be repeated.
module UserImport {
  import opened Basics

  datatype Identity = Identity(target: string, externalId: Id)

  // A user as read from the source. badMetadata: its profile cannot be encoded.
  datatype User = User(email: string, hasPassword: bool, unsupported: bool, roles: seq<string>,
                       identities: seq<Identity>, badMetadata: bool)

  datatype Policy = ResetPassword | SkipUser | FailRun

  // normalise trims and lower-cases an address. The names that providers and
  // roles map to are resolved when the engine is built.
  datatype Mapping = Mapping(normalise: string -> string, providers: map<string, string>, roles: map<string, string>,
                             providerIds: map<string, Id>, roleIds: map<string, Id>, defaultRole: string,
                             onUnsupported: Policy)

  datatype Account = Account(roles: set<Id>, mustSetPassword: bool)

  // A link is unique by provider and external identifier.
  datatype Db = Db(accounts: map<string, Account>, links: map<(Id, Id), string>)

  datatype Report = Report(total: nat, created: nat, skippedExisting: nat, skippedNoEmail: nat, skippedNoPassword: nat,
                           forcedReset: nat, socialOnly: nat, linksCreated: nat, rolesAssigned: nat,
                           unmappedProviders: multiset<string>, unmappedRoles: multiset<string>, warnings: nat)

  const NewReport: Report := Report(0, 0, 0, 0, 0, 0, 0, 0, 0, multiset{}, multiset{}, 0)

  datatype Run = Run(db: Db, report: Report, aborted: bool)

  // ---------------------------------------------------------------------
  // Roles and links
  // ---------------------------------------------------------------------

  predicate Maps(m: Mapping, role: string) { role in m.roles && m.roles[role] in m.roleIds }

  function MappedRoles(m: Mapping, roles: seq<string>): seq<Id> {
    if roles == [] then []
    else
      var front, r := MappedRoles(m, roles[..|roles| - 1]), roles[|roles| - 1];
      if Maps(m, r) then front + [m.roleIds[m.roles[r]]] else front
  }

  function AssignedRoles(m: Mapping, roles: seq<string>): seq<Id> {
    var mapped := MappedRoles(m, roles);
    if mapped == [] && m.defaultRole != "" && m.defaultRole in m.roleIds then [m.roleIds[m.defaultRole]] else mapped
  }

  // Every name without a mapping, as often as it occurs.
  function UnmappedRoles(m: Mapping, roles: seq<string>): multiset<string> {
    if roles == [] then multiset{}
    else
      var front, r := UnmappedRoles(m, roles[..|roles| - 1]), roles[|roles| - 1];
      if r in m.roles then front else front + multiset{r}
  }

  predicate Linkable(m: Mapping, i: Identity) { i.target in m.providers && m.providers[i.target] in m.providerIds }

  function Links(m: Mapping, ids: seq<Identity>): seq<(Id, Id)> {
    if ids == [] then []
    else
      var front, i := Links(m, ids[..|ids| - 1]), ids[|ids| - 1];
      if Linkable(m, i) then front + [(m.providerIds[m.providers[i.target]], i.externalId)] else front
  }

  function UnmappedProviders(m: Mapping, ids: seq<Identity>): multiset<string> {
    if ids == [] then multiset{}
    else
      var front, i := UnmappedProviders(m, ids[..|ids| - 1]), ids[|ids| - 1];
      if Linkable(m, i) then front else front + multiset{i.target}
  }

  // ---------------------------------------------------------------------
  // One user
  // ---------------------------------------------------------------------

  // The links can be inserted: none exists, none is repeated.
  predicate Insertable(links: map<(Id, Id), string>, added: seq<(Id, Id)>) {
    (forall i :: 0 <= i < |added| ==> added[i] !in links) &&
    (forall i, j :: 0 <= i < j < |added| ==> added[i] != added[j])
  }

  function WithLinks(links: map<(Id, Id), string>, added: seq<(Id, Id)>, email: string): map<(Id, Id), string> {
    if added == [] then links
    else WithLinks(links, added[..|added| - 1], email)[added[|added| - 1] := email]
  }

  function Elements(ids: seq<Id>): set<Id> { set i | i in ids }

  // Whether the transaction for a user fails: by a duplicate link, or for any
  // other reason (the addresses in broken).
  predicate TxFails(m: Mapping, db: Db, u: User, broken: set<string>) {
    m.normalise(u.email) in broken || !Insertable(db.links, Links(m, u.identities))
  }

  function Written(m: Mapping, db: Db, u: User): Db {
    var email := m.normalise(u.email);
    Db(db.accounts[email := Account(Elements(AssignedRoles(m, u.roles)), !u.hasPassword)],
       WithLinks(db.links, Links(m, u.identities), email))
  }

  predicate Unusable(u: User) { !u.hasPassword && u.unsupported }

  predicate Stops(m: Mapping, u: User) { (Unusable(u) && m.onUnsupported == FailRun) || u.badMetadata }

  predicate Skipped(m: Mapping, u: User) { Unusable(u) && m.onUnsupported == SkipUser }

  function PasswordCounted(u: User, r: Report): Report {
    if u.hasPassword then r
    else if u.unsupported then r.(forcedReset := r.forcedReset + 1)
    else r.(socialOnly := r.socialOnly + 1)
  }

  // What resolving a user adds to the report, before anything is written.
  function Resolved(m: Mapping, u: User, r: Report): Report {
    r.(unmappedRoles := r.unmappedRoles + UnmappedRoles(m, u.roles),
       unmappedProviders := r.unmappedProviders + UnmappedProviders(m, u.identities))
  }

  function Counted(m: Mapping, u: User, r: Report): Report {
    r.(created := r.created + 1, rolesAssigned := r.rolesAssigned + |AssignedRoles(m, u.roles)|,
       linksCreated := r.linksCreated + |Links(m, u.identities)|)
  }

  // The part of an import from the resolved password on.
  function Store(m: Mapping, db: Db, rep: Report, u: User, broken: set<string>, dry: bool): Run {
    var r := Resolved(m, u, rep);
    if u.badMetadata then Run(db, r, true)
    else if dry then Run(db, Counted(m, u, r), false)
    else if TxFails(m, db, u, broken) then Run(db, r.(warnings := r.warnings + 1), false)
    else Run(Written(m, db, u), Counted(m, u, r), false)
  }

  function ImportOne(m: Mapping, db: Db, rep: Report, u: User, broken: set<string>, dry: bool): Run {
    var r := rep.(total := rep.total + 1);
    var email := m.normalise(u.email);
    if email == "" then Run(db, r.(skippedNoEmail := r.skippedNoEmail + 1, warnings := r.warnings + 1), false)
    else if email in db.accounts then Run(db, r.(skippedExisting := r.skippedExisting + 1), false)
    else if Unusable(u) && m.onUnsupported == FailRun then Run(db, r, true)
    else if Skipped(m, u) then Run(db, r.(skippedNoPassword := r.skippedNoPassword + 1), false)
    else Store(m, db, PasswordCounted(u, r), u, broken, dry)
  }

  function Import(m: Mapping, db: Db, rep: Report, users: seq<User>, broken: set<string>, dry: bool): Run
    decreases |users|
  {
    if users == [] then Run(db, rep, false)
    else
      var one := ImportOne(m, db, rep, users[0], broken, dry);
      if one.aborted then one else Import(m, one.db, one.report, users[1..], broken, dry)
  }

  // ---------------------------------------------------------------------
  // Conservation
  // ---------------------------------------------------------------------

  function Accounted(r: Report): nat { r.created + r.skippedExisting + r.skippedNoPassword + r.warnings }

  // Every entry read is accounted for: created, skipped or warned about, but
  // for the one an aborted run stopped at; and the table grows by exactly the
  // accounts the report counts, with none of the old ones touched.
  lemma {:induction false} ImportConserves(m: Mapping, db: Db, rep: Report, users: seq<User>,
                                          broken: set<string>, dry: bool)
    requires rep.total == Accounted(rep)
    ensures var run := Import(m, db, rep, users, broken, dry);
            && run.report.total == Accounted(run.report) + (if run.aborted then 1 else 0)
            && (!run.aborted ==> run.report.total == rep.total + |users|)
            && Grows(db.accounts, run.db.accounts, if dry then 0 else run.report.created - rep.created)
            && rep.created <= run.report.created
    decreases |users|
  {
    if users != [] {
      var one := ImportOne(m, db, rep, users[0], broken, dry);
      OneConserves(m, db, rep, users[0], broken, dry);
      if !one.aborted {
        ImportConserves(m, one.db, one.report, users[1..], broken, dry);
      }
    }
  }

  ghost predicate Grows(a: map<string, Account>, b: map<string, Account>, n: int) {
    |b| == |a| + n && forall e :: e in a ==> e in b && b[e] == a[e]
  }

  lemma OneMore(accounts: map<string, Account>, email: string, a: Account)
    requires email !in accounts
    ensures Grows(accounts, accounts[email := a], 1)
  {
    assert accounts[email := a].Keys == accounts.Keys + {email};
  }

  lemma OneConserves(m: Mapping, db: Db, rep: Report, u: User, broken: set<string>, dry: bool)
    requires rep.total == Accounted(rep)
    ensures var one := ImportOne(m, db, rep, u, broken, dry);
            && one.report.total == rep.total + 1 == Accounted(one.report) + (if one.aborted then 1 else 0)
            && Grows(db.accounts, one.db.accounts, if dry then 0 else one.report.created - rep.created)
            && rep.created <= one.report.created
  {
    var email := m.normalise(u.email);
    if email == "" {
    } else if email in db.accounts {
    } else if Unusable(u) && m.onUnsupported == FailRun {
    } else if Skipped(m, u) {
    } else if u.badMetadata {
    } else if dry {
    } else if TxFails(m, db, u, broken) {
    } else {
      OneMore(db.accounts, email, Account(Elements(AssignedRoles(m, u.roles)), !u.hasPassword));
      assert ImportOne(m, db, rep, u, broken, dry).db == Written(m, db, u);
    }
  }

  // ---------------------------------------------------------------------
  // Repeating a run
  // ---------------------------------------------------------------------

  // Nothing is left to do for an entry.
  predicate Settled(m: Mapping, db: Db, u: User) {
    m.normalise(u.email) == "" || m.normalise(u.email) in db.accounts || Skipped(m, u)
  }

  // A report without failures: every warning is about a missing address.
  predicate NoFailures(r: Report) { r.warnings == r.skippedNoEmail }

  lemma {:induction false} WarningsOnlyGrow(m: Mapping, db: Db, rep: Report, users: seq<User>,
                                          broken: set<string>, dry: bool)
    requires rep.warnings >= rep.skippedNoEmail
    ensures var r := Import(m, db, rep, users, broken, dry).report;
            r.warnings - r.skippedNoEmail >= rep.warnings - rep.skippedNoEmail
    decreases |users|
  {
    if users != [] {
      var one := ImportOne(m, db, rep, users[0], broken, dry);
      if !one.aborted {
        WarningsOnlyGrow(m, one.db, one.report, users[1..], broken, dry);
      }
    }
  }

  lemma OneSettles(m: Mapping, db: Db, rep: Report, u: User, broken: set<string>)
    requires NoFailures(rep)
    ensures var one := ImportOne(m, db, rep, u, broken, false);
            one.report.warnings >= one.report.skippedNoEmail &&
            (!one.aborted && NoFailures(one.report) ==> Settled(m, one.db, u))
  {
  }

  lemma {:induction false} RunSettles(m: Mapping, db: Db, rep: Report, users: seq<User>, broken: set<string>)
    requires rep.total == Accounted(rep) && NoFailures(rep)
    requires var run := Import(m, db, rep, users, broken, false); !run.aborted && NoFailures(run.report)
    ensures var run := Import(m, db, rep, users, broken, false);
            forall i :: 0 <= i < |users| ==> Settled(m, run.db, users[i])
    decreases |users|, 0
  {
    if users != [] {
      var one := ImportOne(m, db, rep, users[0], broken, false);
      OneConserves(m, db, rep, users[0], broken, false);
      OneSettles(m, db, rep, users[0], broken);
      RestSettles(m, one, users[0], users[1..], broken);
      assert forall i :: 0 < i < |users| ==> users[i] == users[1..][i - 1];
    }
  }

  // After one entry, the rest of the run settles the others and keeps it settled.
  lemma {:induction false} RestSettles(m: Mapping, one: Run, u: User, rest: seq<User>, broken: set<string>)
    requires one.report.total == Accounted(one.report) && one.report.warnings >= one.report.skippedNoEmail
    requires NoFailures(one.report) ==> Settled(m, one.db, u)
    requires var run := Import(m, one.db, one.report, rest, broken, false); !run.aborted && NoFailures(run.report)
    ensures var run := Import(m, one.db, one.report, rest, broken, false);
            Settled(m, run.db, u) && forall i :: 0 <= i < |rest| ==> Settled(m, run.db, rest[i])
    decreases |rest|, 1
  {
    WarningsOnlyGrow(m, one.db, one.report, rest, broken, false);
    RunSettles(m, one.db, one.report, rest, broken);
    ImportConserves(m, one.db, one.report, rest, broken, false);
  }

  lemma {:induction false} SettledStays(m: Mapping, db: Db, rep: Report, users: seq<User>, broken: set<string>)
    requires forall i :: 0 <= i < |users| ==> Settled(m, db, users[i])
    ensures var run := Import(m, db, rep, users, broken, false);
            run.db == db && run.report.created == rep.created && !run.aborted
    decreases |users|
  {
    if users != [] {
      var one := ImportOne(m, db, rep, users[0], broken, false);
      assert one.db == db && one.report.created == rep.created && !one.aborted;
      assert forall i :: 0 <= i < |users| - 1 ==> users[1..][i] == users[i + 1];
      SettledStays(m, db, one.report, users[1..], broken);
    }
  }

  // A run that ends without a failed transaction, repeated whatever fails the
  // second time, changes nothing and creates nobody.
  lemma RerunChangesNothing(m: Mapping, db: Db, rep: Report, users: seq<User>, broken: set<string>,
                            rep': Report, broken': set<string>)
    requires rep.total == Accounted(rep) && NoFailures(rep)
    requires var run := Import(m, db, rep, users, broken, false); !run.aborted && NoFailures(run.report)
    ensures var run := Import(m, db, rep, users, broken, false);
            var again := Import(m, run.db, rep', users, broken', false);
            again.db == run.db && again.report.created == rep'.created && !again.aborted
  {
    RunSettles(m, db, rep, users, broken);
    SettledStays(m, Import(m, db, rep, users, broken, false).db, rep', users, broken');
  }

  // ---------------------------------------------------------------------
  // The dry run
  // ---------------------------------------------------------------------

  // What becomes of an entry, going by the table the run started with: it is
  // new, and then it is stored, ends the run, or is skipped.
  predicate NewTo(m: Mapping, before: Db, u: User) {
    m.normalise(u.email) != "" && m.normalise(u.email) !in before.accounts
  }

  predicate Stored(m: Mapping, before: Db, u: User) { NewTo(m, before, u) && !Skipped(m, u) && !Stops(m, u) }

  predicate Halts(m: Mapping, before: Db, u: User) { NewTo(m, before, u) && !Skipped(m, u) && Stops(m, u) }

  // No earlier entry ends the run.
  predicate Reached(m: Mapping, before: Db, users: seq<User>, k: nat)
    requires k <= |users|
  {
    forall i :: 0 <= i < k ==> !Halts(m, before, users[i])
  }

  // An earlier entry is stored under the address, or with the link.
  predicate AddressTaken(m: Mapping, before: Db, users: seq<User>, k: nat, email: string)
    requires k <= |users|
  {
    exists i :: 0 <= i < k && Stored(m, before, users[i]) && m.normalise(users[i].email) == email
  }

  predicate LinkTaken(m: Mapping, before: Db, users: seq<User>, k: nat, link: (Id, Id))
    requires k <= |users|
  {
    exists i :: 0 <= i < k && Stored(m, before, users[i]) && link in Links(m, users[i].identities)
  }

  predicate NoneTaken(m: Mapping, before: Db, users: seq<User>, k: nat, links: seq<(Id, Id)>)
    requires k <= |users|
  {
    forall i :: 0 <= i < |links| ==> !LinkTaken(m, before, users, k, links[i])
  }

  // Entry k repeats no address that is stored before it; and if it is to be
  // stored itself, its address can be written and its links are its own.
  predicate Clear(m: Mapping, before: Db, users: seq<User>, k: nat, broken: set<string>)
    requires k < |users|
  {
    && !AddressTaken(m, before, users, k, m.normalise(users[k].email))
    && (Stored(m, before, users[k]) ==>
          && m.normalise(users[k].email) !in broken
          && Insertable(before.links, Links(m, users[k].identities))
          && NoneTaken(m, before, users, k, Links(m, users[k].identities)))
  }

  // Up to the first entry that ends the run, every new one is clear.
  predicate Independent(m: Mapping, before: Db, users: seq<User>, broken: set<string>) {
    forall k :: 0 <= k < |users| && Reached(m, before, users, k) && NewTo(m, before, users[k]) ==>
      Clear(m, before, users, k, broken)
  }

  // The same, followed through the run: none is shadowed by an account this run
  // created, and no transaction fails.
  predicate Undisturbed(m: Mapping, before: Db, db: Db, users: seq<User>, broken: set<string>)
    decreases |users|
  {
    if users == [] then true
    else
      var u, email := users[0], m.normalise(users[0].email);
      if email == "" || email in before.accounts then Undisturbed(m, before, db, users[1..], broken)
      else if email in db.accounts then false
      else if Skipped(m, u) then Undisturbed(m, before, db, users[1..], broken)
      else if Stops(m, u) then true
      else !TxFails(m, db, u, broken) && Undisturbed(m, before, Written(m, db, u), users[1..], broken)
  }

  // The real run has met more existing accounts, or failures, than the dry one.
  predicate Behind(dry: Report, live: Report) {
    dry.total == live.total && dry.skippedExisting <= live.skippedExisting && dry.warnings <= live.warnings &&
    dry.skippedExisting + dry.warnings < live.skippedExisting + live.warnings
  }

  lemma {:induction false} TotalGrows(m: Mapping, db: Db, rep: Report, users: seq<User>, broken: set<string>, dry: bool)
    ensures var run := Import(m, db, rep, users, broken, dry);
            run.report.total >= rep.total && (run.aborted ==> run.report.total > rep.total)
    decreases |users|
  {
    if users != [] {
      var one := ImportOne(m, db, rep, users[0], broken, dry);
      if !one.aborted {
        TotalGrows(m, one.db, one.report, users[1..], broken, dry);
      }
    }
  }

  // How the two runs stand after one more entry.
  lemma OneBehind(m: Mapping, before: Db, db: Db, dry: Report, live: Report, u: User, broken: set<string>)
    requires before.accounts.Keys <= db.accounts.Keys && Behind(dry, live)
    ensures var a := ImportOne(m, before, dry, u, broken, true);
            var b := ImportOne(m, db, live, u, broken, false);
            && Behind(a.report, b.report) && (b.aborted ==> a.aborted)
            && a.db == before && before.accounts.Keys <= b.db.accounts.Keys
  {
    var email := m.normalise(u.email);
    if email == "" {
    } else if email in before.accounts {
    } else if email in db.accounts {
    } else if Unusable(u) && m.onUnsupported == FailRun {
    } else if Skipped(m, u) {
    } else {
    }
  }

  lemma {:induction false} BehindForGood(m: Mapping, before: Db, db: Db, dry: Report, live: Report, users: seq<User>,
                                         broken: set<string>)
    requires before.accounts.Keys <= db.accounts.Keys && Behind(dry, live)
    ensures var a := Import(m, before, dry, users, broken, true);
            var b := Import(m, db, live, users, broken, false);
            a.report != b.report || a.aborted != b.aborted
    decreases |users|, 0
  {
    if users != [] {
      OneBehind(m, before, db, dry, live, users[0], broken);
      RestBehind(m, before, ImportOne(m, before, dry, users[0], broken, true),
                 ImportOne(m, db, live, users[0], broken, false), users[1..], broken);
    }
  }

  lemma {:induction false} RestBehind(m: Mapping, before: Db, a: Run, b: Run, rest: seq<User>, broken: set<string>)
    requires Behind(a.report, b.report) && (b.aborted ==> a.aborted)
    requires a.db == before && before.accounts.Keys <= b.db.accounts.Keys
    ensures var x := if a.aborted then a else Import(m, a.db, a.report, rest, broken, true);
            var y := if b.aborted then b else Import(m, b.db, b.report, rest, broken, false);
            x.report != y.report || x.aborted != y.aborted
    decreases |rest|, 1
  {
    if !a.aborted {
      BehindForGood(m, before, b.db, a.report, b.report, rest, broken);
    } else if !b.aborted {
      TotalGrows(m, b.db, b.report, rest, broken, false);
    }
  }

  lemma {:induction false} SameReportIff(m: Mapping, before: Db, db: Db, rep: Report, users: seq<User>,
                                         broken: set<string>)
    requires before.accounts.Keys <= db.accounts.Keys
    ensures var a := Import(m, before, rep, users, broken, true);
            var b := Import(m, db, rep, users, broken, false);
            (a.report == b.report && a.aborted == b.aborted) <==> Undisturbed(m, before, db, users, broken)
    decreases |users|
  {
    if users != [] {
      var u, email := users[0], m.normalise(users[0].email);
      var a := ImportOne(m, before, rep, u, broken, true);
      var b := ImportOne(m, db, rep, u, broken, false);
      if email == "" || email in before.accounts {
        SameReportIff(m, before, db, a.report, users[1..], broken);
      } else if email in db.accounts {
        if a.aborted {
          TotalGrows(m, b.db, b.report, users[1..], broken, false);
        } else {
          BehindForGood(m, before, db, a.report, b.report, users[1..], broken);
        }
      } else if Skipped(m, u) {
        SameReportIff(m, before, db, a.report, users[1..], broken);
      } else if Stops(m, u) {
      } else if TxFails(m, db, u, broken) {
        BehindForGood(m, before, db, a.report, b.report, users[1..], broken);
      } else {
        SameReportIff(m, before, b.db, a.report, users[1..], broken);
      }
    }
  }

  // The tables after the first k entries hold what was there and what those
  // entries store.
  ghost predicate Mirrors(m: Mapping, before: Db, db: Db, users: seq<User>, k: nat)
    requires k <= |users|
  {
    && (forall e :: e in db.accounts <==> e in before.accounts || AddressTaken(m, before, users, k, e))
    && (forall l :: l in db.links <==> l in before.links || LinkTaken(m, before, users, k, l))
  }

  lemma {:induction false} WithLinksMaps(links: map<(Id, Id), string>, added: seq<(Id, Id)>, email: string, l: (Id, Id))
    ensures l in WithLinks(links, added, email) <==> l in links || l in added
    ensures l in added ==> WithLinks(links, added, email)[l] == email
    ensures l in links && l !in added ==> WithLinks(links, added, email)[l] == links[l]
    decreases |added|
  {
    if added != [] {
      var front := added[..|added| - 1];
      WithLinksMaps(links, front, email, l);
      assert added == front + [added[|added| - 1]];
    }
  }

  lemma TakenGrows(m: Mapping, before: Db, users: seq<User>, k: nat, email: string, link: (Id, Id))
    requires k < |users|
    ensures AddressTaken(m, before, users, k + 1, email) <==>
            AddressTaken(m, before, users, k, email) ||
            (Stored(m, before, users[k]) && m.normalise(users[k].email) == email)
    ensures LinkTaken(m, before, users, k + 1, link) <==>
            LinkTaken(m, before, users, k, link) ||
            (Stored(m, before, users[k]) && link in Links(m, users[k].identities))
  {
  }

  function After(m: Mapping, before: Db, db: Db, u: User): Db {
    if Stored(m, before, u) then Written(m, db, u) else db
  }

  lemma AccountsAfter(m: Mapping, before: Db, db: Db, u: User, e: string)
    ensures e in After(m, before, db, u).accounts <==>
            e in db.accounts || (Stored(m, before, u) && m.normalise(u.email) == e)
  {
  }

  lemma LinksAfter(m: Mapping, before: Db, db: Db, u: User, l: (Id, Id))
    ensures l in After(m, before, db, u).links <==>
            l in db.links || (Stored(m, before, u) && l in Links(m, u.identities))
  {
    WithLinksMaps(db.links, Links(m, u.identities), m.normalise(u.email), l);
  }

  lemma MirrorsNext(m: Mapping, before: Db, db: Db, users: seq<User>, k: nat)
    requires k < |users| && Mirrors(m, before, db, users, k)
    ensures Mirrors(m, before, After(m, before, db, users[k]), users, k + 1)
  {
    var db' := After(m, before, db, users[k]);
    forall e ensures e in db'.accounts <==> e in before.accounts || AddressTaken(m, before, users, k + 1, e) {
      TakenGrows(m, before, users, k, e, (0, 0));
      AccountsAfter(m, before, db, users[k], e);
    }
    forall l ensures l in db'.links <==> l in before.links || LinkTaken(m, before, users, k + 1, l) {
      TakenGrows(m, before, users, k, "", l);
      LinksAfter(m, before, db, users[k], l);
    }
  }

  lemma FailsIffUnclear(m: Mapping, before: Db, db: Db, users: seq<User>, k: nat, broken: set<string>)
    requires k < |users| && Mirrors(m, before, db, users, k) && Stored(m, before, users[k])
    requires m.normalise(users[k].email) !in db.accounts
    ensures TxFails(m, db, users[k], broken) <==> !Clear(m, before, users, k, broken)
  {
    var links := Links(m, users[k].identities);
    assert forall i :: 0 <= i < |links| ==>
             (links[i] in db.links <==> links[i] in before.links || LinkTaken(m, before, users, k, links[i]));
  }

  ghost predicate ClearFrom(m: Mapping, before: Db, users: seq<User>, k: nat, broken: set<string>) {
    forall j :: k <= j < |users| && Reached(m, before, users, j) && NewTo(m, before, users[j]) ==>
      Clear(m, before, users, j, broken)
  }

  lemma {:induction false} UndisturbedIff(m: Mapping, before: Db, db: Db, users: seq<User>, k: nat,
                                          broken: set<string>)
    requires k <= |users| && Reached(m, before, users, k) && Mirrors(m, before, db, users, k)
    ensures Undisturbed(m, before, db, users[k..], broken) <==> ClearFrom(m, before, users, k, broken)
    decreases |users| - k
  {
    if k < |users| {
      var u, rest := users[k], users[k..];
      assert rest[0] == u && rest[1..] == users[k + 1..];
      MirrorsNext(m, before, db, users, k);
      if !NewTo(m, before, u) {
        UndisturbedIff(m, before, db, users, k + 1, broken);
      } else if m.normalise(u.email) in db.accounts {
        assert !Clear(m, before, users, k, broken);
      } else if Skipped(m, u) {
        UndisturbedIff(m, before, db, users, k + 1, broken);
      } else if Stops(m, u) {
        assert Halts(m, before, u) && Clear(m, before, users, k, broken);
      } else {
        FailsIffUnclear(m, before, db, users, k, broken);
        if !TxFails(m, db, u, broken) {
          UndisturbedIff(m, before, Written(m, db, u), users, k + 1, broken);
        }
      }
    }
  }

  // A dry run writes nothing, and reports what the real run would, exactly when
  // every entry up to the first that ends the run is independent of those
  // before it: no address repeats that of an earlier stored entry, no stored
  // address fails, and no link of a stored entry is repeated or exists.
  lemma DryRunIsFaithfulIff(m: Mapping, db: Db, users: seq<User>, broken: set<string>)
    ensures var dry := Import(m, db, NewReport, users, broken, true);
            var live := Import(m, db, NewReport, users, broken, false);
            (dry.report == live.report && dry.aborted == live.aborted) <==> Independent(m, db, users, broken)
    ensures Import(m, db, NewReport, users, broken, true).db == db
  {
    SameReportIff(m, db, db, NewReport, users, broken);
    UndisturbedIff(m, db, db, users, 0, broken);
    assert users[0..] == users;
    DryRunWritesNothing(m, db, NewReport, users, broken);
  }

  lemma {:induction false} DryRunWritesNothing(m: Mapping, db: Db, rep: Report, users: seq<User>, broken: set<string>)
    ensures Import(m, db, rep, users, broken, true).db == db
    decreases |users|
  {
    if users != [] {
      var one := ImportOne(m, db, rep, users[0], broken, true);
      if !one.aborted {
        DryRunWritesNothing(m, one.db, one.report, users[1..], broken);
      }
    }
  }

  // In particular when no address and no link occurs twice, no link exists yet
  // and no address fails.
  lemma DistinctImportsAgree(m: Mapping, db: Db, users: seq<User>, broken: set<string>)
    requires forall i, j :: 0 <= i < j < |users| ==> m.normalise(users[i].email) != m.normalise(users[j].email)
    requires forall i :: 0 <= i < |users| ==>
               m.normalise(users[i].email) !in broken && Insertable(db.links, Links(m, users[i].identities))
    requires forall i, j, l :: 0 <= i < j < |users| && l in Links(m, users[i].identities) ==>
               l !in Links(m, users[j].identities)
    ensures Import(m, db, NewReport, users, broken, true).report ==
            Import(m, db, NewReport, users, broken, false).report
  {
    forall k | 0 <= k < |users| ensures Clear(m, db, users, k, broken) {
      assert NoneTaken(m, db, users, k, Links(m, users[k].identities));
    }
    DryRunIsFaithfulIff(m, db, users, broken);
  }

  // Two entries with one address: the dry run counts both.
  lemma DryRunOvercounts(m: Mapping, email: string)
    requires m.normalise(email) != ""
    ensures var u, db := User(email, true, false, [], [], false), Db(map[], map[]);
            Import(m, db, NewReport, [u, u], {}, true).report.created == 2 &&
            Import(m, db, NewReport, [u, u], {}, false).report.created == 1
  {
    var u, db := User(email, true, false, [], [], false), Db(map[], map[]);
    assert [u, u][1..] == [u] && [u][1..] == [];
    var dry := ImportOne(m, db, NewReport, u, {}, true);
    var dry' := ImportOne(m, db, dry.report, u, {}, true);
    assert Import(m, db, dry.report, [u], {}, true) == Import(m, db, dry'.report, [], {}, true);
    var live := ImportOne(m, db, NewReport, u, {}, false);
    var live' := ImportOne(m, live.db, live.report, u, {}, false);
    assert Import(m, live.db, live.report, [u], {}, false) == Import(m, live.db, live'.report, [], {}, false);
  }

  // ---------------------------------------------------------------------
  // What an import stores
  // ---------------------------------------------------------------------

  predicate SomeRoleMaps(m: Mapping, roles: seq<string>) { exists i :: 0 <= i < |roles| && Maps(m, roles[i]) }

  // The role follows from one of the entry's, or is the default for want of any.
  predicate RoleDue(m: Mapping, roles: seq<string>, id: Id) {
    (exists i :: 0 <= i < |roles| && Maps(m, roles[i]) && m.roleIds[m.roles[roles[i]]] == id) ||
    (!SomeRoleMaps(m, roles) && m.defaultRole != "" && m.defaultRole in m.roleIds && m.roleIds[m.defaultRole] == id)
  }

  lemma {:induction false} MappedRolesAre(m: Mapping, roles: seq<string>, id: Id)
    ensures id in MappedRoles(m, roles) <==>
            exists i :: 0 <= i < |roles| && Maps(m, roles[i]) && m.roleIds[m.roles[roles[i]]] == id
    ensures MappedRoles(m, roles) == [] <==> !SomeRoleMaps(m, roles)
    decreases |roles|
  {
    if roles != [] {
      var n := |roles| - 1;
      MappedRolesAre(m, roles[..n], id);
      assert forall i :: 0 <= i < n ==> roles[..n][i] == roles[i];
      if Maps(m, roles[n]) {
        assert SomeRoleMaps(m, roles);
      }
    }
  }

  lemma RolesAreDue(m: Mapping, roles: seq<string>, id: Id)
    ensures id in Elements(AssignedRoles(m, roles)) <==> RoleDue(m, roles, id)
  {
    MappedRolesAre(m, roles, id);
  }

  // The link is one of the entry's identities, under the provider it maps to.
  predicate LinkDue(m: Mapping, ids: seq<Identity>, l: (Id, Id)) {
    exists i :: 0 <= i < |ids| && Linkable(m, ids[i]) && l == (m.providerIds[m.providers[ids[i].target]], ids[i].externalId)
  }

  lemma {:induction false} LinksAreDue(m: Mapping, ids: seq<Identity>, l: (Id, Id))
    ensures l in Links(m, ids) <==> LinkDue(m, ids, l)
    decreases |ids|
  {
    if ids != [] {
      var n := |ids| - 1;
      LinksAreDue(m, ids[..n], l);
      assert forall i :: 0 <= i < n ==> ids[..n][i] == ids[i];
    }
  }

  // The account is the entry's: its roles, and a password to be set when it
  // came without one; and all its links lead to it.
  ghost predicate Stands(m: Mapping, db: Db, u: User) {
    var email := m.normalise(u.email);
    && email in db.accounts && db.accounts[email].mustSetPassword == !u.hasPassword
    && (forall id :: id in db.accounts[email].roles <==> RoleDue(m, u.roles, id))
    && (forall l :: LinkDue(m, u.identities, l) ==> l in db.links && db.links[l] == email)
  }

  // Every account and link that was not there before is an entry's.
  ghost predicate Accountable(m: Mapping, before: Db, db: Db, users: seq<User>) {
    && (forall e :: e in db.accounts && e !in before.accounts ==>
          exists i :: 0 <= i < |users| && m.normalise(users[i].email) == e && Stands(m, db, users[i]))
    && (forall l :: l in db.links && l !in before.links ==>
          exists i :: 0 <= i < |users| && LinkDue(m, users[i].identities, l) &&
                      db.links[l] == m.normalise(users[i].email))
    && (forall e :: e in before.accounts ==> e in db.accounts && db.accounts[e] == before.accounts[e])
    && (forall l :: l in before.links ==> l in db.links && db.links[l] == before.links[l])
  }

  // What one stored entry adds.
  lemma WrittenStands(m: Mapping, db: Db, u: User)
    requires m.normalise(u.email) !in db.accounts && Insertable(db.links, Links(m, u.identities))
    ensures Stands(m, Written(m, db, u), u) && Accountable(m, db, Written(m, db, u), [u])
  {
    var t, email := Written(m, db, u), m.normalise(u.email);
    forall id ensures id in t.accounts[email].roles <==> RoleDue(m, u.roles, id) {
      RolesAreDue(m, u.roles, id);
    }
    forall l ensures LinkDue(m, u.identities, l) ==> l in t.links && t.links[l] == email {
      LinksAreDue(m, u.identities, l);
      WithLinksMaps(db.links, Links(m, u.identities), email, l);
    }
    assert Stands(m, t, [u][0]);
    forall l | l in t.links && l !in db.links ensures LinkDue(m, [u][0].identities, l) && t.links[l] == email {
      LinksAreDue(m, u.identities, l);
      WithLinksMaps(db.links, Links(m, u.identities), email, l);
    }
    forall l | l in db.links ensures l in t.links && t.links[l] == db.links[l] {
      LinksAreDue(m, u.identities, l);
      WithLinksMaps(db.links, Links(m, u.identities), email, l);
    }
  }

  // What stands goes on standing when nothing that was there changes.
  lemma StandsStays(m: Mapping, db: Db, t: Db, u: User)
    requires Stands(m, db, u)
    requires forall e :: e in db.accounts ==> e in t.accounts && t.accounts[e] == db.accounts[e]
    requires forall l :: l in db.links ==> l in t.links && t.links[l] == db.links[l]
    ensures Stands(m, t, u)
  {
  }

  lemma OneIsAccountable(m: Mapping, db: Db, rep: Report, u: User, broken: set<string>)
    ensures Accountable(m, db, ImportOne(m, db, rep, u, broken, false).db, [u])
  {
    var one := ImportOne(m, db, rep, u, broken, false);
    var email := m.normalise(u.email);
    if one.db != db {
      assert one.db == Written(m, db, u);
      WrittenStands(m, db, u);
    }
  }

  lemma AccountableTwice(m: Mapping, a: Db, b: Db, c: Db, u: User, rest: seq<User>)
    requires Accountable(m, a, b, [u]) && Accountable(m, b, c, rest)
    ensures Accountable(m, a, c, [u] + rest)
  {
    var users := [u] + rest;
    forall e | e in c.accounts && e !in a.accounts
      ensures exists i :: 0 <= i < |users| && m.normalise(users[i].email) == e && Stands(m, c, users[i])
    {
      if e in b.accounts {
        assert Stands(m, b, [u][0]);
        StandsStays(m, b, c, u);
        assert users[0] == u;
      } else {
        var i :| 0 <= i < |rest| && m.normalise(rest[i].email) == e && Stands(m, c, rest[i]);
        assert users[i + 1] == rest[i];
      }
    }
    forall l | l in c.links && l !in a.links
      ensures exists i :: 0 <= i < |users| && LinkDue(m, users[i].identities, l) &&
                          c.links[l] == m.normalise(users[i].email)
    {
      if l in b.links {
        assert LinkDue(m, [u][0].identities, l);
        assert users[0] == u;
      } else {
        var i :| 0 <= i < |rest| && LinkDue(m, rest[i].identities, l) && c.links[l] == m.normalise(rest[i].email);
        assert users[i + 1] == rest[i];
      }
    }
  }

  // Every account a run creates is that of an entry with its address: it has
  // exactly the roles the entry's map to, or the default one when none does,
  // must set a password exactly when it came without, and has all the entry's
  // links; every new link is such a one; and nothing that was there changes.
  lemma {:induction false} ImportIsAccountable(m: Mapping, db: Db, rep: Report, users: seq<User>, broken: set<string>)
    ensures Accountable(m, db, Import(m, db, rep, users, broken, false).db, users)
    decreases |users|
  {
    if users != [] {
      var one := ImportOne(m, db, rep, users[0], broken, false);
      OneIsAccountable(m, db, rep, users[0], broken);
      assert users == [users[0]] + users[1..];
      if one.aborted {
        NothingToAccount(m, one.db, users[1..]);
        AccountableTwice(m, db, one.db, one.db, users[0], users[1..]);
      } else {
        ImportIsAccountable(m, one.db, one.report, users[1..], broken);
        AccountableTwice(m, db, one.db, Import(m, one.db, one.report, users[1..], broken, false).db, users[0], users[1..]);
      }
    }
  }

  lemma NothingToAccount(m: Mapping, db: Db, users: seq<User>)
    ensures Accountable(m, db, db, users)
  {
  }

  // ---------------------------------------------------------------------
  // The engine, step by step
  // ---------------------------------------------------------------------

  class Engine {
    const mapping: Mapping
    const dryRun: bool
    var db: Db
    var rep: Report

    constructor (mapping: Mapping, db: Db, dryRun: bool)
      ensures this.mapping == mapping && this.dryRun == dryRun && this.db == db && rep == NewReport
    {
      this.mapping, this.dryRun, this.db, rep := mapping, dryRun, db, NewReport;
    }

    method ResolveRoles(roles: seq<string>) returns (ids: seq<Id>, unmapped: multiset<string>)
      ensures ids == AssignedRoles(mapping, roles) && unmapped == UnmappedRoles(mapping, roles)
    {
      ids, unmapped := [], multiset{};
      var matched := false;
      for i := 0 to |roles|
        invariant ids == MappedRoles(mapping, roles[..i]) && unmapped == UnmappedRoles(mapping, roles[..i])
        invariant matched <==> ids != []
      {
        assert roles[..i + 1][..i] == roles[..i];
        if roles[i] !in mapping.roles {
          unmapped := unmapped + multiset{roles[i]};
        } else if mapping.roles[roles[i]] in mapping.roleIds {
          ids := ids + [mapping.roleIds[mapping.roles[roles[i]]]];
          matched := true;
        }
      }
      assert roles[..|roles|] == roles;
      if !matched && mapping.defaultRole != "" {
        if mapping.defaultRole in mapping.roleIds {
          ids := ids + [mapping.roleIds[mapping.defaultRole]];
        }
      }
    }

    method ResolveLinks(identities: seq<Identity>) returns (links: seq<(Id, Id)>, unmapped: multiset<string>)
      ensures links == Links(mapping, identities) && unmapped == UnmappedProviders(mapping, identities)
    {
      links, unmapped := [], multiset{};
      for i := 0 to |identities|
        invariant links == Links(mapping, identities[..i]) && unmapped == UnmappedProviders(mapping, identities[..i])
      {
        assert identities[..i + 1][..i] == identities[..i];
        var id := identities[i];
        if id.target !in mapping.providers {
          unmapped := unmapped + multiset{id.target};
        } else if mapping.providers[id.target] !in mapping.providerIds {
          unmapped := unmapped + multiset{id.target};
        } else {
          links := links + [(mapping.providerIds[mapping.providers[id.target]], id.externalId)];
        }
      }
      assert identities[..|identities|] == identities;
    }

    // The transaction: the user, the roles, then one link after the other.
    method WriteUser(u: User, email: string, roleIds: seq<Id>, links: seq<(Id, Id)>, broken: set<string>)
      returns (ok: bool)
      requires email == mapping.normalise(u.email)
      requires roleIds == AssignedRoles(mapping, u.roles) && links == Links(mapping, u.identities)
      modifies this`db
      ensures ok <==> !TxFails(mapping, old(db), u, broken)
      ensures db == if ok then Written(mapping, old(db), u) else old(db)
    {
      if email in broken {
        return false;
      }
      var table := db.links;
      for j := 0 to |links|
        invariant db == old(db) && Insertable(db.links, links[..j]) && table == WithLinks(db.links, links[..j], email)
        invariant table.Keys == db.links.Keys + (set l | l in links[..j])
      {
        assert links[..j + 1][..j] == links[..j] && links[..j + 1] == links[..j] + [links[j]];
        if links[j] in table {
          return false;
        }
        table := table[links[j] := email];
      }
      assert links[..|links|] == links;
      db := Db(db.accounts[email := Account(Elements(roleIds), !u.hasPassword)], table);
      return true;
    }

    method StoreUser(u: User, email: string, broken: set<string>) returns (aborted: bool)
      requires email == mapping.normalise(u.email)
      modifies this`db, this`rep
      ensures Run(db, rep, aborted) == Store(mapping, old(db), old(rep), u, broken, dryRun)
    {
      var roleIds, unmappedRoles := ResolveRoles(u.roles);
      var links, unmappedProviders := ResolveLinks(u.identities);
      rep := rep.(unmappedRoles := rep.unmappedRoles + unmappedRoles,
                  unmappedProviders := rep.unmappedProviders + unmappedProviders);
      assert rep == Resolved(mapping, u, old(rep));
      if u.badMetadata {
        return true;
      }
      if !dryRun {
        var ok := WriteUser(u, email, roleIds, links, broken);
        if !ok {
          rep := rep.(warnings := rep.warnings + 1);
          return false;
        }
      }
      rep := rep.(created := rep.created + 1, rolesAssigned := rep.rolesAssigned + |roleIds|,
                  linksCreated := rep.linksCreated + |links|);
      return false;
    }

    method ImportUser(u: User, broken: set<string>) returns (aborted: bool)
      modifies this`db, this`rep
      ensures Run(db, rep, aborted) == ImportOne(mapping, old(db), old(rep), u, broken, dryRun)
    {
      rep := rep.(total := rep.total + 1);
      var email := mapping.normalise(u.email);
      if email == "" {
        rep := rep.(skippedNoEmail := rep.skippedNoEmail + 1, warnings := rep.warnings + 1);
        return false;
      }
      if email in db.accounts {
        rep := rep.(skippedExisting := rep.skippedExisting + 1);
        return false;
      }
      if !u.hasPassword {
        if u.unsupported {
          match mapping.onUnsupported {
            case FailRun =>
              return true;
            case SkipUser =>
              rep := rep.(skippedNoPassword := rep.skippedNoPassword + 1);
              return false;
            case ResetPassword =>
              rep := rep.(forcedReset := rep.forcedReset + 1);
          }
        } else {
          rep := rep.(socialOnly := rep.socialOnly + 1);
        }
      }
      aborted := StoreUser(u, email, broken);
    }

    method ImportAll(users: seq<User>, broken: set<string>) returns (aborted: bool)
      modifies this`db, this`rep
      ensures Run(db, rep, aborted) == Import(mapping, old(db), old(rep), users, broken, dryRun)
    {
      ghost var all := Import(mapping, db, rep, users, broken, dryRun);
      for i := 0 to |users|
        invariant Import(mapping, db, rep, users[i..], broken, dryRun) == all
      {
        assert users[i..][0] == users[i] && users[i..][1..] == users[i + 1..];
        aborted := ImportUser(users[i], broken);
        if aborted {
          return true;
        }
      }
      return false;
    }
  }
}
