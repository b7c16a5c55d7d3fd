// E-mail templates: overrides stored by an administrator, a cache of them per
// process, and a cache of parsed bodies keyed by name and body in one string.
module EmailTemplates {
  import opened Basics

  datatype Override = Override(subject: string, body: string)

  // A parsed template; parsing depends on the name and the body, and may fail.
  type Template = Id
  type Parser = (string, string) -> Option<Template>

  // In cache, None records that the table was looked at and holds nothing.
  datatype Mailer = Mailer(db: map<string, Override>, cache: map<string, Option<Override>>,
                           parsed: map<string, Template>)

  const Fresh: Mailer := Mailer(map[], map[], map[])

  datatype Rendered = Unknown | Unparsable | Rendered(subject: string, template: Template)

  const NUL := '\0'

  predicate NulFree(name: string) { forall i :: 0 <= i < |name| ==> name[i] != NUL }

  function Key(name: string, body: string): string { name + [NUL] + body }

  // The test the eviction makes on each key.
  predicate Matches(key: string, name: string) {
    |key| > |name| && key[..|name|] == name && key[|name|] == NUL
  }

  // ---------------------------------------------------------------------
  // Keys and names
  // ---------------------------------------------------------------------

  // Evicting a name touches the entries of that name and of no other, though
  // one be a prefix of the other.
  lemma EvictionIsPrecise(m: string, body: string, n: string)
    requires NulFree(m) && NulFree(n)
    ensures Matches(Key(m, body), n) <==> m == n
  {
    var k := Key(m, body);
    assert k[|m|] == NUL;
    assert k[..|m|] == m;
    assert |n| < |m| ==> k[|n|] == m[|n|];
    assert |m| < |n| <= |k| ==> k[..|n|][|m|] == k[|m|];
  }

  lemma KeysAreInjective(m: string, b: string, n: string, c: string)
    requires NulFree(m) && NulFree(n) && Key(m, b) == Key(n, c)
    ensures m == n && b == c
  {
    EvictionIsPrecise(m, b, m);
    EvictionIsPrecise(n, c, m);
    assert Key(m, b)[|m| + 1..] == b && Key(n, c)[|n| + 1..] == c;
  }

  // The hypothesis on names matters: with a NUL in a name, two names and two
  // bodies share a key, and evicting one name touches the other's entry.
  lemma NulConfusesNames(n: string, x: string, b: string)
    ensures Key(n + [NUL] + x, b) == Key(n, x + [NUL] + b)
    ensures Matches(Key(n + [NUL] + x, b), n)
  {
    var k := Key(n + [NUL] + x, b);
    assert k == n + ([NUL] + x + [NUL] + b);
    assert k[..|n|] == n && k[|n|] == NUL;
  }

  // ---------------------------------------------------------------------
  // The store of overrides
  // ---------------------------------------------------------------------

  function Stored(db: map<string, Override>, name: string): Option<Override> {
    if name in db then Some(db[name]) else None
  }

  function Got(s: Mailer, name: string): (Mailer, Option<Override>) {
    if name in s.cache then (s, s.cache[name])
    else (s.(cache := s.cache[name := Stored(s.db, name)]), Stored(s.db, name))
  }

  function Upserted(s: Mailer, name: string, ov: Override): Mailer {
    s.(db := s.db[name := ov], cache := s.cache - {name})
  }

  function Deleted(s: Mailer, name: string): Mailer {
    s.(db := s.db - {name}, cache := s.cache - {name})
  }

  // ---------------------------------------------------------------------
  // The resolver
  // ---------------------------------------------------------------------

  function Evicted(parsed: map<string, Template>, name: string): map<string, Template> {
    map k | k in parsed && !Matches(k, name) :: parsed[k]
  }

  function ParsedFor(parse: Parser, s: Mailer, name: string, body: string): (Mailer, Option<Template>) {
    var k := Key(name, body);
    if k in s.parsed then (s, Some(s.parsed[k]))
    else if parse(name, body).None? then (s, None)
    else (s.(parsed := Evicted(s.parsed, name)[k := parse(name, body).value]), parse(name, body))
  }

  // What Render uses: the override, or else the built-in default.
  function Current(defaults: map<string, Override>, ov: Option<Override>, name: string): Option<Override> {
    if ov.Some? then ov else if name in defaults then Some(defaults[name]) else None
  }

  function Render(parse: Parser, defaults: map<string, Override>, s: Mailer, name: string): (Mailer, Rendered) {
    var (s1, ov) := Got(s, name);
    var source := Current(defaults, ov, name);
    if source.None? then (s1, Unknown)
    else
      var (s2, tpl) := ParsedFor(parse, s1, name, source.value.body);
      (s2, if tpl.None? then Unparsable else Rendered(source.value.subject, tpl.value))
  }

  datatype Op = Upsert(name: string, ov: Override) | Delete(name: string) | DoRender(name: string)

  function Step(parse: Parser, defaults: map<string, Override>, s: Mailer, op: Op): Mailer {
    match op
    case Upsert(name, ov) => Upserted(s, name, ov)
    case Delete(name) => Deleted(s, name)
    case DoRender(name) => Render(parse, defaults, s, name).0
  }

  function Run(parse: Parser, defaults: map<string, Override>, s: Mailer, ops: seq<Op>): Mailer
    decreases |ops|
  {
    if ops == [] then s else Run(parse, defaults, Step(parse, defaults, s, ops[0]), ops[1..])
  }

  // ---------------------------------------------------------------------
  // What every run keeps
  // ---------------------------------------------------------------------

  // The cache of overrides says what the table says.
  ghost predicate CacheAgrees(s: Mailer) {
    forall n :: n in s.cache ==> s.cache[n] == Stored(s.db, n)
  }

  // Entry k is the parse of that body under that name.
  ghost predicate IsParse(parse: Parser, k: string, t: Template, name: string, body: string) {
    NulFree(name) && k == Key(name, body) && parse(name, body) == Some(t)
  }

  ghost predicate ParsesAgree(parse: Parser, parsed: map<string, Template>) {
    forall k :: k in parsed ==> exists name, body :: IsParse(parse, k, parsed[k], name, body)
  }

  // At most one parsed body per name.
  ghost predicate OnePerName(parsed: map<string, Template>) {
    forall k, l, name :: k in parsed && l in parsed && NulFree(name) && Matches(k, name) && Matches(l, name) ==> k == l
  }

  ghost predicate Valid(parse: Parser, s: Mailer) {
    CacheAgrees(s) && ParsesAgree(parse, s.parsed) && OnePerName(s.parsed)
  }

  predicate NamesOk(op: Op) { NulFree(op.name) }

  lemma KeyMatches(name: string, body: string)
    ensures Matches(Key(name, body), name)
  {
    assert Key(name, body)[..|name|] == name;
  }

  lemma ParsedForKeeps(parse: Parser, s: Mailer, name: string, body: string)
    requires Valid(parse, s) && NulFree(name)
    ensures Valid(parse, ParsedFor(parse, s, name, body).0)
    ensures ParsedFor(parse, s, name, body).1 == parse(name, body)
  {
    var k := Key(name, body);
    if k in s.parsed {
      var n, b :| IsParse(parse, k, s.parsed[k], n, b);
      KeysAreInjective(name, body, n, b);
    } else if parse(name, body).Some? {
      var s' := ParsedFor(parse, s, name, body).0;
      KeyMatches(name, body);
      assert IsParse(parse, k, s'.parsed[k], name, body);
      forall l | l in s'.parsed ensures exists n, b :: IsParse(parse, l, s'.parsed[l], n, b) {
        if l != k {
          assert l in s.parsed && s'.parsed[l] == s.parsed[l];
        }
      }
      forall l, m, n | l in s'.parsed && m in s'.parsed && NulFree(n) && Matches(l, n) && Matches(m, n) ensures l == m {
        if l == k || m == k {
          EvictionIsPrecise(name, body, n);
        }
      }
    }
  }

  lemma RenderKeeps(parse: Parser, defaults: map<string, Override>, s: Mailer, name: string)
    requires Valid(parse, s) && NulFree(name)
    ensures Valid(parse, Render(parse, defaults, s, name).0)
  {
    var (s1, ov) := Got(s, name);
    assert Valid(parse, s1);
    var source := Current(defaults, ov, name);
    if source.Some? {
      ParsedForKeeps(parse, s1, name, source.value.body);
    }
  }

  lemma {:induction false} RunKeeps(parse: Parser, defaults: map<string, Override>, s: Mailer, ops: seq<Op>)
    requires Valid(parse, s) && forall op :: op in ops ==> NamesOk(op)
    ensures Valid(parse, Run(parse, defaults, s, ops))
    decreases |ops|
  {
    if ops != [] {
      assert NamesOk(ops[0]);
      if ops[0].DoRender? {
        RenderKeeps(parse, defaults, s, ops[0].name);
      }
      RunKeeps(parse, defaults, Step(parse, defaults, s, ops[0]), ops[1..]);
    }
  }

  // The answer with no cache at all.
  function RenderAfresh(parse: Parser, defaults: map<string, Override>, db: map<string, Override>, name: string)
    : Rendered
  {
    var source := Current(defaults, Stored(db, name), name);
    if source.None? then Unknown
    else if parse(name, source.value.body).None? then Unparsable
    else Rendered(source.value.subject, parse(name, source.value.body).value)
  }

  // Two overrides that share a key: the second name renders the first one's
  // parse. The closed set of names in use holds no such pair.
  lemma NulRendersAnother(parse: Parser, n: string, x: string, b: string)
    requires parse(n, x + [NUL] + b).Some?
    ensures var m := n + [NUL] + x;
            var ops := [Upsert(n, Override("", x + [NUL] + b)), DoRender(n), Upsert(m, Override("", b))];
            Render(parse, map[], Run(parse, map[], Fresh, ops), m).1 ==
            Rendered("", parse(n, x + [NUL] + b).value)
  {
    var m, body := n + [NUL] + x, x + [NUL] + b;
    var ops := [Upsert(n, Override("", body)), DoRender(n), Upsert(m, Override("", b))];
    NulConfusesNames(n, x, b);
    var s1 := Upserted(Fresh, n, Override("", body));
    var s2 := Render(parse, map[], s1, n).0;
    var s3 := Upserted(s2, m, Override("", b));
    assert Key(n, body) in s2.parsed && s2.parsed[Key(n, body)] == parse(n, body).value;
    assert ops[1..][1..] == [ops[2]] && ops[1..][1..][1..] == [];
    assert Run(parse, map[], s3, []) == s3;
    assert Run(parse, map[], s2, [ops[2]]) == s3;
    assert Run(parse, map[], s1, ops[1..]) == s3;
    assert Run(parse, map[], Fresh, ops) == s3;
    assert |m| > |n|;
    assert Got(s3, m).1 == Some(Override("", b));
  }

  // Through any run of edits, resets and renders, what is rendered is the
  // parse of the current override, or of the default when there is none; the
  // caches never show, and hold at most one body per name.
  lemma CachesNeverShow(parse: Parser, defaults: map<string, Override>, ops: seq<Op>, name: string)
    requires NulFree(name) && forall op :: op in ops ==> NamesOk(op)
    ensures var s := Run(parse, defaults, Fresh, ops);
            Render(parse, defaults, s, name).1 == RenderAfresh(parse, defaults, s.db, name) && OnePerName(s.parsed)
  {
    RunKeeps(parse, defaults, Fresh, ops);
    var s := Run(parse, defaults, Fresh, ops);
    var (s1, ov) := Got(s, name);
    assert Valid(parse, s1);
    var source := Current(defaults, ov, name);
    if source.Some? {
      ParsedForKeeps(parse, s1, name, source.value.body);
    }
  }

  // Evicting one name leaves every other name's entries alone.
  lemma EvictionLeavesOthers(parse: Parser, s: Mailer, name: string, body: string, other: string, otherBody: string)
    requires NulFree(name) && NulFree(other) && name != other
    ensures var s' := ParsedFor(parse, s, name, body).0;
            (Key(other, otherBody) in s'.parsed <==> Key(other, otherBody) in s.parsed)
    ensures var s' := ParsedFor(parse, s, name, body).0;
            Key(other, otherBody) in s.parsed ==> s'.parsed[Key(other, otherBody)] == s.parsed[Key(other, otherBody)]
  {
    EvictionIsPrecise(other, otherBody, name);
    KeyMatches(name, body);
  }

  // The names the system knows hold no NUL.
  function TemplateNames(): (names: seq<string>)
    ensures |names| == 7
    ensures forall i :: 0 <= i < |names| ==> NulFree(names[i])
    ensures forall i, j :: 0 <= i < j < |names| ==> names[i] != names[j]
  {
    ["verification", "password_reset", "invitation", "account_email_change", "account_email_changed",
     "account_password_changed", "account_deletion"]
  }

  // ---------------------------------------------------------------------
  // The store and the resolver, step by step
  // ---------------------------------------------------------------------

  class Store {
    var db: map<string, Override>
    var cache: map<string, Option<Override>>

    constructor ()
      ensures db == map[] && cache == map[]
    {
      db, cache := map[], map[];
    }

    method Get(name: string) returns (ov: Option<Override>)
      modifies this`cache
      ensures forall parsed :: (Mailer(db, cache, parsed), ov) == Got(Mailer(db, old(cache), parsed), name)
    {
      if name in cache {
        return cache[name];
      }
      if name !in db {
        cache := cache[name := None];
        return None;
      }
      ov := Some(db[name]);
      cache := cache[name := ov];
    }

    method Save(name: string, ov: Override)
      modifies this
      ensures forall parsed :: Mailer(db, cache, parsed) == Upserted(Mailer(old(db), old(cache), parsed), name, ov)
    {
      db := db[name := ov];
      Invalidate(name);
    }

    method Remove(name: string)
      modifies this
      ensures forall parsed :: Mailer(db, cache, parsed) == Deleted(Mailer(old(db), old(cache), parsed), name)
    {
      db := db - {name};
      Invalidate(name);
    }

    method Invalidate(name: string)
      modifies this`cache
      ensures cache == old(cache) - {name}
    {
      cache := cache - {name};
    }
  }

  class Resolver {
    const store: Store
    const parse: Parser
    const defaults: map<string, Override>
    var parsed: map<string, Template>

    ghost function State(): Mailer
      reads this, store
    {
      Mailer(store.db, store.cache, parsed)
    }

    constructor (parse: Parser, defaults: map<string, Override>)
      ensures this.parse == parse && this.defaults == defaults && State() == Fresh && fresh(store)
    {
      store := new Store();
      this.parse, this.defaults, parsed := parse, defaults, map[];
    }

    method ParseFor(name: string, body: string) returns (tpl: Option<Template>)
      modifies this
      ensures (State(), tpl) == ParsedFor(parse, old(State()), name, body)
    {
      var cacheKey := name + [NUL] + body;
      if cacheKey in parsed {
        return Some(parsed[cacheKey]);
      }
      tpl := parse(name, body);
      if tpl.None? {
        return None;
      }
      Evict(name);
      parsed := parsed[cacheKey := tpl.value];
    }

    // Drop every entry of this name, one key after the other.
    method Evict(name: string)
      modifies this`parsed
      ensures parsed == Evicted(old(parsed), name)
    {
      var keys := parsed.Keys;
      while keys != {}
        invariant keys <= old(parsed).Keys
        invariant forall k :: k in parsed <==> k in old(parsed) && (k in keys || !Matches(k, name))
        invariant forall k :: k in parsed ==> parsed[k] == old(parsed)[k]
        decreases |keys|
      {
        var k :| k in keys;
        if |k| > |name| && k[..|name|] == name && k[|name|] == NUL {
          parsed := parsed - {k};
        }
        keys := keys - {k};
      }
      assert parsed == Evicted(old(parsed), name);
    }

    method RenderTemplate(name: string) returns (r: Rendered)
      modifies this, store
      ensures (State(), r) == Render(parse, defaults, old(State()), name)
    {
      ghost var before := State();
      var ov := store.Get(name);
      assert (State(), ov) == Got(before, name);
      var source: Override;
      if ov.Some? {
        source := ov.value;
      } else if name in defaults {
        source := defaults[name];
      } else {
        return Unknown;
      }
      var tpl := ParseFor(name, source.body);
      if tpl.None? {
        return Unparsable;
      }
      return Rendered(source.subject, tpl.value);
    }
  }
}
