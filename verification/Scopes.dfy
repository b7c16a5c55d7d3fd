// Scope lists: parsing and printing, and the list helpers that every grant uses.
module ScopeLists {
  import opened Basics

  predicate SpaceFree(w: string) {
    forall k :: 0 <= k < |w| ==> w[k] != ' '
  }

  predicate NoSpace(s: string, i: nat, e: nat)
    requires i <= e <= |s|
  {
    forall k :: i <= k < e ==> s[k] != ' '
  }

  // ---------------------------------------------------------------------
  // Parsing and printing
  // ---------------------------------------------------------------------

  // The end of the word that starts at i.
  function WordEnd(s: string, i: nat): (e: nat)
    requires i <= |s|
    ensures i <= e <= |s| && NoSpace(s, i, e)
    ensures e < |s| ==> s[e] == ' '
    ensures i < |s| && s[i] != ' ' ==> i < e
    decreases |s| - i
  {
    if i < |s| && s[i] != ' ' then WordEnd(s, i + 1) else i
  }

  // The words of s, in order, as half-open intervals of positions.
  function Words(s: string, i: nat): (ws: seq<(nat, nat)>)
    requires i <= |s|
    ensures forall k :: 0 <= k < |ws| ==> i <= ws[k].0 < ws[k].1 <= |s|
    decreases |s| - i
  {
    if i == |s| then []
    else if s[i] == ' ' then Words(s, i + 1)
    else [(i, WordEnd(s, i))] + Words(s, WordEnd(s, i))
  }

  // The words of s as strings.
  function Parse(s: string, i: nat := 0): (ws: Scopes)
    requires i <= |s|
    decreases |s| - i
  {
    if i == |s| then []
    else if s[i] == ' ' then Parse(s, i + 1)
    else [s[i..WordEnd(s, i)]] + Parse(s, WordEnd(s, i))
  }

  function Join(ws: Scopes): string {
    if ws == [] then ""
    else if |ws| == 1 then ws[0]
    else Join(ws[..|ws| - 1]) + " " + ws[|ws| - 1]
  }

  // s[a..b] is a run of non-spaces that cannot be extended on either side.
  predicate MaximalRun(s: string, a: nat, b: nat) {
    && a < b <= |s|
    && NoSpace(s, a, b)
    && (a == 0 || s[a - 1] == ' ')
    && (b == |s| || s[b] == ' ')
  }

  // The split loop: start marks the first character not yet handed out.
  method SplitBySpace(s: string) returns (parts: Scopes)
    ensures parts == Parse(s)
  {
    parts := [];
    var start := 0;
    for i := 0 to |s|
      invariant start <= i && NoSpace(s, start, i)
      invariant parts + Parse(s, start) == Parse(s)
    {
      if s[i] == ' ' {
        WordEndIs(s, start, i);
        if i > start {
          parts := parts + [s[start..i]];
        }
        start := i + 1;
      }
    }
    WordEndIs(s, start, |s|);
    if start < |s| {
      assert s[start..] == s[start..|s|] && Parse(s, |s|) == [];
      parts := parts + [s[start..]];
    }
  }

  lemma {:induction false} WordEndIs(s: string, i: nat, e: nat)
    requires i <= e <= |s| && NoSpace(s, i, e) && (e < |s| ==> s[e] == ' ')
    ensures WordEnd(s, i) == e
    decreases e - i
  {
    if i < e {
      WordEndIs(s, i + 1, e);
    }
  }

  method ParseSpaceDelimited(s: string) returns (ws: Scopes)
    ensures ws == Parse(s)
    ensures forall w :: w in ws ==> w != "" && SpaceFree(w)
  {
    ParsedWords(s, 0);
    if s == "" {
      return [];
    }
    var parts := SplitBySpace(s);
    ws := [];
    for i := 0 to |parts|
      invariant ws == parts[..i]
    {
      assert parts[i] in parts;
      if parts[i] != "" {
        ws := ws + [parts[i]];
      }
    }
  }

  method JoinScopes(ws: Scopes) returns (s: string)
    ensures s == Join(ws)
  {
    s := "";
    for i := 0 to |ws|
      invariant s == Join(ws[..i])
    {
      assert ws[..i + 1][..i] == ws[..i];
      if i > 0 {
        s := s + " ";
      }
      s := s + ws[i];
    }
    assert ws[..|ws|] == ws;
  }

  // Every parsed word is a non-empty space-free string.
  lemma {:induction false} ParsedWords(s: string, i: nat)
    requires i <= |s|
    ensures forall w :: w in Parse(s, i) ==> w != "" && SpaceFree(w)
    decreases |s| - i
  {
    if i < |s| {
      ParsedWords(s, if s[i] == ' ' then i + 1 else WordEnd(s, i));
    }
  }

  // Parse hands out exactly the strings at the positions Words lists.
  lemma {:induction false} ParseIsWords(s: string, i: nat)
    requires i <= |s|
    ensures |Parse(s, i)| == |Words(s, i)|
    ensures forall k :: 0 <= k < |Words(s, i)| ==> Parse(s, i)[k] == s[Words(s, i)[k].0..Words(s, i)[k].1]
    decreases |s| - i
  {
    if i < |s| {
      ParseIsWords(s, if s[i] == ' ' then i + 1 else WordEnd(s, i));
    }
  }

  // The split is exact: an interval is handed out if and only if it is a
  // maximal space-free run, and the runs come in increasing order.
  lemma {:induction false} WordsAreMaximalRuns(s: string, i: nat)
    requires i <= |s| && (i == 0 || i == |s| || s[i] == ' ' || s[i - 1] == ' ')
    ensures forall a: nat, b: nat :: (a, b) in Words(s, i) <==> i <= a && MaximalRun(s, a, b)
    ensures forall j, k :: 0 <= j < k < |Words(s, i)| ==> Words(s, i)[j].1 < Words(s, i)[k].0
    decreases |s| - i
  {
    if i == |s| {
    } else if s[i] == ' ' {
      WordsAreMaximalRuns(s, i + 1);
    } else {
      var e := WordEnd(s, i);
      var rest := Words(s, e);
      WordsAreMaximalRuns(s, e);
      forall a: nat, b: nat
        ensures (a, b) in [(i, e)] + rest <==> i <= a && MaximalRun(s, a, b)
      {
        if i <= a && MaximalRun(s, a, b) {
          OneRunBefore(s, i, a, b);
        }
      }
      FirstRunEndsBefore(s, e, rest);
    }
  }

  // Runs handed out from the end of a word start after it.
  lemma FirstRunEndsBefore(s: string, e: nat, rest: seq<(nat, nat)>)
    requires e <= |s| && (e < |s| ==> s[e] == ' ')
    requires forall a: nat, b: nat :: (a, b) in rest ==> e <= a && MaximalRun(s, a, b)
    ensures forall k :: 0 <= k < |rest| ==> e < rest[k].0
  {
    forall k | 0 <= k < |rest| ensures e < rest[k].0 {
      assert (rest[k].0, rest[k].1) in rest;
    }
  }

  // A maximal run that starts inside the word at i is that word.
  lemma OneRunBefore(s: string, i: nat, a: nat, b: nat)
    requires i <= a && MaximalRun(s, a, b)
    requires i == 0 || s[i - 1] == ' '
    requires s[i] != ' '
    ensures (a == i && b == WordEnd(s, i)) || WordEnd(s, i) < a
  {
  }

  // Appending a separator and one more word appends that word to the parse.
  lemma {:induction false} ParseAppend(s: string, w: string, i: nat)
    requires i <= |s| && w != "" && SpaceFree(w)
    ensures Parse(s + " " + w, i) == Parse(s, i) + [w]
    decreases |s| - i
  {
    var t := s + " " + w;
    if i == |s| {
      assert t[i] == ' ';
      WordEndIs(t, i + 1, |t|);
      assert t[i + 1..|t|] == w;
      assert Parse(t, |t|) == [];
      assert Parse(t, i + 1) == [w] + Parse(t, |t|);
    } else if s[i] == ' ' {
      ParseAppend(s, w, i + 1);
    } else {
      var e := WordEnd(s, i);
      assert t[i..e] == s[i..e];
      WordEndIs(t, i, e);
      ParseAppend(s, w, e);
    }
  }

  // Printing then parsing gives the list back.
  lemma {:induction false} ParseOfJoin(ws: Scopes)
    requires forall w :: w in ws ==> w != "" && SpaceFree(w)
    ensures Parse(Join(ws)) == ws
  {
    if |ws| == 1 {
      assert ws[0] in ws;
      WordEndIs(ws[0], 0, |ws[0]|);
      assert ws[0][0..|ws[0]|] == ws[0];
      assert Parse(ws[0], |ws[0]|) == [];
    } else if |ws| > 1 {
      var front := ws[..|ws| - 1];
      assert ws[|ws| - 1] in ws && forall w :: w in front ==> w in ws;
      ParseOfJoin(front);
      ParseAppend(Join(front), ws[|ws| - 1], 0);
      assert front + [ws[|ws| - 1]] == ws;
    }
  }

  // Join after parse normalises: doing it twice changes nothing more.
  lemma NormaliseIsIdempotent(s: string)
    ensures Parse(Join(Parse(s))) == Parse(s)
    ensures Join(Parse(Join(Parse(s)))) == Join(Parse(s))
  {
    ParsedWords(s, 0);
    ParseOfJoin(Parse(s));
  }

  // ---------------------------------------------------------------------
  // List helpers
  // ---------------------------------------------------------------------

  // The members of requested that are allowed, in the order requested.
  function Filter(requested: Scopes, allowed: set<string>): (r: Scopes)
    ensures forall x :: x in r <==> x in requested && x in allowed
  {
    if requested == [] then []
    else
      var n := |requested| - 1;
      var front := Filter(requested[..n], allowed);
      assert requested == requested[..n] + [requested[n]];
      if requested[n] in allowed then front + [requested[n]] else front
  }

  function Elements(xs: Scopes): set<string> {
    set x | x in xs
  }

  // a followed by the members of b, each element once.
  function Union(a: Scopes, b: Scopes): (r: Scopes)
    ensures forall x :: x in r <==> x in a || x in b
    ensures forall j, k :: 0 <= j < k < |r| ==> r[j] != r[k]
  {
    Dedup(a + b)
  }

  function Dedup(xs: Scopes): (r: Scopes)
    ensures forall x :: x in r <==> x in xs
    ensures forall j, k :: 0 <= j < k < |r| ==> r[j] != r[k]
  {
    if xs == [] then []
    else
      var n := |xs| - 1;
      var front := Dedup(xs[..n]);
      assert xs == xs[..n] + [xs[n]];
      if xs[n] in xs[..n] then front else front + [xs[n]]
  }

  // Scopes a client may have: its whole list when it asks for none.
  function ClientScopes(registered: Scopes, requested: Scopes): (r: Scopes)
    ensures Within(r, registered)
    ensures requested != [] ==> forall x :: x in r <==> x in requested && x in registered
  {
    if requested == [] then registered else Filter(requested, Elements(registered))
  }

  method FilterScopes(requested: Scopes, allowed: Scopes) returns (r: Scopes)
    ensures r == Filter(requested, Elements(allowed))
    ensures forall x :: x in r <==> x in requested && x in allowed
  {
    var members := NameSet(allowed);
    r := [];
    for i := 0 to |requested|
      invariant r == Filter(requested[..i], Elements(allowed))
    {
      assert requested[..i + 1][..i] == requested[..i];
      if requested[i] in members {
        r := r + [requested[i]];
      }
    }
    assert requested[..|requested|] == requested;
  }

  lemma DedupSnoc(xs: Scopes, x: string)
    ensures Dedup(xs + [x]) == if x in xs then Dedup(xs) else Dedup(xs) + [x]
    ensures Elements(xs + [x]) == Elements(xs) + {x}
  {
    assert (xs + [x])[..|xs|] == xs;
  }

  // One turn of either loop below: done is what has been scanned so far.
  method AddUnseen(ghost done: Scopes, seen: map<string, bool>, r: Scopes, x: string)
    returns (seen': map<string, bool>, r': Scopes)
    requires seen.Keys == Elements(done) && r == Dedup(done)
    ensures seen'.Keys == Elements(done + [x]) && r' == Dedup(done + [x])
  {
    DedupSnoc(done, x);
    if x in seen {
      return seen, r;
    }
    return seen[x := true], r + [x];
  }

  method UnionScopes(a: Scopes, b: Scopes) returns (r: Scopes)
    ensures r == Union(a, b)
  {
    var seen: map<string, bool> := map[];
    r := [];
    for i := 0 to |a|
      invariant seen.Keys == Elements(a[..i]) && r == Dedup(a[..i])
    {
      assert a[..i + 1] == a[..i] + [a[i]];
      seen, r := AddUnseen(a[..i], seen, r, a[i]);
    }
    assert a[..|a|] == a && a + b[..0] == a;
    for i := 0 to |b|
      invariant seen.Keys == Elements(a + b[..i]) && r == Dedup(a + b[..i])
    {
      assert a + b[..i + 1] == a + b[..i] + [b[i]];
      seen, r := AddUnseen(a + b[..i], seen, r, b[i]);
    }
    assert b[..|b|] == b;
  }

  // What a policy leaves of a list: the one-way intersection.
  method KeepAllowed(scopes: Scopes, allowed: set<string>) returns (r: Scopes)
    ensures r == Filter(scopes, allowed)
  {
    r := [];
    for i := 0 to |scopes|
      invariant r == Filter(scopes[..i], allowed)
    {
      FilterSnoc(scopes, i, allowed);
      if scopes[i] in allowed {
        r := r + [scopes[i]];
      }
    }
    assert scopes[..|scopes|] == scopes;
  }

  lemma FilterSnoc(xs: Scopes, i: nat, allowed: set<string>)
    requires i < |xs|
    ensures xs[i] in xs
    ensures Filter(xs[..i + 1], allowed) ==
            Filter(xs[..i], allowed) + (if xs[i] in allowed then [xs[i]] else [])
  {
    assert xs[..i + 1][..i] == xs[..i];
  }

  method NameSet(names: Scopes) returns (members: map<string, bool>)
    ensures members.Keys == Elements(names)
  {
    members := map[];
    for i := 0 to |names|
      invariant members.Keys == Elements(names[..i])
    {
      members := members[names[i] := true];
    }
    assert names[..|names|] == names;
  }

  // Partition by the permissions a resource declares, keeping the order.
  method SplitResourceScopes(scopes: Scopes, perms: Scopes) returns (resource: Scopes, other: Scopes)
    ensures resource == Filter(scopes, Elements(perms))
    ensures other == Filter(scopes, Elements(scopes) - Elements(perms))
    ensures forall x :: x in scopes <==> x in resource || x in other
  {
    FilterAll(scopes, Elements(scopes) - Elements(perms));
    if perms == [] {
      FilterNone(scopes);
      assert Elements(perms) == {};
      return [], scopes;
    }
    var names := NameSet(perms);
    ghost var inside, outside := Elements(perms), Elements(scopes) - Elements(perms);
    resource, other := [], [];
    for i := 0 to |scopes|
      invariant resource == Filter(scopes[..i], inside) && other == Filter(scopes[..i], outside)
    {
      FilterSnoc(scopes, i, inside);
      FilterSnoc(scopes, i, outside);
      if scopes[i] in names {
        resource := resource + [scopes[i]];
      } else {
        other := other + [scopes[i]];
      }
    }
    assert scopes[..|scopes|] == scopes;
  }

  lemma {:induction false} FilterAll(xs: Scopes, allowed: set<string>)
    ensures Elements(xs) <= allowed ==> Filter(xs, allowed) == xs
  {
    if xs != [] {
      FilterAll(xs[..|xs| - 1], allowed);
      assert xs == xs[..|xs| - 1] + [xs[|xs| - 1]];
    }
  }

  lemma {:induction false} FilterNone(xs: Scopes)
    ensures Filter(xs, {}) == []
  {
    if xs != [] {
      FilterNone(xs[..|xs| - 1]);
    }
  }

  method HasScope(registered: Scopes, scope: string) returns (found: bool)
    ensures found <==> scope in registered
  {
    for i := 0 to |registered|
      invariant scope !in registered[..i]
    {
      if registered[i] == scope {
        return true;
      }
    }
    return false;
  }

  method ValidateScopes(registered: Scopes, requested: Scopes) returns (r: Scopes)
    ensures r == ClientScopes(registered, requested)
  {
    if requested == [] {
      return registered;
    }
    r := [];
    for i := 0 to |requested|
      invariant r == Filter(requested[..i], Elements(registered))
    {
      assert requested[..i + 1][..i] == requested[..i];
      var ok := HasScope(registered, requested[i]);
      if ok {
        r := r + [requested[i]];
      }
    }
    assert requested[..|requested|] == requested;
  }

  // A consent covers a request when it holds every scope asked for.
  method CoversScopes(consented: Scopes, requested: Scopes) returns (covers: bool)
    ensures covers <==> Within(requested, consented)
  {
    var members := NameSet(consented);
    for i := 0 to |requested|
      invariant Within(requested[..i], consented)
    {
      if requested[i] !in members {
        return false;
      }
    }
    return true;
  }
}
