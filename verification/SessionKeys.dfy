/**
 The string keys of the node's tables.  `id|node` keys identify their pair, and a suffix
 match recovers exactly one node's ids; `key|participants` keys identify the key and the
 set of participants, whatever order the participants are listed in.
 */
module SessionKeys {
  import opened Strings

  // ---- id|node ----

  function Compose(id: string, node: string): string { id + "|" + node }

  predicate HasSuffix(s: string, suffix: string) {
    |suffix| <= |s| && s[|s| - |suffix|..] == suffix
  }

  // listStartingTaskIDs and its siblings over the keys of a table.
  function ListTaskIDs(keys: set<string>, node: string): set<string> {
    set k | k in keys && HasSuffix(k, "|" + node) :: k[..|k| - |node| - 1]
  }

  lemma SuffixMeansNode(id: string, node: string, other: string)
    requires Free(node, '|') && Free(other, '|')
    ensures HasSuffix(Compose(id, node), "|" + other) <==> node == other
  {
    var key, suffix := Compose(id, node), "|" + other;
    if |suffix| <= |key| {
      var tail := key[|key| - |suffix|..];
      if |node| < |other| {
        assert tail[|other| - |node|] == '|' && suffix[|other| - |node|] == other[|other| - |node| - 1];
      } else if |node| > |other| {
        assert tail[0] == node[|node| - |other| - 1];
      } else {
        assert tail == "|" + node;
        assert node == tail[1..] && other == suffix[1..];
      }
    }
  }

  // Pairs and their composed keys identify each other.
  lemma ComposedKeys(id: string, node: string, id': string, node': string)
    requires Free(node, '|') && Free(node', '|')
    ensures Compose(id, node) == Compose(id', node') <==> id == id' && node == node'
  {
    if Compose(id, node) == Compose(id', node') {
      assert HasSuffix(Compose(id', node'), "|" + node') by { SuffixMeansNode(id', node', node'); }
      SuffixMeansNode(id, node, node');
      assert id == Compose(id, node)[..|id|] == Compose(id', node')[..|id'|];
    }
  }

  // The suffix match lists exactly this node's task ids, whatever characters they contain.
  lemma SuffixListsOwnTasks(pairs: set<(string, string)>, node: string)
    requires Free(node, '|') && forall p :: p in pairs ==> Free(p.1, '|')
    ensures ListTaskIDs(set p | p in pairs :: Compose(p.0, p.1), node) == set p | p in pairs && p.1 == node :: p.0
  {
    var keys := set p | p in pairs :: Compose(p.0, p.1);
    forall t ensures t in ListTaskIDs(keys, node) <==> t in (set p | p in pairs && p.1 == node :: p.0) {
      if t in ListTaskIDs(keys, node) {
        var k :| k in keys && HasSuffix(k, "|" + node) && t == k[..|k| - |node| - 1];
        var p :| p in pairs && k == Compose(p.0, p.1);
        SuffixMeansNode(p.0, p.1, node);
        assert t == p.0;
      }
      if t in (set p | p in pairs && p.1 == node :: p.0) {
        var p :| p in pairs && p.1 == node && p.0 == t;
        SuffixMeansNode(t, node, node);
        var k := Compose(t, node);
        assert k in keys && k[..|k| - |node| - 1] == t;
      }
    }
  }

  // ---- Sorted participants ----

  // The byte-wise order of sort.Strings.
  predicate Leq(a: string, b: string) {
    a == "" || (b != "" && (a[0] < b[0] || (a[0] == b[0] && Leq(a[1..], b[1..]))))
  }

  lemma {:induction false} LeqTotal(a: string, b: string)
    ensures Leq(a, b) || Leq(b, a)
    ensures Leq(a, b) && Leq(b, a) ==> a == b
  {
    if a != "" && b != "" && a[0] == b[0] {
      LeqTotal(a[1..], b[1..]);
      assert a == [a[0]] + a[1..] && b == [b[0]] + b[1..];
    }
  }

  lemma {:induction false} LeqTransitive(a: string, b: string, c: string)
    requires Leq(a, b) && Leq(b, c)
    ensures Leq(a, c)
  {
    if a != "" && a[0] == b[0] == c[0] {
      LeqTransitive(a[1..], b[1..], c[1..]);
    }
  }

  // The strings agree up to place i, where the first ends or has the smaller character.
  ghost predicate DiffersAt(a: string, b: string, i: nat) {
    i <= |a| && i <= |b| && a[..i] == b[..i] && (i == |a| || (i < |b| && a[i] < b[i]))
  }

  // The order of a dictionary: a prefix comes first, and else the first difference decides.
  lemma {:induction false} LeqIsDictionary(a: string, b: string)
    ensures Leq(a, b) <==> exists i: nat :: DiffersAt(a, b, i)
  {
    if a == "" {
      assert DiffersAt(a, b, 0);
    } else if b != "" && a[0] == b[0] {
      LeqIsDictionary(a[1..], b[1..]);
      if i: nat :| DiffersAt(a[1..], b[1..], i) {
        assert a[..i + 1] == [a[0]] + a[1..][..i] && b[..i + 1] == [b[0]] + b[1..][..i];
        assert DiffersAt(a, b, i + 1);
      }
      if i: nat :| DiffersAt(a, b, i) {
        assert a[1..][..i - 1] == a[..i][1..] && b[1..][..i - 1] == b[..i][1..];
        assert DiffersAt(a[1..], b[1..], i - 1);
      }
    } else if b != "" {
      if a[0] < b[0] { assert DiffersAt(a, b, 0); }
      forall i: nat | 0 < i <= |a| && i <= |b| ensures a[..i] != b[..i] {
        assert a[..i][0] == a[0] && b[..i][0] == b[0];
      }
    }
  }

  ghost predicate InOrder(ids: seq<string>) {
    forall i, j :: 0 <= i < j < |ids| ==> Leq(ids[i], ids[j])
  }

  function Insert(id: string, ids: seq<string>): seq<string> {
    if ids == [] || Leq(id, ids[0]) then [id] + ids else [ids[0]] + Insert(id, ids[1..])
  }

  // SortedNodeIDs: what sort.Strings leaves in the copy (see SortingIsUnique).
  function Sorted(ids: seq<string>): seq<string> {
    if ids == [] then [] else Insert(ids[0], Sorted(ids[1..]))
  }

  lemma {:induction false} InsertAdds(id: string, ids: seq<string>)
    ensures multiset(Insert(id, ids)) == multiset(ids) + multiset{id}
  {
    if ids != [] && !Leq(id, ids[0]) {
      InsertAdds(id, ids[1..]);
      assert ids == [ids[0]] + ids[1..];
    }
  }

  lemma FrontInOrder(first: string, rest: seq<string>)
    requires InOrder(rest) && forall x :: x in rest ==> Leq(first, x)
    ensures InOrder([first] + rest)
  {
    var ids := [first] + rest;
    forall i, j | 0 <= i < j < |ids| ensures Leq(ids[i], ids[j]) {
      assert ids[j] == rest[j - 1];
      if i > 0 { assert ids[i] == rest[i - 1]; }
    }
  }

  lemma {:induction false} InsertSorts(id: string, ids: seq<string>)
    requires InOrder(ids)
    ensures InOrder(Insert(id, ids)) && multiset(Insert(id, ids)) == multiset(ids) + multiset{id}
  {
    InsertAdds(id, ids);
    if ids == [] {
    } else if Leq(id, ids[0]) {
      forall j | 0 <= j < |ids| ensures Leq(id, ids[j]) {
        if j > 0 { LeqTransitive(id, ids[0], ids[j]); }
      }
      FrontInOrder(id, ids);
    } else {
      LeqTotal(id, ids[0]);
      InsertSorts(id, ids[1..]);
      var rest := Insert(id, ids[1..]);
      forall x | x in rest ensures Leq(ids[0], x) {
        assert x in multiset(rest);
        assert x == id || x in ids[1..];
      }
      FrontInOrder(ids[0], rest);
    }
  }

  lemma {:induction false} SortedSorts(ids: seq<string>)
    ensures InOrder(Sorted(ids)) && multiset(Sorted(ids)) == multiset(ids)
  {
    if ids != [] {
      SortedSorts(ids[1..]);
      InsertSorts(ids[0], Sorted(ids[1..]));
      assert ids == [ids[0]] + ids[1..];
    }
  }

  lemma FirstIsLeast(a: seq<string>, x: string)
    requires InOrder(a) && x in a
    ensures Leq(a[0], x)
  {
    var i :| 0 <= i < |a| && a[i] == x;
    if i == 0 { LeqTotal(x, x); }
  }

  lemma FirstsAgree(a: seq<string>, b: seq<string>)
    requires InOrder(a) && InOrder(b) && multiset(a) == multiset(b) && a != []
    ensures b != [] && a[0] == b[0]
  {
    assert a[0] in multiset(b);
    assert b[0] in multiset(a);
    FirstIsLeast(a, b[0]);
    FirstIsLeast(b, a[0]);
    LeqTotal(a[0], b[0]);
  }

  // Any two sorted lists with the same elements are equal, so every sorting routine
  // returns `Sorted`.
  lemma {:induction false} SortingIsUnique(a: seq<string>, b: seq<string>)
    requires InOrder(a) && InOrder(b) && multiset(a) == multiset(b)
    ensures a == b
  {
    if a == [] {
      assert |multiset(b)| == |b|;
    } else {
      FirstsAgree(a, b);
      assert a == [a[0]] + a[1..] && b == [b[0]] + b[1..];
      assert multiset(a[1..]) == multiset(a) - multiset{a[0]} == multiset(b[1..]);
      SortingIsUnique(a[1..], b[1..]);
    }
  }

  // ---- key|participants and key|participants|self ----

  // RefreshSessionKey and ecdsaWarmSessionKey
  function RefreshSessionKey(keyID: string, participants: seq<string>): string {
    keyID + "|" + Join(Sorted(participants), ',')
  }

  function MaterialSessionKey(keyID: string, self: string, participants: seq<string>): string {
    RefreshSessionKey(keyID, Sorted(participants)) + "|" + self
  }

  ghost predicate NodeIDs(ids: seq<string>) {
    forall i :: 0 <= i < |ids| ==> ids[i] != "" && Free(ids[i], ',') && Free(ids[i], '|')
  }

  lemma SortedNodes(ids: seq<string>)
    requires NodeIDs(ids)
    ensures NodeIDs(Sorted(ids)) && |Sorted(ids)| == |ids|
  {
    SortedSorts(ids);
    forall i | 0 <= i < |Sorted(ids)| ensures Sorted(ids)[i] in ids {
      assert Sorted(ids)[i] in multiset(Sorted(ids));
    }
    assert |multiset(ids)| == |ids| && |multiset(Sorted(ids))| == |Sorted(ids)|;
  }

  lemma {:induction false} JoinFreeOfBar(ids: seq<string>)
    requires NodeIDs(ids)
    ensures Free(Join(ids, ','), '|') && (ids != [] ==> Join(ids, ',') != "")
  {
    if |ids| > 1 { JoinFreeOfBar(ids[1..]); }
  }

  // Sorted lists joined by commas agree exactly when the lists are permutations.
  lemma JoinedIffPermutation(a: seq<string>, b: seq<string>)
    requires NodeIDs(a) && NodeIDs(b)
    ensures Join(Sorted(a), ',') == Join(Sorted(b), ',') <==> multiset(a) == multiset(b)
  {
    SortedNodes(a); SortedNodes(b);
    SortedSorts(a); SortedSorts(b);
    JoinFreeOfBar(Sorted(a)); JoinFreeOfBar(Sorted(b));
    if multiset(a) == multiset(b) { SortingIsUnique(Sorted(a), Sorted(b)); }
    if Join(Sorted(a), ',') == Join(Sorted(b), ',') && Sorted(a) != [] && Sorted(b) != [] {
      JoinInjective(Sorted(a), Sorted(b), ',');
    }
  }

  // Two refresh keys agree exactly when the key ids agree and the participants are a
  // permutation of each other.
  lemma RefreshKeyIdentifies(k: string, a: seq<string>, k': string, b: seq<string>)
    requires Free(k, '|') && Free(k', '|') && NodeIDs(a) && NodeIDs(b)
    ensures RefreshSessionKey(k, a) == RefreshSessionKey(k', b) <==> k == k' && multiset(a) == multiset(b)
  {
    var ja, jb := Join(Sorted(a), ','), Join(Sorted(b), ',');
    JoinedIffPermutation(a, b);
    SplitAtSeparator(k, ja, '|');
    SplitAtSeparator(k', jb, '|');
    if RefreshSessionKey(k, a) == RefreshSessionKey(k', b) {
      assert k == Split(RefreshSessionKey(k, a), '|')[0] == k';
      assert ja == RefreshSessionKey(k, a)[|k| + 1..] == jb;
    }
  }

  // Two material keys agree exactly when key id, own node and participants do.
  lemma MaterialKeyIdentifies(k: string, self: string, a: seq<string>, k': string, self': string, b: seq<string>)
    requires Free(k, '|') && Free(k', '|') && NodeIDs(a) && NodeIDs(b) && Free(self, '|') && Free(self', '|')
    ensures MaterialSessionKey(k, self, a) == MaterialSessionKey(k', self', b)
            <==> k == k' && self == self' && multiset(a) == multiset(b)
  {
    SortedNodes(a); SortedNodes(b);
    SortedSorts(a); SortedSorts(b);
    ComposedKeys(RefreshSessionKey(k, Sorted(a)), self, RefreshSessionKey(k', Sorted(b)), self');
    RefreshKeyIdentifies(k, Sorted(a), k', Sorted(b));
  }
}
