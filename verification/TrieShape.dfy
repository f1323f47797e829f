/** How many nodes the topic trie keeps, and what the result of `remove` says: properties of
    runs of add and remove, in which pruning leaves no useless node behind. */
module TrieShape {
  import opened Topics
  import opened TrieSpec

  /** Every leaf but the root holds a subscription. */
  ghost predicate Pruned(c: Content) {
    forall p :: p in c && p != [] ==> c[p] != [] || HasChild(c, p)
  }

  lemma ExtensionChild(c: Content, p: Path, q: Path) returns (t: string)
    requires IsTree(c) && q in c && p <= q && p != q
    ensures Child(p, t) in c && Child(p, t) <= q
  {
    t := q[|p|];
    PrefixIn(c, q, Child(p, t));
  }

  lemma PrunedInsert(c: Content, path: Path, sub: Subscription)
    requires IsTree(c) && Pruned(c)
    ensures Pruned(Insert(c, path, sub))
  {
    var d := Insert(c, path, sub);
    forall p | p in d && p != [] ensures d[p] != [] || HasChild(d, p) {
      if p in c {
        InsertKeepsChild(c, path, sub, p);
      } else {
        InsertedHasChild(c, path, sub, p);
      }
    }
  }

  lemma InsertKeepsChild(c: Content, path: Path, sub: Subscription, p: Path)
    requires p in c && (c[p] != [] || HasChild(c, p))
    ensures var d := Insert(c, path, sub); d[p] != [] || HasChild(d, p)
  {
    if c[p] == [] {
      var t :| Child(p, t) in c;
      assert Child(p, t) in Insert(c, path, sub);
    }
  }

  lemma InsertedHasChild(c: Content, path: Path, sub: Subscription, p: Path)
    requires p !in c && p in Insert(c, path, sub)
    ensures var d := Insert(c, path, sub); d[p] != [] || HasChild(d, p)
  {
    if p != path {
      PrefixesOf(path, p);
      PrefixesOf(path, Child(p, path[|p|]));
      assert Child(p, path[|p|]) in Insert(c, path, sub);
    }
  }

  lemma PrunedRemoved(c: Content, path: Path)
    requires IsTree(c) && Pruned(c)
    ensures Pruned(Removed(c, path))
  {
    var d := Removed(c, path);
    if path in c {
      forall p | p in d && p != [] ensures d[p] != [] || HasChild(d, p) {
        if p == path || c[p] == [] {
          var r := LiveBelow(c, path, p);
          var t := ExtensionChild(c, p, r);
          if Dead(c, path, Child(p, t)) {
            assert false;
          }
          assert Child(p, t) in d;
        }
      }
    }
  }

  /** A surviving node with an empty list has a node below it that survives because of a
      subscription or because it leads off the removed path. */
  lemma LiveBelow(c: Content, path: Path, p: Path) returns (r: Path)
    requires IsTree(c) && Pruned(c) && path in c
    requires p in c && p != [] && !Dead(c, path, p) && (p == path || c[p] == [])
    ensures r in c && p <= r && p != r && !(r <= path && (r == path || c[r] == []))
  {
    if p <= path {
      r :| r in c && p <= r && !(r <= path && (r == path || c[r] == []));
    } else {
      var t :| Child(p, t) in c;
      r := Child(p, t);
      assert r[..|p|] == p;
    }
  }

  ghost predicate AddRemoveOnly(ops: seq<Op>) {
    forall i :: 0 <= i < |ops| ==> !ops[i].Clear?
  }

  lemma {:induction false} RunPruned(ops: seq<Op>)
    requires AddRemoveOnly(ops)
    ensures Pruned(Run(ops))
  {
    if ops != [] {
      var most := ops[..|ops| - 1];
      RunPruned(most);
      RunRepresents(EMPTY, [], most);
      match ops[|ops| - 1]
      case Add(s) => PrunedInsert(Run(most), Tokenize(s.topic), s);
      case Remove(t) => PrunedRemoved(Run(most), Tokenize(t));
    }
  }

  /** In a pruned trie every node but the root lies on the path of a stored filter. */
  lemma {:induction false} LeadsToFilter(c: Content, p: Path) returns (q: Path)
    requires IsTree(c) && Pruned(c) && p in c && p != []
    ensures q in c && p <= q && c[q] != []
    decreases set r | r in c && p <= r
  {
    if c[p] != [] {
      q := p;
    } else {
      var t :| Child(p, t) in c;
      assert Child(p, t)[..|p|] == p;
      var here, below := set r | r in c && p <= r, set r | r in c && Child(p, t) <= r;
      assert below <= here && p in here && p !in below;
      q := LeadsToFilter(c, Child(p, t));
    }
  }

  /** After adds and removes alone, `remove` reports true exactly for the prefixes of the
      stored filters. */
  lemma RemoveResult(ops: seq<Op>, path: Path)
    requires AddRemoveOnly(ops) && path != []
    ensures path in Run(ops) <==> exists s :: s in RunFlat(ops) && path <= Tokenize(s.topic)
  {
    RunPruned(ops);
    RunRepresents(EMPTY, [], ops);
    var c, log := Run(ops), RunFlat(ops);
    if path in c {
      var q := LeadsToFilter(c, path);
      var s := c[q][0];
      assert Tokenize(s.topic) == q;
      OnTopicIn(log, s.topic, s);
    }
    forall s | s in log && path <= Tokenize(s.topic) ensures path in c {
      OnTopicIn(log, s.topic, s);
      assert Held(c, Tokenize(s.topic)) != [];
      PrefixIn(c, Tokenize(s.topic), path);
    }
  }

  lemma {:induction false} OnTopicIn(log: seq<Subscription>, t: string, s: Subscription)
    ensures s in OnTopic(log, t) <==> s in log && s.topic == t
  {
    if log != [] {
      OnTopicIn(log[1..], t, s);
      assert s in log <==> s == log[0] || s in log[1..];
    }
  }

  // ----- Node count -----

  function Levels(filters: seq<Path>): nat {
    if filters == [] then 0 else |filters[0]| + Levels(filters[1..])
  }

  function Below(filters: seq<Path>): set<Path> {
    if filters == [] then {} else Prefixes(filters[0]) - {[]} + Below(filters[1..])
  }

  lemma {:induction false} PrefixCount(f: Path)
    ensures |Prefixes(f) - {[]}| <= |f|
  {
    if f == [] {
      assert Prefixes(f) - {[]} == {} by {
        forall p | p in Prefixes(f) ensures p == [] { PrefixesOf(f, p); }
      }
    } else {
      var g := f[..|f| - 1];
      PrefixCount(g);
      assert Prefixes(f) - {[]} <= (Prefixes(g) - {[]}) + {f} by {
        forall p | p in Prefixes(f) && p != f ensures p in Prefixes(g) {
          PrefixesOf(f, p);
          PrefixesOf(g, p);
        }
      }
      SubsetSize(Prefixes(f) - {[]}, (Prefixes(g) - {[]}) + {f});
    }
  }

  lemma {:induction false} BelowCount(filters: seq<Path>)
    ensures |Below(filters)| <= Levels(filters)
  {
    if filters != [] {
      BelowCount(filters[1..]);
      PrefixCount(filters[0]);
    }
  }

  lemma {:induction false} InBelow(filters: seq<Path>, f: Path, p: Path)
    requires f in filters && p <= f && p != []
    ensures p in Below(filters)
  {
    if f == filters[0] {
      PrefixesOf(f, p);
    } else {
      InBelow(filters[1..], f, p);
    }
  }

  /** After adds and removes alone, the trie has at most one node per level of the stored
      filters, and the root. */
  lemma NodeCount(ops: seq<Op>, filters: seq<Path>)
    requires AddRemoveOnly(ops)
    requires forall s :: s in RunFlat(ops) ==> Tokenize(s.topic) in filters
    ensures |Run(ops)| <= 1 + Levels(filters)
  {
    var c := Run(ops);
    RunRepresents(EMPTY, [], ops);
    RunPruned(ops);
    forall p | p in c && p != [] ensures p in Below(filters) {
      var q := LeadsToFilter(c, p);
      var s := c[q][0];
      assert Tokenize(s.topic) == q;
      OnTopicIn(RunFlat(ops), s.topic, s);
      InBelow(filters, q, p);
    }
    SubsetSize(c.Keys, {[]} + Below(filters));
    BelowCount(filters);
  }

  /** `clear` keeps the nodes, so the same claims fail after it. */
  lemma ClearKeepsNodes(s: Subscription)
    ensures Run([Add(s), Clear]).Keys == Run([Add(s)]).Keys
    ensures RunFlat([Add(s), Clear]) == []
    ensures !Pruned(Run([Add(s), Clear]))
  {
    var ops := [Add(s), Clear];
    var path := Tokenize(s.topic);
    assert ops[..1] == [Add(s)] && ops[..1][..0] == [];
    var c := Run(ops[..1]);
    assert c == Apply(RunFrom(EMPTY, []), Add(s)) by { assert ops[..1][0] == Add(s); }
    PrefixesOf(path, path);
    assert path in Cleared(c) && Cleared(c)[path] == [];
    forall t | Child(path, t) in c ensures false {
      PrefixesOf(path, Child(path, t));
    }
  }
}
