/** The heap trie of `src/topic_trie.rs`: nodes shared by reference and updated in place.
    `nodes` records which node object stands at which path; it is one-to-one, so no node
    has two parents, and `Content` reads the lists off the nodes. */
module TopicTrie {
  import opened Topics
  import opened TrieSpec

  class TrieNode {
    var children: map<string, TrieNode>
    var subscriptions: seq<Subscription>

    constructor ()
      ensures children == map[] && subscriptions == []
    {
      children, subscriptions := map[], [];
    }
  }

  lemma ChildParts()
    ensures forall p, t {:trigger Child(p, t)} ::
              Child(p, t) != [] && Parent(Child(p, t)) == p && Child(p, t)[|p|] == t && p <= Child(p, t)
  {
  }

  class MqttTopicTrie {
    const root: TrieNode
    ghost var nodes: map<Path, TrieNode>

    ghost function Repr(): set<object>
      reads this
    {
      {this} + nodes.Values
    }

    /** Every path is reached from the root along child links, and no node is shared. */
    ghost predicate Valid()
      reads this, nodes.Values
    {
      && [] in nodes && nodes[[]] == root
      && (forall p {:trigger Parent(p)} :: p in nodes && p != [] ==> Parent(p) in nodes)
      && (forall p, t :: p in nodes ==> Linked(p, t))
      && (forall p, q :: p in nodes && q in nodes && nodes[p] == nodes[q] ==> p == q)
    }

    ghost predicate Linked(p: Path, t: string)
      requires p in nodes
      reads this, nodes.Values
    {
      && (t in nodes[p].children <==> Child(p, t) in nodes)
      && (t in nodes[p].children ==> nodes[p].children[t] == nodes[Child(p, t)])
    }

    ghost function Content(): (c: Content)
      reads this, nodes.Values
    {
      map p | p in nodes :: nodes[p].subscriptions
    }

    lemma ContentTree()
      requires Valid()
      ensures IsTree(Content())
    {
    }

    constructor ()
      ensures Valid() && fresh(Repr()) && Content() == EMPTY
    {
      root := new TrieNode();
      new;
      nodes := map[[] := root];
      ChildParts();
      forall p, t | p in nodes ensures Linked(p, t) {
        assert Child(p, t) != [];
      }
    }

    /** The child of `current` under `token`, created if there is none. */
    method ChildEntry(current: TrieNode, token: string, ghost p: Path) returns (next: TrieNode)
      requires Valid() && p in nodes && nodes[p] == current
      modifies this, current
      ensures Valid() && old(Repr()) <= Repr() && fresh(Repr() - old(Repr()))
      ensures Child(p, token) in nodes && nodes[Child(p, token)] == next
      ensures Content() == WithNode(old(Content()), Child(p, token))
    {
      ghost var q := Child(p, token);
      assert Linked(p, token);
      if token in current.children {
        next := current.children[token];
      } else {
        next := new TrieNode();
        ghost var was := nodes;
        current.children := current.children[token := next];
        nodes := nodes[q := next];
        assert was.Values <= nodes.Values by {
          forall r | r in was ensures was[r] in nodes.Values { assert nodes[r] == was[r]; }
        }
        ChildParts();
        forall r, t | r in nodes ensures Linked(r, t) {
          if r in was {
            assert old(Linked(r, t));
          } else {
            assert Parent(Child(r, t)) == q;
          }
        }
      }
    }

    method SetSubscriptions(node: TrieNode, subs: seq<Subscription>, ghost p: Path)
      requires Valid() && p in nodes && nodes[p] == node
      modifies node`subscriptions
      ensures Valid() && Content() == old(Content())[p := subs]
    {
      node.subscriptions := subs;
      assert forall q, t :: q in nodes ==> old(Linked(q, t)) && Linked(q, t);
    }

    method Insert(sub: Subscription, topicTokens: Path)
      requires Valid()
      modifies Repr()
      ensures Valid() && fresh(Repr() - old(Repr()))
      ensures Content() == TrieSpec.Insert(old(Content()), topicTokens, sub)
    {
      var current := root;
      ghost var before := Content();
      assert topicTokens[..0] == [];
      WithPathStart(before);
      for i := 0 to |topicTokens|
        invariant Valid() && old(Repr()) <= Repr() && fresh(Repr() - old(Repr()))
        invariant topicTokens[..i] in nodes && nodes[topicTokens[..i]] == current
        invariant Content() == WithPath(before, topicTokens[..i])
      {
        WithPathStep(before, topicTokens, i);
        current := ChildEntry(current, topicTokens[i], topicTokens[..i]);
      }
      assert topicTokens[..|topicTokens|] == topicTokens;
      InsertIsPush(before, topicTokens, sub);
      SetSubscriptions(current, current.subscriptions + [sub], topicTokens);
    }

    /** Takes the child under `token` away if it has no children and no subscriptions. */
    method PruneChild(node: TrieNode, token: string, ghost p: Path)
      requires Valid() && p in nodes && nodes[p] == node
      modifies this, node
      ensures Valid() && nodes.Keys <= old(nodes).Keys
      ensures forall q :: q in nodes ==> nodes[q] == old(nodes)[q]
      ensures Content() == WithoutLeaf(old(Content()), Child(p, token))
    {
      ghost var q := Child(p, token);
      assert Linked(p, token);
      var removeChild := false;
      if token in node.children {
        var child := node.children[token];
        removeChild := child.children == map[] && child.subscriptions == [];
        assert child.children == map[] <==> !HasChild(Content(), q) by {
          assert child == nodes[q] && q in nodes;
          forall t ensures t in child.children <==> Child(q, t) in Content() {
            assert Linked(q, t);
          }
        }
      }
      if removeChild {
        node.children := node.children - {token};
        nodes := nodes - {q};
        ChildParts();
        forall r | r in nodes && r != [] ensures Parent(r) in nodes {
          assert r == Child(Parent(r), r[|r| - 1]);
        }
        forall r, t | r in nodes ensures Linked(r, t) {
          assert old(Linked(r, t));
        }
      }
    }

    /** Prunes the nodes visited on the way down, deepest first. */
    method CleanUp(toCleanUp: seq<(TrieNode, string)>, ghost topicTokens: Path, ghost before: Content)
      requires Valid() && IsTree(before) && topicTokens in before
      requires Content() == PartlyRemoved(before, topicTokens, |topicTokens|)
      requires |toCleanUp| == |topicTokens| && OnPath(toCleanUp, topicTokens, |topicTokens|)
      modifies Repr()
      ensures Valid() && Repr() <= old(Repr())
      ensures Content() == Removed(before, topicTokens)
    {
      for i := |toCleanUp| downto 0
        invariant Valid() && Repr() <= old(Repr())
        invariant OnPath(toCleanUp, topicTokens, i)
        invariant Content() == PartlyRemoved(before, topicTokens, i)
      {
        var (node, token) := toCleanUp[i];
        PruneStep(before, topicTokens, i + 1);
        ghost var was := nodes;
        assert OnPath(toCleanUp, topicTokens, i + 1);
        PruneChild(node, token, topicTokens[..i]);
        forall k | 0 <= k < i
          ensures topicTokens[..k] in nodes && nodes[topicTokens[..k]] == toCleanUp[k].0
        {
          KeptAbove(before, topicTokens, i, k);
          assert topicTokens[..k] in Content();
        }
      }
    }

    method Remove(topicTokens: Path) returns (found: bool)
      requires Valid()
      modifies Repr()
      ensures Valid() && Repr() <= old(Repr())
      ensures found == (topicTokens in old(Content()))
      ensures Content() == Removed(old(Content()), topicTokens)
    {
      var current := root;
      var toCleanUp: seq<(TrieNode, string)> := [];
      ghost var before := Content();
      assert topicTokens[..0] == [];
      for i := 0 to |topicTokens|
        invariant topicTokens[..i] in nodes && nodes[topicTokens[..i]] == current
        invariant |toCleanUp| == i && OnPath(toCleanUp, topicTokens, i)
      {
        var token := topicTokens[i];
        assert Child(topicTokens[..i], token) == topicTokens[..i + 1];
        assert Linked(topicTokens[..i], token);
        if token !in current.children {
          NotBelow(before, topicTokens, i + 1);
          return false;
        }
        toCleanUp := toCleanUp + [(current, token)];
        current := current.children[token];
      }
      assert topicTokens[..|topicTokens|] == topicTokens;
      SetSubscriptions(current, [], topicTokens);
      CleanUp(toCleanUp, topicTokens, before);
      return true;
    }

    method GetMatchingSubscriptions(topicTokens: Path) returns (matching: seq<Subscription>)
      requires Valid()
      ensures matching == MatchFrom(Content(), [], topicTokens)
    {
      matching := MatchTopic(root, topicTokens, 0, [], []);
      assert topicTokens[0..] == topicTokens;
    }

    /** Appends what is found below `node` to the subscriptions matched so far. */
    method MatchTopic(node: TrieNode, tokens: Path, level: nat, soFar: seq<Subscription>, ghost p: Path)
      returns (matching: seq<Subscription>)
      requires Valid() && p in nodes && nodes[p] == node && level <= |tokens|
      ensures matching == soFar + MatchFrom(Content(), p, tokens[level..])
      decreases |tokens| - level, 0
    {
      if level == |tokens| {
        return soFar + node.subscriptions;
      }
      var token := tokens[level];
      matching := MatchBelow(node, token, tokens, level + 1, soFar, p);
      matching := MatchBelow(node, "+", tokens, level + 1, matching, p);
      assert Linked(p, "#");
      if "#" in node.children {
        matching := matching + node.children["#"].subscriptions;
      }
      MatchStep(Content(), p, tokens, level, soFar);
    }

    /** Continues at the child under `token`, if there is one. */
    method MatchBelow(node: TrieNode, token: string, tokens: Path, level: nat, soFar: seq<Subscription>,
                      ghost p: Path)
      returns (matching: seq<Subscription>)
      requires Valid() && p in nodes && nodes[p] == node && level <= |tokens|
      ensures matching == soFar + MatchFrom(Content(), Child(p, token), tokens[level..])
      decreases |tokens| - level, 1
    {
      assert Linked(p, token);
      matching := soFar;
      if token in node.children {
        matching := MatchTopic(node.children[token], tokens, level, soFar, Child(p, token));
      }
    }

    method Clear()
      requires Valid()
      modifies Repr()
      ensures Valid() && Repr() == old(Repr())
      ensures Content() == Cleared(old(Content()))
    {
      ClearNode(root, []);
    }

    /** Empties the lists of `node` and of every node below it. */
    method ClearNode(node: TrieNode, ghost p: Path)
      requires Valid() && p in nodes && nodes[p] == node
      modifies nodes.Values`subscriptions
      ensures Valid()
      ensures Content() == ClearedBelow(old(Content()), {p})
      decreases set q | q in nodes.Keys && p <= q
    {
      ghost var before := Content();
      SetSubscriptions(node, [], p);
      ghost var keys := node.children.Keys;
      var todo := node.children.Keys;
      ghost var done := {};
      ClearedStart(before, p);
      while todo != {}
        invariant Valid() && forall t :: t in keys <==> t in todo || t in done
        invariant forall t :: t in todo ==> t !in done
        invariant Content() == ClearedBelow(before, Done(p, done))[p := []]
      {
        var token :| token in todo;
        assert Linked(p, token);
        BelowShrinks(nodes.Keys, p, token);
        ClearedStep(before, p, done, token);
        ClearNode(node.children[token], Child(p, token));
        todo, done := todo - {token}, done + {token};
      }
      assert done == keys;
      assert ClearedBelow(before, Done(p, keys))[p := []] == ClearedBelow(before, {p}) by {
        forall t ensures t in keys <==> Child(p, t) in before {
          assert Linked(p, t);
        }
        ContentTree();
        ClearedAll(before, p, keys);
      }
    }

    /** The nodes passed on the way down `path`, with the token taken at each. */
    ghost predicate OnPath(steps: seq<(TrieNode, string)>, path: Path, n: nat)
      reads this
    {
      && n <= |steps| && n <= |path|
      && forall k :: 0 <= k < n ==>
           steps[k].1 == path[k] && path[..k] in nodes && nodes[path[..k]] == steps[k].0
    }
  }

  // ----- The node additions of `Insert` on values -----

  function WithNode(c: Content, p: Path): Content {
    if p in c then c else c[p := []]
  }

  function WithPath(c: Content, path: Path): Content {
    map p | p in c.Keys + Prefixes(path) :: Held(c, p)
  }

  lemma WithPathStart(c: Content)
    requires [] in c
    ensures WithPath(c, []) == c
  {
    forall p ensures p in Prefixes([]) <==> p == [] {
      PrefixesOf([], p);
    }
  }

  lemma WithPathStep(c: Content, path: Path, i: nat)
    requires i < |path|
    ensures path[..i + 1] == Child(path[..i], path[i])
    ensures WithPath(c, path[..i + 1]) == WithNode(WithPath(c, path[..i]), path[..i + 1])
  {
    PrefixesGrow(path, i);
  }

  lemma InsertIsPush(c: Content, path: Path, sub: Subscription)
    ensures path in WithPath(c, path)
    ensures TrieSpec.Insert(c, path, sub) == WithPath(c, path)[path := Held(c, path) + [sub]]
  {
    PrefixesOf(path, path);
    assert forall p :: Held(c, p) + [] == Held(c, p);
  }

  lemma PrefixesGrow(path: Path, i: nat)
    requires i < |path|
    ensures Prefixes(path[..i + 1]) == Prefixes(path[..i]) + {path[..i + 1]}
  {
    var more, most := Prefixes(path[..i + 1]), Prefixes(path[..i]);
    forall p: Path ensures p in more <==> p in most || p == path[..i + 1] {
      PrefixesOf(path[..i + 1], p);
      PrefixesOf(path[..i], p);
    }
  }

  // ----- The pruning of `Remove` on values -----

  ghost function WithoutLeaf(c: Content, p: Path): Content {
    if p in c && c[p] == [] && !HasChild(c, p) then c - {p} else c
  }

  /** The list at `path` is emptied and the dead nodes longer than `i` are gone. */
  ghost function PartlyRemoved(c: Content, path: Path, i: nat): Content {
    map p | p in c && !(Dead(c, path, p) && |p| > i) :: if p == path then [] else c[p]
  }

  lemma NotBelow(c: Content, path: Path, i: nat)
    requires IsTree(c) && i <= |path| && path[..i] !in c
    ensures path !in c
  {
    if path in c {
      PrefixIn(c, path, path[..i]);
    }
  }

  lemma KeptAbove(c: Content, path: Path, i: nat, k: nat)
    requires IsTree(c) && path in c && k <= i <= |path|
    ensures path[..k] in PartlyRemoved(c, path, i)
  {
    PrefixIn(c, path, path[..k]);
  }

  /** Pruning the node at level `i` when all dead nodes below it are gone. */
  lemma PruneStep(c: Content, path: Path, i: nat)
    requires IsTree(c) && path in c && 1 <= i <= |path|
    ensures path[..i] == Child(path[..i - 1], path[i - 1])
    ensures WithoutLeaf(PartlyRemoved(c, path, i), path[..i]) == PartlyRemoved(c, path, i - 1)
  {
    PrefixIn(c, path, path[..i]);
    assert forall q :: q in c && q <= path && |q| == i ==> q == path[..i];
    if Dead(c, path, path[..i]) {
      DeadIsLeaf(c, path, i);
    } else {
      LiveIsKept(c, path, i);
    }
  }

  lemma DeadIsLeaf(c: Content, path: Path, i: nat)
    requires 1 <= i <= |path| && Dead(c, path, path[..i])
    ensures !HasChild(PartlyRemoved(c, path, i), path[..i])
  {
    var p := path[..i];
    forall t | Child(p, t) in PartlyRemoved(c, path, i) ensures false {
      assert p <= Child(p, t) && Child(p, t) <= path;
      assert Dead(c, path, Child(p, t));
    }
  }

  lemma LiveIsKept(c: Content, path: Path, i: nat)
    requires IsTree(c) && path in c && 1 <= i <= |path| && !Dead(c, path, path[..i])
    ensures var d := PartlyRemoved(c, path, i); path[..i] in d ==> d[path[..i]] != [] || HasChild(d, path[..i])
  {
    var d, p := PartlyRemoved(c, path, i), path[..i];
    var r :| r in c && p <= r && !(r <= path && (r == path || c[r] == []));
    if r != p {
      var t := r[i];
      assert Child(p, t) <= r;
      PrefixIn(c, r, Child(p, t));
      assert !Dead(c, path, Child(p, t));
      assert Child(p, t) in d;
    }
  }

  lemma MatchStep(c: Content, p: Path, tokens: Path, level: nat, soFar: seq<Subscription>)
    requires p in c && level < |tokens|
    ensures soFar + MatchFrom(c, p, tokens[level..])
         == soFar + MatchFrom(c, Child(p, tokens[level]), tokens[level + 1..])
          + MatchFrom(c, Child(p, "+"), tokens[level + 1..])
          + Held(c, Child(p, "#"))
  {
    Stepwise(c, p, tokens, level);
    Regroup(soFar, MatchFrom(c, Child(p, tokens[level]), tokens[level + 1..]),
            MatchFrom(c, Child(p, "+"), tokens[level + 1..]), Held(c, Child(p, "#")));
  }

  lemma Stepwise(c: Content, p: Path, tokens: Path, level: nat)
    requires p in c && level < |tokens|
    ensures MatchFrom(c, p, tokens[level..])
         == MatchFrom(c, Child(p, tokens[level]), tokens[level + 1..])
          + MatchFrom(c, Child(p, "+"), tokens[level + 1..])
          + Held(c, Child(p, "#"))
  {
    assert tokens[level..][1..] == tokens[level + 1..];
  }

  lemma Regroup<T>(s: seq<T>, a: seq<T>, b: seq<T>, d: seq<T>)
    ensures s + (a + b + d) == s + a + b + d
  {
  }

  // ----- The recursive clearing on values -----

  function Done(p: Path, tokens: set<string>): set<Path> {
    set t | t in tokens :: Child(p, t)
  }

  /** The lists at the given nodes and below them are emptied. */
  ghost function ClearedBelow(c: Content, tops: set<Path>): Content {
    map q | q in c :: if exists p :: p in tops && p <= q then [] else c[q]
  }

  lemma ClearedStart(c: Content, p: Path)
    ensures ClearedBelow(c, Done(p, {})) == c
  {
  }

  lemma BelowShrinks(paths: set<Path>, p: Path, token: string)
    requires p in paths
    ensures (set q | q in paths && Child(p, token) <= q) < (set q | q in paths && p <= q)
  {
    var below, here := set q | q in paths && Child(p, token) <= q, set q | q in paths && p <= q;
    assert Child(p, token)[..|p|] == p;
    assert forall q | q in below :: p <= q;
    assert p in here && p !in below;
  }

  lemma ClearedStep(c: Content, p: Path, tokens: set<string>, token: string)
    requires p in c
    ensures ClearedBelow(ClearedBelow(c, Done(p, tokens))[p := []], {Child(p, token)})
         == ClearedBelow(c, Done(p, tokens + {token}))[p := []]
  {
    assert Done(p, tokens + {token}) == Done(p, tokens) + {Child(p, token)};
    assert !(Child(p, token) <= p);
  }

  lemma ClearedAll(c: Content, p: Path, tokens: set<string>)
    requires IsTree(c) && p in c && forall t :: t in tokens <==> Child(p, t) in c
    ensures ClearedBelow(c, Done(p, tokens))[p := []] == ClearedBelow(c, {p})
  {
    ChildParts();
    forall q | q in c && p <= q && q != p
      ensures exists r :: r in Done(p, tokens) && r <= q
    {
      var t := q[|p|];
      assert Child(p, t) <= q;
      PrefixIn(c, q, Child(p, t));
      assert Child(p, t) in Done(p, tokens);
    }
    forall r | r in Done(p, tokens) ensures p <= r {
      var t :| t in tokens && r == Child(p, t);
      assert p == r[..|p|];
    }
  }

  // ----- TopicManager -----

  class TopicManager {
    const store: MqttTopicTrie

    ghost function Repr(): set<object>
      reads this, store
    {
      {this} + store.Repr()
    }

    ghost predicate Valid()
      reads this, store, store.nodes.Values
    {
      store.Valid() && AtHome(store.Content())
    }

    ghost function Content(): Content
      reads this, store, store.nodes.Values
    {
      store.Content()
    }

    constructor ()
      ensures Valid() && fresh(Repr()) && Content() == EMPTY
    {
      store := new MqttTopicTrie();
    }

    method Add(subscription: Subscription)
      requires Valid()
      modifies Repr()
      ensures Valid() && fresh(Repr() - old(Repr()))
      ensures Content() == Apply(old(Content()), TrieSpec.Add(subscription))
    {
      store.ContentTree();
      InsertTree(store.Content(), Tokenize(subscription.topic), subscription);
      store.Insert(subscription, Tokenize(subscription.topic));
    }

    method Remove(topic: string) returns (found: bool)
      requires Valid()
      modifies Repr()
      ensures Valid() && Repr() <= old(Repr())
      ensures found == (Tokenize(topic) in old(Content()))
      ensures Content() == Apply(old(Content()), TrieSpec.Remove(topic))
    {
      store.ContentTree();
      RemovedTree(store.Content(), Tokenize(topic));
      found := store.Remove(Tokenize(topic));
    }

    method MatchTopic(topic: string) returns (matching: seq<Subscription>)
      requires Valid()
      ensures matching == MatchFrom(Content(), [], Tokenize(topic))
    {
      matching := store.GetMatchingSubscriptions(Tokenize(topic));
    }

    method Clear()
      requires Valid()
      modifies Repr()
      ensures Valid() && Repr() == old(Repr())
      ensures Content() == Apply(old(Content()), TrieSpec.Clear)
    {
      store.Clear();
    }
  }

  // ----- Whole runs on the heap -----

  /** Executes the operations one by one. */
  method Perform(manager: TopicManager, ops: seq<Op>)
    requires manager.Valid() && manager.Content() == EMPTY
    modifies manager.Repr()
    ensures manager.Valid() && fresh(manager.Repr() - old(manager.Repr())) && manager.Content() == Run(ops)
  {
    assert ops[..0] == [];
    for i := 0 to |ops|
      invariant manager.Valid() && fresh(manager.Repr() - old(manager.Repr())) && manager.Content() == Run(ops[..i])
    {
      assert ops[..i + 1][..i] == ops[..i];
      match ops[i]
      case Add(sub) => manager.Add(sub);
      case Remove(topic) => var _ := manager.Remove(topic);
      case Clear => manager.Clear();
    }
    assert ops[..|ops|] == ops;
  }

  /** Executes the operations on a new manager. */
  method Replay(ops: seq<Op>) returns (manager: TopicManager)
    ensures manager.Valid() && fresh(manager.Repr()) && manager.Content() == Run(ops)
  {
    manager := new TopicManager();
    Perform(manager, ops);
  }

  /** After any run of add, remove and clear on the heap, a lookup reports each stored
      subscription once per visit of its filter; on a wildcard-free topic, once if its filter
      matches and never otherwise. */
  method LookUpAfter(ops: seq<Op>, topic: string) returns (matching: seq<Subscription>)
    ensures forall x :: Copies(matching, x) == Visits(Tokenize(x.topic), Tokenize(topic)) * Copies(RunFlat(ops), x)
    ensures WildcardFree(Tokenize(topic)) ==>
              forall x :: Copies(matching, x)
                          == if Matches(Tokenize(x.topic), Tokenize(topic)) then Copies(RunFlat(ops), x) else 0
  {
    var manager := Replay(ops);
    matching := manager.MatchTopic(topic);
    forall x
      ensures Copies(matching, x) == Visits(Tokenize(x.topic), Tokenize(topic)) * Copies(RunFlat(ops), x)
      ensures WildcardFree(Tokenize(topic)) ==>
                Copies(matching, x)
                == if Matches(Tokenize(x.topic), Tokenize(topic)) then Copies(RunFlat(ops), x) else 0
    {
      RunMatches(ops, Tokenize(topic), x);
    }
  }
}
