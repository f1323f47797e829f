/** The topic trie as a value: the subscription list held at every node, keyed by the
    node's path. The heap trie in `TopicTrie` is proved to compute these functions. */
module TrieSpec {
  import opened Topics

  type Content = map<Path, seq<Subscription>>

  const EMPTY: Content := map[[] := []]

  function Child(p: Path, token: string): Path { p + [token] }

  function Parent(p: Path): Path
    requires p != []
  {
    p[..|p| - 1]
  }

  function Held(c: Content, p: Path): seq<Subscription> {
    if p in c then c[p] else []
  }

  /** The nodes form one tree below the root. */
  ghost predicate IsTree(c: Content) {
    [] in c && forall p {:trigger Parent(p)} :: p in c && p != [] ==> Parent(p) in c
  }

  ghost predicate HasChild(c: Content, p: Path) {
    exists t :: Child(p, t) in c
  }

  /** Every subscription is stored at the node of its own topic. */
  ghost predicate AtHome(c: Content) {
    forall p, i :: p in c && 0 <= i < |c[p]| ==> Tokenize(c[p][i].topic) == p
  }

  // ----- Operations -----

  function Insert(c: Content, path: Path, sub: Subscription): Content {
    map p | p in c.Keys + Prefixes(path) :: Held(c, p) + (if p == path then [sub] else [])
  }

  function Prefixes(path: Path): set<Path> {
    set k | 0 <= k <= |path| :: path[..k]
  }

  /** After the list at `path` is emptied: `q` is a node on `path` from which only empty
      nodes on `path` hang. */
  ghost predicate Dead(c: Content, path: Path, q: Path) {
    && q != [] && q <= path
    && forall r :: r in c && q <= r ==> r <= path && (r == path || c[r] == [])
  }

  ghost function Removed(c: Content, path: Path): Content {
    if path !in c then c
    else map p | p in c && !Dead(c, path, p) :: if p == path then [] else c[p]
  }

  function Cleared(c: Content): Content {
    map p | p in c :: []
  }

  /** The subscriptions found below node `p` for the remaining levels, in the code's order. */
  function MatchFrom(c: Content, p: Path, topic: Path): seq<Subscription>
    decreases |topic|
  {
    if p !in c then []
    else if topic == [] then c[p]
    else
      MatchFrom(c, Child(p, topic[0]), topic[1..])
      + MatchFrom(c, Child(p, "+"), topic[1..])
      + Held(c, Child(p, "#"))
  }

  // ----- Tree facts -----

  lemma {:induction false} PrefixIn(c: Content, q: Path, p: Path)
    requires IsTree(c) && q in c && p <= q
    ensures p in c
    decreases |q|
  {
    if p != q {
      PrefixIn(c, Parent(q), p);
    }
  }

  lemma PrefixesOf(path: Path, p: Path)
    ensures p in Prefixes(path) <==> p <= path
  {
    if p <= path {
      assert p == path[..|p|];
    }
  }

  lemma InsertTree(c: Content, path: Path, sub: Subscription)
    requires IsTree(c) && AtHome(c) && Tokenize(sub.topic) == path
    ensures IsTree(Insert(c, path, sub)) && AtHome(Insert(c, path, sub))
  {
    var d: Content := Insert(c, path, sub);
    forall p | p in d && p != [] ensures Parent(p) in d {
      if p !in c {
        PrefixesOf(path, p);
        PrefixesOf(path, Parent(p));
      }
    }
    assert [] in d;
    forall p, i | p in d && 0 <= i < |d[p]| ensures Tokenize(d[p][i].topic) == p {
      if i < |Held(c, p)| {
        assert d[p][i] == c[p][i];
      }
    }
  }

  lemma RemovedTree(c: Content, path: Path)
    requires IsTree(c) && AtHome(c)
    ensures IsTree(Removed(c, path)) && AtHome(Removed(c, path))
  {
    if path in c {
      var d := Removed(c, path);
      forall p | p in d && p != [] ensures Parent(p) in d {
        var up := Parent(p);
        if Dead(c, path, up) {
          assert p <= path && (p == path || c[p] == []);
          assert Dead(c, path, p);
        }
      }
    }
  }

  // ----- What each operation does to the lists -----

  lemma InsertHeld(c: Content, path: Path, sub: Subscription, p: Path)
    ensures Held(Insert(c, path, sub), p) == Held(c, p) + (if p == path then [sub] else [])
  {
    PrefixesOf(path, path);
  }

  /** Removing empties exactly the given path and leaves every other list unchanged. */
  lemma RemovedHeld(c: Content, path: Path, p: Path)
    ensures Held(Removed(c, path), p) == if p == path then [] else Held(c, p)
  {
    if path in c && p in c && p != path && Dead(c, path, p) {
      assert c[p] == [];
    }
  }

  // ----- Counting matches -----

  function Copies(s: seq<Subscription>, x: Subscription): nat {
    multiset(s)[x]
  }

  lemma CopiesConcat(a: seq<Subscription>, b: seq<Subscription>, x: Subscription)
    ensures Copies(a + b, x) == Copies(a, x) + Copies(b, x)
  {
    assert multiset(a + b) == multiset(a) + multiset(b);
  }

  /** How often the walk from node `p` reports a subscription whose home is `home`. */
  function Weight(p: Path, home: Path, topic: Path): nat {
    if p <= home then Visits(home[|p|..], topic) else 0
  }

  lemma WeightStep(p: Path, home: Path, topic: Path)
    requires topic != []
    ensures Weight(p, home, topic)
         == Weight(Child(p, topic[0]), home, topic[1..])
          + Weight(Child(p, "+"), home, topic[1..])
          + (if home == Child(p, "#") then 1 else 0)
  {
    if p <= home && p != home {
      var f := home[|p|..];
      assert home == p + f;
      assert f[1..] == home[|p| + 1..];
      assert Child(p, f[0]) <= home;
      forall t | t != f[0] ensures !(Child(p, t) <= home) {
        assert Child(p, t)[|p|] == t;
      }
      assert f == ["#"] <==> home == Child(p, "#");
      assert Weight(p, home, topic) == Visits(f, topic);
      assert Weight(Child(p, f[0]), home, topic[1..]) == Visits(f[1..], topic[1..]);
    } else if !(p <= home) {
      forall t ensures !(Child(p, t) <= home) {
        assert Child(p, t)[..|p|] == p;
      }
    }
  }

  /** `n` added up `w` times. */
  function Times(w: nat, n: nat): nat {
    if w == 0 then 0 else n + Times(w - 1, n)
  }

  lemma {:induction false} TimesSum(a: nat, b: nat, n: nat)
    ensures Times(a + b, n) == Times(a, n) + Times(b, n)
  {
    if a > 0 {
      TimesSum(a - 1, b, n);
      assert a + b - 1 == a - 1 + b;
    }
  }

  lemma {:induction false} TimesIsProduct(w: nat, n: nat)
    ensures Times(w, n) == w * n
  {
    if w > 0 {
      TimesIsProduct(w - 1, n);
      assert w * n == n + (w - 1) * n;
    }
  }

  function CountFrom(c: Content, p: Path, topic: Path, x: Subscription): nat
    decreases |topic|
  {
    if p !in c then 0
    else if topic == [] then Copies(c[p], x)
    else
      CountFrom(c, Child(p, topic[0]), topic[1..], x)
      + CountFrom(c, Child(p, "+"), topic[1..], x)
      + Copies(Held(c, Child(p, "#")), x)
  }

  lemma {:induction false} MatchFromCount(c: Content, p: Path, topic: Path, x: Subscription)
    ensures Copies(MatchFrom(c, p, topic), x) == CountFrom(c, p, topic, x)
    decreases |topic|
  {
    if p in c && topic != [] {
      var a := MatchFrom(c, Child(p, topic[0]), topic[1..]);
      var b := MatchFrom(c, Child(p, "+"), topic[1..]);
      MatchFromCount(c, Child(p, topic[0]), topic[1..], x);
      MatchFromCount(c, Child(p, "+"), topic[1..], x);
      CopiesConcat(a, b, x);
      CopiesConcat(a + b, Held(c, Child(p, "#")), x);
    }
  }

  /** The walk from `p` reports `x` once per visit of its home node and copy held there. */
  ghost predicate Counted(c: Content, p: Path, topic: Path, x: Subscription, home: Path) {
    CountFrom(c, p, topic, x) == Times(Weight(p, home, topic), Copies(Held(c, home), x))
  }

  lemma AbsentCount(c: Content, p: Path, topic: Path, x: Subscription, home: Path)
    requires IsTree(c) && p !in c
    ensures Counted(c, p, topic, x, home)
  {
    if p <= home && home in c {
      PrefixIn(c, home, p);
    }
    TimesIsProduct(Weight(p, home, topic), 0);
  }

  lemma FinalCount(c: Content, p: Path, x: Subscription, home: Path)
    requires AtHome(c) && home == Tokenize(x.topic) && p in c
    ensures Counted(c, p, [], x, home)
  {
    AwayFromHome(c, p, x);
    assert p <= home && home[|p|..] == [] <==> p == home;
  }

  /** The walk reports each subscription once per visit of its home node. */
  lemma {:induction false} CountIsWeight(c: Content, p: Path, topic: Path, x: Subscription, home: Path)
    requires IsTree(c) && AtHome(c) && home == Tokenize(x.topic)
    ensures Counted(c, p, topic, x, home)
    decreases |topic|
  {
    if p !in c {
      AbsentCount(c, p, topic, x, home);
    } else if topic == [] {
      FinalCount(c, p, x, home);
    } else {
      CountIsWeight(c, Child(p, topic[0]), topic[1..], x, home);
      CountIsWeight(c, Child(p, "+"), topic[1..], x, home);
      NodeCounted(c, p, topic, x, home);
    }
  }

  lemma NodeCounted(c: Content, p: Path, topic: Path, x: Subscription, home: Path)
    requires AtHome(c) && home == Tokenize(x.topic) && p in c && topic != []
    requires Counted(c, Child(p, topic[0]), topic[1..], x, home)
    requires Counted(c, Child(p, "+"), topic[1..], x, home)
    ensures Counted(c, p, topic, x, home)
  {
    HashCount(c, p, x, home);
    var n, w := Copies(Held(c, home), x), if home == Child(p, "#") then 1 else 0;
    var a, b := Weight(Child(p, topic[0]), home, topic[1..]), Weight(Child(p, "+"), home, topic[1..]);
    NodeCounts(c, p, topic, x, a, b, w, n);
    NodeWeight(c, p, topic, x, home, a + b + w);
  }

  lemma HashCount(c: Content, p: Path, x: Subscription, home: Path)
    requires AtHome(c) && home == Tokenize(x.topic)
    ensures Copies(Held(c, Child(p, "#")), x)
         == Times(if home == Child(p, "#") then 1 else 0, Copies(Held(c, home), x))
  {
    AwayFromHome(c, Child(p, "#"), x);
  }

  /** The count at a node from the counts at its children. */
  lemma NodeCounts(c: Content, p: Path, topic: Path, x: Subscription, a: nat, b: nat, w: nat, n: nat)
    requires p in c && topic != []
    requires CountFrom(c, Child(p, topic[0]), topic[1..], x) == Times(a, n)
    requires CountFrom(c, Child(p, "+"), topic[1..], x) == Times(b, n)
    requires Copies(Held(c, Child(p, "#")), x) == Times(w, n)
    ensures CountFrom(c, p, topic, x) == Times(a + b + w, n)
  {
    TimesSum(a, b, n);
    TimesSum(a + b, w, n);
  }

  lemma NodeWeight(c: Content, p: Path, topic: Path, x: Subscription, home: Path, total: nat)
    requires topic != []
    requires total == Weight(Child(p, topic[0]), home, topic[1..]) + Weight(Child(p, "+"), home, topic[1..])
                      + if home == Child(p, "#") then 1 else 0
    requires CountFrom(c, p, topic, x) == Times(total, Copies(Held(c, home), x))
    ensures Counted(c, p, topic, x, home)
  {
    WeightStep(p, home, topic);
  }

  lemma AwayFromHome(c: Content, p: Path, x: Subscription)
    requires AtHome(c)
    ensures Copies(Held(c, p), x) > 0 ==> p == Tokenize(x.topic)
  {
    if Copies(Held(c, p), x) > 0 {
      assert x in multiset(Held(c, p));
      assert x in Held(c, p);
    }
  }

  // ----- Refinement of a flat bag of subscriptions -----

  datatype Op = Add(sub: Subscription) | Remove(topic: string) | Clear

  ghost function Apply(c: Content, op: Op): Content {
    match op
    case Add(s) => Insert(c, Tokenize(s.topic), s)
    case Remove(t) => Removed(c, Tokenize(t))
    case Clear => Cleared(c)
  }

  ghost function RunFrom(c: Content, ops: seq<Op>): Content {
    if ops == [] then c else Apply(RunFrom(c, ops[..|ops| - 1]), ops[|ops| - 1])
  }

  ghost function Run(ops: seq<Op>): Content {
    RunFrom(EMPTY, ops)
  }

  /** The reference: one flat list of subscriptions. */
  function Without(log: seq<Subscription>, topic: string): seq<Subscription> {
    if log == [] then []
    else (if log[0].topic == topic then [] else [log[0]]) + Without(log[1..], topic)
  }

  function OnTopic(log: seq<Subscription>, topic: string): seq<Subscription> {
    if log == [] then []
    else (if log[0].topic == topic then [log[0]] else []) + OnTopic(log[1..], topic)
  }

  function ApplyFlat(log: seq<Subscription>, op: Op): seq<Subscription> {
    match op
    case Add(s) => log + [s]
    case Remove(t) => Without(log, t)
    case Clear => []
  }

  function RunFlatFrom(log: seq<Subscription>, ops: seq<Op>): seq<Subscription> {
    if ops == [] then log else ApplyFlat(RunFlatFrom(log, ops[..|ops| - 1]), ops[|ops| - 1])
  }

  function RunFlat(ops: seq<Op>): seq<Subscription> {
    RunFlatFrom([], ops)
  }

  /** Every node holds the flat list's subscriptions of its topic, in order. */
  ghost predicate Represents(c: Content, log: seq<Subscription>) {
    && IsTree(c) && AtHome(c)
    && forall t :: Held(c, Tokenize(t)) == OnTopic(log, t)
  }

  lemma {:induction false} OnTopicAppend(log: seq<Subscription>, s: Subscription, t: string)
    ensures OnTopic(log + [s], t) == OnTopic(log, t) + (if s.topic == t then [s] else [])
  {
    if log != [] {
      assert (log + [s])[1..] == log[1..] + [s];
      OnTopicAppend(log[1..], s, t);
    }
  }

  lemma {:induction false} OnTopicWithout(log: seq<Subscription>, r: string, t: string)
    ensures OnTopic(Without(log, r), t) == if r == t then [] else OnTopic(log, t)
  {
    if log != [] {
      OnTopicWithout(log[1..], r, t);
      if log[0].topic == r {
        assert Without(log, r) == Without(log[1..], r);
      } else {
        assert Without(log, r)[1..] == Without(log[1..], r);
      }
    }
  }

  lemma ApplyRepresents(c: Content, log: seq<Subscription>, op: Op)
    requires Represents(c, log)
    ensures Represents(Apply(c, op), ApplyFlat(log, op))
  {
    match op
    case Add(s) =>
      InsertTree(c, Tokenize(s.topic), s);
      forall t ensures Held(Apply(c, op), Tokenize(t)) == OnTopic(log + [s], t) {
        InsertHeld(c, Tokenize(s.topic), s, Tokenize(t));
        OnTopicAppend(log, s, t);
        TokenizeInjective(s.topic, t);
      }
    case Remove(r) =>
      RemovedTree(c, Tokenize(r));
      forall t ensures Held(Apply(c, op), Tokenize(t)) == OnTopic(Without(log, r), t) {
        RemovedHeld(c, Tokenize(r), Tokenize(t));
        OnTopicWithout(log, r, t);
        TokenizeInjective(r, t);
      }
    case Clear =>
  }

  lemma {:induction false} RunRepresents(c: Content, log: seq<Subscription>, ops: seq<Op>)
    requires Represents(c, log)
    ensures Represents(RunFrom(c, ops), RunFlatFrom(log, ops))
  {
    if ops != [] {
      var most := ops[..|ops| - 1];
      RunRepresents(c, log, most);
      ApplyRepresents(RunFrom(c, most), RunFlatFrom(log, most), ops[|ops| - 1]);
    }
  }

  lemma {:induction false} OnTopicCopies(log: seq<Subscription>, x: Subscription)
    ensures Copies(OnTopic(log, x.topic), x) == Copies(log, x)
  {
    if log != [] {
      OnTopicCopies(log[1..], x);
      assert log == [log[0]] + log[1..];
      CopiesConcat([log[0]], log[1..], x);
      CopiesConcat(if log[0].topic == x.topic then [log[0]] else [], OnTopic(log[1..], x.topic), x);
    }
  }

  lemma RepresentedCount(c: Content, log: seq<Subscription>, topic: Path, x: Subscription)
    requires Represents(c, log)
    ensures Copies(MatchFrom(c, [], topic), x) == Visits(Tokenize(x.topic), topic) * Copies(log, x)
  {
    var home := Tokenize(x.topic);
    MatchFromCount(c, [], topic, x);
    CountIsWeight(c, [], topic, x, home);
    TimesIsProduct(Visits(home, topic), Copies(log, x));
    OnTopicCopies(log, x);
    assert home[0..] == home;
  }

  /** After any run, looking a topic up reports every stored subscription once per visit of
      its filter; on a wildcard-free topic, once if its filter matches and never otherwise. */
  lemma RunMatches(ops: seq<Op>, topic: Path, x: Subscription)
    ensures Copies(MatchFrom(Run(ops), [], topic), x)
         == Visits(Tokenize(x.topic), topic) * Copies(RunFlat(ops), x)
    ensures WildcardFree(topic) ==> (
              Copies(MatchFrom(Run(ops), [], topic), x)
              == if Matches(Tokenize(x.topic), topic) then Copies(RunFlat(ops), x) else 0)
  {
    RunRepresents(EMPTY, [], ops);
    RepresentedCount(Run(ops), RunFlat(ops), topic, x);
    if WildcardFree(topic) {
      VisitsOnce(Tokenize(x.topic), topic);
    }
  }

  /** Matching depends on the lists alone: nodes left empty make no difference, not even to
      the order of the answer. */
  lemma {:induction false} MatchIgnoresEmptyNodes(c: Content, d: Content, p: Path, topic: Path)
    requires IsTree(c) && IsTree(d)
    requires forall q :: Held(c, q) == Held(d, q)
    ensures MatchFrom(c, p, topic) == MatchFrom(d, p, topic)
    decreases |topic|
  {
    if topic == [] {
      assert Held(c, p) == Held(d, p);
    } else {
      MatchIgnoresEmptyNodes(c, d, Child(p, topic[0]), topic[1..]);
      MatchIgnoresEmptyNodes(c, d, Child(p, "+"), topic[1..]);
      assert Held(c, Child(p, "#")) == Held(d, Child(p, "#"));
      if p !in c {
        BelowAbsent(c, p, topic);
      }
      if p !in d {
        BelowAbsent(d, p, topic);
      }
    }
  }

  lemma BelowAbsent(c: Content, p: Path, topic: Path)
    requires IsTree(c) && p !in c && topic != []
    ensures MatchFrom(c, Child(p, topic[0]), topic[1..]) == []
    ensures MatchFrom(c, Child(p, "+"), topic[1..]) == []
    ensures Held(c, Child(p, "#")) == []
  {
    forall t | Child(p, t) in c ensures false {
      PrefixIn(c, Child(p, t), p);
    }
  }

  /** A trie that was cleared but kept its nodes answers every later lookup, after any later
      operations, as a new trie does. */
  lemma {:induction false} ClearedIsNew(c: Content, ops: seq<Op>, topic: Path)
    requires IsTree(c) && AtHome(c)
    ensures MatchFrom(RunFrom(Cleared(c), ops), [], topic) == MatchFrom(Run(ops), [], topic)
  {
    assert Represents(Cleared(c), []);
    RunRepresents(Cleared(c), [], ops);
    RunRepresents(EMPTY, [], ops);
    var d, e := RunFrom(Cleared(c), ops), Run(ops);
    forall q ensures Held(d, q) == Held(e, q) {
      if q != [] && SlashFree(q) {
        TokenizeJoin(q);
        assert Held(d, Tokenize(Join(q))) == Held(e, Tokenize(Join(q)));
      } else {
        NothingOffTopic(d, q);
        NothingOffTopic(e, q);
      }
    }
    MatchIgnoresEmptyNodes(d, e, [], topic);
  }

  lemma NothingOffTopic(c: Content, q: Path)
    requires AtHome(c) && (q == [] || !SlashFree(q))
    ensures Held(c, q) == []
  {
    if Held(c, q) != [] {
      TokenizeSlashFree(c[q][0].topic);
    }
  }

  // ----- Sizes of sets -----

  lemma {:induction false} SubsetSize<T>(a: set<T>, b: set<T>)
    requires a <= b
    ensures |a| <= |b|
  {
    if a != {} {
      var x :| x in a;
      SubsetSize(a - {x}, b - {x});
    }
  }
}
