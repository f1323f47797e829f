/** The order in which a lookup in the topic trie reports subscriptions. */
module MatchOrder {
  import opened Topics
  import opened TrieSpec

  /** Literal levels come first, then '+', then '#'. */
  function Rank(token: string): nat {
    if token == "+" then 1 else if token == "#" then 2 else 0
  }

  /** The first level in which the filters differ decides. */
  ghost predicate ComesBefore(f: Path, g: Path, n: nat) {
    n < |f| && n < |g| && f[..n] == g[..n] && Rank(f[n]) < Rank(g[n])
  }

  ghost predicate InOrder(f: Path, g: Path) {
    f == g || exists n :: ComesBefore(f, g, n)
  }

  function Home(s: Subscription): Path {
    Tokenize(s.topic)
  }

  ghost predicate Ordered(found: seq<Subscription>) {
    forall i, j :: 0 <= i < j < |found| ==> InOrder(Home(found[i]), Home(found[j]))
  }

  ghost predicate Below(found: seq<Subscription>, p: Path) {
    forall i :: 0 <= i < |found| ==> p <= Home(found[i])
  }

  /** What is found below a node has its home there. */
  lemma {:induction false} FoundBelow(c: Content, p: Path, topic: Path)
    requires AtHome(c)
    ensures Below(MatchFrom(c, p, topic), p)
    decreases |topic|
  {
    if p in c && topic != [] {
      FoundBelow(c, Child(p, topic[0]), topic[1..]);
      FoundBelow(c, Child(p, "+"), topic[1..]);
    }
  }

  /** Two lists below children of different rank. */
  lemma Appended(a: seq<Subscription>, b: seq<Subscription>, p: Path)
    requires Ordered(a) && Ordered(b)
    requires forall i :: 0 <= i < |a| ==> p <= Home(a[i]) && |p| < |Home(a[i])|
    requires forall j :: 0 <= j < |b| ==> p <= Home(b[j]) && |p| < |Home(b[j])|
    requires forall i, j :: 0 <= i < |a| && 0 <= j < |b| ==> Rank(Home(a[i])[|p|]) < Rank(Home(b[j])[|p|])
    ensures Ordered(a + b)
  {
    forall i, j | 0 <= i < |a| && 0 <= j < |b| ensures InOrder(Home(a[i]), Home(b[j])) {
      assert ComesBefore(Home(a[i]), Home(b[j]), |p|);
    }
  }

  lemma ChildRank(found: seq<Subscription>, p: Path, token: string)
    requires Below(found, Child(p, token))
    ensures forall i :: 0 <= i < |found| ==>
              p <= Home(found[i]) && |p| < |Home(found[i])| && Home(found[i])[|p|] == token
  {
    forall i | 0 <= i < |found|
      ensures p <= Home(found[i]) && |p| < |Home(found[i])| && Home(found[i])[|p|] == token
    {
      assert Home(found[i])[..|p| + 1] == Child(p, token);
      assert Home(found[i])[..|p|] == Child(p, token)[..|p|] == p;
    }
  }

  /** A lookup of a wildcard-free topic reports subscriptions with literal levels before those
      with '+' and those before the ones with '#', level by level; of the same filter in the
      order of the node's list. */
  lemma {:induction false} MatchInOrder(c: Content, p: Path, topic: Path)
    requires AtHome(c) && WildcardFree(topic)
    ensures Ordered(MatchFrom(c, p, topic))
    decreases |topic|
  {
    if p in c && topic != [] {
      var rest := topic[1..];
      assert WildcardFree(rest);
      MatchInOrder(c, Child(p, topic[0]), rest);
      MatchInOrder(c, Child(p, "+"), rest);
      FoundBelow(c, Child(p, topic[0]), rest);
      FoundBelow(c, Child(p, "+"), rest);
      HashInOrder(c, p);
      assert topic[0] in topic && Rank(topic[0]) == 0;
      ThreeInOrder(MatchFrom(c, Child(p, topic[0]), rest), MatchFrom(c, Child(p, "+"), rest), Held(c, Child(p, "#")),
                   p, topic[0]);
    }
  }

  lemma HashInOrder(c: Content, p: Path)
    requires AtHome(c)
    ensures Ordered(Held(c, Child(p, "#"))) && Below(Held(c, Child(p, "#")), Child(p, "#"))
  {
  }

  lemma ThreeInOrder(a: seq<Subscription>, b: seq<Subscription>, h: seq<Subscription>, p: Path, token: string)
    requires Rank(token) == 0 && Below(a, Child(p, token)) && Below(b, Child(p, "+")) && Below(h, Child(p, "#"))
    requires Ordered(a) && Ordered(b) && Ordered(h)
    ensures Ordered(a + b + h)
  {
    ChildRank(a, p, token);
    ChildRank(b, p, "+");
    ChildRank(h, p, "#");
    Appended(b, h, p);
    RanksOf(a, b, h, p, token);
    Appended(a, b + h, p);
    assert a + b + h == a + (b + h);
  }

  lemma RanksOf(a: seq<Subscription>, b: seq<Subscription>, h: seq<Subscription>, p: Path, token: string)
    requires Rank(token) == 0 && Below(a, Child(p, token)) && Below(b, Child(p, "+")) && Below(h, Child(p, "#"))
    ensures forall j :: 0 <= j < |b + h| ==>
              p <= Home((b + h)[j]) && |p| < |Home((b + h)[j])| && Rank(Home((b + h)[j])[|p|]) > 0
  {
    ChildRank(b, p, "+");
    ChildRank(h, p, "#");
    forall j | 0 <= j < |b + h|
      ensures p <= Home((b + h)[j]) && |p| < |Home((b + h)[j])| && Rank(Home((b + h)[j])[|p|]) > 0
    {
      assert (b + h)[j] == if j < |b| then b[j] else h[j - |b|];
    }
  }

  /** After any run of add, remove and clear. */
  lemma RunInOrder(ops: seq<Op>, topic: Path)
    requires WildcardFree(topic)
    ensures Ordered(MatchFrom(Run(ops), [], topic))
  {
    RunRepresents(EMPTY, [], ops);
    MatchInOrder(Run(ops), [], topic);
  }
}
