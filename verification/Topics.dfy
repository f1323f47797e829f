/** Topic names, topic filters and the matching relation of `src/topic_trie.rs`. */
module Topics {

  datatype Option<+T> = None | Some(value: T)

  datatype Qos = Level0 | Level1 | Level2

  /** A subscription; `handler` stands for the identity of the callback. */
  datatype Subscription = Subscription(topic: string, qos: Qos, handler: nat)

  /** The levels of a topic, in order. */
  type Path = seq<string>

  // ----- Tokenising -----

  /** Splits a topic at every '/'. */
  function Tokenize(topic: string): (tokens: Path)
    ensures tokens != []
  {
    if topic == "" then [""]
    else
      var rest := Tokenize(topic[1..]);
      if topic[0] == '/' then [""] + rest else [[topic[0]] + rest[0]] + rest[1..]
  }

  /** Puts the levels back together with '/' between them. */
  function Join(tokens: Path): string {
    if tokens == [] then ""
    else if |tokens| == 1 then tokens[0]
    else tokens[0] + "/" + Join(tokens[1..])
  }

  ghost predicate SlashFree(tokens: Path) {
    forall i :: 0 <= i < |tokens| ==> '/' !in tokens[i]
  }

  lemma {:induction false} TokenizeSlashFree(topic: string)
    ensures SlashFree(Tokenize(topic))
  {
    if topic != "" {
      TokenizeSlashFree(topic[1..]);
    }
  }

  /** Joining the tokens gives the topic back, so tokenising is injective. */
  lemma {:induction false} JoinTokenize(topic: string)
    ensures Join(Tokenize(topic)) == topic
  {
    if topic != "" {
      var rest := Tokenize(topic[1..]);
      JoinTokenize(topic[1..]);
      if topic[0] == '/' {
        assert ([""] + rest)[1..] == rest;
        assert topic == "/" + topic[1..];
      } else {
        var tokens := [[topic[0]] + rest[0]] + rest[1..];
        assert tokens[1..] == rest[1..];
        assert topic == [topic[0]] + topic[1..];
      }
    }
  }

  /** Every non-empty list of slash-free levels is the tokenisation of its own join. */
  lemma {:induction false} TokenizeJoin(tokens: Path)
    requires tokens != [] && SlashFree(tokens)
    ensures Tokenize(Join(tokens)) == tokens
    decreases |tokens|, |tokens[0]|
  {
    var first, rest := tokens[0], tokens[1..];
    if first != "" {
      var shorter := [first[1..]] + rest;
      assert shorter[1..] == rest;
      assert Join(tokens) == [first[0]] + Join(shorter);
      assert Join(tokens)[1..] == Join(shorter);
      TokenizeJoin(shorter);
      assert [first[0]] + first[1..] == first;
      assert tokens == [first] + rest;
    } else if rest == [] {
      assert tokens == [""];
    } else {
      assert Join(tokens) == "/" + Join(rest);
      assert Join(tokens)[1..] == Join(rest);
      TokenizeJoin(rest);
      assert tokens == [""] + rest;
    }
  }

  lemma TokenizeInjective(a: string, b: string)
    ensures Tokenize(a) == Tokenize(b) <==> a == b
  {
    JoinTokenize(a);
    JoinTokenize(b);
  }

  // ----- The matching relation of the code -----

  /** The relation decided by walking a filter against a topic, one level at a time. */
  predicate Matches(filter: Path, topic: Path) {
    if topic == [] then filter == []
    else
      && filter != []
      && (|| ((filter[0] == topic[0] || filter[0] == "+") && Matches(filter[1..], topic[1..]))
          || filter == ["#"])
  }

  /** How many walks of the trie reach the node of `filter` when `topic` is looked up. */
  function Visits(filter: Path, topic: Path): nat {
    if topic == [] then
      if filter == [] then 1 else 0
    else if filter == [] then 0
    else
      var deeper := Visits(filter[1..], topic[1..]);
      (if filter[0] == topic[0] then deeper else 0)
      + (if filter[0] == "+" then deeper else 0)
      + (if filter == ["#"] then 1 else 0)
  }

  /** No level of a topic name is a wildcard. */
  predicate WildcardFree(topic: Path) {
    "+" !in topic && "#" !in topic
  }

  /** A filter level equal to a wildcard that also stands literally in the topic. */
  ghost predicate Collides(filter: Path, topic: Path, i: nat) {
    && i < |filter| && i < |topic| && filter[i] == topic[i]
    && (filter[i] == "+" || (filter[i] == "#" && i == |filter| - 1 && i == |topic| - 1))
  }

  lemma {:induction false} VisitsIffMatches(filter: Path, topic: Path)
    ensures Visits(filter, topic) > 0 <==> Matches(filter, topic)
  {
    if topic != [] && filter != [] {
      VisitsIffMatches(filter[1..], topic[1..]);
    }
  }

  /** A matching filter is reached more than once exactly when a wildcard level of it is
      matched by the same characters in the topic. */
  lemma {:induction false} VisitedTwiceIff(filter: Path, topic: Path)
    ensures Visits(filter, topic) >= 2 <==>
            Matches(filter, topic) && exists i: nat :: Collides(filter, topic, i)
  {
    VisitsIffMatches(filter, topic);
    if topic != [] && filter != [] {
      VisitedTwiceIff(filter[1..], topic[1..]);
      VisitsIffMatches(filter[1..], topic[1..]);
      if Collides(filter, topic, 0) {
      } else {
        forall i: nat | Collides(filter, topic, i)
          ensures Collides(filter[1..], topic[1..], i - 1)
        {
        }
        forall i: nat | Collides(filter[1..], topic[1..], i)
          ensures Collides(filter, topic, i + 1)
        {
        }
      }
    }
  }

  /** `subscribe` looks up the filter it is given. A filter stored before is then found more
      than once exactly when it has a wildcard level. */
  lemma OwnLookupTwiceIff(filter: Path)
    ensures Visits(filter, filter) >= 2 <==> "+" in filter || (filter != [] && filter[|filter| - 1] == "#")
  {
    MatchesItself(filter);
    VisitedTwiceIff(filter, filter);
    if "+" in filter {
      var i: nat :| i < |filter| && filter[i] == "+";
      assert Collides(filter, filter, i);
    }
    if filter != [] && filter[|filter| - 1] == "#" {
      assert Collides(filter, filter, |filter| - 1);
    }
  }

  lemma {:induction false} MatchesItself(filter: Path)
    ensures Matches(filter, filter)
  {
    if filter != [] {
      MatchesItself(filter[1..]);
    }
  }

  lemma FoundTwice()
    ensures Visits(["+"], ["+"]) == 2
  {
    var filter: Path := ["+"];
    assert filter[1..] == [];
  }

  lemma VisitsOnce(filter: Path, topic: Path)
    requires WildcardFree(topic)
    ensures Visits(filter, topic) == if Matches(filter, topic) then 1 else 0
  {
    VisitsIffMatches(filter, topic);
    VisitedTwiceIff(filter, topic);
  }

  // ----- Section 4.7 of MQTT Version 3.1.1 -----

  /** Section 4.7.1: '#' is alone in the last level, '+' is alone in its level. */
  ghost predicate ValidFilter(filter: Path) {
    && filter != []
    && forall i :: 0 <= i < |filter| ==>
         && ('#' in filter[i] ==> filter[i] == "#" && i == |filter| - 1)
         && ('+' in filter[i] ==> filter[i] == "+")
  }

  predicate EndsInHash(filter: Path) {
    filter != [] && filter[|filter| - 1] == "#"
  }

  /** The first `n` levels of the filter agree with those of the topic. */
  ghost predicate LevelsAgree(filter: Path, topic: Path, n: nat) {
    n <= |filter| && n <= |topic| && forall i :: 0 <= i < n ==> filter[i] == "+" || filter[i] == topic[i]
  }

  /** Section 4.7.2: a filter that starts with a wildcard does not match a '$' topic. */
  ghost predicate DollarExclusion(filter: Path, topic: Path) {
    && topic != [] && filter != []
    && topic[0] != "" && topic[0][0] == '$' && filter[0] in ["+", "#"]
  }

  /** Sections 4.7.1.2 and 4.7.1.3, level by level: a trailing '#' stands for the parent
      and any number of levels below it. */
  ghost predicate SpecMatches(filter: Path, topic: Path) {
    && !DollarExclusion(filter, topic)
    && if EndsInHash(filter) then LevelsAgree(filter, topic, |filter| - 1)
       else |filter| == |topic| && LevelsAgree(filter, topic, |filter|)
  }

  /** Section 4.7.1.2: the levels before the trailing '#' are the whole topic. */
  ghost predicate HashAtParent(filter: Path, topic: Path) {
    EndsInHash(filter) && |filter| == |topic| + 1 && LevelsAgree(filter, topic, |topic|)
  }

  lemma {:induction false} MatchesByLevels(filter: Path, topic: Path)
    requires forall i :: 0 <= i < |filter| - 1 ==> filter[i] != "#"
    requires WildcardFree(topic)
    ensures Matches(filter, topic) <==>
            if EndsInHash(filter) then |filter| <= |topic| && LevelsAgree(filter, topic, |filter| - 1)
            else |filter| == |topic| && LevelsAgree(filter, topic, |filter|)
  {
    if topic != [] && filter != [] {
      var f, t := filter[1..], topic[1..];
      MatchesByLevels(f, t);
      if |filter| > 1 {
        assert EndsInHash(filter) <==> EndsInHash(f);
        var n := if EndsInHash(filter) then |filter| - 1 else |filter|;
        if n <= |topic| {
          assert LevelsAgree(filter, topic, n) <==>
                 (filter[0] == "+" || filter[0] == topic[0]) && LevelsAgree(f, t, n - 1) by
          {
            if (filter[0] == "+" || filter[0] == topic[0]) && LevelsAgree(f, t, n - 1) {
              forall i | 0 <= i < n ensures filter[i] == "+" || filter[i] == topic[i] {
                if i > 0 { assert f[i - 1] == "+" || f[i - 1] == t[i - 1]; }
              }
            }
            if LevelsAgree(filter, topic, n) {
              forall i | 0 <= i < n - 1 ensures f[i] == "+" || f[i] == t[i] {
                assert filter[i + 1] == "+" || filter[i + 1] == topic[i + 1];
              }
            }
          }
        }
      }
    }
  }

  /** The code and the standard differ in exactly two cases: a trailing '#' against its own
      parent level, which the code misses, and a leading wildcard against a '$' topic, which
      the code accepts. */
  lemma MatchesAgainstStandard(filter: Path, topic: Path)
    requires ValidFilter(filter) && WildcardFree(topic) && topic != []
    ensures SpecMatches(filter, topic) && !Matches(filter, topic) <==>
            HashAtParent(filter, topic) && !DollarExclusion(filter, topic)
    ensures Matches(filter, topic) && !SpecMatches(filter, topic) <==>
            Matches(filter, topic) && DollarExclusion(filter, topic)
  {
    assert forall i :: 0 <= i < |filter| - 1 ==> filter[i] != "#" by {
      assert '#' in "#" by { assert "#"[0] == '#'; }
    }
    MatchesByLevels(filter, topic);
  }

  /** `a/#` does not match `a`, and `#` matches `$x`: both against the standard. */
  lemma StandardDeviations()
    ensures SpecMatches(["a", "#"], ["a"]) && !Matches(["a", "#"], ["a"])
    ensures Matches(["#"], ["$x"]) && !SpecMatches(["#"], ["$x"])
  {
    assert Matches(["#"], ["$x"]);
    assert DollarExclusion(["#"], ["$x"]);
    var f, t: Path := ["a", "#"], ["a"];
    assert f[1..] == ["#"] && t[1..] == [];
    assert !Matches(f[1..], t[1..]);
  }
}
