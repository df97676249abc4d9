/**
  * The post-filter: with a `name_regex`, keep the fetched ports whose name the
  * pattern matches, in their original order; without one, keep them all.
  * The regular-expression engine is a parameter: `matches(pattern, name)`
  * says whether the compiled pattern finds a match anywhere in `name`.
  */
module NameFilter {
  import opened Outcomes
  import opened Ports

  /** An uninterpreted matcher standing for compiling `pattern` and calling `MatchString(name)`. */
  type Matcher = (string, string) -> bool

  /** Every port carries a name, so the matcher can be applied to each. */
  predicate AllNamed(ports: seq<Port>)
  {
    forall i | 0 <= i < |ports| :: ports[i].name.Some?
  }

  /** The port has a name and the pattern matches it. */
  predicate NameMatches(matches: Matcher, pattern: string, p: Port)
  {
    p.name.Some? && matches(pattern, p.name.value)
  }

  /** `a` is `b` with zero or more elements deleted, the rest in their original order. */
  predicate IsSubsequence<T(==)>(a: seq<T>, b: seq<T>)
    decreases |b|
  {
    || |a| == 0
    || (&& |b| > 0
        && ((a[0] == b[0] && IsSubsequence(a[1..], b[1..])) || IsSubsequence(a, b[1..])))
  }

  /**
    * The loop over the fetched results when a pattern is given: a port is
    * appended exactly when its name matches. Names are dereferenced, so every
    * port must have one.
    */
  function KeepMatching(matches: Matcher, pattern: string, ports: seq<Port>): (r: seq<Port>)
    requires AllNamed(ports)
    ensures |r| <= |ports|
    ensures IsSubsequence(r, ports)
    ensures forall i | 0 <= i < |r| :: NameMatches(matches, pattern, r[i])
    ensures forall i | 0 <= i < |ports| :: NameMatches(matches, pattern, ports[i]) ==> ports[i] in r
    decreases |ports|
  {
    if |ports| == 0 then []
    else
      var rest := KeepMatching(matches, pattern, ports[1..]);
      assert forall i | 1 <= i < |ports| :: ports[i] == ports[1..][i - 1];
      if NameMatches(matches, pattern, ports[0]) then [ports[0]] + rest else rest
  }

  /** Each port occurs in the result as often as in the input if it matches, and not at all otherwise. */
  lemma {:induction false} KeepMatchingMultiplicity(matches: Matcher, pattern: string, ports: seq<Port>, p: Port)
    requires AllNamed(ports)
    ensures multiset(KeepMatching(matches, pattern, ports))[p] ==
            if NameMatches(matches, pattern, p) then multiset(ports)[p] else 0
    decreases |ports|
  {
    if |ports| > 0 {
      assert ports == [ports[0]] + ports[1..];
      assert AllNamed(ports[1..]) by {
        assert forall i | 0 <= i < |ports[1..]| :: ports[1..][i] == ports[i + 1];
      }
      KeepMatchingMultiplicity(matches, pattern, ports[1..], p);
    }
  }

  /** Filtering commutes with concatenation: records are never reordered across the input. */
  lemma {:induction false} KeepMatchingAppend(matches: Matcher, pattern: string, a: seq<Port>, b: seq<Port>)
    requires AllNamed(a) && AllNamed(b)
    ensures AllNamed(a + b)
    ensures KeepMatching(matches, pattern, a + b) ==
            KeepMatching(matches, pattern, a) + KeepMatching(matches, pattern, b)
    decreases |a|
  {
    assert forall i | 0 <= i < |a + b| :: (a + b)[i] == if i < |a| then a[i] else b[i - |a|];
    if |a| > 0 {
      assert (a + b)[1..] == a[1..] + b;
      assert AllNamed(a[1..]) by {
        assert forall i | 0 <= i < |a[1..]| :: a[1..][i] == a[i + 1];
      }
      KeepMatchingAppend(matches, pattern, a[1..], b);
    } else {
      assert a + b == b;
    }
  }

  /** When every name matches, nothing is dropped. */
  lemma {:induction false} KeepMatchingAllMatch(matches: Matcher, pattern: string, ports: seq<Port>)
    requires forall i | 0 <= i < |ports| :: NameMatches(matches, pattern, ports[i])
    ensures AllNamed(ports)
    ensures KeepMatching(matches, pattern, ports) == ports
    decreases |ports|
  {
    if |ports| > 0 {
      assert forall i | 0 <= i < |ports[1..]| :: ports[1..][i] == ports[i + 1];
      KeepMatchingAllMatch(matches, pattern, ports[1..]);
    }
  }

  /** Filtering twice with the same pattern is the same as filtering once. */
  lemma KeepMatchingIdempotent(matches: Matcher, pattern: string, ports: seq<Port>)
    requires AllNamed(ports)
    ensures AllNamed(KeepMatching(matches, pattern, ports))
    ensures KeepMatching(matches, pattern, KeepMatching(matches, pattern, ports)) ==
            KeepMatching(matches, pattern, ports)
  {
  }

  /**
    * The post-filter step. An empty `name_regex` reads as "not set" and the
    * fetched list passes through unchanged; otherwise only matching ports stay.
    */
  function FilterByName(matches: Matcher, nameRegex: string, ports: seq<Port>): (r: seq<Port>)
    requires nameRegex != "" ==> AllNamed(ports)
    ensures nameRegex == "" ==> r == ports
    ensures IsSubsequence(r, ports)
    ensures nameRegex != "" ==> forall i | 0 <= i < |r| :: NameMatches(matches, nameRegex, r[i])
    ensures nameRegex != "" ==>
              forall i | 0 <= i < |ports| :: NameMatches(matches, nameRegex, ports[i]) ==> ports[i] in r
    ensures nameRegex != "" ==>
              forall p: Port :: multiset(r)[p] == if NameMatches(matches, nameRegex, p) then multiset(ports)[p] else 0
  {
    if nameRegex == "" then
      IsSubsequenceRefl(ports);
      ports
    else
      KeepMatchingCounts(matches, nameRegex, ports);
      KeepMatching(matches, nameRegex, ports)
  }

  /** `KeepMatchingMultiplicity` for every port at once. */
  lemma KeepMatchingCounts(matches: Matcher, pattern: string, ports: seq<Port>)
    requires AllNamed(ports)
    ensures forall p: Port :: multiset(KeepMatching(matches, pattern, ports))[p] ==
                              if NameMatches(matches, pattern, p) then multiset(ports)[p] else 0
  {
    forall p: Port
      ensures multiset(KeepMatching(matches, pattern, ports))[p] ==
              if NameMatches(matches, pattern, p) then multiset(ports)[p] else 0
    {
      KeepMatchingMultiplicity(matches, pattern, ports, p);
    }
  }

  lemma {:induction false} IsSubsequenceRefl<T>(s: seq<T>)
    ensures IsSubsequence(s, s)
    decreases |s|
  {
    if |s| > 0 {
      IsSubsequenceRefl(s[1..]);
    }
  }

  /** A matcher for patterns without metacharacters: the pattern occurs anywhere in the name. */
  predicate ContainsLiteral(pattern: string, name: string)
  {
    exists i | 0 <= i <= |name| - |pattern| :: OccursAt(pattern, name, i)
  }

  predicate OccursAt(pattern: string, name: string, i: int)
  {
    0 <= i <= |name| - |pattern| && name[i..i + |pattern|] == pattern
  }

  /** Names "eth0", "eth1", "mgmt0" and pattern "eth": the first two stay, in order. */
  lemma EthExample(eth0: Port, eth1: Port, mgmt0: Port)
    requires eth0.name == Some("eth0") && eth1.name == Some("eth1") && mgmt0.name == Some("mgmt0")
    ensures AllNamed([eth0, eth1, mgmt0])
    ensures FilterByName(ContainsLiteral, "eth", [eth0, eth1, mgmt0]) == [eth0, eth1]
  {
    assert OccursAt("eth", "eth0", 0);
    assert OccursAt("eth", "eth1", 0);
    assert "mgmt0"[0..3][0] == 'm' && "mgmt0"[1..4][0] == 'g' && "mgmt0"[2..5][0] == 'm';
    assert !ContainsLiteral("eth", "mgmt0") by {
      assert "eth"[0] == 'e';
    }
    assert [eth0, eth1, mgmt0][1..] == [eth1, mgmt0];
    assert [eth1, mgmt0][1..] == [mgmt0];
    assert [mgmt0][1..] == [];
    assert KeepMatching(ContainsLiteral, "eth", [mgmt0]) == [];
    assert KeepMatching(ContainsLiteral, "eth", [eth1, mgmt0]) == [eth1];
  }
}
