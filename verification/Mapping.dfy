/** A collection of key-value pairs with unique keys, kept in a slice while it is small and in
    a hash map afterwards (mapping.go). */
module Mappings {
  import opened Foundations

  const MAX_SLICE := 8

  /** The map a slice of entries stands for. */
  function MapOf<K, V>(s: seq<(K, V)>): (m: map<K, V>)
    ensures forall i :: 0 <= i < |s| ==> s[i].0 in m
    ensures forall k :: k in m ==> exists i :: 0 <= i < |s| && s[i] == (k, m[k])
  {
    if s == [] then map[] else MapOf(s[..|s| - 1])[s[|s| - 1].0 := s[|s| - 1].1]
  }

  ghost predicate UniqueKeys<K, V>(s: seq<(K, V)>) {
    forall i, j :: 0 <= i < j < |s| ==> s[i].0 != s[j].0
  }

  lemma MapOfAt<K, V>(s: seq<(K, V)>, i: nat)
    requires UniqueKeys(s) && i < |s|
    ensures s[i].0 in MapOf(s) && MapOf(s)[s[i].0] == s[i].1
  {
    var k := s[i].0;
    var j :| 0 <= j < |s| && s[j] == (k, MapOf(s)[k]);
    assert i == j;
  }

  method ToMap<K(==), V>(s: seq<(K, V)>) returns (h: map<K, V>)
    ensures h == MapOf(s)
  {
    h := map[];
    for i := 0 to |s|
      invariant h == MapOf(s[..i])
    {
      assert s[..i + 1][..i] == s[..i];
      h := h[s[i].0 := s[i].1];
    }
    assert s[..|s|] == s;
  }

  class Mapping<K(==, !new), V> {
    var s: seq<(K, V)>
    var m: Option<map<K, V>>

    ghost predicate Valid()
      reads this
    {
      if m.Some? then s == [] else UniqueKeys(s) && |s| <= MAX_SLICE
    }

    ghost function Contents(): map<K, V>
      reads this
    {
      if m.Some? then m.value else MapOf(s)
    }

    constructor ()
      ensures Valid() && Contents() == map[]
    {
      s, m := [], None;
    }

    /** add; the caller adds a key once (addChild looks it up first). */
    method Add(k: K, v: V)
      requires Valid() && k !in Contents()
      modifies this
      ensures Valid() && Contents() == old(Contents())[k := v]
    {
      if m.None? && |s| < MAX_SLICE {
        ghost var t := s + [(k, v)];
        assert t[..|t| - 1] == s;
        s := s + [(k, v)];
      } else {
        if m.None? {
          var h := ToMap(s);
          m := Some(h);
          s := [];
        }
        m := Some(m.value[k := v]);
      }
    }

    method Find(k: K) returns (v: Option<V>)
      requires Valid()
      ensures v == if k in Contents() then Some(Contents()[k]) else None
    {
      if m.Some? {
        return if k in m.value then Some(m.value[k]) else None;
      }
      for i := 0 to |s|
        invariant forall j :: 0 <= j < i ==> s[j].0 != k
      {
        if s[i].0 == k {
          MapOfAt(s, i);
          return Some(s[i].1);
        }
      }
      return None;
    }

    /** eachPair: the pairs f is called on, in this order. */
    method EachPair(f: (K, V) -> bool) returns (visited: seq<(K, V)>)
      requires Valid()
      ensures Visited(visited, Contents(), f)
    {
      if m.Some? {
        visited := EachInMap(m.value, f);
      } else {
        visited := EachInSlice(s, f);
      }
    }
  }

  /** No pair is visited twice, and the visit ends at the first pair that f refuses, or with all. */
  ghost predicate Visited<K(!new), V>(visited: seq<(K, V)>, m: map<K, V>, f: (K, V) -> bool) {
    && UniqueKeys(visited)
    && (forall i :: 0 <= i < |visited| ==> visited[i].0 in m && m[visited[i].0] == visited[i].1)
    && (forall i :: 0 <= i < |visited| - 1 ==> f(visited[i].0, visited[i].1))
    && ((visited != [] && !f(visited[|visited| - 1].0, visited[|visited| - 1].1)) || HasKeys(visited, m.Keys))
  }

  lemma MapOfKeys<K(!new), V>(s: seq<(K, V)>)
    requires UniqueKeys(s)
    ensures HasKeys(s, MapOf(s).Keys)
    ensures forall i :: 0 <= i < |s| ==> s[i].0 in MapOf(s) && MapOf(s)[s[i].0] == s[i].1
  {
    forall i | 0 <= i < |s|
      ensures s[i].0 in MapOf(s) && MapOf(s)[s[i].0] == s[i].1
    {
      MapOfAt(s, i);
    }
  }

  method EachInSlice<K(!new), V>(s: seq<(K, V)>, f: (K, V) -> bool) returns (visited: seq<(K, V)>)
    requires UniqueKeys(s)
    ensures Visited(visited, MapOf(s), f)
  {
    hide MapOf;
    MapOfKeys(s);
    for i := 0 to |s|
      invariant forall j :: 0 <= j < i ==> f(s[j].0, s[j].1)
    {
      if !f(s[i].0, s[i].1) {
        return s[..i + 1];
      }
    }
    return s;
  }

  method EachInMap<K(!new), V>(m: map<K, V>, f: (K, V) -> bool) returns (visited: seq<(K, V)>)
    ensures Visited(visited, m, f)
  {
    visited := [];
    var rest := m.Keys;
    while rest != {}
      invariant rest <= m.Keys
      invariant UniqueKeys(visited) && HasKeys(visited, m.Keys - rest)
      invariant forall i :: 0 <= i < |visited| ==> visited[i].0 in m && m[visited[i].0] == visited[i].1
      invariant forall i :: 0 <= i < |visited| ==> f(visited[i].0, visited[i].1)
      decreases rest
    {
      var k :| k in rest;
      VisitOne(m, rest, visited, k);
      visited := visited + [(k, m[k])];
      if !f(k, m[k]) {
        return;
      }
      rest := rest - {k};
    }
    assert m.Keys - rest == m.Keys;
  }

  /** The keys of the entries are exactly the given ones. */
  ghost predicate HasKeys<K(!new), V>(s: seq<(K, V)>, keys: set<K>) {
    forall k :: k in keys <==> exists i :: 0 <= i < |s| && s[i].0 == k
  }

  lemma VisitOne<K(!new), V>(m: map<K, V>, rest: set<K>, visited: seq<(K, V)>, k: K)
    requires rest <= m.Keys && k in rest && UniqueKeys(visited)
    requires HasKeys(visited, m.Keys - rest)
    ensures UniqueKeys(visited + [(k, m[k])])
    ensures HasKeys(visited + [(k, m[k])], m.Keys - (rest - {k}))
  {
    var v := visited + [(k, m[k])];
    assert forall i :: 0 <= i < |visited| ==> visited[i].0 in m.Keys - rest;
    forall x
      ensures x in m.Keys - (rest - {k}) <==> exists i :: 0 <= i < |v| && v[i].0 == x
    {
      if x == k {
        assert v[|visited|].0 == x;
      } else if x in m.Keys - rest {
        var i :| 0 <= i < |visited| && visited[i].0 == x;
        assert v[i].0 == x;
      }
    }
  }
}
