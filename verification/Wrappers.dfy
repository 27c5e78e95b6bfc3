/** Results of operations that may have no value or may fail, and the few facts about
    finite sequences that several components share. */
module Wrappers {

  datatype Option<+T> = None | Some(value: T)

  datatype Result<+T, +E> = Ok(value: T) | Err(error: E)

  function OneIf(b: bool): nat {
    if b then 1 else 0
  }

  /** No element occurs at two positions. */
  ghost predicate NoDup<T>(s: seq<T>) {
    forall i, j | 0 <= i < j < |s| :: s[i] != s[j]
  }

  /** No element occurs twice, nor do two elements have the same key. */
  ghost predicate OncePer<T, K>(s: seq<T>, key: T -> K) {
    && NoDup(s)
    && forall x, y | x in s && y in s && key(x) == key(y) :: x == y
  }

  ghost function Keys<T, K>(s: seq<T>, key: T -> K): set<K> {
    set x | x in s :: key(x)
  }

  /** Such a sequence is as long as it has keys. */
  lemma {:induction false} OncePerCount<T, K>(s: seq<T>, key: T -> K)
    requires OncePer(s, key)
    ensures |Keys(s, key)| == |s|
  {
    if s == [] {
      assert Keys(s, key) == {};
    } else {
      var rest, last := s[..|s| - 1], s[|s| - 1];
      OncePerCount(rest, key);
      assert last in s && last !in rest;
      assert Keys(s, key) == Keys(rest, key) + {key(last)};
    }
  }

  /** s lists the members of S, each exactly once, in some order. */
  ghost predicate Enumerates<T(!new)>(s: seq<T>, S: set<T>) {
    && NoDup(s)
    && forall x :: x in s <==> x in S
  }

  lemma {:induction false} EnumeratesCount<T(!new)>(s: seq<T>, S: set<T>)
    requires Enumerates(s, S)
    ensures |s| == |S|
  {
    OncePerCount(s, x => x);
    assert Keys(s, x => x) == S;
  }

  /** The members of a set in an arbitrary order: every order is a possible result. */
  method Enumerate<T(==,!new)>(S: set<T>) returns (s: seq<T>)
    ensures Enumerates(s, S)
  {
    s := [];
    var rest := S;
    while rest != {}
      invariant rest <= S
      invariant NoDup(s)
      invariant forall x :: x in s <==> x in S - rest
      decreases rest
    {
      var x :| x in rest;
      assert x !in s;
      s := s + [x];
      rest := rest - {x};
    }
  }

  /** At most so many elements from the front; a limit of 0 is none. */
  function Cut<T>(s: seq<T>, limit: nat): seq<T> {
    if limit == 0 || |s| <= limit then s else s[..limit]
  }

  /** The elements with a given key, in order. */
  ghost function With<T>(s: seq<T>, key: T -> Option<int>, k: int): (r: seq<T>)
    ensures forall x | x in r :: x in s && key(x) == Some(k)
    ensures forall x | x in s && key(x) == Some(k) :: x in r
    ensures NoDup(s) ==> NoDup(r)
  {
    if s == [] then []
    else With(s[..|s| - 1], key, k) + (if key(s[|s| - 1]) == Some(k) then [s[|s| - 1]] else [])
  }

  lemma {:induction false} WithNothing<T>(key: T -> Option<int>)
    ensures forall k :: With([], key, k) == []
  {
  }

  lemma {:induction false} WithAppend<T>(s: seq<T>, x: T, key: T -> Option<int>, k: int)
    ensures With(s + [x], key, k) == With(s, key, k) + (if key(x) == Some(k) then [x] else [])
  {
    assert (s + [x])[..|s|] == s;
  }

  /** Nodes sorted into one non-empty list per key; ids lists the keys, once each. */
  ghost predicate Grouped<N>(nodes: seq<N>, key: N -> Option<int>, ids: seq<int>, nodeids: map<int, seq<N>>) {
    && NoDup(ids)
    && (forall k :: k in nodeids <==> k in ids)
    && (forall k | k in nodeids :: nodeids[k] != [])
    && (forall n | n in nodes && key(n).Some? :: key(n).value in ids)
    && (forall k, n: N | k in nodeids && n in nodeids[k] :: n in nodes && key(n) == Some(k))
    && (forall k, n: N | k in nodeids && n in nodes && key(n) == Some(k) :: n in nodeids[k])
  }

  /** Sorts nodes by key; the keys are listed once each in order of first appearance, nil keys
      are skipped. */
  method GroupByKey<N>(nodes: seq<N>, keys: seq<Option<int>>, ghost key: N -> Option<int>)
    returns (ids: seq<int>, nodeids: map<int, seq<N>>)
    requires |nodes| == |keys| && forall i | 0 <= i < |nodes| :: keys[i] == key(nodes[i])
    ensures Grouped(nodes, key, ids, nodeids)
  {
    ids, nodeids := [], map[];
    for i := 0 to |nodes|
      invariant Grouped(nodes[..i], key, ids, nodeids)
    {
      assert nodes[..i + 1] == nodes[..i] + [nodes[i]];
      if keys[i].None? {
        continue;
      }
      var fk := keys[i].value;
      if fk !in nodeids {
        ids := ids + [fk];
      }
      nodeids := nodeids[fk := (if fk in nodeids then nodeids[fk] else []) + [nodes[i]]];
    }
    assert nodes[..|nodes|] == nodes;
  }

  /** The listed keys are exactly those that occur. */
  lemma {:induction false} GroupedKeys<N>(nodes: seq<N>, key: N -> Option<int>, ids: seq<int>,
                                          nodeids: map<int, seq<N>>, k: int)
    requires Grouped(nodes, key, ids, nodeids)
    ensures k in ids <==> exists n :: n in nodes && key(n) == Some(k)
  {
    if k in ids {
      var n := nodeids[k][0];
      assert k in nodeids && n in nodeids[k];
      assert n in nodes && key(n) == Some(k);
    }
    if n :| n in nodes && key(n) == Some(k) {
      assert key(n).value in ids;
    }
  }

  lemma {:induction false} GroupedNone<N>(nodes: seq<N>, key: N -> Option<int>, ids: seq<int>,
                                          nodeids: map<int, seq<N>>)
    requires Grouped(nodes, key, ids, nodeids) && ids == []
    ensures forall n | n in nodes :: key(n).None?
  {
  }

  lemma {:induction false} SomeKey<N>(nodes: seq<N>, key: N -> Option<int>, ids: seq<int>, nodeids: map<int, seq<N>>)
    requires Grouped(nodes, key, ids, nodeids) && ids != []
    ensures exists n :: n in nodes && key(n).Some?
  {
    var k := ids[0];
    assert k in ids;
    var n := nodeids[k][0];
    assert k in nodeids && n in nodeids[k];
    assert n in nodes && key(n) == Some(k);
  }
}
