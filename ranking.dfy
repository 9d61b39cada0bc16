/**
 * `ORDER BY score DESC LIMIT n` over a set of keys. The store does not
 * break ties, so among keys with equal scores the order, and which of
 * them make the cut, is left open: the ranking picks any of them.
 */
module Ranking {

  /** A finite non-empty set has a key of greatest score. */
  lemma {:induction false} MaxExists<K>(keys: set<K>, score: K -> real)
    requires keys != {}
    ensures exists k :: k in keys && forall j :: j in keys ==> score(j) <= score(k)
  {
    var x :| x in keys;
    var rest := keys - {x};
    if rest != {} {
      MaxExists(rest, score);
      var m :| m in rest && forall j :: j in rest ==> score(j) <= score(m);
      if score(x) <= score(m) {
        assert forall j :: j in keys ==> score(j) <= score(m);
      } else {
        assert forall j :: j in keys ==> score(j) <= score(x);
      }
    } else {
      assert keys == {x};
    }
  }

  /** The length of a ranking: `limit` keys, or all of them when there are
      fewer or when `limit` is negative (SQLite's "no limit"). */
  function Cut(size: nat, limit: int): nat
  {
    if 0 <= limit < size then limit else size
  }

  /** What the selection loop keeps: `ranked` holds distinct keys, best
      first, none scored below a key still in `rest`, and `rest` is the
      keys not yet ranked. */
  ghost predicate RankedSoFar<K>(keys: set<K>, score: K -> real, ranked: seq<K>, rest: set<K>)
  {
    && rest <= keys
    && (forall k :: k in keys ==> (k in rest <==> k !in ranked))
    && |rest| + |ranked| == |keys|
    && (forall i :: 0 <= i < |ranked| ==> ranked[i] in keys)
    && (forall i, j :: 0 <= i < j < |ranked| ==> ranked[i] != ranked[j])
    && (forall i, j :: 0 <= i < j < |ranked| ==> score(ranked[j]) <= score(ranked[i]))
    && (forall k, i :: k in rest && 0 <= i < |ranked| ==> score(k) <= score(ranked[i]))
  }

  /** Moving a best key of `rest` to the end of `ranked` keeps `RankedSoFar`. */
  lemma RankedSoFarStep<K>(keys: set<K>, score: K -> real, ranked: seq<K>, rest: set<K>, best: K)
    requires RankedSoFar(keys, score, ranked, rest)
    requires best in rest && forall j :: j in rest ==> score(j) <= score(best)
    ensures RankedSoFar(keys, score, ranked + [best], rest - {best})
  {
    var next := ranked + [best];
    assert |rest - {best}| == |rest| - 1;
    assert forall k :: k in next <==> k in ranked || k == best;
    assert forall i :: 0 <= i < |ranked| ==> next[i] == ranked[i];
    assert next[|ranked|] == best;
  }

  /** The top `limit` keys by score, best first. */
  method TopBy<K(==)>(keys: set<K>, score: K -> real, limit: int) returns (ranked: seq<K>)
    ensures |ranked| == Cut(|keys|, limit)
    ensures forall i :: 0 <= i < |ranked| ==> ranked[i] in keys
    ensures forall i, j :: 0 <= i < j < |ranked| ==> ranked[i] != ranked[j]
    ensures forall i, j :: 0 <= i < j < |ranked| ==> score(ranked[j]) <= score(ranked[i])
    ensures forall k, i :: k in keys && k !in ranked && 0 <= i < |ranked| ==> score(k) <= score(ranked[i])
    ensures |ranked| == |keys| ==> forall k :: k in keys ==> k in ranked
  {
    ranked := [];
    var rest := keys;
    var bound := Cut(|keys|, limit);
    while |ranked| < bound
      invariant |ranked| <= bound
      invariant RankedSoFar(keys, score, ranked, rest)
      decreases bound - |ranked|
    {
      MaxExists(rest, score);
      var best :| best in rest && forall j :: j in rest ==> score(j) <= score(best);
      RankedSoFarStep(keys, score, ranked, rest, best);
      ranked := ranked + [best];
      rest := rest - {best};
    }
    if |ranked| == |keys| {
      assert rest == {};
    }
  }

  /** The same ranking by a whole-number count, as `ORDER BY COUNT(...) DESC` does. */
  method RankByCount<K(==)>(keys: set<K>, count: K -> nat, limit: int) returns (ranked: seq<K>)
    ensures |ranked| == Cut(|keys|, limit)
    ensures forall i :: 0 <= i < |ranked| ==> ranked[i] in keys
    ensures forall i, j :: 0 <= i < j < |ranked| ==> ranked[i] != ranked[j]
    ensures forall i, j :: 0 <= i < j < |ranked| ==> count(ranked[j]) <= count(ranked[i])
    ensures forall k, i :: k in keys && k !in ranked && 0 <= i < |ranked| ==> count(k) <= count(ranked[i])
    ensures |ranked| == |keys| ==> forall k :: k in keys ==> k in ranked
  {
    var score := (k: K) => count(k) as real;
    ranked := TopBy(keys, score, limit);
    assert forall k :: score(k) == count(k) as real;
  }
}
