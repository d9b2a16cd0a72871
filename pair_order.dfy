/** The pairs a key order meets when every player is checked against every other once:
    the rows of pairs of the order, a handled set of pair keys part-way through that
    double loop, and the bookkeeping the loop keeps. The ids and keys are of any type, so
    that only the order of the loop and the injectivity of the key matter here. */
module PairOrder {

  /** No element of the order occurs twice. */
  ghost predicate Unique<T>(s: seq<T>) {
    forall p, q :: 0 <= p < q < |s| ==> s[p] != s[q]
  }

  // ---------------------------------------------------------------- rows of pairs

  /** The pairs (order[i], order[c]) for i < c < j, in order of c. */
  function Row<T>(order: seq<T>, i: nat, j: nat): (r: seq<(T, T)>)
    requires i < |order| && j <= |order|
    ensures |r| == if j <= i then 0 else j - i - 1
  {
    if j <= i + 1 then [] else Row(order, i, j - 1) + [(order[i], order[j - 1])]
  }

  /** The pairs (order[a], order[b]) for a < b and a < i, row after row. */
  function AllPairs<T>(order: seq<T>, i: nat): seq<(T, T)>
    requires i <= |order|
  {
    if i == 0 then [] else AllPairs(order, i - 1) + Row(order, i - 1, |order|)
  }

  /** The pair (order[i], order[c]), i < c < j, is entry c - i - 1 of the row of player i
      up to j. */
  lemma {:induction false} RowAt<T>(order: seq<T>, i: nat, j: nat, c: int)
    requires i < c < j <= |order|
    ensures Row(order, i, j)[c - i - 1] == (order[i], order[c])
    decreases j
  {
    if c < j - 1 {
      RowAt(order, i, j - 1, c);
    }
  }

  /** Every pair in the row of player i up to j is (order[i], order[c]) for some i < c < j. */
  lemma {:induction false} RowSound<T>(order: seq<T>, i: nat, j: nat)
    requires i < |order| && j <= |order|
    ensures forall x :: x in Row(order, i, j) ==>
      x.0 == order[i] && exists c :: i < c < j && x.1 == order[c]
    decreases j
  {
    if j > i + 1 {
      RowSound(order, i, j - 1);
    }
  }

  /** No pair is in the row of player i twice. */
  lemma {:induction false} RowNoRepeats<T>(order: seq<T>, i: nat, j: nat)
    requires Unique(order) && i < |order| && j <= |order|
    ensures forall p, q :: 0 <= p < q < |Row(order, i, j)| ==>
      Row(order, i, j)[p] != Row(order, i, j)[q]
    decreases j
  {
    if j > i + 1 {
      RowNoRepeats(order, i, j - 1);
      RowSound(order, i, j - 1);
      var prev := Row(order, i, j - 1);
      assert Row(order, i, j) == prev + [(order[i], order[j - 1])];
      forall p | 0 <= p < |prev|
        ensures prev[p] != (order[i], order[j - 1])
      {
        assert prev[p] in prev;
        var c :| i < c < j - 1 && prev[p].1 == order[c];
      }
    }
  }

  /** The pair of positions a < b, a below i, is entry |AllPairs(order, a)| + b - a - 1 of
      the list of the first i rows: the rows before a, then its place in row a. */
  lemma {:induction false} AllPairsAt<T>(order: seq<T>, i: nat, a: nat, b: int)
    requires a < i <= |order| && a < b < |order|
    ensures |AllPairs(order, a)| + (b - a - 1) < |AllPairs(order, i)|
    ensures AllPairs(order, i)[|AllPairs(order, a)| + (b - a - 1)] == (order[a], order[b])
    decreases i
  {
    if a == i - 1 {
      RowAt(order, i - 1, |order|, b);
      AllPairsNew(order, i, b - a - 1);
    } else {
      AllPairsAt(order, i - 1, a, b);
      AllPairsOld(order, i, |AllPairs(order, a)| + (b - a - 1));
    }
  }

  /** Entry k of the first i - 1 rows is entry k of the first i. */
  lemma AllPairsOld<T>(order: seq<T>, i: nat, k: int)
    requires 0 < i <= |order| && 0 <= k < |AllPairs(order, i - 1)|
    ensures k < |AllPairs(order, i)| && AllPairs(order, i)[k] == AllPairs(order, i - 1)[k]
  {
  }

  /** Entry k of row i - 1 follows the first i - 1 rows in the first i. */
  lemma AllPairsNew<T>(order: seq<T>, i: nat, k: int)
    requires 0 < i <= |order| && 0 <= k < |Row(order, i - 1, |order|)|
    ensures |AllPairs(order, i - 1)| + k < |AllPairs(order, i)|
    ensures AllPairs(order, i)[|AllPairs(order, i - 1)| + k] == Row(order, i - 1, |order|)[k]
  {
  }

  /** The pair of positions a < b, a below i, is in the list of the first i rows. */
  lemma AllPairsHas<T>(order: seq<T>, i: nat, a: int, b: int)
    requires i <= |order| && 0 <= a < b < |order| && a < i
    ensures (order[a], order[b]) in AllPairs(order, i)
  {
    AllPairsAt(order, i, a, b);
  }

  /** Every pair of positions a < b with a below i is in the list of the first i rows. */
  lemma AllPairsComplete<T>(order: seq<T>, i: nat)
    requires i <= |order|
    ensures forall a, b :: 0 <= a < b < |order| && a < i ==>
      (order[a], order[b]) in AllPairs(order, i)
  {
    forall a, b | 0 <= a < b < |order| && a < i
      ensures (order[a], order[b]) in AllPairs(order, i)
    {
      AllPairsHas(order, i, a, b);
    }
  }

  /** Every pair in the list of the first i rows is a pair of positions a < b, a below i. */
  lemma {:induction false} AllPairsSound<T>(order: seq<T>, i: nat)
    requires i <= |order|
    ensures forall x :: x in AllPairs(order, i) ==>
      exists a, b :: 0 <= a < b < |order| && a < i && x.0 == order[a] && x.1 == order[b]
    decreases i
  {
    if i > 0 {
      AllPairsSound(order, i - 1);
      RowSound(order, i - 1, |order|);
      forall x | x in AllPairs(order, i)
        ensures exists a, b :: 0 <= a < b < |order| && a < i && x.0 == order[a] && x.1 == order[b]
      {
        if x !in AllPairs(order, i - 1) {
          assert x in Row(order, i - 1, |order|);
          var c :| i - 1 < c < |order| && x.1 == order[c];
          assert 0 <= i - 1 < c < |order| && x.0 == order[i - 1] && x.1 == order[c];
        }
      }
    }
  }

  /** No pair is in the list of the first i rows twice. */
  lemma {:induction false} AllPairsNoRepeats<T>(order: seq<T>, i: nat)
    requires Unique(order) && i <= |order|
    ensures forall p, q :: 0 <= p < q < |AllPairs(order, i)| ==>
      AllPairs(order, i)[p] != AllPairs(order, i)[q]
    decreases i
  {
    if i > 0 {
      AllPairsNoRepeats(order, i - 1);
      AllPairsSound(order, i - 1);
      RowSound(order, i - 1, |order|);
      RowNoRepeats(order, i - 1, |order|);
      var prev, row := AllPairs(order, i - 1), Row(order, i - 1, |order|);
      assert AllPairs(order, i) == prev + row;
      forall p, q | 0 <= p < q < |prev + row|
        ensures (prev + row)[p] != (prev + row)[q]
      {
        if p < |prev| && q >= |prev| {
          var x := prev[p];
          assert x in prev;
          var a, b :| 0 <= a < b < |order| && a < i - 1 && x.0 == order[a] && x.1 == order[b];
          assert row[q - |prev|] in row;
          assert row[q - |prev|].0 == order[i - 1];
        }
      }
    }
  }

  /** The first i rows hold i * (2n - i - 1) / 2 pairs, n the length of the order. */
  lemma {:induction false} AllPairsLength<T>(order: seq<T>, i: nat)
    requires i <= |order|
    ensures |AllPairs(order, i)| * 2 == i * (2 * |order| - i - 1)
    decreases i
  {
    if i > 0 {
      AllPairsLength(order, i - 1);
      var n := |order|;
      assert |AllPairs(order, i)| == |AllPairs(order, i - 1)| + (n - i);
      assert (i - 1) * (2 * n - i) + 2 * (n - i) == i * (2 * n - i - 1);
    }
  }

  // ---------------------------------------------------------------- handled keys

  /** The key function tells the pairs of the given ids apart: no two pairs of them are
      joined into the same key. */
  ghost predicate KeysDistinct<T, K>(key: (T, T) -> K, ids: seq<T>) {
    forall a, b, c, d {:trigger key(ids[a], ids[b]), key(ids[c], ids[d])} ::
      0 <= a < |ids| && 0 <= b < |ids| && 0 <= c < |ids| && 0 <= d < |ids|
      && key(ids[a], ids[b]) == key(ids[c], ids[d])
      ==> ids[a] == ids[c] && ids[b] == ids[d]
  }

  /** The handled set halfway through the double loop, at player i and other j: it holds
      the key of the pair of positions (a, b), a ≠ b, exactly when the pair was met before,
      that is when a or b is below i, or one of them is i and the other below j. */
  ghost predicate Met<T, K>(key: (T, T) -> K, handled: set<K>, order: seq<T>, i: int, j: int) {
    forall a, b {:trigger key(order[a], order[b])} :: 0 <= a < |order| && 0 <= b < |order| ==>
      (key(order[a], order[b]) in handled
       <==> a != b && (a < i || b < i || (a == i && b < j) || (b == i && a < j)))
  }

  /** Met at one pair of positions. */
  lemma MetAt<T, K>(key: (T, T) -> K, handled: set<K>, order: seq<T>, i: int, j: int,
                    a: int, b: int)
    requires Met(key, handled, order, i, j) && 0 <= a < |order| && 0 <= b < |order|
    ensures key(order[a], order[b]) in handled
      <==> a != b && (a < i || b < i || (a == i && b < j) || (b == i && a < j))
  {
  }

  /** Two pairs of positions with the same key are the same pair. */
  lemma SameKey<T, K>(key: (T, T) -> K, order: seq<T>, a: int, b: int, c: int, d: int)
    requires Unique(order) && KeysDistinct(key, order)
    requires 0 <= a < |order| && 0 <= b < |order| && 0 <= c < |order| && 0 <= d < |order|
    ensures key(order[a], order[b]) == key(order[c], order[d]) <==> a == c && b == d
  {
    if key(order[a], order[b]) == key(order[c], order[d]) {
      assert order[a] == order[c] && order[b] == order[d];
      SamePosition(order, a, c);
      SamePosition(order, b, d);
    }
  }

  /** Two positions of an order without repeats holding the same element are the same. */
  lemma SamePosition<T>(order: seq<T>, a: int, c: int)
    requires Unique(order) && 0 <= a < |order| && 0 <= c < |order| && order[a] == order[c]
    ensures a == c
  {
  }

  /** Meeting a new pair (i, j), i < j, adds both orders of its key. */
  lemma MetAdd<T, K>(key: (T, T) -> K, handled: set<K>, order: seq<T>, i: int, j: int)
    requires Unique(order) && KeysDistinct(key, order)
    requires 0 <= i < j < |order| && Met(key, handled, order, i, j)
    ensures key(order[i], order[j]) !in handled
    ensures Met(key, handled + {key(order[i], order[j]), key(order[j], order[i])}, order, i, j + 1)
  {
    MetAt(key, handled, order, i, j, i, j);
    var added := handled + {key(order[i], order[j]), key(order[j], order[i])};
    forall a, b | 0 <= a < |order| && 0 <= b < |order|
      ensures key(order[a], order[b]) in added
        <==> a != b && (a < i || b < i || (a == i && b < j + 1) || (b == i && a < j + 1))
    {
      MetAt(key, handled, order, i, j, a, b);
      SameKey(key, order, a, b, i, j);
      SameKey(key, order, a, b, j, i);
    }
  }

  /** Finishing a row is starting the next one. */
  lemma NextRow<T, K>(key: (T, T) -> K, handled: set<K>, order: seq<T>, i: int)
    requires Met(key, handled, order, i, |order|)
    ensures Met(key, handled, order, i + 1, 0)
  {
  }

  // ---------------------------------------------------------------- the loop's bookkeeping

  /** The bookkeeping of the double loop: the handled set of pair keys and the list of the
      pairs whose collision ran. */
  datatype Books<T, K> = Books(handled: set<K>, collided: seq<(T, T)>)

  /** One step of the inner loop, for records stored under their own ids: the same player
      or a known pair changes nothing; otherwise both orders of the pair become handled
      and the pair is listed. */
  ghost function BooksStep<T, K>(key: (T, T) -> K, b: Books<T, K>, self: T, other: T)
    : Books<T, K>
  {
    if self == other || key(self, other) in b.handled then b
    else Books(b.handled + {key(self, other), key(other, self)}, b.collided + [(self, other)])
  }

  /** The inner loop for player `self` over the given keys. */
  ghost function BooksPass<T, K>(key: (T, T) -> K, b: Books<T, K>, self: T, others: seq<T>)
    : Books<T, K>
    decreases |others|
  {
    if |others| == 0 then b
    else BooksStep(key, BooksPass(key, b, self, others[..|others| - 1]), self,
                   others[|others| - 1])
  }

  /** The outer loop over the given players: each inner loop starts an empty list of its
      own, which is appended to the outer loop's. */
  ghost function BooksPhase<T, K>(key: (T, T) -> K, b: Books<T, K>, selves: seq<T>,
                                  order: seq<T>)
    : Books<T, K>
    decreases |selves|
  {
    if |selves| == 0 then b
    else
      var prev := BooksPhase(key, b, selves[..|selves| - 1], order);
      var pass := BooksPass(key, Books(prev.handled, []), selves[|selves| - 1], order);
      Books(pass.handled, prev.collided + pass.collided)
  }

  /** One step of the inner loop of player i against player j: the pair is listed exactly
      when i < j, and the handled set moves on to j + 1. */
  lemma BooksStepOnce<T, K>(key: (T, T) -> K, b: Books<T, K>, order: seq<T>, i: int, j: int)
    requires Unique(order) && KeysDistinct(key, order)
    requires 0 <= i < |order| && 0 <= j < |order|
    requires Met(key, b.handled, order, i, j)
    ensures var r := BooksStep(key, b, order[i], order[j]);
      && Met(key, r.handled, order, i, j + 1)
      && r.collided == b.collided + (if i < j then [(order[i], order[j])] else [])
  {
    if i < j {
      MetAdd(key, b.handled, order, i, j);
    } else if j < i {
      MetAt(key, b.handled, order, i, j, i, j);
    }
  }

  /** The inner loop over one more key is one more step. */
  lemma BooksPassSnoc<T, K>(key: (T, T) -> K, b: Books<T, K>, self: T, order: seq<T>, j: int)
    requires 0 < j <= |order|
    ensures BooksPass(key, b, self, order[..j])
      == BooksStep(key, BooksPass(key, b, self, order[..j - 1]), self, order[j - 1])
  {
    assert order[..j][..j - 1] == order[..j - 1] && order[..j][j - 1] == order[j - 1];
  }

  /** The inner loop of player i over the first j keys: the pairs with the players after i
      among them are listed, in order, and the handled set moves on to j. */
  lemma {:induction false} BooksPassOnce<T, K>(key: (T, T) -> K, b: Books<T, K>, order: seq<T>,
                                               i: int, j: int)
    requires Unique(order) && KeysDistinct(key, order)
    requires 0 <= i < |order| && 0 <= j <= |order|
    requires Met(key, b.handled, order, i, 0)
    ensures var r := BooksPass(key, b, order[i], order[..j]);
      Met(key, r.handled, order, i, j) && r.collided == b.collided + Row(order, i, j)
    decreases j
  {
    if j == 0 {
      assert BooksPass(key, b, order[i], order[..j]) == b;
      assert b.collided + Row(order, i, j) == b.collided;
    } else {
      BooksPassOnce(key, b, order, i, j - 1);
      BooksPassSnoc(key, b, order[i], order, j);
      var prev := BooksPass(key, b, order[i], order[..j - 1]);
      BooksStepOnce(key, prev, order, i, j - 1);
      if i < j - 1 {
        var tail := [(order[i], order[j - 1])];
        assert Row(order, i, j) == Row(order, i, j - 1) + tail;
        assert (b.collided + Row(order, i, j - 1)) + tail == b.collided + Row(order, i, j);
      } else {
        assert Row(order, i, j) == [] == Row(order, i, j - 1);
      }
    }
  }

  /** The loop over one more player is one more inner loop. */
  lemma BooksPhaseSnoc<T, K>(key: (T, T) -> K, b: Books<T, K>, order: seq<T>, i: int)
    requires 0 < i <= |order|
    ensures var prev := BooksPhase(key, b, order[..i - 1], order);
      var pass := BooksPass(key, Books(prev.handled, []), order[i - 1], order);
      BooksPhase(key, b, order[..i], order) == Books(pass.handled, prev.collided + pass.collided)
  {
    assert order[..i][..i - 1] == order[..i - 1] && order[..i][i - 1] == order[i - 1];
  }

  /** The whole inner loop of player i, started with an empty list, lists its row and
      finishes the row in the handled set. */
  lemma BooksRow<T, K>(key: (T, T) -> K, handled: set<K>, order: seq<T>, i: int)
    requires Unique(order) && KeysDistinct(key, order) && 0 <= i < |order|
    requires Met(key, handled, order, i, 0)
    ensures var pass := BooksPass(key, Books(handled, []), order[i], order);
      Met(key, pass.handled, order, i + 1, 0) && pass.collided == Row(order, i, |order|)
  {
    BooksPassOnce(key, Books(handled, []), order, i, |order|);
    assert order[..|order|] == order;
    var pass := BooksPass(key, Books(handled, []), order[i], order);
    assert pass.collided == [] + Row(order, i, |order|);
    NextRow(key, pass.handled, order, i);
  }

  /** The outer loop over the first i players, from nothing handled and nothing listed,
      lists exactly the pairs (order[a], order[b]) with a < b and a < i, row after row. */
  lemma {:induction false} BooksPhaseOnce<T, K>(key: (T, T) -> K, order: seq<T>, i: int)
    requires Unique(order) && KeysDistinct(key, order) && 0 <= i <= |order|
    ensures var r := BooksPhase(key, Books({}, []), order[..i], order);
      Met(key, r.handled, order, i, 0) && r.collided == AllPairs(order, i)
    decreases i
  {
    if i == 0 {
      assert BooksPhase(key, Books({}, []), order[..i], order) == Books({}, []);
    } else {
      BooksPhaseOnce(key, order, i - 1);
      var prev := BooksPhase(key, Books({}, []), order[..i - 1], order);
      BooksPhaseSnoc(key, Books({}, []), order, i);
      BooksRow(key, prev.handled, order, i - 1);
    }
  }
}
