/**
 * The recommendations of a fortune report and the two filters that split
 * them into the "do" column and the "avoid" column of the report card.
 */
module Recommendations {

  /** The `type` of a recommendation. */
  datatype Kind = Do | Avoid

  datatype Recommendation = Recommendation(title: string, description: string, kind: Kind)

  /** `recommendations.filter((r) => r.type === k)`. */
  function Column(recs: seq<Recommendation>, k: Kind): (col: seq<Recommendation>)
    ensures |col| <= |recs|
    ensures forall i :: 0 <= i < |col| ==> col[i].kind == k
  {
    if recs == [] then []
    else if recs[0].kind == k then [recs[0]] + Column(recs[1..], k)
    else Column(recs[1..], k)
  }

  /** Filtering a concatenation filters each part: the column keeps the input order. */
  lemma {:induction false} ColumnAppend(a: seq<Recommendation>, b: seq<Recommendation>, k: Kind)
    ensures Column(a + b, k) == Column(a, k) + Column(b, k)
  {
    if a == [] {
      assert a + b == b;
    } else {
      var ab := a + b;
      assert ab != [] && ab[0] == a[0];
      assert ab[1..] == a[1..] + b;
      ColumnAppend(a[1..], b, k);
      var rest := Column(a[1..], k);
      if a[0].kind == k {
        calc {
          Column(ab, k);
          [a[0]] + Column(a[1..] + b, k);
          [a[0]] + (rest + Column(b, k));
          { assert [a[0]] + (rest + Column(b, k)) == ([a[0]] + rest) + Column(b, k); }
          ([a[0]] + rest) + Column(b, k);
          Column(a, k) + Column(b, k);
        }
      } else {
        calc {
          Column(ab, k);
          Column(a[1..] + b, k);
          rest + Column(b, k);
          Column(a, k) + Column(b, k);
        }
      }
    }
  }

  /** An item is in a column exactly when it is a recommendation of that column's kind. */
  lemma {:induction false} ColumnMembers(recs: seq<Recommendation>, k: Kind, r: Recommendation)
    ensures r in Column(recs, k) <==> r in recs && r.kind == k
  {
    if recs != [] {
      ColumnMembers(recs[1..], k, r);
      assert r in recs <==> r == recs[0] || r in recs[1..];
    }
  }

  /** A column of items that all have its kind is the whole input. */
  lemma {:induction false} ColumnOfOneKind(recs: seq<Recommendation>, k: Kind)
    requires forall i :: 0 <= i < |recs| ==> recs[i].kind == k
    ensures Column(recs, k) == recs
    ensures Column(recs, if k == Do then Avoid else Do) == []
  {
    if recs != [] {
      ColumnOfOneKind(recs[1..], k);
    }
  }

  /**
   * Where an item of kind `k` at index `i` lands in its column: after exactly the
   * items of kind `k` that precede it, so items keep their relative order.
   */
  lemma ColumnPosition(recs: seq<Recommendation>, i: nat)
    requires i < |recs|
    ensures |Column(recs[..i], recs[i].kind)| < |Column(recs, recs[i].kind)|
    ensures Column(recs, recs[i].kind)[|Column(recs[..i], recs[i].kind)|] == recs[i]
  {
    var k := recs[i].kind;
    assert recs == recs[..i] + [recs[i]] + recs[i + 1..];
    ColumnAppend(recs[..i] + [recs[i]], recs[i + 1..], k);
    ColumnAppend(recs[..i], [recs[i]], k);
    assert Column([recs[i]], k) == [recs[i]] by {
      assert [recs[i]][1..] == [];
    }
  }

  /** Of two items of the same kind, the earlier one comes first in the column. */
  lemma ColumnOrder(recs: seq<Recommendation>, i: nat, j: nat)
    requires i < j < |recs| && recs[i].kind == recs[j].kind
    ensures |Column(recs[..i], recs[i].kind)| < |Column(recs[..j], recs[j].kind)|
  {
    var k := recs[i].kind;
    assert recs[..j] == recs[..i] + [recs[i]] + recs[i + 1..j];
    ColumnAppend(recs[..i] + [recs[i]], recs[i + 1..j], k);
    ColumnAppend(recs[..i], [recs[i]], k);
    assert Column([recs[i]], k) == [recs[i]] by {
      assert [recs[i]][1..] == [];
    }
  }

  /** The two columns together hold the input, counted with multiplicity. */
  lemma {:induction false} ColumnsMultiset(recs: seq<Recommendation>)
    ensures multiset(Column(recs, Do)) + multiset(Column(recs, Avoid)) == multiset(recs)
  {
    if recs != [] {
      ColumnsMultiset(recs[1..]);
      ColumnsMultisetStep(recs);
    }
  }

  lemma ColumnsMultisetStep(recs: seq<Recommendation>)
    requires recs != []
    requires multiset(Column(recs[1..], Do)) + multiset(Column(recs[1..], Avoid)) == multiset(recs[1..])
    ensures multiset(Column(recs, Do)) + multiset(Column(recs, Avoid)) == multiset(recs)
  {
    var x, rest := recs[0], recs[1..];
    assert multiset(recs) == multiset{x} + multiset(rest) by {
      assert recs == [x] + rest;
    }
    if x.kind == Do {
      assert multiset(Column(recs, Do)) == multiset{x} + multiset(Column(rest, Do));
    } else {
      assert multiset(Column(recs, Avoid)) == multiset{x} + multiset(Column(rest, Avoid));
    }
  }

  /** Every item lands in exactly one of the two columns. */
  lemma ColumnsPartition(recs: seq<Recommendation>)
    ensures multiset(Column(recs, Do)) + multiset(Column(recs, Avoid)) == multiset(recs)
    ensures |Column(recs, Do)| + |Column(recs, Avoid)| == |recs|
    ensures forall r :: r in recs ==> (r in Column(recs, Do) <==> r !in Column(recs, Avoid))
  {
    ColumnsMultiset(recs);
    assert |multiset(Column(recs, Do))| + |multiset(Column(recs, Avoid))| == |multiset(recs)|;
    forall r | r in recs
      ensures r in Column(recs, Do) <==> r !in Column(recs, Avoid)
    {
      ColumnMembers(recs, Do, r);
      ColumnMembers(recs, Avoid, r);
    }
  }
}
