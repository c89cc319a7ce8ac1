/** Keyed tables and the index alignment of two tables. */
module Utils {

  /** A row label (a timestamp, abstracted to an integer). */
  type Key = int

  /** A table: its row labels in order, and the row stored under each label. */
  datatype Table<V> = Table(index: seq<Key>, rows: map<Key, V>)

  /** No label occurs twice. */
  predicate Distinct(s: seq<Key>) {
    forall i, j :: 0 <= i < j < |s| ==> s[i] != s[j]
  }

  /** The index has no duplicates and labels exactly the stored rows. */
  ghost predicate WellFormed<V>(t: Table<V>) {
    && Distinct(t.index)
    && (forall k :: k in t.index ==> k in t.rows)
    && (forall k :: k in t.rows ==> k in t.index)
  }

  /** `Index.intersection`: the labels of `a` that also occur in `b`, in the order of `a`. */
  function Intersection(a: seq<Key>, b: seq<Key>): (r: seq<Key>)
    ensures forall k :: k in r <==> k in a && k in b
    ensures Distinct(a) ==> Distinct(r)
    ensures |r| <= |a|
  {
    if |a| == 0 then []
    else if a[0] in b then [a[0]] + Intersection(a[1..], b)
    else Intersection(a[1..], b)
  }

  /** `t.loc[idx]`: the rows of the given labels, in the given order, each unchanged. */
  function Loc<V>(t: Table<V>, idx: seq<Key>): (r: Table<V>)
    requires forall k :: k in idx ==> k in t.rows
    ensures r.index == idx
    ensures forall k :: k in r.rows <==> k in idx
    ensures forall k :: k in idx ==> k in r.rows && r.rows[k] == t.rows[k]
    ensures Distinct(idx) ==> WellFormed(r)
  {
    Table(idx, map k | k in idx :: t.rows[k])
  }

  /** `align_indexes`: both tables restricted to the labels they share. */
  function AlignIndexes<V, W>(t1: Table<V>, t2: Table<W>): (r: (Table<V>, Table<W>))
    requires WellFormed(t1) && WellFormed(t2)
    ensures r.0.index == r.1.index
    ensures WellFormed(r.0) && WellFormed(r.1)
    ensures forall k :: k in r.0.index <==> k in t1.index && k in t2.index
    ensures forall k :: k in r.0.rows ==> k in t1.rows && r.0.rows[k] == t1.rows[k]
    ensures forall k :: k in r.1.rows ==> k in t2.rows && r.1.rows[k] == t2.rows[k]
  {
    var index := Intersection(t1.index, t2.index);
    (Loc(t1, index), Loc(t2, index))
  }

  /** Intersecting with a superset changes nothing. */
  lemma {:induction false} IntersectionWithSuperset(a: seq<Key>, b: seq<Key>)
    requires forall i :: 0 <= i < |a| ==> a[i] in b
    ensures Intersection(a, b) == a
  {
    if |a| > 0 {
      assert a[0] in b;
      IntersectionWithSuperset(a[1..], b);
      assert a == [a[0]] + a[1..];
    }
  }

  /** Selecting every row of a well-formed table gives the table back. */
  lemma LocAll<V>(t: Table<V>)
    requires WellFormed(t)
    ensures Loc(t, t.index) == t
  {
    var selected := Loc(t, t.index);
    assert forall k :: k in selected.rows <==> k in t.rows;
    assert selected.rows.Keys == t.rows.Keys;
    assert forall k :: k in selected.rows ==> selected.rows[k] == t.rows[k];
  }

  /** When every signal label is in the feed, aligning the signals with the feed keeps all signals
      and selects the feed at the signal index: what `feed_data.loc[signals.index]` computes. */
  lemma AlignWithinFeed<V, W>(signals: Table<V>, feed: Table<W>)
    requires WellFormed(signals) && WellFormed(feed)
    requires forall k :: k in signals.index ==> k in feed.rows
    ensures AlignIndexes(signals, feed) == (signals, Loc(feed, signals.index))
  {
    forall i | 0 <= i < |signals.index| ensures signals.index[i] in feed.index {
      assert signals.index[i] in signals.index;
    }
    IntersectionWithSuperset(signals.index, feed.index);
    LocAll(signals);
  }
}
