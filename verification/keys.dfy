/**
  Integer primary keys: listing a table in key order and allocating the key of
  a new row. The service stores every entity under an integer primary key;
  SQLite scans such a table in ascending key order and gives a new row one
  more than the largest key in use (1 in an empty table).
 */
module Keys {

  /** The range of an SQLite INTEGER: signed 64-bit. */
  const MinInt64: int := -0x8000_0000_0000_0000
  const MaxInt64: int := 0x7FFF_FFFF_FFFF_FFFF

  /**
    The integers the sqlite3 driver can bind to a statement; binding any
    other Python int raises OverflowError.
   */
  predicate IsInt64(n: int) {
    MinInt64 <= n <= MaxInt64
  }

  /** Strictly ascending, hence also free of duplicates. */
  predicate Ascending(xs: seq<int>) {
    forall i, j :: 0 <= i < j < |xs| ==> xs[i] < xs[j]
  }

  /** `xs` lists every key of `ks` exactly once, in ascending order. */
  predicate Enumerates(xs: seq<int>, ks: set<int>) {
    && |xs| == |ks|
    && (forall i :: 0 <= i < |xs| ==> xs[i] in ks)
    && (forall k :: k in ks ==> k in xs)
    && Ascending(xs)
  }

  /** Every non-empty finite set of integers has a least element. */
  lemma {:induction false} LeastExists(ks: set<int>)
    requires ks != {}
    ensures exists m :: m in ks && forall k :: k in ks ==> m <= k
    decreases ks
  {
    if forall y :: y !in ks {
      assert false;
    }
    var x :| x in ks;
    if ks != {x} {
      var rest := ks - {x};
      LeastExists(rest);
      var m :| m in rest && forall k :: k in rest ==> m <= k;
      assert forall k :: k in ks ==> k == x || k in rest;
      if x < m {
        assert forall k :: k in ks ==> x <= k;
      } else {
        assert forall k :: k in ks ==> m <= k;
      }
    } else {
      assert forall k :: k in ks ==> x <= k;
    }
  }

  /** The least key of a non-empty key set. */
  function Least(ks: set<int>): (m: int)
    requires ks != {}
    ensures m in ks
    ensures forall k :: k in ks ==> m <= k
  {
    LeastExists(ks);
    var m :| m in ks && forall k :: k in ks ==> m <= k;
    m
  }

  /** The keys of a table in the order a full scan returns them. */
  function SortedKeys(ks: set<int>): (r: seq<int>)
    ensures Enumerates(r, ks)
    decreases ks
  {
    if ks == {} then []
    else
      var m := Least(ks);
      var rest := SortedKeys(ks - {m});
      assert forall i :: 0 <= i < |rest| ==> m < rest[i];
      assert forall k :: k in ks ==> k == m || k in rest;
      [m] + rest
  }

  /** The key SQLite gives the next row inserted into a table with keys `ks`. */
  function FreshId(ks: set<int>): (r: int)
    ensures r !in ks
    ensures forall k :: k in ks ==> k < r
  {
    var xs := SortedKeys(ks);
    if ks == {} then 1
    else
      assert forall k :: k in ks ==> k <= xs[|xs| - 1];
      xs[|xs| - 1] + 1
  }
}
