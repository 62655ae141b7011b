/** Python's `dict` from timestamps to values: entries in insertion order, keys distinct;
    assigning to an existing key keeps the entry where it is. */
module OrderedDict {
  import opened Wrappers

  type Dict = seq<(int, real)>

  function Keys(d: Dict): (ks: seq<int>)
    ensures |ks| == |d| && forall i :: 0 <= i < |d| ==> ks[i] == d[i].0
  {
    seq(|d|, i requires 0 <= i < |d| => d[i].0)
  }

  /** `k in d`. */
  predicate HasKey(d: Dict, k: int)
  {
    d != [] && (d[0].0 == k || HasKey(d[1..], k))
  }

  /** `k in d` holds exactly when some entry carries `k`. */
  lemma {:induction false} HasKeyAt(d: Dict, k: int)
    ensures HasKey(d, k) <==> exists i :: 0 <= i < |d| && d[i].0 == k
  {
    if d != [] {
      HasKeyAt(d[1..], k);
      if HasKey(d[1..], k) {
        var i :| 0 <= i < |d[1..]| && d[1..][i].0 == k;
        assert d[i + 1].0 == k;
      }
      if !HasKey(d, k) {
        forall i | 0 <= i < |d| ensures d[i].0 != k {
          if i > 0 {
            assert d[i] == d[1..][i - 1];
          }
        }
      }
    }
  }

  ghost predicate DistinctKeys(d: Dict)
  {
    forall i, j :: 0 <= i < j < |d| ==> d[i].0 != d[j].0
  }

  /** Keys are distinct exactly when the first key does not recur and the rest are
      distinct. */
  lemma DistinctCons(d: Dict)
    requires d != []
    ensures DistinctKeys(d) <==> !HasKey(d[1..], d[0].0) && DistinctKeys(d[1..])
  {
    HasKeyAt(d[1..], d[0].0);
    if !HasKey(d[1..], d[0].0) && DistinctKeys(d[1..]) {
      forall i, j | 0 <= i < j < |d| ensures d[i].0 != d[j].0 {
        assert d[j] == d[1..][j - 1];
        if i > 0 {
          assert d[i] == d[1..][i - 1];
        }
      }
    }
    if DistinctKeys(d) {
      forall i, j | 0 <= i < j < |d[1..]| ensures d[1..][i].0 != d[1..][j].0 {
        assert d[1..][i] == d[i + 1] && d[1..][j] == d[j + 1];
      }
    }
  }

  /** `d.get(k)`. */
  function Lookup(d: Dict, k: int): Option<real>
  {
    if d == [] then None
    else if d[0].0 == k then Some(d[0].1)
    else Lookup(d[1..], k)
  }

  /** `d.get(k)` finds a value exactly for a key the dictionary holds. */
  lemma {:induction false} LookupFound(d: Dict, k: int)
    ensures Lookup(d, k).Some? <==> HasKey(d, k)
  {
    if d != [] && d[0].0 != k {
      LookupFound(d[1..], k);
    }
  }

  /** With distinct keys, `d.get` of an entry's key is that entry's value. */
  lemma {:induction false} LookupAt(d: Dict, i: nat)
    requires DistinctKeys(d) && i < |d|
    ensures Lookup(d, d[i].0) == Some(d[i].1)
  {
    if i > 0 {
      DistinctCons(d);
      assert d[i] == d[1..][i - 1];
      LookupAt(d[1..], i - 1);
    }
  }

  /** `d[k] = v`: overwrites the entry of `k` in place, or appends a new one. */
  function Put(d: Dict, k: int, v: real): Dict
  {
    if d == [] then [(k, v)]
    else if d[0].0 == k then [(k, v)] + d[1..]
    else [d[0]] + Put(d[1..], k, v)
  }

  /** Assignment adds an entry only for a new key. */
  lemma {:induction false} PutSize(d: Dict, k: int, v: real)
    ensures |Put(d, k, v)| == if HasKey(d, k) then |d| else |d| + 1
  {
    if d != [] && d[0].0 != k {
      PutSize(d[1..], k, v);
    }
  }

  /** The keys after assignment are the old ones and the assigned one. */
  lemma {:induction false} PutKeys(d: Dict, k: int, v: real, j: int)
    ensures HasKey(Put(d, k, v), j) <==> j == k || HasKey(d, j)
  {
    if d != [] && d[0].0 != k {
      PutKeys(d[1..], k, v, j);
      assert Put(d, k, v)[1..] == Put(d[1..], k, v);
    }
  }

  /** After `d[k] = v`, `k` holds `v` and every other key holds what it held. */
  lemma {:induction false} PutLookup(d: Dict, k: int, v: real, j: int)
    ensures Lookup(Put(d, k, v), j) == if j == k then Some(v) else Lookup(d, j)
  {
    if d != [] && d[0].0 != k {
      PutLookup(d[1..], k, v, j);
    }
  }

  /** Assignment never creates a second entry for a key. */
  lemma {:induction false} PutDistinct(d: Dict, k: int, v: real)
    requires DistinctKeys(d)
    ensures DistinctKeys(Put(d, k, v))
  {
    if d == [] {
    } else if d[0].0 == k {
      DistinctCons(d);
      DistinctCons(Put(d, k, v));
    } else {
      DistinctCons(d);
      PutDistinct(d[1..], k, v);
      PutKeys(d[1..], k, v, d[0].0);
      assert Put(d, k, v)[1..] == Put(d[1..], k, v);
      DistinctCons(Put(d, k, v));
    }
  }

  predicate StrictlyIncreasing(s: seq<int>)
  {
    forall i, j :: 0 <= i < j < |s| ==> s[i] < s[j]
  }

  /** Every key of `s` is above `b`. */
  predicate KeysAbove(s: Dict, b: int)
  {
    forall i :: 0 <= i < |s| ==> s[i].0 > b
  }

  /** Inserts an entry with a new key into entries sorted by strictly increasing key. */
  function InsertEntry(e: (int, real), s: Dict): (r: Dict)
    ensures |r| == |s| + 1
    ensures forall x :: x in r <==> x == e || x in s
  {
    if s == [] then [e]
    else if e.0 < s[0].0 then [e] + s
    else [s[0]] + InsertEntry(e, s[1..])
  }

  /** Inserting a key above `b` among keys above `b` keeps every key above `b`. */
  lemma {:induction false} InsertEntryAbove(e: (int, real), s: Dict, b: int)
    requires KeysAbove(s, b) && e.0 > b
    ensures KeysAbove(InsertEntry(e, s), b)
  {
    if s != [] && e.0 >= s[0].0 {
      assert KeysAbove(s[1..], b) by {
        forall i | 0 <= i < |s[1..]| ensures s[1..][i].0 > b {
          assert s[1..][i] == s[i + 1];
        }
      }
      InsertEntryAbove(e, s[1..], b);
    }
  }

  lemma {:induction false} InsertEntrySorted(e: (int, real), s: Dict)
    requires StrictlyIncreasing(Keys(s)) && !HasKey(s, e.0)
    ensures StrictlyIncreasing(Keys(InsertEntry(e, s)))
  {
    if s != [] && e.0 >= s[0].0 {
      var tail := s[1..];
      assert StrictlyIncreasing(Keys(tail)) by {
        forall i, j | 0 <= i < j < |tail| ensures Keys(tail)[i] < Keys(tail)[j] {
          assert Keys(s)[i + 1] < Keys(s)[j + 1];
        }
      }
      InsertEntrySorted(e, tail);
      assert KeysAbove(tail, s[0].0) by {
        forall i | 0 <= i < |tail| ensures tail[i].0 > s[0].0 {
          assert Keys(s)[0] < Keys(s)[i + 1];
        }
      }
      InsertEntryAbove(e, tail, s[0].0);
      var r := InsertEntry(e, s);
      assert r == [s[0]] + InsertEntry(e, tail);
      forall i, j | 0 <= i < j < |r| ensures Keys(r)[i] < Keys(r)[j] {
        if i > 0 {
          assert Keys(InsertEntry(e, tail))[i - 1] < Keys(InsertEntry(e, tail))[j - 1];
        }
      }
    } else if s != [] {
      assert Keys(InsertEntry(e, s)) == [e.0] + Keys(s);
    }
  }

  /** `sorted(d.items(), key=lambda x: x[0])`. */
  function SortedItems(d: Dict): (r: Dict)
    requires DistinctKeys(d)
    ensures StrictlyIncreasing(Keys(r)) && |r| == |d|
    ensures forall x :: x in r <==> x in d
  {
    if d == [] then []
    else
      var init := d[..|d| - 1];
      var last := d[|d| - 1];
      var sortedInit := SortedItems(init);
      HasKeyAt(sortedInit, last.0);
      assert !HasKey(sortedInit, last.0) by {
        forall i | 0 <= i < |sortedInit| ensures sortedInit[i].0 != last.0 {
          assert sortedInit[i] in init;
          var m :| 0 <= m < |init| && init[m] == sortedInit[i];
          assert d[m] == init[m];
        }
      }
      InsertEntrySorted(last, sortedInit);
      InsertEntry(last, sortedInit)
  }

  /** The sorted items agree with the dictionary: the keys are exactly its keys, each
      paired with the value stored under it. */
  lemma SortedItemsAgree(d: Dict)
    requires DistinctKeys(d)
    ensures forall t :: t in Keys(SortedItems(d)) <==> t in Keys(d)
    ensures forall i :: 0 <= i < |SortedItems(d)| ==> Lookup(d, SortedItems(d)[i].0) == Some(SortedItems(d)[i].1)
  {
    var r := SortedItems(d);
    forall t ensures t in Keys(r) <==> t in Keys(d) {
      if t in Keys(r) {
        var i :| 0 <= i < |r| && r[i].0 == t;
        assert r[i] in d;
      }
      if t in Keys(d) {
        var i :| 0 <= i < |d| && d[i].0 == t;
        assert d[i] in r;
      }
    }
    forall i | 0 <= i < |r| ensures Lookup(d, r[i].0) == Some(r[i].1) {
      assert r[i] in d;
      var m :| 0 <= m < |d| && d[m] == r[i];
      LookupAt(d, m);
    }
  }
}
