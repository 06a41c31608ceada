/**
 * The in-memory JSON value of the nlohmann library, as far as the API
 * relies on it. An object keeps its members ordered by key (the library's
 * default object type is a `std::map`), so iterating over an object
 * visits the least key first.
 */
module Json {
  import opened Wrappers
  import Text

  datatype Json =
    | Null
    | Bool(b: bool)
    | Int(i: int)
    | Float(r: real)
    | Str(s: string)
    | Arr(elems: seq<Json>)
    | Obj(members: seq<(string, Json)>)

  /** `std::string`'s `operator<`: lexicographic order on character codes. */
  predicate KeyLess(a: string, b: string)
    decreases |a|
  {
    if |b| == 0 then false
    else if |a| == 0 then true
    else a[0] < b[0] || (a[0] == b[0] && KeyLess(a[1..], b[1..]))
  }

  lemma {:induction false} KeyLessIrreflexive(a: string)
    ensures !KeyLess(a, a)
    decreases |a|
  {
    if |a| > 0 {
      KeyLessIrreflexive(a[1..]);
    }
  }

  lemma {:induction false} KeyLessTransitive(a: string, b: string, c: string)
    requires KeyLess(a, b) && KeyLess(b, c)
    ensures KeyLess(a, c)
    decreases |a|
  {
    if |a| > 0 && a[0] == b[0] && b[0] == c[0] {
      KeyLessTransitive(a[1..], b[1..], c[1..]);
    }
  }

  lemma {:induction false} KeyLessTotal(a: string, b: string)
    requires a != b
    ensures KeyLess(a, b) || KeyLess(b, a)
    decreases |a|
  {
    if |a| > 0 && |b| > 0 && a[0] == b[0] {
      assert a == [a[0]] + a[1..] && b == [b[0]] + b[1..];
      KeyLessTotal(a[1..], b[1..]);
    }
  }

  /** The members of an object are in strictly increasing key order. */
  ghost predicate SortedMembers(m: seq<(string, Json)>)
  {
    forall i, j :: 0 <= i < j < |m| ==> KeyLess(m[i].0, m[j].0)
  }

  /** An object as the library holds it, or any value that is not an object. */
  ghost predicate WellFormed(j: Json)
  {
    j.Obj? ==> SortedMembers(j.members)
  }

  /** The value stored under `k`. */
  function Find(m: seq<(string, Json)>, k: string): Option<Json>
  {
    if |m| == 0 then None
    else if m[0].0 == k then Some(m[0].1)
    else Find(m[1..], k)
  }

  /** `j.count(k) != 0` and `j[k]`: objects only; other values have no keys. */
  function Get(j: Json, k: string): (r: Option<Json>)
    ensures !j.Obj? ==> r == None
  {
    if j.Obj? then Find(j.members, k) else None
  }

  /** Stores `v` under `k` at its place in key order, replacing an earlier value. */
  function Insert(m: seq<(string, Json)>, k: string, v: Json): (r: seq<(string, Json)>)
    ensures forall k' :: Find(r, k') == if k' == k then Some(v) else Find(m, k')
    ensures |r| > 0
  {
    if |m| == 0 then [(k, v)]
    else if m[0].0 == k then
      assert ([(k, v)] + m[1..])[1..] == m[1..];
      [(k, v)] + m[1..]
    else if KeyLess(k, m[0].0) then
      assert ([(k, v)] + m)[1..] == m;
      [(k, v)] + m
    else
      var r := [m[0]] + Insert(m[1..], k, v);
      assert r[1..] == Insert(m[1..], k, v);
      r
  }

  /** A key of `r` is `k` or one of the keys of `m`. */
  ghost predicate KeysFrom(r: seq<(string, Json)>, m: seq<(string, Json)>, k: string)
  {
    forall i :: 0 <= i < |r| ==> r[i].0 == k || exists i' :: 0 <= i' < |m| && m[i'].0 == r[i].0
  }

  /** Inserting into sorted members keeps them sorted and adds no key but `k`. */
  lemma {:induction false} InsertSorted(m: seq<(string, Json)>, k: string, v: Json)
    requires SortedMembers(m)
    ensures SortedMembers(Insert(m, k, v))
    ensures KeysFrom(Insert(m, k, v), m, k)
    decreases |m|, 1
  {
    if |m| == 0 {
    } else if m[0].0 == k {
      InsertReplacesSorted(m, k, v);
    } else if KeyLess(k, m[0].0) {
      InsertFrontSorted(m, k, v);
    } else {
      InsertLaterSorted(m, k, v);
    }
  }

  /** Replacing the first member's value keeps the order. */
  lemma InsertReplacesSorted(m: seq<(string, Json)>, k: string, v: Json)
    requires SortedMembers(m) && |m| > 0 && m[0].0 == k
    ensures SortedMembers(Insert(m, k, v))
    ensures KeysFrom(Insert(m, k, v), m, k)
  {
    var r := Insert(m, k, v);
    assert r == [(k, v)] + m[1..];
    hide Insert;
    forall i, j | 0 <= i < j < |r| ensures KeyLess(r[i].0, r[j].0) {
      if i == 0 {
        assert r[j] == m[j];
      } else {
        assert r[i] == m[i] && r[j] == m[j];
      }
    }
    forall i | 0 <= i < |r| ensures r[i].0 == k || exists i' :: 0 <= i' < |m| && m[i'].0 == r[i].0 {
      if i > 0 {
        assert r[i] == m[i];
      }
    }
  }

  /** A key below every key goes in front. */
  lemma InsertFrontSorted(m: seq<(string, Json)>, k: string, v: Json)
    requires SortedMembers(m) && |m| > 0 && m[0].0 != k && KeyLess(k, m[0].0)
    ensures SortedMembers(Insert(m, k, v))
    ensures KeysFrom(Insert(m, k, v), m, k)
  {
    var r := Insert(m, k, v);
    assert r == [(k, v)] + m;
    hide Insert;
    forall i, j | 0 <= i < j < |r| ensures KeyLess(r[i].0, r[j].0) {
      if i == 0 {
        assert r[j] == m[j - 1];
        if j > 1 {
          KeyLessTransitive(k, m[0].0, m[j - 1].0);
        }
      } else {
        assert r[i] == m[i - 1] && r[j] == m[j - 1];
      }
    }
    forall i | 0 <= i < |r| ensures r[i].0 == k || exists i' :: 0 <= i' < |m| && m[i'].0 == r[i].0 {
      if i > 0 {
        assert r[i] == m[i - 1];
      }
    }
  }

  /** A key above the first key goes into the rest. */
  lemma {:induction false} InsertLaterSorted(m: seq<(string, Json)>, k: string, v: Json)
    requires SortedMembers(m) && |m| > 0 && m[0].0 != k && !KeyLess(k, m[0].0)
    ensures SortedMembers(Insert(m, k, v))
    ensures KeysFrom(Insert(m, k, v), m, k)
    decreases |m|, 0
  {
    var r := Insert(m, k, v);
    var t := Insert(m[1..], k, v);
    assert r == [m[0]] + t;
    hide Insert;
    assert SortedMembers(m[1..]) by {
      forall i, j | 0 <= i < j < |m[1..]| ensures KeyLess(m[1..][i].0, m[1..][j].0) {
        assert m[1..][i] == m[i + 1] && m[1..][j] == m[j + 1];
      }
    }
    InsertSorted(m[1..], k, v);
    KeyLessTotal(k, m[0].0);
    forall i | 0 <= i < |t| ensures KeyLess(m[0].0, t[i].0) {
      if t[i].0 != k {
        var i' :| 0 <= i' < |m[1..]| && m[1..][i'].0 == t[i].0;
        assert m[1..][i'] == m[i' + 1];
      }
    }
    forall i, j | 0 <= i < j < |r| ensures KeyLess(r[i].0, r[j].0) {
      if i == 0 {
        assert r[j] == t[j - 1];
      } else {
        assert r[i] == t[i - 1] && r[j] == t[j - 1];
      }
    }
    forall i | 0 <= i < |r| ensures r[i].0 == k || exists i' :: 0 <= i' < |m| && m[i'].0 == r[i].0 {
      if i == 0 {
        assert r[0] == m[0];
      } else {
        assert r[i] == t[i - 1];
        if r[i].0 != k {
          var i' :| 0 <= i' < |m[1..]| && m[1..][i'].0 == t[i - 1].0;
          assert m[1..][i'] == m[i' + 1];
        }
      }
    }
  }

  /**
   * `j[k] = v`: a null value first becomes an empty object; afterwards
   * `k` holds `v` and every other key holds what it held before.
   */
  function Put(j: Json, k: string, v: Json): (r: Json)
    requires j.Null? || j.Obj?
    ensures r.Obj? && |r.members| > 0
    ensures forall k' :: Get(r, k') == if k' == k then Some(v) else Get(j, k')
  {
    Obj(Insert(if j.Null? then [] else j.members, k, v))
  }

  /** Storing into a well-formed object keeps its members in key order. */
  lemma PutWellFormed(j: Json, k: string, v: Json)
    requires j.Null? || j.Obj?
    requires WellFormed(j)
    ensures WellFormed(Put(j, k, v))
  {
    InsertSorted(if j.Null? then [] else j.members, k, v);
  }

  /** Stores `v` under `k` when there is a value, and leaves `j` alone otherwise. */
  function PutOptional(j: Json, k: string, v: Option<Json>): (r: Json)
    requires j.Null? || j.Obj?
    ensures r.Null? || r.Obj?
    ensures v.Some? ==> r.Obj?
    ensures j.Obj? ==> r.Obj?
    ensures forall k' :: Get(r, k') == if k' == k && v.Some? then v else Get(j, k')
  {
    if v.Some? then Put(j, k, v.value) else j
  }

  /**
   * The (key, value) pairs `j.items()` visits, in order: an object's
   * members; an array's elements keyed by their decimal index; nothing for
   * null; one pair with the empty key for any other value.
   */
  function Items(j: Json): (r: seq<(string, Json)>)
    ensures j.Obj? ==> r == j.members
    ensures j.Null? ==> r == []
    ensures j.Arr? ==> |r| == |j.elems|
  {
    match j
    case Null => []
    case Obj(m) => m
    case Arr(a) => seq(|a|, i requires 0 <= i < |a| => (Text.Decimal(i), a[i]))
    case _ => [("", j)]
  }

  /** In a well-formed object the first item is the one with the least key. */
  lemma FirstItemHasLeastKey(j: Json, k: string)
    requires j.Obj? && WellFormed(j) && |j.members| > 0
    requires Get(j, k).Some? && k != Items(j)[0].0
    ensures KeyLess(Items(j)[0].0, k)
  {
    var m := j.members;
    var i :| 0 < i < |m| && m[i].0 == k && Find(m[i..], k) == Get(j, k) by {
      FindSomewhere(m, k);
    }
  }

  lemma {:induction false} FindSomewhere(m: seq<(string, Json)>, k: string)
    requires Find(m, k).Some?
    ensures exists i :: 0 <= i < |m| && m[i].0 == k && (i == 0 || m[0].0 != k) && Find(m[i..], k) == Find(m, k)
  {
    if m[0].0 != k {
      FindSomewhere(m[1..], k);
      var i :| 0 <= i < |m[1..]| && m[1..][i].0 == k && (i == 0 || m[1..][0].0 != k) && Find(m[1..][i..], k) == Find(m[1..], k);
      assert m[1..][i..] == m[i + 1..];
      assert m[i + 1].0 == k;
    }
  }
}
