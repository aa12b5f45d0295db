/** Shared vocabulary of the model: optional values, results, and the
    ordered views of id-keyed tables that the repositories hand back
    (every Prisma table is modelled as a map from a numeric id to a row). */
module Common {

  /** A value that may be absent (`null` / `undefined` in the source). */
  datatype Option<+T> = None | Some(value: T) {
    function GetOr(default: T): T {
      if Some? then value else default
    }
  }

  /** JavaScript truthiness of an optional string: present and not empty. */
  predicate Truthy(s: Option<string>) {
    s.Some? && s.value != ""
  }

  /** A value or the error that replaced it (a thrown exception in the source). */
  datatype Result<+T, +E> = Ok(value: T) | Err(error: E)

  /** `m` is the least element of `s`. */
  predicate IsLeast(m: nat, s: set<nat>) {
    m in s && forall j :: j in s ==> m <= j
  }

  /** Every non-empty finite set of ids has a least element. */
  lemma {:induction false} LeastExists(s: set<nat>)
    requires s != {}
    ensures exists m :: IsLeast(m, s)
  {
    var x :| x in s;
    if s != {x} {
      var rest := s - {x};
      LeastExists(rest);
      var m :| IsLeast(m, rest);
      var least := if x < m then x else m;
      forall j | j in s
        ensures least <= j
      {
        if j != x {
          assert j in rest;
        }
      }
      assert IsLeast(least, s);
    } else {
      assert IsLeast(x, s);
    }
  }

  /** The least id of a non-empty set. */
  function Least(s: set<nat>): (m: nat)
    requires s != {}
    ensures m in s && forall j :: j in s ==> m <= j
  {
    LeastExists(s);
    var m :| IsLeast(m, s);
    m
  }

  /** The least value of `key` over a non-empty sequence. */
  function MinKey<A>(xs: seq<A>, key: A -> int): (m: int)
    requires xs != []
    ensures exists i :: 0 <= i < |xs| && key(xs[i]) == m
    ensures forall i :: 0 <= i < |xs| ==> m <= key(xs[i])
  {
    if |xs| == 1 then key(xs[0])
    else
      var rest := MinKey(xs[1..], key);
      assert forall i :: 1 <= i < |xs| ==> xs[i] == xs[1..][i - 1];
      if key(xs[0]) <= rest then key(xs[0]) else rest
  }

  /** The ids of a set in strictly increasing order. */
  function SortedIds(s: set<nat>): (r: seq<nat>)
    ensures |r| == |s|
    ensures forall k :: k in r <==> k in s
    ensures forall i, j :: 0 <= i < j < |r| ==> r[i] < r[j]
    decreases |s|
  {
    if s == {} then []
    else
      var m := Least(s);
      var rest := SortedIds(s - {m});
      var r := [m] + rest;
      assert |s - {m}| == |s| - 1;
      assert forall i :: 1 <= i < |r| ==> r[i] == rest[i - 1];
      assert forall k :: k in r <==> k == m || k in rest;
      assert forall i :: 0 <= i < |rest| ==> m < rest[i] by {
        forall i | 0 <= i < |rest|
          ensures m < rest[i]
        {
          assert rest[i] in s - {m};
        }
      }
      forall i, j | 0 <= i < j < |r|
        ensures r[i] < r[j]
      {
        if i > 0 {
          assert r[i] == rest[i - 1] && r[j] == rest[j - 1];
        }
      }
      r
  }

  /** The rows of a table, in increasing id order. */
  function Rows<A(!new)>(t: map<nat, A>): (r: seq<A>)
    ensures |r| == |t|
    ensures forall a :: a in r <==> exists k :: k in t && t[k] == a
  {
    var ids := SortedIds(t.Keys);
    var r := seq(|ids|, i requires 0 <= i < |ids| => t[ids[i]]);
    assert |t.Keys| == |t|;
    RowsCover(t, ids, r);
    r
  }

  /** Rows read at every id of a table, one per id, hold exactly the
      table's values. */
  lemma RowsCover<A>(t: map<nat, A>, ids: seq<nat>, r: seq<A>)
    requires forall k :: k in ids <==> k in t
    requires |r| == |ids| && forall i :: 0 <= i < |ids| ==> ids[i] in t && r[i] == t[ids[i]]
    ensures forall a :: a in r <==> exists k :: k in t && t[k] == a
  {
    forall k | k in t
      ensures t[k] in r
    {
      var i :| 0 <= i < |ids| && ids[i] == k;
      assert r[i] == t[k];
    }
    forall a | a in r
      ensures exists k :: k in t && t[k] == a
    {
      var i :| 0 <= i < |r| && r[i] == a;
      assert t[ids[i]] == a;
    }
  }

  /** `xs` is `ys` with some elements left out, the rest in their order. */
  predicate Sublist<A(==)>(xs: seq<A>, ys: seq<A>)
    decreases |ys|
  {
    if xs == [] then true
    else if ys == [] then false
    else if xs[0] == ys[0] then Sublist(xs[1..], ys[1..])
    else Sublist(xs, ys[1..])
  }

  /** The elements of `xs` that satisfy `p`, in their original order. */
  function Filter<A(!new)>(xs: seq<A>, p: A -> bool): (r: seq<A>)
    ensures |r| <= |xs|
    ensures forall a :: a in r <==> a in xs && p(a)
    ensures multiset(r) <= multiset(xs)
    ensures Sublist(r, xs)
  {
    if xs == [] then []
    else
      assert xs == [xs[0]] + xs[1..];
      var rest := Filter(xs[1..], p);
      if p(xs[0]) then
        assert ([xs[0]] + rest)[1..] == rest;
        [xs[0]] + rest
      else
        assert rest != [] ==> rest[0] in rest && rest[0] != xs[0];
        rest
  }

  /** `xs` is in non-decreasing order of `key`. */
  predicate SortedBy<A>(xs: seq<A>, key: A -> int) {
    forall i, j :: 0 <= i < j < |xs| ==> key(xs[i]) <= key(xs[j])
  }

  /** Putting in front an element whose key is not larger than the first
      key keeps a sequence sorted. */
  lemma SortedCons<A>(a: A, s: seq<A>, key: A -> int)
    requires SortedBy(s, key)
    requires s != [] ==> key(a) <= key(s[0])
    ensures SortedBy([a] + s, key)
  {
    var t := [a] + s;
    forall i, j | 0 <= i < j < |t|
      ensures key(t[i]) <= key(t[j])
    {
      if i == 0 && j > 1 {
        assert t[j] == s[j - 1];
        assert key(s[0]) <= key(s[j - 1]);
      }
    }
  }

  /** Inserts `x` into a sorted sequence, before the first element whose key
      is not smaller. */
  function Insert<A>(x: A, xs: seq<A>, key: A -> int): (r: seq<A>)
    requires SortedBy(xs, key)
    ensures SortedBy(r, key)
    ensures multiset(r) == multiset(xs) + multiset{x}
    ensures |r| == |xs| + 1
    ensures r[0] == x || (xs != [] && r[0] == xs[0])
  {
    if xs == [] || key(x) <= key(xs[0]) then
      SortedCons(x, xs, key);
      [x] + xs
    else
      var rest := Insert(x, xs[1..], key);
      assert xs == [xs[0]] + xs[1..];
      SortedCons(xs[0], rest, key);
      [xs[0]] + rest
  }

  /** A stable sort of `xs` by ascending `key` (Prisma's `orderBy`). */
  function SortBy<A>(xs: seq<A>, key: A -> int): (r: seq<A>)
    ensures SortedBy(r, key)
    ensures multiset(r) == multiset(xs)
    ensures |r| == |xs|
  {
    if xs == [] then []
    else
      assert xs == [xs[0]] + xs[1..];
      Insert(xs[0], SortBy(xs[1..], key), key)
  }
}
