/** A JavaScript `Set` as the server uses it: membership plus the order in which
    `Array.from` lists the entries, which is insertion order. A set is represented
    by the sequence of its entries, without repetitions, in that order. */
module InsertionSet {

  /** No entry appears twice. */
  ghost predicate Distinct<T>(s: seq<T>) {
    forall i, j :: 0 <= i < j < |s| ==> s[i] != s[j]
  }

  /** `set.add(x)`: a new entry goes to the end; an entry already present keeps its place. */
  function Add<T(==,!new)>(s: seq<T>, x: T): (r: seq<T>)
    ensures forall y :: y in r <==> y in s || y == x
    ensures Distinct(s) ==> Distinct(r)
    ensures |s| <= |r| && r[..|s|] == s
    ensures x in s ==> r == s
    ensures x !in s ==> |r| == |s| + 1 && r[|s|] == x
  {
    if x in s then s else s + [x]
  }

  /** `set.delete(x)`: the entry is removed and every other entry keeps its relative order. */
  function Delete<T(==,!new)>(s: seq<T>, x: T): (r: seq<T>)
    ensures forall y :: y in r <==> y in s && y != x
    ensures |r| <= |s|
  {
    if s == [] then []
    else if s[0] == x then Delete(s[1..], x)
    else [s[0]] + Delete(s[1..], x)
  }

  /** Deleting an entry that is absent changes nothing. */
  lemma {:induction false} DeleteAbsent<T(!new)>(s: seq<T>, x: T)
    requires x !in s
    ensures Delete(s, x) == s
  {
    if s != [] {
      DeleteAbsent(s[1..], x);
    }
  }

  /** Deleting the entry at position `k` of a set leaves exactly the entries before and
      after it, in their order; so the set shrinks by one. */
  lemma {:induction false} DeleteAt<T(!new)>(s: seq<T>, k: nat)
    requires Distinct(s) && k < |s|
    ensures Delete(s, s[k]) == s[..k] + s[k + 1..]
    ensures |Delete(s, s[k])| == |s| - 1
  {
    if k == 0 {
      assert s[0] !in s[1..];
      DeleteAbsent(s[1..], s[0]);
    } else {
      DeleteAt(s[1..], k - 1);
      assert s[1..][k - 1] == s[k];
      assert s[1..][..k - 1] == s[1..k];
      assert s[1..][k..] == s[k + 1..];
      assert [s[0]] + s[1..k] == s[..k];
    }
  }

  /** Deleting keeps the entries distinct. */
  lemma {:induction false} DeleteDistinct<T(!new)>(s: seq<T>, x: T)
    requires Distinct(s)
    ensures Distinct(Delete(s, x))
  {
    if x in s {
      var k :| 0 <= k < |s| && s[k] == x;
      DeleteAt(s, k);
      var r := s[..k] + s[k + 1..];
      forall i, j | 0 <= i < j < |r| ensures r[i] != r[j] {
        var i' := if i < k then i else i + 1;
        var j' := if j < k then j else j + 1;
        assert r[i] == s[i'] && r[j] == s[j'];
      }
    } else {
      DeleteAbsent(s, x);
    }
  }

  /** Adding a new entry and deleting it again gives back the set as it was, order included. */
  lemma AddThenDelete<T(!new)>(s: seq<T>, x: T)
    requires Distinct(s) && x !in s
    ensures Delete(Add(s, x), x) == s
  {
    var r := Add(s, x);
    assert r == s + [x];
    DeleteAt(r, |s|);
    assert r[..|s|] == s;
  }
}
