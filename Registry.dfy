/**
 * The process-wide connection registry: application identity text mapped to
 * the bots registered under it, in registration order.  Bots are stored by
 * reference, so membership and removal compare object identity, as Go's
 * pointer comparison and JavaScript's `indexOf` do.
 *
 * The pure functions below give the meaning of each mutation; the class
 * `Registry` performs the mutation in place and is proved against them.
 */
module ConnectionRegistry {

  type Table<T> = map<string, seq<T>>

  /** Keys are present only with a non-empty list: empty lists are deleted, not kept. */
  ghost predicate NoEmptyLists<T>(t: Table<T>) {
    forall k :: k in t ==> |t[k]| > 0
  }

  /** The list under `k`, or the empty list when `k` is absent. */
  function Lookup<T>(t: Table<T>, k: string): (s: seq<T>) {
    if k in t then t[k] else []
  }

  /** Registration: `b` goes at the end of the list under `k`, which is created when absent. */
  function WithAppended<T>(t: Table<T>, k: string, b: T): (r: Table<T>)
    ensures r.Keys == t.Keys + {k}
    ensures Lookup(r, k) == Lookup(t, k) + [b]
    ensures forall k' :: k' != k && k' in t ==> r[k'] == t[k']
    ensures NoEmptyLists(t) ==> NoEmptyLists(r)
  {
    t[k := Lookup(t, k) + [b]]
  }

  /** `s` with every occurrence of `b` dropped, the others in their original order. */
  function Filtered<T(==)>(s: seq<T>, b: T): (r: seq<T>)
    ensures b !in r
    ensures |r| <= |s|
  {
    if s == [] then []
    else
      var front := Filtered(s[..|s| - 1], b);
      if s[|s| - 1] == b then front else front + [s[|s| - 1]]
  }

  /** Filtering drops every copy of `b` and keeps every other element as often as it occurred. */
  lemma {:induction false} FilteredCounts<T>(s: seq<T>, b: T)
    ensures multiset(Filtered(s, b)) == multiset(s)[b := 0]
  {
    if s != [] {
      var front := s[..|s| - 1];
      assert s == front + [s[|s| - 1]];
      FilteredCounts(front, b);
    }
  }

  /** Filtering distributes over concatenation, so the survivors keep their relative order. */
  lemma {:induction false} FilteredConcat<T>(a: seq<T>, c: seq<T>, b: T)
    ensures Filtered(a + c, b) == Filtered(a, b) + Filtered(c, b)
  {
    if c != [] {
      var c' := c[..|c| - 1];
      assert (a + c)[..|a + c| - 1] == a + c';
      FilteredConcat(a, c', b);
    } else {
      assert a + c == a;
    }
  }

  /** Filtering out a value that does not occur changes nothing. */
  lemma {:induction false} FilteredAbsent<T>(s: seq<T>, b: T)
    requires b !in s
    ensures Filtered(s, b) == s
  {
    if s != [] {
      assert s[..|s| - 1] + [s[|s| - 1]] == s;
      FilteredAbsent(s[..|s| - 1], b);
    }
  }

  /**
   * Go's removal (the `cleanup` loop): every occurrence of `b` leaves the
   * list under `k`; the key is deleted when nothing is left; a missing key
   * is left alone.
   */
  function WithoutAll<T(==)>(t: Table<T>, k: string, b: T): (r: Table<T>)
    ensures forall k' :: k' != k ==> (k' in r <==> k' in t)
    ensures forall k' :: k' != k && k' in r ==> r[k'] == t[k']
    ensures k in r <==> k in t && Filtered(t[k], b) != []
    ensures Lookup(r, k) == Filtered(Lookup(t, k), b)
    ensures b !in Lookup(r, k)
    ensures NoEmptyLists(t) ==> NoEmptyLists(r)
  {
    if k !in t then t
    else
      var u := Filtered(t[k], b);
      if u != [] then t[k := u] else t - {k}
  }

  /** Removing the same bot twice leaves the table as removing it once. */
  lemma WithoutAllIdempotent<T>(t: Table<T>, k: string, b: T)
    ensures WithoutAll(WithoutAll(t, k, b), k, b) == WithoutAll(t, k, b)
  {
    var once := WithoutAll(t, k, b);
    if k in once {
      FilteredAbsent(once[k], b);
    }
  }

  /** Go: registering a bot and then removing it under the same key gives back the table. */
  lemma RegisterThenWithoutAll<T>(t: Table<T>, k: string, b: T)
    requires NoEmptyLists(t) && b !in Lookup(t, k)
    ensures WithoutAll(WithAppended(t, k, b), k, b) == t
  {
    var s := Lookup(t, k);
    assert Filtered(s + [b], b) == s by {
      FilteredConcat(s, [b], b);
      FilteredAbsent(s, b);
      assert Filtered([b], b) == [] by { assert [b][..0] == []; }
    }
    var t' := t[k := s + [b]];
    assert WithAppended(t, k, b) == t';
    if k in t {
      assert s != [];
      assert WithoutAll(t', k, b) == t'[k := s];
      assert t'[k := s] == t;
    } else {
      assert s == [];
      assert WithoutAll(t', k, b) == t' - {k};
      assert t' - {k} == t;
    }
  }

  /** JavaScript's `indexOf` by identity: the first position of `b`, or -1. */
  function IndexOf<T(==)>(s: seq<T>, b: T): (i: int)
    ensures -1 <= i < |s|
    ensures i == -1 <==> b !in s
    ensures 0 <= i ==> s[i] == b && b !in s[..i]
  {
    if s == [] then -1
    else if s[0] == b then 0
    else
      var j := IndexOf(s[1..], b);
      if j == -1 then -1 else j + 1
  }

  /** `s` without its element at position `i`: `splice(i, 1)`. */
  function RemovedAt<T>(s: seq<T>, i: nat): (r: seq<T>)
    requires i < |s|
    ensures |r| == |s| - 1
    ensures forall j :: 0 <= j < i ==> r[j] == s[j]
    ensures forall j :: i <= j < |r| ==> r[j] == s[j + 1]
  {
    s[..i] + s[i + 1..]
  }

  /** Removing one position takes out one copy of the element there and nothing else. */
  lemma RemovedAtCounts<T>(s: seq<T>, i: nat)
    requires i < |s|
    ensures multiset(RemovedAt(s, i)) == multiset(s) - multiset{s[i]}
  {
    assert s == s[..i] + [s[i]] + s[i + 1..];
  }

  /**
   * TypeScript's removal (`removeFromConnectionMap`): only the first
   * occurrence of `b` leaves the list under `k`; the key is deleted when the
   * list becomes empty; no-op when `b` is not listed.
   */
  function WithoutFirst<T(==)>(t: Table<T>, k: string, b: T): (r: Table<T>)
    ensures b !in Lookup(t, k) ==> r == t
    ensures forall k' :: k' != k ==> (k' in r <==> k' in t)
    ensures forall k' :: k' != k && k' in r ==> r[k'] == t[k']
    ensures b in Lookup(t, k) ==> Lookup(r, k) == RemovedAt(t[k], IndexOf(t[k], b))
    ensures b in Lookup(t, k) ==> (k in r <==> |t[k]| > 1)
    ensures NoEmptyLists(t) ==> NoEmptyLists(r)
  {
    var s := Lookup(t, k);
    var i := IndexOf(s, b);
    if i == -1 then t
    else
      var u := RemovedAt(s, i);
      if u == [] then t - {k} else t[k := u]
  }

  /** Exactly one occurrence of `b` leaves the list under `k`, when there is one. */
  lemma WithoutFirstRemovesOne<T>(t: Table<T>, k: string, b: T)
    ensures multiset(Lookup(WithoutFirst(t, k, b), k)) == multiset(Lookup(t, k)) - multiset{b}
  {
    var s := Lookup(t, k);
    if b in s {
      RemovedAtCounts(s, IndexOf(s, b));
    } else {
      assert multiset(s)[b] == 0;
    }
  }

  /** TypeScript: registering a bot and then removing it under the same key gives back the table. */
  lemma RegisterThenWithoutFirst<T>(t: Table<T>, k: string, b: T)
    requires NoEmptyLists(t) && b !in Lookup(t, k)
    ensures WithoutFirst(WithAppended(t, k, b), k, b) == t
  {
    var s := Lookup(t, k);
    var s' := s + [b];
    assert IndexOf(s', b) == |s| by {
      assert s'[|s|] == b;
      assert s'[..|s|] == s;
    }
    assert RemovedAt(s', |s|) == s by {
      assert s'[..|s|] == s;
    }
    var t' := t[k := s'];
    assert WithAppended(t, k, b) == t';
    if k in t {
      assert s != [];
      assert WithoutFirst(t', k, b) == t'[k := s];
      assert t'[k := s] == t;
    } else {
      assert s == [];
      assert WithoutFirst(t', k, b) == t' - {k};
      assert t' - {k} == t;
    }
  }

  /** The registry object shared by every session of one relay process. */
  class Registry<T(==)> {
    var conns: Table<T>

    ghost predicate Valid()
      reads this
    {
      NoEmptyLists(conns)
    }

    constructor ()
      ensures Valid() && conns == map[]
    {
      conns := map[];
    }

    /** Append `bot` under `key` (Go: LoadOrStore then Store; TypeScript: get or [], push, set). */
    method Register(key: string, bot: T)
      requires Valid()
      modifies this
      ensures Valid()
      ensures conns == WithAppended(old(conns), key, bot)
    {
      var list := if key in conns then conns[key] else [];
      conns := conns[key := list + [bot]];
    }

    /** Go `cleanup`: rebuild the list without `bot`, then store it or delete the key. */
    method RemoveAll(key: string, bot: T)
      requires Valid()
      modifies this
      ensures Valid()
      ensures conns == WithoutAll(old(conns), key, bot)
    {
      if key in conns {
        var connList := conns[key];
        var updatedList: seq<T> := [];
        for i := 0 to |connList|
          invariant updatedList == Filtered(connList[..i], bot)
        {
          assert connList[..i + 1][..i] == connList[..i];
          if connList[i] != bot {
            updatedList := updatedList + [connList[i]];
          }
        }
        assert connList[..|connList|] == connList;
        assert updatedList == Filtered(old(conns)[key], bot);
        if |updatedList| > 0 {
          conns := conns[key := updatedList];
        } else {
          conns := conns - {key};
        }
      }
    }

    /** TypeScript `removeFromConnectionMap`: splice out the first occurrence, then set or delete. */
    method RemoveFirst(key: string, bot: T)
      requires Valid()
      modifies this
      ensures Valid()
      ensures conns == WithoutFirst(old(conns), key, bot)
    {
      var connections := if key in conns then conns[key] else [];
      var index := IndexOf(connections, bot);
      if index != -1 {
        connections := RemovedAt(connections, index);
        if |connections| == 0 {
          conns := conns - {key};
        } else {
          conns := conns[key := connections];
        }
      }
    }
  }
}
