/**
 * `sorted(diccionario_playas.items(), key=lambda x: x[1]['nombre'])`:
 * a stable sort of the registry items by display name. It is defined here as
 * insertion sort and characterised by the lemmas below: the result is sorted,
 * keeps the items of each name in their input order, and is the only sequence
 * that does both, so it is what any stable sort (Python's included) returns.
 */
module Sorting {
  import opened Names
  import opened Registry

  predicate Sorted(s: seq<Entry>)
  {
    forall i, j :: 0 <= i < j < |s| ==> NameLe(s[i].info.nombre, s[j].info.nombre)
  }

  /** The items of `s` whose display name is `k`, in the order of `s`. */
  function WithName(s: seq<Entry>, k: string): seq<Entry>
  {
    if |s| == 0 then []
    else (if s[0].info.nombre == k then [s[0]] else []) + WithName(s[1..], k)
  }

  lemma {:induction false} WithNameMember(s: seq<Entry>, k: string, x: Entry)
    ensures x in WithName(s, k) <==> x in s && x.info.nombre == k
  {
    if |s| > 0 {
      WithNameMember(s[1..], k, x);
      assert s == [s[0]] + s[1..];
    }
  }

  /** Puts `e` before the first item whose name is not below its own. */
  function Insert(e: Entry, t: seq<Entry>): seq<Entry>
  {
    if |t| == 0 then [e]
    else if NameLe(e.info.nombre, t[0].info.nombre) then [e] + t
    else [t[0]] + Insert(e, t[1..])
  }

  function SortByName(s: seq<Entry>): seq<Entry>
  {
    if |s| == 0 then [] else Insert(s[0], SortByName(s[1..]))
  }

  lemma {:induction false} InsertPermutes(e: Entry, t: seq<Entry>)
    ensures multiset(Insert(e, t)) == multiset(t) + multiset{e}
  {
    if |t| > 0 && !NameLe(e.info.nombre, t[0].info.nombre) {
      InsertPermutes(e, t[1..]);
      assert t == [t[0]] + t[1..];
    }
  }

  /** The sort neither loses nor duplicates an item. */
  lemma {:induction false} SortByNamePermutes(s: seq<Entry>)
    ensures multiset(SortByName(s)) == multiset(s)
  {
    if |s| > 0 {
      SortByNamePermutes(s[1..]);
      InsertPermutes(s[0], SortByName(s[1..]));
      assert s == [s[0]] + s[1..];
    }
  }

  /** The first item of a sorted sequence has the least name. */
  lemma SortedHeadLeast(t: seq<Entry>, x: Entry)
    requires Sorted(t) && x in t
    ensures NameLe(t[0].info.nombre, x.info.nombre)
  {
    var j :| 0 <= j < |t| && t[j] == x;
    if j == 0 {
      NameLeReflexive(x.info.nombre);
    }
  }

  lemma SortedCons(x: Entry, r: seq<Entry>)
    requires Sorted(r)
    requires forall y :: y in r ==> NameLe(x.info.nombre, y.info.nombre)
    ensures Sorted([x] + r)
  {
    var s := [x] + r;
    forall i, j | 0 <= i < j < |s|
      ensures NameLe(s[i].info.nombre, s[j].info.nombre)
    {
      assert s[j] == r[j - 1];
      if i > 0 {
        assert s[i] == r[i - 1];
      }
    }
  }

  lemma SortedTail(t: seq<Entry>)
    requires Sorted(t) && |t| > 0
    ensures Sorted(t[1..])
  {
    forall i, j | 0 <= i < j < |t[1..]|
      ensures NameLe(t[1..][i].info.nombre, t[1..][j].info.nombre)
    {
      assert t[1..][i] == t[i + 1] && t[1..][j] == t[j + 1];
    }
  }

  lemma {:induction false} InsertSorted(e: Entry, t: seq<Entry>)
    requires Sorted(t)
    ensures Sorted(Insert(e, t))
  {
    if |t| > 0 {
      if NameLe(e.info.nombre, t[0].info.nombre) {
        forall y | y in t
          ensures NameLe(e.info.nombre, y.info.nombre)
        {
          SortedHeadLeast(t, y);
          NameLeTransitive(e.info.nombre, t[0].info.nombre, y.info.nombre);
        }
        SortedCons(e, t);
      } else {
        var rest := Insert(e, t[1..]);
        SortedTail(t);
        InsertSorted(e, t[1..]);
        InsertPermutes(e, t[1..]);
        NameLeTotal(e.info.nombre, t[0].info.nombre);
        forall y | y in rest
          ensures NameLe(t[0].info.nombre, y.info.nombre)
        {
          assert y in multiset(rest);
          if y != e {
            assert y in multiset(t[1..]);
            assert y in t;
            SortedHeadLeast(t, y);
          }
        }
        SortedCons(t[0], rest);
      }
    }
  }

  /** The result of the sort is in non-decreasing order of name. */
  lemma {:induction false} SortByNameSorted(s: seq<Entry>)
    ensures Sorted(SortByName(s))
  {
    if |s| > 0 {
      SortByNameSorted(s[1..]);
      InsertSorted(s[0], SortByName(s[1..]));
    }
  }

  lemma {:induction false} InsertWithName(e: Entry, t: seq<Entry>, k: string)
    ensures WithName(Insert(e, t), k) == (if e.info.nombre == k then [e] else []) + WithName(t, k)
  {
    if |t| == 0 {
    } else if NameLe(e.info.nombre, t[0].info.nombre) {
      assert ([e] + t)[1..] == t;
    } else {
      var rest := Insert(e, t[1..]);
      assert ([t[0]] + rest)[1..] == rest;
      InsertWithName(e, t[1..], k);
      if e.info.nombre == k && t[0].info.nombre == k {
        NameLeReflexive(k);
        assert false;
      }
    }
  }

  /** Stability: the items sharing a name come out in the order they went in. */
  lemma {:induction false} SortByNameStable(s: seq<Entry>, k: string)
    ensures WithName(SortByName(s), k) == WithName(s, k)
  {
    if |s| > 0 {
      SortByNameStable(s[1..], k);
      InsertWithName(s[0], SortByName(s[1..]), k);
    }
  }

  /** Sorted sequences with the same items of every name start with the same item. */
  lemma SameHead(t: seq<Entry>, u: seq<Entry>)
    requires Sorted(t) && Sorted(u) && |t| > 0 && |u| > 0
    requires forall k :: WithName(t, k) == WithName(u, k)
    ensures t[0] == u[0]
  {
    var a, b := t[0], u[0];
    assert WithName(t, a.info.nombre) == WithName(u, a.info.nombre);
    assert WithName(t, b.info.nombre) == WithName(u, b.info.nombre);
    WithNameMember(t, a.info.nombre, a);
    WithNameMember(u, a.info.nombre, a);
    WithNameMember(u, b.info.nombre, b);
    WithNameMember(t, b.info.nombre, b);
    SortedHeadLeast(u, a);
    SortedHeadLeast(t, b);
    NameLeAntisymmetric(a.info.nombre, b.info.nombre);
    assert WithName(t, a.info.nombre)[0] == a;
    assert WithName(u, a.info.nombre)[0] == b;
  }

  lemma SameTails(t: seq<Entry>, u: seq<Entry>)
    requires |t| > 0 && |u| > 0 && t[0] == u[0]
    requires forall k :: WithName(t, k) == WithName(u, k)
    ensures forall k :: WithName(t[1..], k) == WithName(u[1..], k)
  {
    forall k
      ensures WithName(t[1..], k) == WithName(u[1..], k)
    {
      assert WithName(t, k) == WithName(u, k);
      if k == t[0].info.nombre {
        assert WithName(t[1..], k) == WithName(t, k)[1..];
        assert WithName(u[1..], k) == WithName(u, k)[1..];
      } else {
        assert WithName(t, k) == WithName(t[1..], k);
        assert WithName(u, k) == WithName(u[1..], k);
      }
    }
  }

  /** Two sorted sequences with the same items of every name, in the same order, are equal. */
  lemma {:induction false} SortedDeterminedByNames(t: seq<Entry>, u: seq<Entry>)
    requires Sorted(t) && Sorted(u)
    requires forall k :: WithName(t, k) == WithName(u, k)
    ensures t == u
    decreases |t|
  {
    if |t| == 0 {
      if |u| > 0 {
        WithNameMember(u, u[0].info.nombre, u[0]);
      }
    } else if |u| == 0 {
      WithNameMember(t, t[0].info.nombre, t[0]);
    } else {
      SameHead(t, u);
      SameTails(t, u);
      SortedTail(t);
      SortedTail(u);
      SortedDeterminedByNames(t[1..], u[1..]);
      assert t == [t[0]] + t[1..] && u == [u[0]] + u[1..];
    }
  }

  /**
   * The sort is the unique stable sort: any sorted sequence that keeps each
   * name's items of `s` in their order is SortByName(s).
   */
  lemma StableSortUnique(s: seq<Entry>, r: seq<Entry>)
    requires Sorted(r)
    requires forall k :: WithName(r, k) == WithName(s, k)
    ensures r == SortByName(s)
  {
    SortByNameSorted(s);
    forall k
      ensures WithName(r, k) == WithName(SortByName(s), k)
    {
      SortByNameStable(s, k);
    }
    SortedDeterminedByNames(r, SortByName(s));
  }
}
