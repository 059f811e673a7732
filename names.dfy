/** The name table the scanner interns names in (the `Names` object of the repository, whose source is
    not part of this model): a list of strings whose positions are the ids, extended by `lookup` with
    every string it has not seen yet. */
module NameTable {
  /** No string occurs twice in the table. */
  predicate Distinct(table: seq<string>) {
    forall i, j :: 0 <= i < j < |table| ==> table[i] != table[j]
  }

  /** The position of the first occurrence of `s`. */
  function Find(table: seq<string>, s: string): (i: nat)
    requires s in table
    ensures i < |table| && table[i] == s
    ensures forall j :: 0 <= j < i ==> table[j] != s
  {
    if table[0] == s then 0 else 1 + Find(table[1..], s)
  }

  /** `lookup` of one string: its id, and the table with the string appended if it was absent. */
  function Intern(table: seq<string>, s: string): (r: (nat, seq<string>))
    ensures r.0 < |r.1| && r.1[r.0] == s
    ensures |table| <= |r.1| && r.1[..|table|] == table
    ensures s in table ==> r.1 == table
    ensures s !in table ==> r == (|table|, table + [s])
  {
    if s in table then (Find(table, s), table) else (|table|, table + [s])
  }

  /** `lookup` of a list of strings, in order. */
  function InternAll(table: seq<string>, strings: seq<string>): (r: (seq<nat>, seq<string>))
    ensures |r.0| == |strings|
    ensures forall i {:trigger r.0[i]} :: 0 <= i < |strings| ==> r.0[i] < |r.1| && r.1[r.0[i]] == strings[i]
    ensures |table| <= |r.1| && r.1[..|table|] == table
    decreases |strings|
  {
    if strings == [] then ([], table)
    else
      var front := strings[..|strings| - 1];
      var (ids, t1) := InternAll(table, front);
      var (id, t2) := Intern(t1, strings[|strings| - 1]);
      assert forall i :: 0 <= i < |front| ==> ids[i] < |t1| && t2[ids[i]] == t1[ids[i]] == front[i] by {
        forall i | 0 <= i < |front| ensures ids[i] < |t1| && t2[ids[i]] == t1[ids[i]] == front[i] {
          assert t2[..|t1|][ids[i]] == t2[ids[i]];
        }
      }
      (ids + [id], t2)
  }

  /** `lookup` of a one-element list is the interning of that element. */
  lemma InternOne(table: seq<string>, s: string)
    ensures InternAll(table, [s]) == ([Intern(table, s).0], Intern(table, s).1)
  {
    assert [s][..0] == [] && [s][0] == s;
    assert InternAll(table, []) == ([], table);
    assert [] + [Intern(table, s).0] == [Intern(table, s).0];
  }

  /** Interning keeps the table free of duplicates. */
  lemma InternDistinct(table: seq<string>, s: string)
    requires Distinct(table)
    ensures Distinct(Intern(table, s).1)
  {
  }

  /** Equal strings get equal ids, and ids once given never change: interning a string already in a
      duplicate-free table returns the id it got before, however the table grew in between. */
  lemma {:induction false} InternStable(table: seq<string>, more: seq<string>, s: string)
    requires Distinct(table + more) && s in table
    ensures Intern(table + more, s) == (Find(table, s), table + more)
  {
    var i := Find(table, s);
    assert (table + more)[i] == s;
  }

  /** Different strings get different ids. */
  lemma InternInjective(table: seq<string>, a: string, b: string)
    requires Distinct(table) && a in table && b in table && a != b
    ensures Intern(table, a).0 != Intern(table, b).0
  {
  }

  /** Interning the strings of a duplicate-free list that are not yet in the table appends them, in order,
      with consecutive ids. */
  lemma {:induction false} InternAllFresh(table: seq<string>, strings: seq<string>)
    requires Distinct(table + strings) && (forall s :: s in strings ==> s !in table)
    ensures InternAll(table, strings).1 == table + strings
    ensures forall i :: 0 <= i < |strings| ==> InternAll(table, strings).0[i] == |table| + i
    decreases |strings|
  {
    if strings == [] {
      assert table + strings == table;
    } else {
      var n := |strings|;
      var front := strings[..n - 1];
      var last := strings[n - 1];
      assert strings == front + [last];
      FreshFront(table, front, last);
      InternAllFresh(table, front);
      var (ids, t1) := InternAll(table, front);
      assert t1 == table + front;
      assert Intern(t1, last) == (|t1|, t1 + [last]);
      InternAllSnoc(table, front, last);
      assert t1 + [last] == table + strings;
    }
  }

  /** `InternAll` on one more string: the ids so far, then the id the last string gets. */
  lemma InternAllSnoc(table: seq<string>, front: seq<string>, last: string)
    ensures var (ids, t1) := InternAll(table, front);
      InternAll(table, front + [last]) == (ids + [Intern(t1, last).0], Intern(t1, last).1)
  {
    assert (front + [last])[..|front|] == front;
  }

  /** The hypotheses of `InternAllFresh` hold for every prefix, and the last string is not in the table
      the prefix leaves. */
  lemma FreshFront(table: seq<string>, front: seq<string>, last: string)
    requires Distinct(table + (front + [last])) && (forall s :: s in front + [last] ==> s !in table)
    ensures Distinct(table + front) && (forall s :: s in front ==> s !in table)
    ensures last !in table + front
  {
    var all := table + (front + [last]);
    assert table + front == all[..|all| - 1];
    assert last == all[|all| - 1];
    forall s | s in front ensures s !in table {
      assert s in front + [last];
    }
    forall k | 0 <= k < |table + front| ensures (table + front)[k] != last {
      assert (table + front)[k] == all[k];
    }
  }

  /** The name table object. */
  class Names {
    var nameList: seq<string>

    constructor ()
      ensures nameList == []
    {
      nameList := [];
    }

    /** `lookup(name_string_list)`: the id of every string, interning the new ones. */
    method Lookup(strings: seq<string>) returns (ids: seq<nat>)
      modifies this
      ensures (ids, nameList) == InternAll(old(nameList), strings)
      ensures forall i :: 0 <= i < |strings| ==> ids[i] < |nameList| && nameList[ids[i]] == strings[i]
    {
      ids := [];
      var k := 0;
      while k < |strings|
        invariant 0 <= k <= |strings|
        invariant (ids, nameList) == InternAll(old(nameList), strings[..k])
      {
        assert strings[..k + 1][..k] == strings[..k];
        var (id, t) := Intern(nameList, strings[k]);
        ids := ids + [id];
        nameList := t;
        k := k + 1;
      }
      assert strings[..k] == strings;
    }
  }
}
