/** Strings as the source orders, splits and joins them. */
module Strings {
  // ---- the order of sort.Strings -------------------------------------------

  predicate AtMost(a: string, b: string) {
    a == [] || (b != [] && (a[0] < b[0] || (a[0] == b[0] && AtMost(a[1..], b[1..]))))
  }

  lemma {:induction false} AtMostTotal(a: string, b: string)
    ensures AtMost(a, b) || AtMost(b, a)
    ensures AtMost(a, b) && AtMost(b, a) ==> a == b
    decreases |a|
  {
    if a != [] && b != [] && a[0] == b[0] {
      AtMostTotal(a[1..], b[1..]);
      assert a == [a[0]] + a[1..] && b == [b[0]] + b[1..];
    }
  }

  lemma {:induction false} AtMostTransitive(a: string, b: string, c: string)
    requires AtMost(a, b) && AtMost(b, c)
    ensures AtMost(a, c)
    decreases |a|
  {
    if a != [] && a[0] == b[0] == c[0] {
      AtMostTransitive(a[1..], b[1..], c[1..]);
    }
  }

  /** The strings agree up to place i, where a has the smaller character. */
  predicate SmallerAt(a: string, b: string, i: nat) {
    i < |a| && i < |b| && a[..i] == b[..i] && a[i] < b[i]
  }

  lemma SmallerOneOn(a: string, b: string, i: nat)
    requires a != [] && b != [] && a[0] == b[0]
    ensures SmallerAt(a[1..], b[1..], i) <==> SmallerAt(a, b, i + 1)
  {
    if i < |a| - 1 && i < |b| - 1 {
      assert a[..i + 1] == [a[0]] + a[1..][..i] && b[..i + 1] == [b[0]] + b[1..][..i];
      assert a[1..][..i] == a[..i + 1][1..] && b[1..][..i] == b[..i + 1][1..];
    }
  }

  lemma PrefixOneOn(a: string, b: string)
    requires a != [] && b != [] && a[0] == b[0]
    ensures a <= b <==> a[1..] <= b[1..]
  {
    assert a == [a[0]] + a[1..] && b == [b[0]] + b[1..];
  }

  /** The order is that of the first difference; a proper prefix comes first. */
  lemma {:induction false} AtMostIsLexicographic(a: string, b: string)
    ensures AtMost(a, b) <==> a <= b || exists i: nat :: SmallerAt(a, b, i)
    decreases |a|
  {
    if a != [] && b != [] && a[0] == b[0] {
      AtMostIsLexicographic(a[1..], b[1..]);
      PrefixOneOn(a, b);
      if i: nat :| SmallerAt(a, b, i) {
        assert i > 0;
        SmallerOneOn(a, b, i - 1);
      }
      if i: nat :| SmallerAt(a[1..], b[1..], i) {
        SmallerOneOn(a, b, i);
      }
    } else if a != [] && b != [] {
      assert a[0] < b[0] ==> SmallerAt(a, b, 0);
    }
  }

  predicate Increasing(q: seq<string>) {
    forall i, j :: 0 <= i < j < |q| ==> AtMost(q[i], q[j]) && q[i] != q[j]
  }

  function Elements(q: seq<string>): set<string> {
    set x | x in q
  }

  lemma ElementsOfSnoc(q: seq<string>, x: string)
    ensures Elements(q + [x]) == Elements(q) + {x}
  {
  }

  /** q lists the set s in order, each element once. */
  predicate Lists(q: seq<string>, s: set<string>) {
    Increasing(q) && Elements(q) == s
  }

  /** An ordered listing is determined by its elements. */
  lemma {:induction false} ListingIsUnique(p: seq<string>, q: seq<string>, s: set<string>)
    requires Lists(p, s) && Lists(q, s)
    ensures p == q
    decreases |p|
  {
    assert q != [] ==> q[0] in Elements(q);
    if p != [] {
      assert p[0] in s;
      var i :| 0 <= i < |q| && q[i] == p[0];
      assert q[0] in s;
      var j :| 0 <= j < |p| && p[j] == q[0];
      AtMostTotal(p[0], q[0]);
      assert p[0] == q[0];
      var rest := s - {p[0]};
      TailLists(p, s);
      TailLists(q, s);
      ListingIsUnique(p[1..], q[1..], rest);
      assert p == [p[0]] + p[1..] && q == [q[0]] + q[1..];
    }
  }

  lemma TailLists(q: seq<string>, s: set<string>)
    requires q != [] && Lists(q, s)
    ensures Lists(q[1..], s - {q[0]})
  {
    forall x | x in s - {q[0]} ensures x in q[1..] {
      var i :| 0 <= i < |q| && q[i] == x;
      assert q[1..][i - 1] == x;
    }
    forall x | x in q[1..] ensures x in s - {q[0]} {
      var i :| 0 <= i < |q[1..]| && q[1..][i] == x;
      assert q[i + 1] == x;
    }
  }

  /** x put into its place in an ordered listing. */
  function Inserted(q: seq<string>, x: string): seq<string> {
    if q == [] || !AtMost(q[0], x) then [x] + q else [q[0]] + Inserted(q[1..], x)
  }

  lemma {:induction false} InsertedLists(q: seq<string>, x: string, s: set<string>)
    requires Lists(q, s) && x !in s
    ensures Lists(Inserted(q, x), s + {x})
  {
    var r := Inserted(q, x);
    if q == [] {
    } else if !AtMost(q[0], x) {
      AtMostTotal(q[0], x);
      forall j | 0 <= j < |q| ensures AtMost(x, q[j]) && x != q[j] {
        assert q[j] in s;
        if j > 0 {
          AtMostTransitive(x, q[0], q[j]);
        }
      }
    } else {
      assert q[0] in s;
      TailLists(q, s);
      InsertedLists(q[1..], x, s - {q[0]});
      var tail := Inserted(q[1..], x);
      forall j | 0 <= j < |tail| ensures AtMost(q[0], tail[j]) && q[0] != tail[j] {
        assert tail[j] in s - {q[0]} + {x};
        if tail[j] != x {
          var i :| 0 <= i < |q[1..]| && q[1..][i] == tail[j];
          assert q[i + 1] == tail[j];
        }
      }
      assert s + {x} == {q[0]} + (s - {q[0]} + {x});
    }
  }

  /** The elements of s in order. */
  ghost function SortedSeq(s: set<string>): (q: seq<string>)
    ensures Lists(q, s)
  {
    if s == {} then [] else
      var x :| x in s;
      InsertedLists(SortedSeq(s - {x}), x, s - {x});
      assert s - {x} + {x} == s;
      Inserted(SortedSeq(s - {x}), x)
  }

  /** sort.Strings on a list without duplicates. */
  method SortStrings(items: seq<string>) returns (r: seq<string>)
    requires forall i, j :: 0 <= i < j < |items| ==> items[i] != items[j]
    ensures r == SortedSeq(Elements(items))
  {
    r := [];
    for k := 0 to |items|
      invariant Lists(r, Elements(items[..k]))
    {
      assert items[..k + 1] == items[..k] + [items[k]];
      ElementsOfSnoc(items[..k], items[k]);
      InsertedLists(r, items[k], Elements(items[..k]));
      r := Inserted(r, items[k]);
    }
    assert items[..|items|] == items;
    ListingIsUnique(r, SortedSeq(Elements(items)), Elements(items));
  }

  /** Ranging over a set: every element once, in no particular order. */
  method AnyOrder(items: set<string>) returns (out: seq<string>)
    ensures Elements(out) == items
    ensures forall i, j :: 0 <= i < j < |out| ==> out[i] != out[j]
  {
    out := [];
    var left := items;
    while left != {}
      invariant left !! Elements(out) && left + Elements(out) == items
      invariant forall i, j :: 0 <= i < j < |out| ==> out[i] != out[j]
      decreases left
    {
      var u :| u in left;
      ElementsOfSnoc(out, u);
      assert forall x <- out :: x in Elements(out);
      left, out := left - {u}, out + [u];
    }
  }
}
