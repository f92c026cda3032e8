// Orders on keys, and the ascending listing of a finite set of keys.
// These stand for the iteration order of BTreeMap and for the sort of filter names.
module Order {
  import opened Proto

  /** The byte-wise order of Rust strings: a proper prefix comes first. */
  predicate TextLess(a: Text, b: Text) {
    b != [] && (a == [] || a[0] < b[0] || (a[0] == b[0] && TextLess(a[1..], b[1..])))
  }

  /** The order of (height, hash) pairs. */
  predicate KeyLess(a: (nat, Text), b: (nat, Text)) {
    a.0 < b.0 || (a.0 == b.0 && TextLess(a.1, b.1))
  }

  /** Irreflexive, transitive and total. */
  ghost predicate StrictOrder<T(!new)>(less: (T, T) -> bool) {
    && (forall x :: !less(x, x))
    && (forall x, y, z :: less(x, y) && less(y, z) ==> less(x, z))
    && (forall x, y :: less(x, y) || x == y || less(y, x))
  }

  lemma {:induction false} TextLessTransitive(a: Text, b: Text, c: Text)
    requires TextLess(a, b) && TextLess(b, c)
    ensures TextLess(a, c)
  {
    if a != [] && a[0] == b[0] == c[0] {
      TextLessTransitive(a[1..], b[1..], c[1..]);
    }
  }

  lemma {:induction false} TextLessTotal(a: Text, b: Text)
    ensures TextLess(a, b) || a == b || TextLess(b, a)
    ensures !TextLess(a, a)
  {
    if a == [] {
    } else {
      TextLessTotal(a[1..], a[1..]);
      if b != [] && a[0] == b[0] {
        TextLessTotal(a[1..], b[1..]);
        assert a == [a[0]] + a[1..] && b == [b[0]] + b[1..];
      }
    }
  }

  /** At their first difference the smaller byte decides; without one, the shorter string is first. */
  ghost predicate ComesFirst(a: Text, b: Text) {
    a < b || exists i :: 0 <= i < |a| && i < |b| && a[..i] == b[..i] && a[i] < b[i]
  }

  lemma {:induction false} TextLessMeans(a: Text, b: Text)
    ensures TextLess(a, b) <==> ComesFirst(a, b)
  {
    if a == [] || b == [] {
    } else if a[0] != b[0] {
      assert a[0] < b[0] ==> a[..0] == b[..0] && a[0] < b[0];
      assert !(a < b);
    } else {
      TextLessMeans(a[1..], b[1..]);
      hide ComesFirst;
      if ComesFirst(a[1..], b[1..]) {
        FirstOfRests(a, b);
      }
      if ComesFirst(a, b) {
        RestsOfFirst(a, b);
      }
    }
  }

  lemma FirstOfRests(a: Text, b: Text)
    requires a != [] && b != [] && a[0] == b[0] && ComesFirst(a[1..], b[1..])
    ensures ComesFirst(a, b)
  {
    var c, d := a[1..], b[1..];
    assert a == [a[0]] + c && b == [b[0]] + d;
    if c < d {
      assert a == b[..|a|];
    } else {
      var i :| 0 <= i < |c| && i < |d| && c[..i] == d[..i] && c[i] < d[i];
      assert a[..i + 1] == [a[0]] + c[..i] == [b[0]] + d[..i] == b[..i + 1] && a[i + 1] < b[i + 1];
    }
  }

  lemma RestsOfFirst(a: Text, b: Text)
    requires a != [] && b != [] && a[0] == b[0] && ComesFirst(a, b)
    ensures ComesFirst(a[1..], b[1..])
  {
    var c, d := a[1..], b[1..];
    if a < b {
      assert c == d[..|c|];
    } else {
      var i :| 0 <= i < |a| && i < |b| && a[..i] == b[..i] && a[i] < b[i];
      assert c[..i - 1] == a[..i][1..] == b[..i][1..] == d[..i - 1] && c[i - 1] < d[i - 1];
    }
  }

  lemma TextOrder()
    ensures StrictOrder(TextLess)
  {
    forall a, b ensures TextLess(a, b) || a == b || TextLess(b, a) {
      TextLessTotal(a, b);
    }
    forall a ensures !TextLess(a, a) {
      TextLessTotal(a, a);
    }
    forall a, b, c | TextLess(a, b) && TextLess(b, c) ensures TextLess(a, c) {
      TextLessTransitive(a, b, c);
    }
  }

  lemma KeyOrder()
    ensures StrictOrder(KeyLess)
  {
    TextOrder();
    forall a: (nat, Text), b: (nat, Text) ensures KeyLess(a, b) || a == b || KeyLess(b, a) {
      TextLessTotal(a.1, b.1);
    }
    forall a: (nat, Text), b: (nat, Text), c: (nat, Text) | KeyLess(a, b) && KeyLess(b, c) ensures KeyLess(a, c) {
      if a.0 == b.0 == c.0 {
        TextLessTransitive(a.1, b.1, c.1);
      }
    }
  }

  /** Strictly ascending, hence without repetition. */
  ghost predicate Ascending<T>(s: seq<T>, less: (T, T) -> bool) {
    forall i, j :: 0 <= i < j < |s| ==> less(s[i], s[j])
  }

  /** The elements of a sequence. */
  function Elements<T>(s: seq<T>): set<T> {
    set x | x in s
  }

  lemma NoElements<T>(s: seq<T>)
    ensures Elements(s) == {} <==> s == []
  {
    assert s != [] ==> s[0] in Elements(s);
  }

  /** Puts `x` before the first element that it precedes. */
  function Insert<T(!new)>(x: T, s: seq<T>, less: (T, T) -> bool): (r: seq<T>)
    ensures multiset(r) == multiset(s) + multiset{x}
  {
    if s == [] then
      [x]
    else if less(x, s[0]) then
      [x] + s
    else
      assert s == [s[0]] + s[1..];
      [s[0]] + Insert(x, s[1..], less)
  }

  lemma {:induction false} InsertKeepsOrder<T(!new)>(x: T, s: seq<T>, less: (T, T) -> bool)
    requires StrictOrder(less) && Ascending(s, less) && x !in s
    ensures Ascending(Insert(x, s, less), less)
    ensures Elements(Insert(x, s, less)) == Elements(s) + {x}
  {
    InsertElements(x, s, less);
    if s != [] && !less(x, s[0]) {
      var t := Insert(x, s[1..], less);
      InsertKeepsOrder(x, s[1..], less);
      forall y | y in t ensures less(s[0], y) {
        assert y in Elements(t);
        assert y in s[1..] || y == x;
      }
      AscendingCons(s[0], t, less);
    } else if s != [] {
      forall y | y in s ensures less(x, y) {
        var i :| 0 <= i < |s| && s[i] == y;
        assert i == 0 || less(s[0], s[i]);
      }
      AscendingCons(x, s, less);
    }
  }

  lemma AscendingCons<T(!new)>(x: T, s: seq<T>, less: (T, T) -> bool)
    requires Ascending(s, less)
    requires forall y :: y in s ==> less(x, y)
    ensures Ascending([x] + s, less)
  {
    var r := [x] + s;
    forall i, j | 0 <= i < j < |r| ensures less(r[i], r[j]) {
      assert r[j] == s[j - 1] && s[j - 1] in s;
      assert i > 0 ==> r[i] == s[i - 1];
    }
  }

  lemma InsertElements<T(!new)>(x: T, s: seq<T>, less: (T, T) -> bool)
    ensures Elements(Insert(x, s, less)) == Elements(s) + {x}
  {
    forall y ensures y in Insert(x, s, less) <==> y in s || y == x {
      assert y in Insert(x, s, less) <==> y in multiset(Insert(x, s, less));
    }
  }

  /** A finite set has one ascending listing only. */
  lemma {:induction false} AscendingUnique<T(!new)>(s: seq<T>, t: seq<T>, less: (T, T) -> bool)
    requires StrictOrder(less) && Ascending(s, less) && Ascending(t, less)
    requires Elements(s) == Elements(t)
    ensures s == t
  {
    if s == [] {
      NoElements(s);
      NoElements(t);
    } else {
      assert s[0] in Elements(s);
      assert t != [] by {
        assert s[0] in Elements(t);
      }
      assert t[0] in Elements(t) && t[0] in s && s[0] in t;
      assert s[0] == t[0];
      forall x ensures x in s[1..] <==> x in t[1..] {
        if x in s[1..] {
          assert x in Elements(s) && x in t;
        }
        if x in t[1..] {
          assert x in Elements(t) && x in s;
        }
      }
      AscendingUnique(s[1..], t[1..], less);
      assert s == [s[0]] + s[1..] && t == [t[0]] + t[1..];
    }
  }

  /** The ascending listing of a finite set. */
  ghost function Listing<T(!new)>(keys: set<T>, less: (T, T) -> bool): seq<T> {
    if keys == {} then
      []
    else
      var x :| x in keys;
      Insert(x, Listing(keys - {x}, less), less)
  }

  /** The element that a listing inserted last. */
  lemma Inserted<T(!new)>(keys: set<T>, less: (T, T) -> bool) returns (x: T)
    requires keys != {}
    ensures x in keys && Listing(keys, less) == Insert(x, Listing(keys - {x}, less), less)
  {
    hide Insert;
    x :| x in keys && Listing(keys, less) == Insert(x, Listing(keys - {x}, less), less);
  }

  lemma NotListed<T>(x: T, s: seq<T>)
    ensures x in Elements(s) <==> x in s
  {
  }

  lemma {:induction false} ListingAscending<T(!new)>(keys: set<T>, less: (T, T) -> bool)
    requires StrictOrder(less)
    ensures Ascending(Listing(keys, less), less)
    ensures Elements(Listing(keys, less)) == keys
  {
    if keys == {} {
    } else {
      var x := Inserted(keys, less);
      hide Listing, Ascending, Elements, Insert, StrictOrder;
      ListingAscending(keys - {x}, less);
      assert x !in Elements(Listing(keys - {x}, less));
      NotListed(x, Listing(keys - {x}, less));
      InsertKeepsOrder(x, Listing(keys - {x}, less), less);
      assert keys - {x} + {x} == keys;
    }
  }

  /** A listing has each element once. */
  lemma {:induction false} ListingSize<T(!new)>(keys: set<T>, less: (T, T) -> bool)
    ensures |Listing(keys, less)| == |keys|
  {
    if keys == {} {
    } else {
      var x := Inserted(keys, less);
      ListingSize(keys - {x}, less);
      InsertSize(x, Listing(keys - {x}, less), less);
    }
  }

  lemma {:induction false} InsertSize<T(!new)>(x: T, s: seq<T>, less: (T, T) -> bool)
    ensures |Insert(x, s, less)| == |s| + 1
  {
    if s == [] || less(x, s[0]) {
    } else {
      InsertSize(x, s[1..], less);
    }
  }

  /** Lists a finite set in ascending order, whichever order its elements come in. */
  method List<T(!new, ==)>(keys: set<T>, less: (T, T) -> bool) returns (r: seq<T>)
    requires StrictOrder(less)
    ensures Ascending(r, less) && Elements(r) == keys
    ensures r == Listing(keys, less)
  {
    r := [];
    var rest := keys;
    while rest != {}
      invariant rest <= keys
      invariant Ascending(r, less) && Elements(r) == keys - rest
      decreases rest
    {
      var x :| x in rest;
      assert x !in Elements(r);
      InsertKeepsOrder(x, r, less);
      r := Insert(x, r, less);
      rest := rest - {x};
    }
    ListingAscending(keys, less);
    AscendingUnique(r, Listing(keys, less), less);
  }
}
