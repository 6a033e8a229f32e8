// Option type, minimum and a few facts about sequences, sets and division that several modules share.
module Wrappers {

  datatype Option<+T> = None | Some(value: T)

  function Min(a: int, b: int): int { if a < b then a else b }

  /** The elements of a nested sequence, in order. */
  function Flatten<T>(ss: seq<seq<T>>): seq<T> {
    if ss == [] then [] else ss[0] + Flatten(ss[1..])
  }

  lemma Assoc<T>(a: seq<T>, b: seq<T>, c: seq<T>)
    ensures a + b + c == a + (b + c)
  {}

  lemma {:induction false} FlattenAppend<T>(a: seq<seq<T>>, b: seq<seq<T>>)
    ensures Flatten(a + b) == Flatten(a) + Flatten(b)
  {
    if a == [] {
      assert a + b == b;
    } else {
      FlattenAppend(a[1..], b);
      assert (a + b)[1..] == a[1..] + b;
      Assoc(a[0], Flatten(a[1..]), Flatten(b));
    }
  }

  function Without<T>(q: seq<T>, i: nat): seq<T>
    requires i < |q|
  {
    q[..i] + q[i + 1..]
  }

  function Elements<T>(order: seq<T>): set<T> {
    set k | k in order
  }

  lemma DivisionIs(n: int, d: int, q: int, r: int)
    requires d > 0 && 0 <= r < d && q * d + r == n
    ensures q == n / d && r == n % d
  {
    var q', r' := n / d, n % d;
    assert (q - q') * d == r' - r;
    assert (q' - q) * d == r - r';
    if q > q' {
      TimesAtLeast(q - q', d);
    } else if q < q' {
      TimesAtLeast(q' - q, d);
    }
  }

  lemma TimesAtLeast(a: int, d: int)
    requires a >= 1 && d > 0
    ensures a * d >= d
  {}

  /** `order` lists every element of `s` exactly once: the shape of a Go `range` over a map. */
  ghost predicate Enumerates<T(!new)>(order: seq<T>, s: set<T>) {
    && (forall x :: x in order <==> x in s)
    && (forall i, j :: 0 <= i < j < |order| ==> order[i] != order[j])
  }

  lemma {:induction false} EnumerationSize<T(!new)>(order: seq<T>, s: set<T>)
    requires Enumerates(order, s)
    ensures |order| == |s|
  {
    if order != [] {
      assert order[0] in s;
      var rest := s - {order[0]};
      forall x ensures x in order[1..] <==> x in rest {
        if x in rest { assert x in order; }
      }
      EnumerationSize(order[1..], rest);
    } else {
      assert forall x :: x in s ==> x in order;
      assert s == {};
    }
  }

  lemma EnumerationGrows<T(!new)>(order: seq<T>, s: set<T>, x: T)
    requires Enumerates(order, s) && x !in s
    ensures Enumerates(order + [x], s + {x})
  {
    var longer := order + [x];
    assert forall i :: 0 <= i < |order| ==> longer[i] == order[i] && order[i] in order;
    forall y ensures y in longer <==> y in s + {x} {
      assert y in longer <==> y in order || y == x;
    }
  }

  /** One round of a `range` loop: `todo` are the elements not visited yet. */
  lemma EnumeratesNext<T(!new)>(order: seq<T>, all: set<T>, todo: set<T>, x: T)
    requires Enumerates(order, all - todo) && x in todo && todo <= all
    ensures Enumerates(order + [x], all - (todo - {x}))
  {
    EnumerationGrows(order, all - todo, x);
    assert all - (todo - {x}) == all - todo + {x};
  }

  /** The same when only the elements of `chosen` are listed. */
  lemma EnumeratesChosen<T(!new)>(order: seq<T>, chosen: set<T>, seen: set<T>, x: T)
    requires Enumerates(order, chosen * seen) && x !in seen
    ensures Enumerates(if x in chosen then order + [x] else order, chosen * (seen + {x}))
  {
    if x in chosen {
      EnumerationGrows(order, chosen * seen, x);
      assert chosen * (seen + {x}) == chosen * seen + {x};
    } else {
      assert chosen * (seen + {x}) == chosen * seen;
    }
  }

  /** As many values as keys, and exactly the values of these keys. */
  ghost predicate AllValues<V(!new)>(m: map<string, V>, keys: set<string>, result: seq<V>)
    requires keys <= m.Keys
  {
    |result| == |keys| && forall v :: v in result <==> exists k :: k in keys && m[k] == v
  }

  /** The values of a map, listed along an enumeration of some of its keys. */
  lemma ListedValues<V(!new)>(m: map<string, V>, keys: set<string>, order: seq<string>, result: seq<V>)
    requires keys <= m.Keys && Enumerates(order, keys)
    requires |result| == |order| && forall i :: 0 <= i < |order| ==> order[i] in m && result[i] == m[order[i]]
    ensures AllValues(m, keys, result)
  {
    EnumerationSize(order, keys);
    forall k | k in keys ensures m[k] in result {
      assert k in order;
      var i :| 0 <= i < |order| && order[i] == k;
      assert result[i] == m[k];
    }
    forall v | v in result ensures exists k :: k in keys && m[k] == v {
      var i :| 0 <= i < |result| && result[i] == v;
      assert order[i] in order;
    }
  }

  /** Some key of a map being ranged over; Go leaves the order open. */
  method Pick<T>(s: set<T>) returns (x: T)
    requires s != {}
    ensures x in s
  {
    x :| x in s;
  }
}
