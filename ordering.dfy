/**
  Listing order. A Django `Meta.ordering` becomes an ORDER BY over string
  columns; the model compares strings by code point, character by character,
  and keys of two columns lexicographically.
 */
module Ordering {

  /** `a` sorts no later than `b` under code-point lexicographic order. */
  predicate LexLe(a: string, b: string)
  {
    a == [] || (b != [] && (a[0] < b[0] || (a[0] == b[0] && LexLe(a[1..], b[1..]))))
  }

  lemma {:induction false} LexLeAntisymmetric(a: string, b: string)
    requires LexLe(a, b) && LexLe(b, a)
    ensures a == b
  {
    if a != [] && b != [] {
      LexLeAntisymmetric(a[1..], b[1..]);
      assert a == [a[0]] + a[1..] && b == [b[0]] + b[1..];
    }
  }

  lemma {:induction false} LexLeTransitive(a: string, b: string, c: string)
    requires LexLe(a, b) && LexLe(b, c)
    ensures LexLe(a, c)
  {
    if a != [] && a[0] == b[0] && b[0] == c[0] {
      LexLeTransitive(a[1..], b[1..], c[1..]);
    }
  }

  lemma {:induction false} LexLeTotal(a: string, b: string)
    ensures LexLe(a, b) || LexLe(b, a)
  {
    if a != [] && b != [] && a[0] == b[0] {
      LexLeTotal(a[1..], b[1..]);
    }
  }

  /** Two-column key order: the first column decides unless it ties. */
  predicate KeyLe(x: (string, string), y: (string, string))
  {
    if x.0 == y.0 then LexLe(x.1, y.1) else LexLe(x.0, y.0)
  }

  lemma KeyLeTotal(x: (string, string), y: (string, string))
    ensures KeyLe(x, y) || KeyLe(y, x)
  {
    LexLeTotal(x.0, y.0);
    LexLeTotal(x.1, y.1);
  }

  lemma KeyLeTransitive(x: (string, string), y: (string, string), z: (string, string))
    requires KeyLe(x, y) && KeyLe(y, z)
    ensures KeyLe(x, z)
  {
    if x.0 == y.0 && y.0 == z.0 {
      LexLeTransitive(x.1, y.1, z.1);
    } else if x.0 == y.0 || y.0 == z.0 {
    } else {
      LexLeTransitive(x.0, y.0, z.0);
      if x.0 == z.0 {
        LexLeAntisymmetric(x.0, y.0);
      }
    }
  }

  lemma KeyLeAntisymmetric(x: (string, string), y: (string, string))
    requires KeyLe(x, y) && KeyLe(y, x)
    ensures x == y
  {
    if x.0 == y.0 {
      LexLeAntisymmetric(x.1, y.1);
    } else {
      LexLeAntisymmetric(x.0, y.0);
    }
  }

  ghost predicate SortedBy<T>(s: seq<T>, key: T -> (string, string))
  {
    forall i, j :: 0 <= i < j < |s| ==> KeyLe(key(s[i]), key(s[j]))
  }

  /** Places `x` into an already ordered listing. */
  function InsertBy<T>(x: T, s: seq<T>, key: T -> (string, string)): (r: seq<T>)
    requires SortedBy(s, key)
    ensures SortedBy(r, key)
    ensures multiset(r) == multiset(s) + multiset{x}
  {
    if s == [] then [x]
    else if KeyLe(key(x), key(s[0])) then
      assert forall j :: 0 < j < |s| ==> KeyLe(key(s[0]), key(s[j]));
      assert forall j :: 0 < j < |s| ==> KeyLe(key(x), key(s[j])) by {
        forall j | 0 < j < |s| ensures KeyLe(key(x), key(s[j])) {
          KeyLeTransitive(key(x), key(s[0]), key(s[j]));
        }
      }
      [x] + s
    else
      var rest := InsertBy(x, s[1..], key);
      assert s == [s[0]] + s[1..];
      KeyLeTotal(key(x), key(s[0]));
      assert forall y :: y in multiset(rest) ==> KeyLe(key(s[0]), key(y)) by {
        forall y | y in multiset(rest) ensures KeyLe(key(s[0]), key(y)) {
          if y != x {
            assert y in multiset(s[1..]);
            assert y in s[1..];
          }
        }
      }
      assert forall j :: 0 <= j < |rest| ==> KeyLe(key(s[0]), key(rest[j])) by {
        forall j | 0 <= j < |rest| ensures KeyLe(key(s[0]), key(rest[j])) {
          assert rest[j] in multiset(rest);
        }
      }
      [s[0]] + rest
  }

  /** The listing of `s` in key order: an ordered permutation of `s`. */
  function SortBy<T>(s: seq<T>, key: T -> (string, string)): (r: seq<T>)
    ensures SortedBy(r, key)
    ensures multiset(r) == multiset(s)
  {
    if s == [] then []
    else
      assert s == [s[0]] + s[1..];
      InsertBy(s[0], SortBy(s[1..], key), key)
  }
}
