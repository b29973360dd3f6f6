/**
 * Group keys and their order.
 *
 * Both aggregations of the dashboard group by a pair of text columns,
 * (weeknr_year, age_group) and (KW, BUNDESLAND). pandas sorts the groups by
 * key, comparing the pairs component-wise and the strings as Python does:
 * lexicographically by code point, a proper prefix coming first.
 */
module Keys {

  /** Python's `a < b` on `str`. */
  predicate StrLess(a: string, b: string)
    decreases |a|
  {
    if a == [] then b != []
    else b != [] && (a[0] < b[0] || (a[0] == b[0] && StrLess(a[1..], b[1..])))
  }

  lemma {:induction false} StrLessIrreflexive(a: string)
    ensures !StrLess(a, a)
    decreases |a|
  {
    if a != [] {
      StrLessIrreflexive(a[1..]);
    }
  }

  lemma {:induction false} StrLessTransitive(a: string, b: string, c: string)
    requires StrLess(a, b) && StrLess(b, c)
    ensures StrLess(a, c)
    decreases |a|
  {
    if a != [] && a[0] == b[0] && b[0] == c[0] {
      StrLessTransitive(a[1..], b[1..], c[1..]);
    }
  }

  lemma {:induction false} StrLessTotal(a: string, b: string)
    ensures a == b || StrLess(a, b) || StrLess(b, a)
    decreases |a|
  {
    if a != [] && b != [] && a[0] == b[0] {
      StrLessTotal(a[1..], b[1..]);
      if a[1..] == b[1..] {
        assert a == [a[0]] + a[1..] && b == [b[0]] + b[1..];
      }
    }
  }

  /** A group key: the two columns named in `groupby([...])`, in that order. */
  datatype Key = Key(first: string, second: string)

  /** The order of pandas' sorted group index: by `first`, then by `second`. */
  predicate KeyLess(k: Key, l: Key) {
    StrLess(k.first, l.first) || (k.first == l.first && StrLess(k.second, l.second))
  }

  lemma KeyLessIrreflexive(k: Key)
    ensures !KeyLess(k, k)
  {
    StrLessIrreflexive(k.first);
    StrLessIrreflexive(k.second);
  }

  lemma KeyLessTransitive(k: Key, l: Key, m: Key)
    requires KeyLess(k, l) && KeyLess(l, m)
    ensures KeyLess(k, m)
  {
    if StrLess(k.first, l.first) && StrLess(l.first, m.first) {
      StrLessTransitive(k.first, l.first, m.first);
    } else if k.first == l.first && l.first == m.first {
      StrLessTransitive(k.second, l.second, m.second);
    }
  }

  lemma KeyLessTotal(k: Key, l: Key)
    ensures k == l || KeyLess(k, l) || KeyLess(l, k)
  {
    StrLessTotal(k.first, l.first);
    StrLessTotal(k.second, l.second);
  }

  lemma KeyLessAsymmetric(k: Key, l: Key)
    requires KeyLess(k, l)
    ensures !KeyLess(l, k)
  {
    if KeyLess(l, k) {
      KeyLessTransitive(k, l, k);
      KeyLessIrreflexive(k);
    }
  }
}
