/** "Newest first": the `.sort({ createdAt: -1 })` that the server's list queries apply. */
module Recency {

  /** Every element's key is at least that of every later element. */
  ghost predicate NewestFirst<T>(s: seq<T>, key: T -> nat)
  {
    forall i, j :: 0 <= i < j < |s| ==> key(s[i]) >= key(s[j])
  }

  /** Inserts `x` in front of the first element whose key is less than its own, so that
      `x` goes after every element with an equal key. */
  function Insert<T>(x: T, s: seq<T>, key: T -> nat): (r: seq<T>)
    ensures multiset(r) == multiset(s) + multiset{x}
  {
    if s == [] then [x]
    else if key(x) > key(s[0]) then [x] + s
    else
      assert s == [s[0]] + s[1..];
      [s[0]] + Insert(x, s[1..], key)
  }

  /** A sequence stays newest first when an element at least as new as its head goes in front. */
  lemma PrependKeepsNewestFirst<T>(y: T, t: seq<T>, key: T -> nat)
    requires NewestFirst(t, key)
    requires t != [] ==> key(y) >= key(t[0])
    ensures NewestFirst([y] + t, key)
  {
  }

  /** Inserting into a newest-first sequence keeps it newest first; the new head is
      `x` or the old head. */
  lemma {:induction false} InsertKeepsNewestFirst<T>(x: T, s: seq<T>, key: T -> nat)
    requires NewestFirst(s, key)
    ensures NewestFirst(Insert(x, s, key), key)
    ensures Insert(x, s, key)[0] == x || (s != [] && Insert(x, s, key)[0] == s[0])
  {
    if s == [] {
    } else if key(x) > key(s[0]) {
      PrependKeepsNewestFirst(x, s, key);
    } else {
      assert NewestFirst(s[1..], key) by {
        forall i, j | 0 <= i < j < |s[1..]|
          ensures key(s[1..][i]) >= key(s[1..][j])
        {
          assert s[1..][i] == s[i + 1] && s[1..][j] == s[j + 1];
        }
      }
      InsertKeepsNewestFirst(x, s[1..], key);
      PrependKeepsNewestFirst(s[0], Insert(x, s[1..], key), key);
    }
  }

  /** The documents of `s`, newest first. Among equal keys the document stored later
      comes first: each earlier document is inserted after the ones with its key. */
  function SortNewestFirst<T>(s: seq<T>, key: T -> nat): (r: seq<T>)
    ensures NewestFirst(r, key)
    ensures multiset(r) == multiset(s)
  {
    if s == [] then []
    else
      assert s == [s[0]] + s[1..];
      var t := SortNewestFirst(s[1..], key);
      InsertKeepsNewestFirst(s[0], t, key);
      Insert(s[0], t, key)
  }

  /** The tie rule: of two documents with the same key, the one stored later is listed first. */
  lemma SortPutsLaterFirstOnTies<T>(a: T, b: T, key: T -> nat)
    requires key(a) == key(b)
    ensures SortNewestFirst([a, b], key) == [b, a]
  {
    assert [a, b][1..] == [b];
    assert [b][1..] == [];
  }
}
