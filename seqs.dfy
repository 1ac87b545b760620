/** Sequence facts shared by the dashboards and the upload list. */
module Seqs {

  /** `a` is `b` with some elements dropped and the rest kept in order. */
  ghost predicate Subsequence<T>(a: seq<T>, b: seq<T>)
    decreases |b|
  {
    a == [] ||
    (b != [] && ((a[0] == b[0] && Subsequence(a[1..], b[1..])) || Subsequence(a, b[1..])))
  }

  /** The number of positions of `keys` that hold `k` (the `filter(...).length` idiom). */
  function Occurrences(keys: seq<string>, k: string): (n: nat)
    ensures n == multiset(keys)[k]
    ensures n <= |keys|
    ensures n == 0 <==> k !in keys
    ensures n == |keys| <==> forall j :: 0 <= j < |keys| ==> keys[j] == k
    decreases |keys|
  {
    if keys == [] then 0
    else
      assert keys == [keys[0]] + keys[1..];
      assert multiset(keys) == multiset{keys[0]} + multiset(keys[1..]);
      (if keys[0] == k then 1 else 0) + Occurrences(keys[1..], k)
  }

  /**
   * Counting three different keys never exceeds the length, and reaches it exactly
   * when every key is one of the three.
   */
  lemma {:induction false} OccurrencesOfThree(keys: seq<string>, a: string, b: string, c: string)
    requires a != b && b != c && a != c
    ensures Occurrences(keys, a) + Occurrences(keys, b) + Occurrences(keys, c) <= |keys|
    ensures Occurrences(keys, a) + Occurrences(keys, b) + Occurrences(keys, c) == |keys|
            <==> forall j :: 0 <= j < |keys| ==> keys[j] == a || keys[j] == b || keys[j] == c
    decreases |keys|
  {
    if keys != [] {
      OccurrencesOfThree(keys[1..], a, b, c);
      var allTail := forall j :: 0 <= j < |keys[1..]| ==> keys[1..][j] == a || keys[1..][j] == b || keys[1..][j] == c;
      var all := forall j :: 0 <= j < |keys| ==> keys[j] == a || keys[j] == b || keys[j] == c;
      assert all <==> (keys[0] == a || keys[0] == b || keys[0] == c) && allTail by {
        if all {
          forall j | 0 <= j < |keys[1..]| ensures keys[1..][j] == a || keys[1..][j] == b || keys[1..][j] == c {
            assert keys[1..][j] == keys[j + 1];
          }
        }
        if (keys[0] == a || keys[0] == b || keys[0] == c) && allTail {
          forall j | 0 <= j < |keys| ensures keys[j] == a || keys[j] == b || keys[j] == c {
            if j > 0 { assert keys[j] == keys[1..][j - 1]; }
          }
        }
      }
    }
  }

  /** The two-key case: counts of two different keys never exceed the length together. */
  lemma {:induction false} OccurrencesOfTwo(keys: seq<string>, a: string, b: string)
    requires a != b
    ensures Occurrences(keys, a) + Occurrences(keys, b) <= |keys|
    decreases |keys|
  {
    if keys != [] {
      OccurrencesOfTwo(keys[1..], a, b);
    }
  }

  /**
   * `s.filter((_, i) => i !== index)`: walks `s` with the position `at` of its head in the
   * original list and keeps every element whose position differs from `index`.
   */
  function DropPosition<T>(s: seq<T>, index: int, at: int): seq<T>
    decreases |s|
  {
    if s == [] then []
    else (if at == index then [] else [s[0]]) + DropPosition(s[1..], index, at + 1)
  }

  /** Removes exactly the element at `index` and keeps the rest in order. */
  lemma {:induction false} DropPositionInRange<T>(s: seq<T>, index: int, at: int)
    requires at <= index < at + |s|
    ensures DropPosition(s, index, at) == s[..index - at] + s[index - at + 1..]
    decreases |s|
  {
    if at == index {
      DropPositionOutOfRange(s[1..], index, at + 1);
      assert s[..0] + s[1..] == s[1..];
    } else {
      DropPositionInRange(s[1..], index, at + 1);
      var k := index - at;
      calc {
        DropPosition(s, index, at);
        [s[0]] + DropPosition(s[1..], index, at + 1);
        [s[0]] + (s[1..][..k - 1] + s[1..][k..]);
        { assert [s[0]] + s[1..][..k - 1] == s[..k]; assert s[1..][k..] == s[k + 1..]; }
        s[..k] + s[k + 1..];
      }
    }
  }

  /** An index outside the list removes nothing. */
  lemma {:induction false} DropPositionOutOfRange<T>(s: seq<T>, index: int, at: int)
    requires index < at || at + |s| <= index
    ensures DropPosition(s, index, at) == s
    decreases |s|
  {
    if s != [] {
      DropPositionOutOfRange(s[1..], index, at + 1);
      assert [s[0]] + s[1..] == s;
    }
  }
}
