/** Lists and the multisets of their elements. */
module Lists {

  lemma MultisetOfSum<T>(a: seq<T>, b: seq<T>)
    ensures multiset(a + b) == multiset(a) + multiset(b)
  {
  }

  lemma FrontAndLast<T>(s: seq<T>)
    requires s != []
    ensures s == s[..|s| - 1] + [s[|s| - 1]]
  {
  }

  lemma NothingBefore<T>(s: seq<T>)
    ensures [] + s == s
  {
  }

  lemma LastOfMore<T>(s: seq<T>, last: T)
    ensures (s + [last])[|s + [last]| - 1] == last
  {
  }

  lemma SumOfThree<T>(a: seq<T>, b: seq<T>, c: seq<T>)
    ensures a + (b + c) == (a + b) + c
  {
  }

  lemma HeadAndTail<T>(s: seq<T>)
    requires s != []
    ensures s == [s[0]] + s[1..]
  {
  }

  lemma Around<T>(s: seq<T>, k: nat)
    requires k < |s|
    ensures s[..k] + [s[k]] + s[k + 1..] == s
  {
  }

  lemma OneMoreTaken<T>(s: seq<T>, n: nat)
    requires n < |s|
    ensures s[..n + 1] == s[..n] + [s[n]]
  {
  }

  lemma AllTaken<T>(s: seq<T>)
    ensures s[..|s|] == s
  {
  }

  lemma WithoutOne<T>(s: seq<T>, i: nat)
    requires i < |s|
    ensures multiset(s[..i] + s[i + 1..]) == multiset(s) - multiset{s[i]}
  {
    assert s == s[..i] + [s[i]] + s[i + 1..];
  }

  /**
   Two lists with the same elements: the head of one is somewhere in the other, and the rests have the same elements.
   */
  lemma HeadElsewhere<T>(s: seq<T>, other: seq<T>) returns (k: nat)
    requires multiset(s) == multiset(other) && s != []
    ensures k < |other| && other[k] == s[0]
    ensures multiset(s[1..]) == multiset(other[..k] + other[k + 1..])
  {
    assert s[0] in multiset(other);
    k :| 0 <= k < |other| && other[k] == s[0];
    assert s[1..] == s[..0] + s[1..];
    WithoutOne(s, 0);
    WithoutOne(other, k);
  }

  lemma SameLength<T>(s: seq<T>, other: seq<T>)
    requires multiset(s) == multiset(other)
    ensures |s| == |other|
  {
    assert |multiset(s)| == |s|;
  }
}
