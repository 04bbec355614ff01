/** Sequences of ids without repetition. */
module Sequences {
  ghost predicate NoDup(s: seq<nat>) {
    forall i, j :: 0 <= i < j < |s| ==> s[i] != s[j]
  }

  lemma NoDupInsert(a: seq<nat>, c: nat, b: seq<nat>)
    ensures NoDup(a + [c] + b) <==> NoDup(a + b) && c !in a + b
    ensures forall d: nat :: d in a + [c] + b <==> d == c || d in a + b
  {
    var s, t, n := a + [c] + b, a + b, |a|;
    assert forall k :: 0 <= k < |s| ==> s[k] == if k < n then t[k] else if k == n then c else t[k - 1];
    assert forall k :: 0 <= k < |t| ==> t[k] == s[if k < n then k else k + 1];
    assert s[n] == c;
    if NoDup(s) {
      forall i, j | 0 <= i < j < |t| ensures t[i] != t[j] {
        assert s[if i < n then i else i + 1] != s[if j < n then j else j + 1];
      }
      forall k | 0 <= k < |t| ensures t[k] != c {
        assert s[if k < n then k else k + 1] != s[n];
      }
    }
    if NoDup(t) && c !in t {
      forall i, j | 0 <= i < j < |s| ensures s[i] != s[j] {
        assert i != n ==> s[i] == t[if i < n then i else i - 1];
        assert j != n ==> s[j] == t[if j < n then j else j - 1];
      }
    }
  }

  lemma {:induction false} NoDupCount(s: seq<nat>, c: nat)
    requires NoDup(s)
    ensures multiset(s)[c] <= 1
  {
    if s != [] {
      assert s == [s[0]] + s[1..];
      NoDupCount(s[1..], c);
      assert c == s[0] ==> c !in s[1..];
    }
  }
}
