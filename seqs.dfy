/**
 * Sequences standing for the singly linked client lists (`next` and `snext`
 * chains): no repeated element, removal of one element, reversal.
 */
module Seqs {

  /** Handles of clients and monitors in the arenas. */
  type Id = nat

  /** No element occurs twice (a linked list without a cycle or a shared node). */
  ghost predicate NoDup(s: seq<Id>)
  {
    forall i, j | 0 <= i < j < |s| :: s[i] != s[j]
  }

  /** `s` with every occurrence of `x` unlinked, the others in their order. */
  function Without(s: seq<Id>, x: Id): (r: seq<Id>)
    ensures forall y :: y in r <==> y in s && y != x
    ensures |r| <= |s|
    ensures x in s ==> |r| < |s|
  {
    if s == [] then []
    else if s[0] == x then Without(s[1..], x)
    else [s[0]] + Without(s[1..], x)
  }

  /** The list read backwards. */
  function Reverse(s: seq<Id>): (r: seq<Id>)
    ensures |r| == |s|
    ensures forall y :: y in r <==> y in s
  {
    if s == [] then [] else Reverse(s[1..]) + [s[0]]
  }

  lemma {:induction false} WithoutNoDup(s: seq<Id>, x: Id)
    requires NoDup(s)
    ensures NoDup(Without(s, x))
  {
    if s != [] {
      assert NoDup(s[1..]) by {
        forall i, j | 0 <= i < j < |s[1..]| ensures s[1..][i] != s[1..][j] {
          assert s[1..][i] == s[i + 1] && s[1..][j] == s[j + 1];
        }
      }
      WithoutNoDup(s[1..], x);
      if s[0] != x {
        var r := Without(s[1..], x);
        assert s[0] !in s[1..] by {
          forall k | 0 <= k < |s[1..]| ensures s[1..][k] != s[0] {
            assert s[1..][k] == s[k + 1];
          }
        }
        assert s[0] !in r;
        forall i, j | 0 <= i < j < |[s[0]] + r| ensures ([s[0]] + r)[i] != ([s[0]] + r)[j] {
          if i == 0 {
            assert ([s[0]] + r)[j] == r[j - 1];
          } else {
            assert ([s[0]] + r)[i] == r[i - 1] && ([s[0]] + r)[j] == r[j - 1];
          }
        }
      }
    }
  }

  /** Removing a value that is absent changes nothing. */
  lemma {:induction false} WithoutAbsent(s: seq<Id>, x: Id)
    requires x !in s
    ensures Without(s, x) == s
  {
    if s != [] {
      assert x !in s[1..];
      WithoutAbsent(s[1..], x);
      assert [s[0]] + s[1..] == s;
    }
  }

  /**
   * Unlinking the node found at index k (what the pointer-to-pointer walk of
   * detach does) is removal of that value when the list has no repeats.
   */
  lemma {:induction false} WithoutAt(s: seq<Id>, k: nat)
    requires NoDup(s) && k < |s|
    ensures s[..k] + s[k + 1..] == Without(s, s[k])
  {
    if k == 0 {
      assert s[0] !in s[1..] by {
        forall j | 0 <= j < |s[1..]| ensures s[1..][j] != s[0] {
          assert s[1..][j] == s[j + 1];
        }
      }
      WithoutAbsent(s[1..], s[0]);
      assert s[..0] + s[1..] == s[1..];
    } else {
      assert NoDup(s[1..]) by {
        forall i, j | 0 <= i < j < |s[1..]| ensures s[1..][i] != s[1..][j] {
          assert s[1..][i] == s[i + 1] && s[1..][j] == s[j + 1];
        }
      }
      WithoutAt(s[1..], k - 1);
      assert s[1..][k - 1] == s[k];
      assert s[1..][..k - 1] + s[1..][k..] == Without(s[1..], s[k]);
      assert s[0] != s[k];
      calc {
        s[..k] + s[k + 1..];
        [s[0]] + (s[1..][..k - 1] + s[1..][k..]);
        [s[0]] + Without(s[1..], s[k]);
      }
    }
  }

  /** Dropping the last element keeps the rest distinct, and the last one is not among them. */
  lemma NoDupInit(s: seq<Id>)
    requires NoDup(s) && |s| > 0
    ensures NoDup(s[..|s| - 1]) && s[|s| - 1] !in s[..|s| - 1]
  {
    var n := |s| - 1;
    forall i, j | 0 <= i < j < n ensures s[..n][i] != s[..n][j] {
      assert s[..n][i] == s[i] && s[..n][j] == s[j];
    }
    forall k | 0 <= k < n ensures s[..n][k] != s[n] {
      assert s[..n][k] == s[k];
    }
  }

  /** Prepending a value that is absent keeps the list free of repeats. */
  lemma PrependNoDup(x: Id, s: seq<Id>)
    requires NoDup(s) && x !in s
    ensures NoDup([x] + s)
  {
    forall i, j | 0 <= i < j < |[x] + s| ensures ([x] + s)[i] != ([x] + s)[j] {
      assert ([x] + s)[j] == s[j - 1];
      if i > 0 { assert ([x] + s)[i] == s[i - 1]; }
    }
  }

  lemma AppendNoDup(s: seq<Id>, x: Id)
    requires NoDup(s) && x !in s
    ensures NoDup(s + [x])
  {
    forall i, j | 0 <= i < j < |s + [x]| ensures (s + [x])[i] != (s + [x])[j] {
      assert (s + [x])[i] == s[i];
      if j < |s| { assert (s + [x])[j] == s[j]; }
    }
  }

  /** The position of x in s: how far a pointer walk from the head goes to reach it. */
  function IndexIn(s: seq<Id>, x: Id): (k: nat)
    requires x in s
    ensures k < |s| && s[k] == x && x !in s[..k]
  {
    if s[0] == x then 0 else
      assert x in s[1..];
      var k := IndexIn(s[1..], x);
      assert s[..k + 1] == [s[0]] + s[1..][..k];
      k + 1
  }

  /** In a list without repeats the position of an element is the only one holding it. */
  lemma IndexInUnique(s: seq<Id>, k: nat)
    requires NoDup(s) && k < |s|
    ensures IndexIn(s, s[k]) == k
  {
  }

  /** Appending to a list puts the value at the front of its reversal. */
  lemma {:induction false} ReverseSnoc(s: seq<Id>, x: Id)
    ensures Reverse(s + [x]) == [x] + Reverse(s)
    decreases |s|
  {
    if s == [] {
      assert [x][1..] == [];
    } else {
      assert (s + [x])[1..] == s[1..] + [x];
      ReverseSnoc(s[1..], x);
    }
  }

  /** Updating one key twice keeps only the second value. */
  lemma UpdateTwice<K, V>(m: map<K, V>, k: K, a: V, b: V)
    ensures m[k := a][k := b] == m[k := b]
  {
  }

  /** With no repeats, a member of s lies in exactly one of s[..k] and s[k..]. */
  lemma SplitMembership(s: seq<Id>, k: nat, x: Id)
    requires NoDup(s) && k <= |s| && x in s
    ensures x in s[..k] <==> x !in s[k..]
  {
    var i := IndexIn(s, x);
    if i < k {
      assert s[..k][i] == x;
      forall j | 0 <= j < |s| - k ensures s[k..][j] != x {
        assert s[k + j] == s[k..][j];
      }
    } else {
      assert s[k..][i - k] == x;
    }
  }
}
