/**
 * `shuffle`: the Fisher-Yates shuffle of a copy of an array, one random
 * draw per position from the last down to the second; and the account list
 * offered at the moyen level, built from the correct account and the decoy
 * accounts.
 */
module Shuffling {
  import opened Scenarios

  /** The sequence with the elements at `i` and `j` exchanged. */
  function Swap<T>(s: seq<T>, i: nat, j: nat): (r: seq<T>)
    requires i < |s| && j < |s|
    ensures |r| == |s| && r[i] == s[j] && r[j] == s[i]
    ensures forall k :: 0 <= k < |s| && k != i && k != j ==> r[k] == s[k]
  {
    s[i := s[j]][j := s[i]]
  }

  lemma SwapPermutes<T>(s: seq<T>, i: nat, j: nat)
    requires i < |s| && j < |s|
    ensures multiset(Swap(s, i, j)) == multiset(s)
  {
    var t := s[i := s[j]];
    assert multiset(t) == multiset(s) - multiset{s[i]} + multiset{s[j]};
    assert multiset(t[j := s[i]]) == multiset(t) - multiset{t[j]} + multiset{s[i]};
  }

  /** The steps of the shuffle from position `i` down to position 1: step
      `i` exchanges position `i` with a position drawn below or at it. */
  function ShuffleFrom<T>(s: seq<T>, draws: seq<real>, i: nat): seq<T>
    requires |draws| == |s| && i < |s|
    requires forall k :: 0 <= k < |draws| ==> Unit(draws[k])
    decreases i
  {
    if i == 0 then s
    else ShuffleFrom(Swap(s, i, Draw(draws[i], i + 1)), draws, i - 1)
  }

  /** `shuffle(arr)` with `draws[i]` the draw made at position `i`. */
  function FisherYates<T>(s: seq<T>, draws: seq<real>): seq<T>
    requires |draws| == |s|
    requires forall k :: 0 <= k < |draws| ==> Unit(draws[k])
  {
    if s == [] then s else ShuffleFrom(s, draws, |s| - 1)
  }

  lemma {:induction false} ShuffleFromPermutes<T>(s: seq<T>, draws: seq<real>, i: nat)
    requires |draws| == |s| && i < |s|
    requires forall k :: 0 <= k < |draws| ==> Unit(draws[k])
    ensures |ShuffleFrom(s, draws, i)| == |s|
    ensures multiset(ShuffleFrom(s, draws, i)) == multiset(s)
    decreases i
  {
    if i > 0 {
      var j := Draw(draws[i], i + 1);
      SwapPermutes(s, i, j);
      ShuffleFromPermutes(Swap(s, i, j), draws, i - 1);
    }
  }

  /** The shuffle rearranges: same length, same elements, same number of
      times each. */
  lemma FisherYatesPermutes<T>(s: seq<T>, draws: seq<real>)
    requires |draws| == |s|
    requires forall k :: 0 <= k < |draws| ==> Unit(draws[k])
    ensures |FisherYates(s, draws)| == |s|
    ensures multiset(FisherYates(s, draws)) == multiset(s)
  {
    if s != [] {
      ShuffleFromPermutes(s, draws, |s| - 1);
    }
  }

  /** One step of the shuffle, unfolded. */
  lemma ShuffleFromStep<T>(s: seq<T>, draws: seq<real>, i: nat)
    requires |draws| == |s| && 0 < i < |s|
    requires forall k :: 0 <= k < |draws| ==> Unit(draws[k])
    ensures ShuffleFrom(s, draws, i) == ShuffleFrom(Swap(s, i, Draw(draws[i], i + 1)), draws, i - 1)
  {
  }

  /** `[...arr]`: a fresh array holding the sequence. */
  method Copy<T>(arr: seq<T>) returns (a: array<T>)
    ensures fresh(a) && a[..] == arr
  {
    a := new T[|arr|](k requires 0 <= k < |arr| => arr[k]);
  }

  /** `shuffle`: copies the input into a fresh array and runs the swaps on
      it, from the last position down to the second. */
  method Shuffle<T>(arr: seq<T>, draws: seq<real>) returns (a: array<T>)
    requires |draws| == |arr|
    requires forall k :: 0 <= k < |draws| ==> Unit(draws[k])
    ensures fresh(a)
    ensures a[..] == FisherYates(arr, draws)
  {
    a := Copy(arr);
    if |arr| > 0 {
      var i := |arr| - 1;
      while i > 0
        invariant 0 <= i < |arr| == a.Length
        invariant ShuffleFrom(a[..], draws, i) == FisherYates(arr, draws)
        decreases i
      {
        var j := Draw(draws[i], i + 1);
        ghost var before := a[..];
        a[i], a[j] := a[j], a[i];
        assert a[..] == Swap(before, i, j);
        ShuffleFromStep(before, draws, i);
        i := i - 1;
      }
    }
  }

  /** The decoy accounts offered next to the correct one. */
  const Distractors: seq<string> :=
    ["4081", "4181", "44586", "44587", "4098", "4198", "512", "401",
     "606", "607", "706", "707", "487", "486", "6xxx", "7xxx"]

  /** The position of the first occurrence of `x` in `s`. */
  function FirstIndex(s: seq<string>, x: string): (k: nat)
    requires x in s
    ensures k < |s| && s[k] == x
    ensures forall i :: 0 <= i < k ==> s[i] != x
  {
    if s[0] == x then 0 else 1 + FirstIndex(s[1..], x)
  }

  /** Cutting off the tail does not move a first occurrence before the cut. */
  lemma FirstIndexPrefix(s: seq<string>, n: nat)
    requires n <= |s|
    ensures forall x :: x in s[..n] ==> FirstIndex(s, x) == FirstIndex(s[..n], x) < n
  {
    forall x | x in s[..n]
      ensures FirstIndex(s, x) == FirstIndex(s[..n], x)
    {
      var k := FirstIndex(s[..n], x);
      assert s[k] == x;
    }
  }

  /** An element that only occurs at the end occurs first there. */
  lemma FirstIndexLast(s: seq<string>)
    requires s != [] && s[|s| - 1] !in s[..|s| - 1]
    ensures FirstIndex(s, s[|s| - 1]) == |s| - 1
  {
    assert forall i :: 0 <= i < |s| - 1 ==> s[..|s| - 1][i] == s[i];
  }

  /** `[...new Set(xs)]`: every element once, in the order of its first
      occurrence. */
  function Dedup(s: seq<string>): (r: seq<string>)
    ensures forall x :: x in r <==> x in s
    ensures forall i, j :: 0 <= i < j < |r| ==> r[i] != r[j]
    ensures |r| <= |s|
    ensures forall i, j :: 0 <= i < j < |r| ==> FirstIndex(s, r[i]) < FirstIndex(s, r[j])
  {
    if s == [] then []
    else
      var n := |s| - 1;
      var init := Dedup(s[..n]);
      var last := s[n];
      assert forall x :: x in s <==> x in s[..n] || x == last by {
        assert s == s[..n] + [last];
      }
      FirstIndexPrefix(s, n);
      if last in init then init
      else
        FirstIndexLast(s);
        init + [last]
  }

  /** The accounts offered at moyen as written:
      `[...new Set(shuffle([account, ...distractors]).slice(0, 8))]`. */
  function AccountChoicesAsWritten(account: string, draws: seq<real>): seq<string>
    requires |draws| == 1 + |Distractors|
    requires forall k :: 0 <= k < |draws| ==> Unit(draws[k])
  {
    var shuffled := FisherYates([account] + Distractors, draws);
    FisherYatesPermutes([account] + Distractors, draws);
    Dedup(shuffled[..8])
  }

  /** Draws of 0.99 leave every position in place. */
  lemma {:induction false} IdentitySteps<T>(s: seq<T>, draws: seq<real>, i: nat)
    requires |draws| == |s| && i < |s| && |s| <= 100
    requires forall k :: 0 <= k < |draws| ==> Unit(draws[k])
    requires forall k :: 1 <= k <= i ==> draws[k] == 0.99
    ensures ShuffleFrom(s, draws, i) == s
    decreases i
  {
    if i > 0 {
      assert Draw(draws[i], i + 1) == i by {
        assert (i + 1) as real * 0.99 >= i as real;
      }
      assert Swap(s, i, i) == s;
      IdentitySteps(s, draws, i - 1);
    }
  }

  /** The draws of the counterexample: 0.0 at position 16, the first draw
      the shuffle makes, which brings the correct account from the front to
      the back, and 0.99 at the fifteen positions drawn after it, which
      moves nothing. */
  function MissingDraws(): seq<real> {
    seq(17, k => if k == 16 then 0.0 else 0.99)
  }

  /** With the correct account 486 (the CCA line) and these draws, the
      eight offered accounts are 7xxx, 4081, 4181, 44586, 44587, 4098, 4198
      and 512: the answer cannot be chosen. */
  lemma AccountMayBeMissing()
    ensures "486" !in AccountChoicesAsWritten("486", MissingDraws())
  {
    var s := ["486"] + Distractors;
    var d := MissingDraws();
    assert Draw(d[16], 17) == 0;
    var swapped := Swap(s, 16, 0);
    assert FisherYates(s, d) == ShuffleFrom(swapped, d, 15);
    IdentitySteps(swapped, d, 15);
    FrontDecoys();
    forall k | 0 <= k < 8 ensures swapped[k] != "486" {
      if k == 0 {
        assert swapped[0] == s[16] == Distractors[15];
      } else {
        assert swapped[k] == s[k] == Distractors[k - 1];
      }
    }
    assert "486" !in swapped[..8];
  }

  /** 486 is neither among the first seven decoys nor the last one. */
  lemma FrontDecoys()
    ensures forall k :: 0 <= k < 7 ==> Distractors[k] != "486"
    ensures Distractors[15] != "486"
  {
    assert Distractors[..7] == ["4081", "4181", "44586", "44587", "4098", "4198", "512"];
  }

  /** Keeps the elements other than `x`, in order. */
  function Without(s: seq<string>, x: string): (r: seq<string>)
    ensures forall y :: y in r <==> y in s && y != x
    ensures multiset(r) <= multiset(s)
  {
    if s == [] then []
    else
      assert s == [s[0]] + s[1..];
      (if s[0] == x then [] else [s[0]]) + Without(s[1..], x)
  }

  lemma DistractorsDistinct()
    ensures forall i, j :: 0 <= i < j < |Distractors| ==> Distractors[i] != Distractors[j]
  {
  }

  /** Without one account, at least fifteen distinct decoys remain. */
  lemma {:induction false} WithoutDistinct(s: seq<string>, x: string)
    requires forall i, j :: 0 <= i < j < |s| ==> s[i] != s[j]
    ensures forall i, j :: 0 <= i < j < |Without(s, x)| ==> Without(s, x)[i] != Without(s, x)[j]
    ensures |Without(s, x)| >= |s| - 1
  {
    if s != [] {
      WithoutDistinct(s[1..], x);
      var rest := Without(s[1..], x);
      assert s[0] !in s[1..];
      assert s[0] !in rest;
      if s[0] == x {
        assert x !in s[1..];
        NotInWithout(s[1..], x);
      }
    }
  }

  /** Removing an element that is not there changes nothing. */
  lemma {:induction false} NotInWithout(s: seq<string>, x: string)
    requires x !in s
    ensures Without(s, x) == s
  {
    if s != [] {
      assert s[0] != x;
      NotInWithout(s[1..], x);
      assert s == [s[0]] + s[1..];
    }
  }

  /** The accounts offered at moyen as evidently intended: the correct
      account and seven different decoys from `pool` (the decoy list,
      `Distractors`), shuffled. `pickDraws` shuffles the decoys other than
      the correct account, `orderDraws` the eight offered accounts. */
  function AccountChoices(account: string, pool: seq<string>, pickDraws: seq<real>, orderDraws: seq<real>): (r: seq<string>)
    requires |pool| >= 8 && forall i, j :: 0 <= i < j < |pool| ==> pool[i] != pool[j]
    requires |pickDraws| == |Without(pool, account)| && |orderDraws| == 8
    requires forall k :: 0 <= k < |pickDraws| ==> Unit(pickDraws[k])
    requires forall k :: 0 <= k < |orderDraws| ==> Unit(orderDraws[k])
    ensures |r| == 8 && account in r
    ensures forall x :: x in r ==> x == account || x in pool
    ensures forall i, j :: 0 <= i < j < |r| ==> r[i] != r[j]
  {
    var offered := Offered(account, pool, pickDraws);
    OfferedShuffled(account, pool, offered, orderDraws);
    FisherYates(offered, orderDraws)
  }

  /** The correct account followed by the first seven decoys of the
      shuffled pool, the correct account taken out. */
  function Offered(account: string, pool: seq<string>, pickDraws: seq<real>): (offered: seq<string>)
    requires |pool| >= 8 && forall i, j :: 0 <= i < j < |pool| ==> pool[i] != pool[j]
    requires |pickDraws| == |Without(pool, account)|
    requires forall k :: 0 <= k < |pickDraws| ==> Unit(pickDraws[k])
    ensures |offered| == 8 && offered[0] == account
    ensures forall x :: x in offered ==> x == account || x in pool
    ensures forall i, j :: 0 <= i < j < |offered| ==> offered[i] != offered[j]
  {
    var others := Without(pool, account);
    WithoutDistinct(pool, account);
    var decoys := FisherYates(others, pickDraws);
    FisherYatesPermutes(others, pickDraws);
    DistinctDecoys(others, decoys, account);
    [account] + decoys[..7]
  }

  /** Shuffling the offered accounts keeps the correct one, adds none and
      repeats none. */
  lemma OfferedShuffled(account: string, pool: seq<string>, offered: seq<string>, orderDraws: seq<real>)
    requires |offered| == |orderDraws| == 8 && offered[0] == account
    requires forall k :: 0 <= k < |orderDraws| ==> Unit(orderDraws[k])
    requires forall x :: x in offered ==> x == account || x in pool
    requires forall i, j :: 0 <= i < j < |offered| ==> offered[i] != offered[j]
    ensures var r := FisherYates(offered, orderDraws);
      && |r| == 8 && account in r
      && (forall x :: x in r ==> x == account || x in pool)
      && (forall i, j :: 0 <= i < j < |r| ==> r[i] != r[j])
  {
    var r := FisherYates(offered, orderDraws);
    FisherYatesPermutes(offered, orderDraws);
    PermutedDistinct(offered, r);
    assert account in multiset(offered);
    forall x | x in r ensures x == account || x in pool {
      assert x in multiset(r);
    }
  }

  /** The first seven shuffled decoys and the correct account are all
      different. */
  lemma DistinctDecoys(others: seq<string>, decoys: seq<string>, account: string)
    requires |decoys| == |others| >= 7 && multiset(decoys) == multiset(others)
    requires forall i, j :: 0 <= i < j < |others| ==> others[i] != others[j]
    requires account !in others
    ensures forall i, j :: 0 <= i < j < 8 ==> ([account] + decoys[..7])[i] != ([account] + decoys[..7])[j]
    ensures forall x :: x in [account] + decoys[..7] ==> x == account || x in others
  {
    PermutedDistinct(others, decoys);
    forall x | x in decoys ensures x in others {
      assert x in multiset(decoys);
    }
  }

  /** A rearrangement of a sequence without repeats has none either. */
  lemma PermutedDistinct(s: seq<string>, t: seq<string>)
    requires multiset(s) == multiset(t)
    requires forall i, j :: 0 <= i < j < |s| ==> s[i] != s[j]
    ensures forall i, j :: 0 <= i < j < |t| ==> t[i] != t[j]
  {
    forall x ensures multiset(s)[x] <= 1 {
      DistinctCount(s, x);
    }
    forall i, j | 0 <= i < j < |t| ensures t[i] != t[j] {
      if t[i] == t[j] {
        TwiceCounted(t, i, j);
        assert false;
      }
    }
  }

  lemma {:induction false} DistinctCount(s: seq<string>, x: string)
    requires forall i, j :: 0 <= i < j < |s| ==> s[i] != s[j]
    ensures multiset(s)[x] <= 1
  {
    if s != [] {
      assert s == [s[0]] + s[1..];
      DistinctCount(s[1..], x);
      if s[0] == x {
        assert x !in s[1..];
      }
    }
  }

  lemma TwiceCounted(t: seq<string>, i: nat, j: nat)
    requires i < j < |t| && t[i] == t[j]
    ensures multiset(t)[t[i]] >= 2
  {
    assert t == t[..i] + [t[i]] + t[i + 1..j] + [t[j]] + t[j + 1..];
  }
}
