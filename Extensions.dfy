// The in-place Fisher–Yates shuffle. The index the random source returns on
// each iteration is supplied instead: `draws[m]` is the value
// `random.Next(m + 1)` returned on the iteration that places index `m`, so it
// lies in 0..m.
module Extensions {

  /** The supplied draws are values `random.Next(m + 1)` could return for every index m below n. */
  predicate ValidDraws(draws: seq<nat>, n: nat) {
    n <= |draws| && forall m | 0 <= m < n :: draws[m] <= m
  }

  /** Exchanges the elements at indices i and j. */
  function Swap<T>(s: seq<T>, i: nat, j: nat): (r: seq<T>)
    requires i < |s| && j < |s|
    ensures |r| == |s|
    ensures r[i] == s[j] && r[j] == s[i]
    ensures forall k | 0 <= k < |s| && k != i && k != j :: r[k] == s[k]
    ensures multiset(r) == multiset(s)
  {
    s[i := s[j]][j := s[i]]
  }

  /**
   * The list after the shuffle loop has run down from counter value n:
   * each iteration decrements n and swaps index `draws[n]` with index n.
   */
  function ShuffleFrom<T>(s: seq<T>, draws: seq<nat>, n: nat): seq<T>
    requires n <= |s| && ValidDraws(draws, n)
    decreases n
  {
    if n <= 1 then s
    else ShuffleFrom(Swap(s, draws[n - 1], n - 1), draws, n - 1)
  }

  /** Running the loop from n only permutes the list. */
  lemma {:induction false} ShuffleFromPermutes<T>(s: seq<T>, draws: seq<nat>, n: nat)
    requires n <= |s| && ValidDraws(draws, n)
    ensures |ShuffleFrom(s, draws, n)| == |s|
    ensures multiset(ShuffleFrom(s, draws, n)) == multiset(s)
    decreases n
  {
    if n > 1 {
      ShuffleFromPermutes(Swap(s, draws[n - 1], n - 1), draws, n - 1);
    }
  }

  /** Indices at or above n have been placed already and are never written again. */
  lemma {:induction false} ShuffleFromKeepsPlaced<T>(s: seq<T>, draws: seq<nat>, n: nat)
    requires n <= |s| && ValidDraws(draws, n)
    ensures |ShuffleFrom(s, draws, n)| == |s|
    ensures forall i | n <= i < |s| :: ShuffleFrom(s, draws, n)[i] == s[i]
    decreases n
  {
    if n > 1 {
      var t := Swap(s, draws[n - 1], n - 1);
      ShuffleFromKeepsPlaced(t, draws, n - 1);
      assert forall i | n <= i < |s| :: t[i] == s[i];
    }
  }

  /** The whole shuffle of a list, given the draws for every index. */
  function Shuffled<T>(s: seq<T>, draws: seq<nat>): (r: seq<T>)
    requires ValidDraws(draws, |s|)
    ensures |r| == |s|
    ensures multiset(r) == multiset(s)
    ensures |s| <= 1 ==> r == s
  {
    ShuffleFromPermutes(s, draws, |s|);
    ShuffleFrom(s, draws, |s|)
  }

  /** One iteration's exchange of list[k] and list[n] through a temporary. */
  method Exchange<T>(list: array<T>, k: nat, n: nat)
    requires k < list.Length && n < list.Length
    modifies list
    ensures list[..] == Swap(old(list[..]), k, n)
  {
    var value := list[k];
    list[k] := list[n];
    list[n] := value;
  }

  /**
   * Shuffles the array in place. Each iteration swaps exactly indices k and n
   * with k <= n, while n decreases strictly to 1.
   */
  method Shuffle<T>(list: array<T>, draws: seq<nat>)
    requires ValidDraws(draws, list.Length)
    modifies list
    ensures list[..] == Shuffled(old(list[..]), draws)
  {
    ghost var original := list[..];
    var n := list.Length;
    while n > 1
      invariant 0 <= n <= list.Length
      invariant ShuffleFrom(list[..], draws, n) == ShuffleFrom(original, draws, list.Length)
    {
      n := n - 1;
      var k := draws[n];
      ShuffleStep(list[..], draws, n);
      Exchange(list, k, n);
    }
  }

  /** One more iteration of the loop: swap index `draws[n]` with index n, then go on from n. */
  lemma ShuffleStep<T>(s: seq<T>, draws: seq<nat>, n: nat)
    requires n < |s| && ValidDraws(draws, n + 1)
    ensures ShuffleFrom(s, draws, n + 1) == ShuffleFrom(Swap(s, draws[n], n), draws, n)
  {
  }
}
