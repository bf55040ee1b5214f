/**
 * The order in which the dialer lists calls: calls that are not part of a conference come
 * first, and among those with the same parent status a call whose state ranks higher in the
 * state-rank table comes first. UiCallManager, InCallViewModel and ActiveCallListLiveData each
 * declare the same rank table and the same comparator; this module states it once.
 *
 * Java's List.sort and Collections.sort are stable merge sorts; `SortBy` is a stable
 * insertion sort, which yields the same list for the same comparator.
 */
module CallOrder {
  import opened Telecom

  /** The call states from lowest to highest rank. */
  const StateRank: seq<int> := [
    STATE_DISCONNECTED,
    STATE_DISCONNECTING,
    STATE_NEW,
    STATE_CONNECTING,
    STATE_SELECT_PHONE_ACCOUNT,
    STATE_HOLDING,
    STATE_ACTIVE,
    STATE_DIALING,
    STATE_RINGING
  ]

  /** java.util.List.indexOf: the first position of `x`, or -1 when `x` is absent. */
  function IndexOf(s: seq<int>, x: int): (r: int)
    ensures -1 <= r < |s|
    ensures r == -1 <==> x !in s
    ensures r >= 0 ==> s[r] == x && x !in s[..r]
  {
    if |s| == 0 then -1
    else if s[0] == x then 0
    else
      var k := IndexOf(s[1..], x);
      assert s[1..][..if k < 0 then 0 else k] == s[1..if k < 0 then 1 else k + 1];
      if k == -1 then -1 else k + 1
  }

  /** The rank of a state; states missing from the table (such as PULLING_CALL) rank -1. */
  function Rank(state: int): int {
    IndexOf(StateRank, state)
  }

  /** What the comparators look at: whether the call has a parent, and its state. */
  datatype SortKey = SortKey(hasParent: bool, state: int)

  /** The key of a telecom call: whether `getParent()` is non-null, and `getState()`. */
  function CallKey(c: Call): SortKey {
    SortKey(c.parent.Some?, c.state)
  }

  /**
   * The comparator of the three classes: a negative result puts `a` before `b`.
   */
  function Compare(a: SortKey, b: SortKey): (c: int)
    ensures c < 0 <==> (!a.hasParent && b.hasParent)
                       || (a.hasParent == b.hasParent && Rank(a.state) > Rank(b.state))
    ensures c == 0 <==> a.hasParent == b.hasParent && Rank(a.state) == Rank(b.state)
  {
    if a.hasParent && !b.hasParent then 1
    else if !a.hasParent && b.hasParent then -1
    else Rank(b.state) - Rank(a.state)
  }

  /** `a` may come before `b` in a sorted list. */
  predicate Precedes(a: SortKey, b: SortKey) {
    Compare(a, b) <= 0
  }

  /** The comparator meets java.util.Comparator's contract: its sign flips with its arguments. */
  lemma CompareAntisymmetric(a: SortKey, b: SortKey)
    ensures Compare(a, b) < 0 <==> Compare(b, a) > 0
    ensures Compare(a, b) == 0 <==> Compare(b, a) == 0
  {
  }

  /** ... and it is transitive, so `Precedes` is a total preorder. */
  lemma PrecedesTransitive(a: SortKey, b: SortKey, c: SortKey)
    requires Precedes(a, b) && Precedes(b, c)
    ensures Precedes(a, c)
  {
  }

  /** The table read from RINGING, the highest rank, down to DISCONNECTED, the lowest. */
  lemma RankOrder()
    ensures Rank(STATE_RINGING) == 8 && Rank(STATE_DIALING) == 7 && Rank(STATE_ACTIVE) == 6
    ensures Rank(STATE_HOLDING) == 5 && Rank(STATE_SELECT_PHONE_ACCOUNT) == 4
    ensures Rank(STATE_CONNECTING) == 3 && Rank(STATE_NEW) == 2
    ensures Rank(STATE_DISCONNECTING) == 1 && Rank(STATE_DISCONNECTED) == 0
    ensures Rank(STATE_PULLING_CALL) == -1
  {
    RankRingingDialing();
    RankActiveHolding();
    RankSelectConnecting();
    RankNewDisconnecting();
    assert STATE_PULLING_CALL !in StateRank;
  }

  lemma RankRingingDialing()
    ensures Rank(STATE_RINGING) == 8 && Rank(STATE_DIALING) == 7
  {
    var s := StateRank;
    assert s[..8] == [7, 10, 0, 9, 8, 3, 4, 1];
    IndexOfAt(s, STATE_RINGING, 8);
    assert s[..7] == [7, 10, 0, 9, 8, 3, 4];
    IndexOfAt(s, STATE_DIALING, 7);
  }

  lemma RankActiveHolding()
    ensures Rank(STATE_ACTIVE) == 6 && Rank(STATE_HOLDING) == 5
  {
    var s := StateRank;
    assert s[..6] == [7, 10, 0, 9, 8, 3];
    IndexOfAt(s, STATE_ACTIVE, 6);
    assert s[..5] == [7, 10, 0, 9, 8];
    IndexOfAt(s, STATE_HOLDING, 5);
  }

  lemma RankSelectConnecting()
    ensures Rank(STATE_SELECT_PHONE_ACCOUNT) == 4 && Rank(STATE_CONNECTING) == 3
  {
    var s := StateRank;
    assert s[..4] == [7, 10, 0, 9];
    IndexOfAt(s, STATE_SELECT_PHONE_ACCOUNT, 4);
    assert s[..3] == [7, 10, 0];
    IndexOfAt(s, STATE_CONNECTING, 3);
  }

  lemma RankNewDisconnecting()
    ensures Rank(STATE_NEW) == 2 && Rank(STATE_DISCONNECTING) == 1 && Rank(STATE_DISCONNECTED) == 0
  {
    var s := StateRank;
    assert s[..2] == [7, 10];
    IndexOfAt(s, STATE_NEW, 2);
    assert s[..1] == [7];
    IndexOfAt(s, STATE_DISCONNECTING, 1);
    IndexOfAt(s, STATE_DISCONNECTED, 0);
  }

  lemma IndexOfAt(s: seq<int>, x: int, k: nat)
    requires k < |s| && s[k] == x && x !in s[..k]
    ensures IndexOf(s, x) == k
  {
  }

  /** `s` is in comparator order. */
  ghost predicate SortedBy<T>(s: seq<T>, key: T -> SortKey) {
    forall i, j :: 0 <= i < j < |s| ==> Precedes(key(s[i]), key(s[j]))
  }

  /**
   * Inserts `x` before the first element it may precede, so ahead of the elements that
   * compare equal to it; SortBy inserts from the last element to the first, which keeps
   * equals in their original order.
   */
  function Insert<T>(x: T, s: seq<T>, key: T -> SortKey): (r: seq<T>)
    requires SortedBy(s, key)
    ensures SortedBy(r, key)
    ensures multiset(r) == multiset(s) + multiset{x}
    ensures |r| == |s| + 1
  {
    if s == [] then [x]
    else if Precedes(key(x), key(s[0])) then
      forall j | 0 <= j < |s| ensures Precedes(key(x), key(s[j])) {
        if j > 0 { PrecedesTransitive(key(x), key(s[0]), key(s[j])); }
      }
      SortedCons(x, s, key);
      [x] + s
    else
      var t := Insert(x, s[1..], key);
      assert s == [s[0]] + s[1..];
      assert Precedes(key(s[0]), key(x));
      PrecedesAllOfPermutation(s[0], s[1..], x, t, key);
      SortedCons(s[0], t, key);
      [s[0]] + t
  }

  /** A sorted list stays sorted under an element that may precede all of it. */
  lemma SortedCons<T>(y: T, t: seq<T>, key: T -> SortKey)
    requires SortedBy(t, key)
    requires forall j :: 0 <= j < |t| ==> Precedes(key(y), key(t[j]))
    ensures SortedBy([y] + t, key)
  {
    var s := [y] + t;
    forall i, j | 0 <= i < j < |s| ensures Precedes(key(s[i]), key(s[j])) {
      assert s[j] == t[j - 1];
      if i == 0 {
        assert Precedes(key(y), key(t[j - 1]));
      } else {
        assert s[i] == t[i - 1];
        assert Precedes(key(t[i - 1]), key(t[j - 1]));
      }
    }
  }

  /** An element that may precede all of `rest` and `x` may precede every element of a permutation of them. */
  lemma PrecedesAllOfPermutation<T>(y: T, rest: seq<T>, x: T, t: seq<T>, key: T -> SortKey)
    requires multiset(t) == multiset(rest) + multiset{x}
    requires forall j :: 0 <= j < |rest| ==> Precedes(key(y), key(rest[j]))
    requires Precedes(key(y), key(x))
    ensures forall j :: 0 <= j < |t| ==> Precedes(key(y), key(t[j]))
  {
    forall j | 0 <= j < |t| ensures Precedes(key(y), key(t[j])) {
      assert t[j] in multiset(t);
      if t[j] != x {
        assert t[j] in multiset(rest);
        var k :| 0 <= k < |rest| && rest[k] == t[j];
      }
    }
  }

  /** A stable sort by the comparator: a sorted permutation of `s`. */
  function SortBy<T>(s: seq<T>, key: T -> SortKey): (r: seq<T>)
    ensures SortedBy(r, key)
    ensures multiset(r) == multiset(s)
    ensures |r| == |s|
  {
    if s == [] then []
    else
      assert s == [s[0]] + s[1..];
      Insert(s[0], SortBy(s[1..], key), key)
  }

  /** The number of elements of `s` whose key has no parent. */
  function CountParentless<T>(s: seq<T>, key: T -> SortKey): (n: nat)
    ensures n <= |s|
  {
    if s == [] then 0 else (if key(s[0]).hasParent then 0 else 1) + CountParentless(s[1..], key)
  }

  lemma {:induction false} CountParentlessAppend<T>(s: seq<T>, t: seq<T>, key: T -> SortKey)
    ensures CountParentless(s + t, key) == CountParentless(s, key) + CountParentless(t, key)
  {
    if s != [] {
      assert (s + t)[0] == s[0];
      assert (s + t)[1..] == s[1..] + t;
      CountParentlessAppend(s[1..], t, key);
    } else {
      assert s + t == t;
    }
  }

  lemma {:induction false} CountParentlessInsert<T>(x: T, s: seq<T>, key: T -> SortKey)
    requires SortedBy(s, key)
    ensures CountParentless(Insert(x, s, key), key)
            == CountParentless(s, key) + (if key(x).hasParent then 0 else 1)
  {
    if s != [] && !Precedes(key(x), key(s[0])) {
      CountParentlessInsert(x, s[1..], key);
      var t := Insert(x, s[1..], key);
      assert ([s[0]] + t)[1..] == t;
    }
  }

  /** Sorting keeps the number of parentless calls. */
  lemma {:induction false} CountParentlessSort<T>(s: seq<T>, key: T -> SortKey)
    ensures CountParentless(SortBy(s, key), key) == CountParentless(s, key)
  {
    if s != [] {
      CountParentlessSort(s[1..], key);
      CountParentlessInsert(s[0], SortBy(s[1..], key), key);
    }
  }

  /** All elements of `s` have a parent exactly when none of them is counted parentless. */
  lemma {:induction false} CountParentlessZero<T>(s: seq<T>, key: T -> SortKey)
    ensures CountParentless(s, key) == 0 <==> forall i :: 0 <= i < |s| ==> key(s[i]).hasParent
  {
    if s != [] {
      CountParentlessZero(s[1..], key);
      assert forall i :: 1 <= i < |s| ==> s[i] == s[1..][i - 1];
    }
  }

  /**
   * In a sorted list the parentless calls form a prefix: at a call with a parent, all
   * parentless calls lie before it.
   */
  lemma SortedParentlessPrefix<T>(s: seq<T>, key: T -> SortKey, k: nat)
    requires SortedBy(s, key) && k < |s| && key(s[k]).hasParent
    ensures CountParentless(s, key) == CountParentless(s[..k], key)
  {
    assert s == s[..k] + s[k..];
    CountParentlessAppend(s[..k], s[k..], key);
    assert forall i :: 0 <= i < |s[k..]| ==> key(s[k..][i]).hasParent by {
      forall i | 0 <= i < |s[k..]| ensures key(s[k..][i]).hasParent {
        assert s[k..][i] == s[k + i];
        if i > 0 { assert Precedes(key(s[k]), key(s[k + i])); }
      }
    }
    CountParentlessZero(s[k..], key);
  }

  /** A sorted list with some parentless element starts with a parentless element. */
  lemma SortedHeadParentless<T>(s: seq<T>, key: T -> SortKey)
    requires SortedBy(s, key) && CountParentless(s, key) > 0
    ensures |s| > 0 && !key(s[0]).hasParent
  {
    if key(s[0]).hasParent {
      SortedParentlessPrefix(s, key, 0);
    }
  }
}
