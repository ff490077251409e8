/**
 * The Trending page: the sampled recent thoughts sorted by echo count, most
 * echoed first, with a stable sort, and cut to the first three.
 */
module Trending {
  import opened Options

  /** A thought as the trending page reads it; `echoCount` is None when the key is absent. */
  datatype Thought = Thought(thoughtId: int, viberId: int, content: string, emotionTag: string, echoCount: Option<int>)

  /** How many thoughts the page shows. */
  const TopN: nat := 3

  /** `t.get("echo_count", 0)` */
  function Echoes(t: Thought): int {
    match t.echoCount
    case Some(n) => n
    case None => 0
  }

  /** Most echoed first. */
  predicate NonIncreasing(s: seq<Thought>) {
    forall i, j :: 0 <= i < j < |s| ==> Echoes(s[i]) >= Echoes(s[j])
  }

  /** The thoughts with exactly `k` echoes, in the order they appear. */
  function WithEchoes(s: seq<Thought>, k: int): (r: seq<Thought>)
    ensures |r| <= |s|
  {
    if s == [] then []
    else if Echoes(s[0]) == k then [s[0]] + WithEchoes(s[1..], k)
    else WithEchoes(s[1..], k)
  }

  /**
   * Place `t` in front of the first thought with no more echoes than it, so
   * that it precedes every thought of equal count.
   */
  function Insert(t: Thought, s: seq<Thought>): seq<Thought> {
    if s == [] || Echoes(t) >= Echoes(s[0]) then [t] + s
    else [s[0]] + Insert(t, s[1..])
  }

  /** Insertion adds exactly the one thought. */
  lemma {:induction false} InsertAddsOne(t: Thought, s: seq<Thought>)
    ensures multiset(Insert(t, s)) == multiset(s) + multiset{t}
  {
    if s != [] && Echoes(t) < Echoes(s[0]) {
      InsertAddsOne(t, s[1..]);
      assert s == [s[0]] + s[1..];
    }
  }

  /** Every thought of `Insert(t, s)` is `t` or a thought of `s`. */
  lemma {:induction false} InsertFrom(t: Thought, s: seq<Thought>, k: nat)
    requires k < |Insert(t, s)|
    ensures Insert(t, s)[k] == t || Insert(t, s)[k] in s
  {
    if s != [] && Echoes(t) < Echoes(s[0]) && k > 0 {
      InsertFrom(t, s[1..], k - 1);
    }
  }

  /** Inserting into a list sorted most-echoed-first keeps it sorted. */
  lemma {:induction false} InsertKeepsOrder(t: Thought, s: seq<Thought>)
    requires NonIncreasing(s)
    ensures NonIncreasing(Insert(t, s))
  {
    if s != [] && Echoes(t) < Echoes(s[0]) {
      var rest := Insert(t, s[1..]);
      InsertKeepsOrder(t, s[1..]);
      var r := [s[0]] + rest;
      forall i, j | 0 <= i < j < |r| ensures Echoes(r[i]) >= Echoes(r[j]) {
        if i == 0 {
          InsertFrom(t, s[1..], j - 1);
        }
      }
    }
  }

  /** `sorted(thoughts, key=echo_count, reverse=True)`: a stable descending sort. */
  function SortByEchoes(s: seq<Thought>): (r: seq<Thought>)
    ensures multiset(r) == multiset(s)
    ensures NonIncreasing(r)
  {
    if s == [] then []
    else
      assert s == [s[0]] + s[1..];
      InsertAddsOne(s[0], SortByEchoes(s[1..]));
      InsertKeepsOrder(s[0], SortByEchoes(s[1..]));
      Insert(s[0], SortByEchoes(s[1..]))
  }

  /** Inserting a thought keeps the relative order of equal counts, with it in front. */
  lemma {:induction false} InsertKeepsTies(t: Thought, s: seq<Thought>, k: int)
    ensures WithEchoes(Insert(t, s), k) == WithEchoes([t] + s, k)
  {
    if s == [] || Echoes(t) >= Echoes(s[0]) {
    } else {
      InsertKeepsTies(t, s[1..], k);
      assert ([s[0]] + Insert(t, s[1..]))[1..] == Insert(t, s[1..]);
      assert ([t] + s)[1..] == s;
      assert ([t] + s[1..])[1..] == s[1..];
      if Echoes(t) == k {
        assert Echoes(s[0]) != k;
      }
    }
  }

  /** Stability: for every count, the thoughts with that count come out in input order. */
  lemma {:induction false} SortIsStable(s: seq<Thought>, k: int)
    ensures WithEchoes(SortByEchoes(s), k) == WithEchoes(s, k)
  {
    if s != [] {
      SortIsStable(s[1..], k);
      InsertKeepsTies(s[0], SortByEchoes(s[1..]), k);
      assert ([s[0]] + SortByEchoes(s[1..]))[1..] == SortByEchoes(s[1..]);
      assert [s[0]] + s[1..] == s;
    }
  }

  /** `sorted(...)[:3]` */
  function Trending(thoughts: seq<Thought>): (r: seq<Thought>)
    ensures |r| == if |thoughts| < TopN then |thoughts| else TopN
    ensures multiset(r) <= multiset(thoughts)
    ensures NonIncreasing(r)
  {
    var sorted := SortByEchoes(thoughts);
    assert |sorted| == |multiset(sorted)| == |thoughts|;
    var n := if |sorted| < TopN then |sorted| else TopN;
    assert sorted == sorted[..n] + sorted[n..];
    assert multiset(sorted) == multiset(sorted[..n]) + multiset(sorted[n..]);
    sorted[..n]
  }

  /** Keeping a prefix keeps a prefix of each equal-count group. */
  lemma {:induction false} WithEchoesOfPrefix(s: seq<Thought>, n: nat, k: int)
    requires n <= |s|
    ensures WithEchoes(s[..n], k) <= WithEchoes(s, k)
  {
    if n > 0 {
      WithEchoesOfPrefix(s[1..], n - 1, k);
      assert s[..n][1..] == s[1..][..n - 1];
    }
  }

  /** Equal counts keep their input order in the trending list. */
  lemma TrendingKeepsTieOrder(thoughts: seq<Thought>, k: int)
    ensures WithEchoes(Trending(thoughts), k) <= WithEchoes(thoughts, k)
  {
    var sorted := SortByEchoes(thoughts);
    assert |sorted| == |multiset(sorted)| == |thoughts|;
    var n := if |sorted| < TopN then |sorted| else TopN;
    WithEchoesOfPrefix(sorted, n, k);
    SortIsStable(thoughts, k);
  }

  /** In a list sorted most-echoed-first, whatever lies past a prefix has no more echoes than the prefix. */
  lemma PrefixDominates(s: seq<Thought>, n: nat)
    requires NonIncreasing(s) && n <= |s|
    ensures forall u, t :: u in multiset(s) - multiset(s[..n]) && t in s[..n] ==> Echoes(u) <= Echoes(t)
  {
    assert s == s[..n] + s[n..];
    assert multiset(s) - multiset(s[..n]) == multiset(s[n..]);
    forall u, t | u in multiset(s[n..]) && t in s[..n] ensures Echoes(u) <= Echoes(t) {
      var j :| n <= j < |s| && s[j] == u;
      var i :| 0 <= i < n && s[i] == t;
    }
  }

  /** Top three: no thought left out has more echoes than any thought shown. */
  lemma TrendingIsTop(thoughts: seq<Thought>)
    ensures forall u, t :: u in multiset(thoughts) - multiset(Trending(thoughts)) && t in Trending(thoughts) ==>
      Echoes(u) <= Echoes(t)
  {
    var sorted := SortByEchoes(thoughts);
    assert |sorted| == |multiset(sorted)| == |thoughts|;
    var n := if |sorted| < TopN then |sorted| else TopN;
    PrefixDominates(sorted, n);
  }

  lemma SortTieExampleTail(t2: Thought, t3: Thought, t4: Thought)
    requires Echoes(t2) == 9 && Echoes(t3) == 2 && Echoes(t4) == 9
    ensures SortByEchoes([t2, t3, t4]) == [t2, t4, t3]
  {
  }

  /** A thought moves past a head with strictly more echoes. */
  lemma InsertPast(t: Thought, u: Thought, s: seq<Thought>)
    requires Echoes(t) < Echoes(u)
    ensures Insert(t, [u] + s) == [u] + Insert(t, s)
  {
  }

  lemma InsertTieExample(t1: Thought, t2: Thought, t3: Thought, t4: Thought)
    requires Echoes(t1) == 5 && Echoes(t2) == 9 && Echoes(t3) == 2 && Echoes(t4) == 9
    ensures Insert(t1, [t2, t4, t3]) == [t2, t4, t1, t3]
  {
    assert Insert(t1, [t3]) == [t1, t3];
    InsertPast(t1, t4, [t3]);
    assert [t4] + [t3] == [t4, t3];
    InsertPast(t1, t2, [t4, t3]);
    assert [t2] + [t4, t3] == [t2, t4, t3];
  }

  /** Counts 5, 9, 2, 9: both nines first, in input order, then the five. */
  lemma TrendingTieExample(t1: Thought, t2: Thought, t3: Thought, t4: Thought)
    requires t1.echoCount == Some(5) && t2.echoCount == Some(9)
    requires t3.echoCount == Some(2) && t4.echoCount == Some(9)
    ensures Trending([t1, t2, t3, t4]) == [t2, t4, t1]
  {
    SortTieExampleTail(t2, t3, t4);
    InsertTieExample(t1, t2, t3, t4);
    assert [t1, t2, t3, t4][1..] == [t2, t3, t4];
    assert SortByEchoes([t1, t2, t3, t4]) == [t2, t4, t1, t3];
  }
}
