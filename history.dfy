/** The most-recent-first prompt history:
    `[p, ...history.filter(x => x !== p)].slice(0, cap)`.
    The server keeps 15 entries per user, the browser fallback 10; the two
    lists are separate and never merged. */
module PromptHistory {

  /** `MAX_HISTORY_ITEMS` of the prompt-history route. */
  const MaxHistoryItems: nat := 15

  /** `MAX_HISTORY_ITEMS_LOCALSTORAGE` of the professional generator view. */
  const MaxHistoryItemsLocalStorage: nat := 10

  /** `h.filter(x => x !== p)`. */
  function Without(h: seq<string>, p: string): (r: seq<string>)
    ensures |r| <= |h|
    ensures p !in r
    ensures forall x :: x in r <==> x in h && x != p
  {
    if h == [] then []
    else if h[0] == p then Without(h[1..], p)
    else [h[0]] + Without(h[1..], p)
  }

  /** `s.slice(0, n)`. */
  function Take(s: seq<string>, n: nat): (r: seq<string>)
    ensures |r| <= n && r <= s
    ensures |s| <= n ==> r == s
  {
    if |s| <= n then s else s[..n]
  }

  /** The history after `p` is used: `p` goes to the front, any earlier
      occurrence of it is dropped, and the list is cut to `cap` entries. */
  function Remember(h: seq<string>, p: string, cap: nat): (r: seq<string>)
    ensures |r| <= cap
    ensures cap > 0 ==> r != [] && r[0] == p && p !in r[1..]
  {
    Take([p] + Without(h, p), cap)
  }

  /** `a` can be obtained from `b` by deleting entries: the order of `b` is kept. */
  predicate IsSubsequence(a: seq<string>, b: seq<string>)
    decreases |b|
  {
    if a == [] then true
    else if b == [] then false
    else if a[0] == b[0] then IsSubsequence(a[1..], b[1..])
    else IsSubsequence(a, b[1..])
  }

  /** No entry occurs twice. */
  predicate NoDuplicates(s: seq<string>) {
    forall i, j :: 0 <= i < j < |s| ==> s[i] != s[j]
  }

  /** Filtering deletes entries and keeps the order of the rest. */
  lemma {:induction false} WithoutIsSubsequence(h: seq<string>, p: string)
    ensures IsSubsequence(Without(h, p), h)
  {
    if h != [] {
      WithoutIsSubsequence(h[1..], p);
      var w := Without(h[1..], p);
      if h[0] == p && w != [] {
        assert w[0] in w && w[0] != h[0];
      }
    }
  }

  /** Filtering distributes over concatenation: it is exactly the removal
      of `p` from each part, in order. */
  lemma {:induction false} WithoutAppend(a: seq<string>, b: seq<string>, p: string)
    ensures Without(a + b, p) == Without(a, p) + Without(b, p)
  {
    if a != [] {
      var ab := a + b;
      assert ab != [] && ab[0] == a[0] && ab[1..] == a[1..] + b;
      WithoutAppend(a[1..], b, p);
      var wa, wb := Without(a[1..], p), Without(b, p);
      if a[0] == p {
        assert Without(ab, p) == wa + wb;
        assert Without(a, p) == wa;
      } else {
        assert Without(ab, p) == [a[0]] + (wa + wb);
        assert Without(a, p) == [a[0]] + wa;
        assert [a[0]] + (wa + wb) == ([a[0]] + wa) + wb;
      }
    } else {
      assert a + b == b;
    }
  }

  /** Filtering out an absent entry changes nothing. */
  lemma {:induction false} WithoutAbsent(h: seq<string>, p: string)
    requires p !in h
    ensures Without(h, p) == h
  {
    if h != [] {
      assert h == [h[0]] + h[1..];
      WithoutAbsent(h[1..], p);
    }
  }

  lemma {:induction false} WithoutKeepsNoDuplicates(h: seq<string>, p: string)
    requires NoDuplicates(h)
    ensures NoDuplicates(Without(h, p))
  {
    if h != [] {
      assert NoDuplicates(h[1..]) by {
        forall i, j | 0 <= i < j < |h| - 1 ensures h[1..][i] != h[1..][j] {
          assert h[1..][i] == h[i + 1] && h[1..][j] == h[j + 1];
        }
      }
      WithoutKeepsNoDuplicates(h[1..], p);
      assert h[0] !in h[1..] by {
        forall k | 0 <= k < |h| - 1 ensures h[1..][k] != h[0] {
          assert h[1..][k] == h[k + 1];
        }
      }
    }
  }

  /** Cutting a subsequence short keeps it a subsequence. */
  lemma {:induction false} PrefixIsSubsequence(a: seq<string>, b: seq<string>, n: nat)
    requires IsSubsequence(a, b) && n <= |a|
    ensures IsSubsequence(a[..n], b)
    decreases |b|
  {
    if n > 0 && b != [] {
      if a[0] == b[0] {
        PrefixIsSubsequence(a[1..], b[1..], n - 1);
        assert a[..n][1..] == a[1..][..n - 1];
      } else {
        PrefixIsSubsequence(a, b[1..], n);
      }
    }
  }

  /** Every entry of a subsequence is an entry of the whole. */
  lemma {:induction false} SubsequenceMembers(a: seq<string>, b: seq<string>)
    requires IsSubsequence(a, b)
    ensures forall x :: x in a ==> x in b
    decreases |b|
  {
    if a != [] && b != [] {
      if a[0] == b[0] {
        SubsequenceMembers(a[1..], b[1..]);
        assert a == [a[0]] + a[1..];
      } else {
        SubsequenceMembers(a, b[1..]);
      }
    }
  }

  /** The front of the new history is the prompt just used. */
  lemma RememberFront(h: seq<string>, p: string, cap: nat)
    requires cap > 0
    ensures |Remember(h, p, cap)| >= 1 && Remember(h, p, cap)[0] == p
  {
  }

  /** The prompt just used occurs exactly once. */
  lemma RememberOnce(h: seq<string>, p: string, cap: nat)
    requires cap > 0
    ensures multiset(Remember(h, p, cap))[p] == 1
  {
    var r := Remember(h, p, cap);
    assert r == [p] + r[1..];
    assert multiset(r[1..])[p] == 0;
  }

  /** The history never holds more than `cap` entries, and it holds as many
      as it can: all distinct older entries up to the cap. */
  lemma RememberLength(h: seq<string>, p: string, cap: nat)
    ensures |Remember(h, p, cap)| == if 1 + |Without(h, p)| <= cap then 1 + |Without(h, p)| else cap
  {
  }

  /** Entries other than `p` were already in the history and keep their
      relative order. */
  lemma RememberKeepsOrder(h: seq<string>, p: string, cap: nat)
    requires cap > 0
    ensures IsSubsequence(Remember(h, p, cap)[1..], h)
    ensures forall x :: x in Remember(h, p, cap) ==> x == p || x in h
  {
    var r := Remember(h, p, cap);
    var w := Without(h, p);
    assert r[1..] == w[..|r| - 1];
    WithoutIsSubsequence(h, p);
    PrefixIsSubsequence(w, h, |r| - 1);
    SubsequenceMembers(r[1..], h);
    assert r == [p] + r[1..];
  }

  /** A history without duplicates stays without duplicates. */
  lemma RememberKeepsNoDuplicates(h: seq<string>, p: string, cap: nat)
    requires NoDuplicates(h)
    ensures NoDuplicates(Remember(h, p, cap))
  {
    var w := Without(h, p);
    WithoutKeepsNoDuplicates(h, p);
    var full := [p] + w;
    forall i, j | 0 <= i < j < |full| ensures full[i] != full[j] {
      if i == 0 {
        assert full[j] == w[j - 1];
      } else {
        assert full[i] == w[i - 1] && full[j] == w[j - 1];
      }
    }
  }

  /** Using the same prompt twice in a row is the same as using it once. */
  lemma RememberIdempotent(h: seq<string>, p: string, cap: nat)
    ensures Remember(Remember(h, p, cap), p, cap) == Remember(h, p, cap)
  {
    var r := Remember(h, p, cap);
    if cap > 0 {
      assert r == [p] + r[1..];
      assert [p] + r[1..] == [p] + [] + r[1..];
      WithoutAppend([p], r[1..], p);
      WithoutAbsent(r[1..], p);
    }
  }

  /** When the history has no duplicates and room, using a prompt already in
      it only moves that prompt to the front: the same entries remain. */
  lemma RememberMovesToFront(h: seq<string>, p: string, cap: nat)
    requires NoDuplicates(h) && p in h && |h| <= cap
    ensures multiset(Remember(h, p, cap)) == multiset(h)
  {
    var i :| 0 <= i < |h| && h[i] == p;
    OnlyOccurrence(h, i);
    MoveToFront(h[..i], p, h[i + 1..], cap);
    assert h == h[..i] + [p] + h[i + 1..];
  }

  /** Moving the single occurrence of `p` to the front keeps the entries. */
  lemma MoveToFront(before: seq<string>, p: string, after: seq<string>, cap: nat)
    requires p !in before && p !in after && |before| + 1 + |after| <= cap
    ensures multiset(Remember(before + [p] + after, p, cap)) == multiset(before + [p] + after)
  {
    WithoutOne(before, p, after);
    calc {
      multiset(Remember(before + [p] + after, p, cap));
      multiset([p] + (before + after));
      multiset([p]) + multiset(before) + multiset(after);
      multiset(before + [p] + after);
    }
  }

  /** In a list without duplicates, an entry occurs nowhere else. */
  lemma OnlyOccurrence(h: seq<string>, i: nat)
    requires NoDuplicates(h) && i < |h|
    ensures h[i] !in h[..i] && h[i] !in h[i + 1..]
  {
    var before, after := h[..i], h[i + 1..];
    forall k | 0 <= k < |before| ensures before[k] != h[i] {
      assert before[k] == h[k];
    }
    forall k | 0 <= k < |after| ensures after[k] != h[i] {
      assert after[k] == h[i + 1 + k];
    }
  }

  /** Filtering out the single occurrence of `p` just removes it. */
  lemma WithoutOne(before: seq<string>, p: string, after: seq<string>)
    requires p !in before && p !in after
    ensures Without(before + [p] + after, p) == before + after
  {
    WithoutAppend(before + [p], after, p);
    WithoutAppend(before, [p], p);
    WithoutAbsent(before, p);
    WithoutAbsent(after, p);
    assert [p][1..] == [];
    assert Without([p], p) == [];
    assert before + [] == before;
  }

  /** A → B → A leaves [A, B]: A moves to the front, it is not repeated. */
  lemma RememberScenario()
    ensures Remember(Remember(Remember([], "A", MaxHistoryItems), "B", MaxHistoryItems), "A", MaxHistoryItems) == ["A", "B"]
  {
    assert Remember([], "A", MaxHistoryItems) == ["A"];
    assert Without(["A"], "B") == ["A"];
    assert Remember(["A"], "B", MaxHistoryItems) == ["B", "A"];
    assert Without(["B", "A"], "A") == ["B"];
  }
}
