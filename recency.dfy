/**
 * The `chats` selector: a copy of the stored chat list sorted by
 * `updatedAt`, most recent first. The comparator `b - a` of a stable sort
 * keeps chats with equal timestamps in their stored order.
 */
module Recency {
  import opened ChatTypes

  /** Every chat is at least as recent as every chat after it. */
  predicate NewestFirst(s: seq<Chat>) {
    forall i, j :: 0 <= i < j < |s| ==> s[i].updatedAt >= s[j].updatedAt
  }

  /** `c` is at least as recent as every chat of `s`. */
  predicate AtLeastAsRecentAsAll(c: Chat, s: seq<Chat>) {
    forall x :: x in s ==> x.updatedAt <= c.updatedAt
  }

  /** The chats of `s` last updated at time `t`, in their order in `s`. */
  function WithTimestamp(s: seq<Chat>, t: int): seq<Chat>
  {
    if s == [] then []
    else (if s[0].updatedAt == t then [s[0]] else []) + WithTimestamp(s[1..], t)
  }

  /** The ties at `t` are exactly the stored chats updated at `t`. */
  lemma {:induction false} WithTimestampMembers(s: seq<Chat>, t: int, x: Chat)
    ensures x in WithTimestamp(s, t) <==> x in s && x.updatedAt == t
  {
    if s != [] {
      WithTimestampMembers(s[1..], t, x);
      assert s == [s[0]] + s[1..];
    }
  }

  /** `a` and `b` hold the same chats at each timestamp, in the same order. */
  ghost predicate SameTies(a: seq<Chat>, b: seq<Chat>) {
    forall t :: WithTimestamp(a, t) == WithTimestamp(b, t)
  }

  /** One step of WithTimestamp, stated for a non-empty list. */
  lemma WithTimestampUnfold(s: seq<Chat>, t: int)
    requires s != []
    ensures s[0].updatedAt == t ==> WithTimestamp(s, t) == [s[0]] + WithTimestamp(s[1..], t)
    ensures s[0].updatedAt != t ==> WithTimestamp(s, t) == WithTimestamp(s[1..], t)
  {
    assert [] + WithTimestamp(s[1..], t) == WithTimestamp(s[1..], t);
  }

  /** A chat at least as recent as a newest-first list can lead it. */
  lemma ConsNewestFirst(x: Chat, rest: seq<Chat>)
    requires NewestFirst(rest) && AtLeastAsRecentAsAll(x, rest)
    ensures NewestFirst([x] + rest)
  {
    forall i, j | 0 <= i < j < |[x] + rest|
      ensures ([x] + rest)[i].updatedAt >= ([x] + rest)[j].updatedAt
    {
      assert ([x] + rest)[j] == rest[j - 1];
      if i > 0 {
        assert ([x] + rest)[i] == rest[i - 1];
      } else {
        assert rest[j - 1] in rest;
      }
    }
  }

  /**
   * Places `c` in the newest-first list `xs` after the chats strictly more
   * recent than it and before all others, ties included.
   */
  function InsertByRecency(c: Chat, xs: seq<Chat>): (r: seq<Chat>)
    ensures |r| == |xs| + 1
    ensures multiset(r) == multiset(xs) + multiset{c}
  {
    if xs == [] then [c]
    else if xs[0].updatedAt > c.updatedAt then
      assert xs == [xs[0]] + xs[1..];
      [xs[0]] + InsertByRecency(c, xs[1..])
    else [c] + xs
  }

  /** Insertion into a newest-first list gives a newest-first list. */
  lemma {:induction false} InsertKeepsNewestFirst(c: Chat, xs: seq<Chat>)
    requires NewestFirst(xs)
    ensures NewestFirst(InsertByRecency(c, xs))
  {
    if xs == [] {
    } else if xs[0].updatedAt > c.updatedAt {
      var rest := InsertByRecency(c, xs[1..]);
      InsertKeepsNewestFirst(c, xs[1..]);
      forall y | y in rest ensures y.updatedAt <= xs[0].updatedAt {
        assert y in multiset(rest);
        if y != c {
          assert y in multiset(xs[1..]);
          assert y in xs[1..];
          var j :| 0 <= j < |xs[1..]| && xs[1..][j] == y;
          assert xs[j + 1] == y;
        }
      }
      ConsNewestFirst(xs[0], rest);
    } else {
      forall y | y in xs ensures y.updatedAt <= c.updatedAt {
        var j :| 0 <= j < |xs| && xs[j] == y;
      }
      ConsNewestFirst(c, xs);
    }
  }

  /** The `chats` selector on a stored list: a stable sort, newest first. */
  function SortedByRecency(s: seq<Chat>): (r: seq<Chat>)
    ensures |r| == |s|
    ensures multiset(r) == multiset(s)
    ensures NewestFirst(r)
  {
    if s == [] then []
    else
      assert s == [s[0]] + s[1..];
      var rest := SortedByRecency(s[1..]);
      InsertKeepsNewestFirst(s[0], rest);
      InsertByRecency(s[0], rest)
  }

  /** The ties of a concatenation are the ties of each part, in order. */
  lemma {:induction false} WithTimestampConcat(a: seq<Chat>, b: seq<Chat>, t: int)
    ensures WithTimestamp(a + b, t) == WithTimestamp(a, t) + WithTimestamp(b, t)
  {
    if a != [] {
      assert (a + b)[1..] == a[1..] + b;
      WithTimestampConcat(a[1..], b, t);
      WithTimestampUnfold(a + b, t);
      WithTimestampUnfold(a, t);
      assert (a + b)[0] == a[0];
      if a[0].updatedAt == t {
        assert [a[0]] + (WithTimestamp(a[1..], t) + WithTimestamp(b, t))
            == ([a[0]] + WithTimestamp(a[1..], t)) + WithTimestamp(b, t);
      }
    } else {
      assert a + b == b;
    }
  }

  /** Two chats with different timestamps never belong to the same group of ties. */
  lemma SingleTiesCommute(x: Chat, y: Chat, t: int)
    requires x.updatedAt != y.updatedAt
    ensures WithTimestamp([x], t) + WithTimestamp([y], t) == WithTimestamp([y], t) + WithTimestamp([x], t)
  {
    WithTimestampUnfold([x], t);
    WithTimestampUnfold([y], t);
    assert [x][1..] == [] && [y][1..] == [];
  }

  /** Inserting `c` does not reorder any group of ties: `c` goes ahead of its own. */
  lemma {:induction false} InsertKeepsTies(c: Chat, xs: seq<Chat>, t: int)
    ensures WithTimestamp(InsertByRecency(c, xs), t) == WithTimestamp([c] + xs, t)
  {
    if xs != [] && xs[0].updatedAt > c.updatedAt {
      var x, tail := xs[0], xs[1..];
      var rest := InsertByRecency(c, tail);
      assert xs == [x] + tail;
      InsertKeepsTies(c, tail, t);
      WithTimestampConcat([x], rest, t);
      WithTimestampConcat([c], tail, t);
      WithTimestampConcat([x], tail, t);
      WithTimestampConcat([c], xs, t);
      SingleTiesCommute(x, c, t);
    }
  }

  /** Stability: among chats with the same timestamp, the view keeps the stored order. */
  lemma {:induction false} SortIsStable(s: seq<Chat>, t: int)
    ensures WithTimestamp(SortedByRecency(s), t) == WithTimestamp(s, t)
  {
    if s != [] {
      var rest := SortedByRecency(s[1..]);
      SortIsStable(s[1..], t);
      InsertKeepsTies(s[0], rest, t);
      WithTimestampConcat([s[0]], rest, t);
      WithTimestampConcat([s[0]], s[1..], t);
      assert s == [s[0]] + s[1..];
    }
  }

  /**
   * When two lists agree on every group of ties and `b` is newest first, the
   * first chat of `a` is no more recent than the first chat of `b`.
   */
  lemma HeadNoNewer(a: seq<Chat>, b: seq<Chat>)
    requires a != [] && NewestFirst(b)
    requires forall t :: WithTimestamp(a, t) == WithTimestamp(b, t)
    ensures b != [] && a[0].updatedAt <= b[0].updatedAt
  {
    var t := a[0].updatedAt;
    WithTimestampUnfold(a, t);
    assert a[0] in WithTimestamp(a, t);
    assert a[0] in WithTimestamp(b, t);
    WithTimestampMembers(b, t, a[0]);
    var k :| 0 <= k < |b| && b[k] == a[0];
  }

  /** Lists with the same head that agree on the ties at `t` also agree on them after the head. */
  lemma TailTiesAt(a: seq<Chat>, b: seq<Chat>, t: int)
    requires a != [] && b != [] && a[0] == b[0]
    requires WithTimestamp(a, t) == WithTimestamp(b, t)
    ensures WithTimestamp(a[1..], t) == WithTimestamp(b[1..], t)
  {
    WithTimestampUnfold(a, t);
    WithTimestampUnfold(b, t);
    if a[0].updatedAt == t {
      assert WithTimestamp(a[1..], t) == WithTimestamp(a, t)[1..];
      assert WithTimestamp(b[1..], t) == WithTimestamp(b, t)[1..];
    }
  }

  /** Lists with equally recent heads and equal ties have equal heads and equal ties after them. */
  lemma TailsAgreeOnTies(a: seq<Chat>, b: seq<Chat>)
    requires a != [] && b != [] && a[0].updatedAt == b[0].updatedAt
    requires forall t :: WithTimestamp(a, t) == WithTimestamp(b, t)
    ensures a[0] == b[0]
    ensures forall t :: WithTimestamp(a[1..], t) == WithTimestamp(b[1..], t)
  {
    var t0 := a[0].updatedAt;
    WithTimestampUnfold(a, t0);
    WithTimestampUnfold(b, t0);
    assert WithTimestamp(a, t0) == WithTimestamp(b, t0);
    assert WithTimestamp(a, t0)[0] == a[0];
    assert WithTimestamp(b, t0)[0] == b[0];
    forall t
      ensures WithTimestamp(a[1..], t) == WithTimestamp(b[1..], t)
    {
      TailTiesAt(a, b, t);
    }
  }

  /** Two newest-first lists that agree on the order of every group of ties are equal. */
  lemma {:induction false} TiesDetermineOrder(a: seq<Chat>, b: seq<Chat>)
    requires NewestFirst(a) && NewestFirst(b)
    requires forall t :: WithTimestamp(a, t) == WithTimestamp(b, t)
    ensures a == b
    decreases |a|
  {
    if a != [] {
      HeadNoNewer(a, b);
      HeadNoNewer(b, a);
      TailsAgreeOnTies(a, b);
      TiesDetermineOrder(a[1..], b[1..]);
      assert a == [a[0]] + a[1..];
      assert b == [b[0]] + b[1..];
    } else if b != [] {
      HeadNoNewer(b, a);
    }
  }

  /** The view keeps every group of equal timestamps in stored order. */
  lemma ViewKeepsTies(s: seq<Chat>)
    ensures SameTies(SortedByRecency(s), s)
  {
    forall t ensures WithTimestamp(SortedByRecency(s), t) == WithTimestamp(s, t) {
      SortIsStable(s, t);
    }
  }

  /** A newest-first list that keeps every group of ties in stored order is the view. */
  lemma OnlyStableOrderIsView(s: seq<Chat>, r: seq<Chat>)
    requires NewestFirst(r) && SameTies(r, s)
    ensures r == SortedByRecency(s)
  {
    var view := SortedByRecency(s);
    ViewKeepsTies(s);
    forall t ensures WithTimestamp(r, t) == WithTimestamp(view, t) {
      assert WithTimestamp(r, t) == WithTimestamp(s, t);
      assert WithTimestamp(view, t) == WithTimestamp(s, t);
    }
    TiesDetermineOrder(r, view);
  }

  /**
   * The selector's result is THE stable newest-first order of the stored
   * list: a list is the view exactly when it is newest first and keeps each
   * group of equal timestamps in stored order.
   */
  lemma StableSortCharacterized(s: seq<Chat>, r: seq<Chat>)
    ensures r == SortedByRecency(s) <==> NewestFirst(r) && SameTies(r, s)
  {
    ViewKeepsTies(s);
    if NewestFirst(r) && SameTies(r, s) {
      OnlyStableOrderIsView(s, r);
    }
  }

  /** The first chat of the view is the most recent stored chat. */
  lemma ViewHeadIsNewest(s: seq<Chat>)
    requires s != []
    ensures AtLeastAsRecentAsAll(SortedByRecency(s)[0], s)
  {
    var r := SortedByRecency(s);
    forall x | x in s ensures x.updatedAt <= r[0].updatedAt {
      assert x in multiset(r);
      var k :| 0 <= k < |r| && r[k] == x;
    }
  }

  /**
   * A stored list whose first chat is at least as recent as every other one
   * keeps that chat first in the view.
   */
  lemma {:induction false} NewestHeadStaysFirst(s: seq<Chat>)
    requires s != [] && AtLeastAsRecentAsAll(s[0], s)
    ensures SortedByRecency(s)[0] == s[0]
  {
    var rest := SortedByRecency(s[1..]);
    if rest != [] {
      assert rest[0] in multiset(s[1..]);
      assert rest[0] in s;
    }
  }
}
