/**
  Multi-select tags kept as a list: tapping a tag removes every copy of it
  when it is present and appends it at the end otherwise.
 */
module TagToggle {

  /** A chip label. */
  type Tag = string

  /** No element occurs twice. */
  ghost predicate Distinct(xs: seq<Tag>)
  {
    forall i, j :: 0 <= i < j < |xs| ==> xs[i] != xs[j]
  }

  /** `xs.filter(x => x !== t)`: drops every copy of `t` and keeps the rest with its multiplicities. */
  function RemoveAll(xs: seq<Tag>, t: Tag): (r: seq<Tag>)
    ensures t !in r
    ensures |r| <= |xs|
    ensures forall x :: x != t ==> multiset(r)[x] == multiset(xs)[x]
    decreases |xs|
  {
    if |xs| == 0 then []
    else
      assert xs == [xs[0]] + xs[1..];
      if xs[0] == t then RemoveAll(xs[1..], t)
      else [xs[0]] + RemoveAll(xs[1..], t)
  }

  /** `xs.includes(t) ? xs.filter(x => x !== t) : [...xs, t]` */
  function Toggle(xs: seq<Tag>, t: Tag): (r: seq<Tag>)
    ensures t in r <==> t !in xs
    ensures forall x :: x != t ==> (x in r <==> x in xs)
  {
    if t in xs then
      var r := RemoveAll(xs, t);
      assert forall x :: x != t ==> (x in r <==> multiset(r)[x] > 0);
      r
    else xs + [t]
  }

  /** Filtering distributes over concatenation, so the survivors keep their original order. */
  lemma {:induction false} RemoveAllAppend(a: seq<Tag>, b: seq<Tag>, t: Tag)
    ensures RemoveAll(a + b, t) == RemoveAll(a, t) + RemoveAll(b, t)
    decreases |a|
  {
    if |a| > 0 {
      assert (a + b)[1..] == a[1..] + b;
      RemoveAllAppend(a[1..], b, t);
    } else {
      assert a + b == b;
    }
  }

  /** Removing a tag that is absent changes nothing. */
  lemma {:induction false} RemoveAllAbsent(xs: seq<Tag>, t: Tag)
    requires t !in xs
    ensures RemoveAll(xs, t) == xs
    decreases |xs|
  {
    if |xs| > 0 {
      assert t !in xs[1..];
      RemoveAllAbsent(xs[1..], t);
      assert xs == [xs[0]] + xs[1..];
    }
  }

  /** Removing keeps a duplicate-free list duplicate-free. */
  lemma {:induction false} RemoveAllKeepsDistinct(xs: seq<Tag>, t: Tag)
    requires Distinct(xs)
    ensures Distinct(RemoveAll(xs, t))
    decreases |xs|
  {
    if |xs| > 0 {
      var tail := xs[1..];
      assert Distinct(tail) by {
        forall i, j | 0 <= i < j < |tail| ensures tail[i] != tail[j] {
          assert tail[i] == xs[i + 1] && tail[j] == xs[j + 1];
        }
      }
      RemoveAllKeepsDistinct(tail, t);
      var rest := RemoveAll(tail, t);
      if xs[0] != t {
        assert xs[0] !in tail by {
          forall k | 0 <= k < |tail| ensures tail[k] != xs[0] {
            assert tail[k] == xs[k + 1];
          }
        }
        assert multiset(rest)[xs[0]] == multiset(tail)[xs[0]] == 0;
        var r := [xs[0]] + rest;
        forall i, j | 0 <= i < j < |r| ensures r[i] != r[j] {
          if i == 0 {
            assert r[j] == rest[j - 1];
          } else {
            assert r[i] == rest[i - 1] && r[j] == rest[j - 1];
          }
        }
      }
    }
  }

  /** Toggling keeps a duplicate-free list duplicate-free. */
  lemma ToggleKeepsDistinct(xs: seq<Tag>, t: Tag)
    requires Distinct(xs)
    ensures Distinct(Toggle(xs, t))
  {
    if t in xs {
      RemoveAllKeepsDistinct(xs, t);
    } else {
      var r := xs + [t];
      forall i, j | 0 <= i < j < |r| ensures r[i] != r[j] {
        if j == |xs| {
          assert r[i] == xs[i];
        } else {
          assert r[i] == xs[i] && r[j] == xs[j];
        }
      }
    }
  }

  /** Tapping an absent tag twice restores the list exactly, order included. */
  lemma ToggleTwiceAbsent(xs: seq<Tag>, t: Tag)
    requires t !in xs
    ensures Toggle(Toggle(xs, t), t) == xs
  {
    assert Toggle(xs, t) == xs + [t];
    RemoveAllAppend(xs, [t], t);
    RemoveAllAbsent(xs, t);
    assert RemoveAll([t], t) == [];
  }

  /**
    Tapping a present tag twice restores membership but moves the tag to the
    end: the list is not restored when the tag was not already last.
   */
  lemma ToggleTwicePresent(xs: seq<Tag>, t: Tag)
    requires t in xs
    ensures Toggle(Toggle(xs, t), t) == RemoveAll(xs, t) + [t]
    ensures forall x :: x in Toggle(Toggle(xs, t), t) <==> x in xs
  {
  }
}
