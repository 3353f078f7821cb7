/**
 * De-duplication by a key function, shared by the poll pipeline (canonical
 * keys) and the provider crawls (platform ids): the first listing with each
 * key is kept, in scan order, and the set of keys met grows as it goes.
 */
module Dedupe {
  import opened Models

  // ---------------------------------------------------------------------
  // Key sets and in-run de-duplication, over a key function
  // ---------------------------------------------------------------------

  /** The keys of a list of listings. */
  function KeySet(items: seq<Listing>, key: Listing -> string): set<string>
  {
    if |items| == 0 then {} else KeySet(items[..|items| - 1], key) + {key(items[|items| - 1])}
  }

  lemma {:induction false} KeySetMembers(items: seq<Listing>, key: Listing -> string, k: string)
    ensures k in KeySet(items, key) <==> exists i :: 0 <= i < |items| && key(items[i]) == k
  {
    if |items| > 0 {
      var p := items[..|items| - 1];
      KeySetMembers(p, key, k);
      if k in KeySet(p, key) {
        var i :| 0 <= i < |p| && key(p[i]) == k;
        assert items[i] == p[i];
      }
      if exists i :: 0 <= i < |items| && key(items[i]) == k {
        var i :| 0 <= i < |items| && key(items[i]) == k;
        if i < |p| {
          assert p[i] == items[i];
        }
      }
    }
  }

  lemma {:induction false} KeySetAppend(a: seq<Listing>, b: seq<Listing>, key: Listing -> string)
    decreases |b|
    ensures KeySet(a + b, key) == KeySet(a, key) + KeySet(b, key)
  {
    if |b| == 0 {
      assert a + b == a;
    } else {
      assert (a + b)[..|a + b| - 1] == a + b[..|b| - 1];
      KeySetAppend(a, b[..|b| - 1], key);
    }
  }

  lemma KeySetCons(x: Listing, a: seq<Listing>, key: Listing -> string)
    ensures KeySet([x] + a, key) == {key(x)} + KeySet(a, key)
  {
    KeySetAppend([x], a, key);
    assert KeySet([x], key) == KeySet([], key) + {key(x)};
  }

  predicate DistinctKeys(items: seq<Listing>, key: Listing -> string)
  {
    forall i, j :: 0 <= i < j < |items| ==> key(items[i]) != key(items[j])
  }

  /** `rewrite` leaves the key of every listing in `items` unchanged. */
  predicate KeepsKeys(items: seq<Listing>, key: Listing -> string, rewrite: Listing -> Listing)
  {
    forall i :: 0 <= i < |items| ==> key(rewrite(items[i])) == key(items[i])
  }

  /**
   * The in-run de-duplication loops: an item is kept (through `rewrite`)
   * unless its key is already in `run`, the `seen_this_run` set, which then
   * grows by that key.
   */
  function Dedup(items: seq<Listing>, run: set<string>, key: Listing -> string,
                 rewrite: Listing -> Listing): seq<Listing>
    decreases |items|
  {
    if |items| == 0 then []
    else if key(items[0]) in run then Dedup(items[1..], run, key, rewrite)
    else [rewrite(items[0])] + Dedup(items[1..], run + {key(items[0])}, key, rewrite)
  }

  /** De-duplicating `a + b` is de-duplicating `a`, then `b` against the keys `a` added. */
  lemma {:induction false} DedupAppend(a: seq<Listing>, b: seq<Listing>, run: set<string>,
                                       key: Listing -> string, rewrite: Listing -> Listing)
    decreases |a|
    ensures Dedup(a + b, run, key, rewrite)
         == Dedup(a, run, key, rewrite) + Dedup(b, run + KeySet(a, key), key, rewrite)
  {
    if |a| == 0 {
      assert a + b == b;
      assert Dedup(a, run, key, rewrite) == [];
      assert run + KeySet(a, key) == run;
    } else {
      var x := a[0];
      assert (a + b)[0] == x;
      assert (a + b)[1..] == a[1..] + b;
      assert a == [x] + a[1..];
      KeySetCons(x, a[1..], key);
      if key(x) in run {
        DedupAppend(a[1..], b, run, key, rewrite);
        assert run + KeySet(a, key) == run + KeySet(a[1..], key);
      } else {
        DedupAppend(a[1..], b, run + {key(x)}, key, rewrite);
        assert run + {key(x)} + KeySet(a[1..], key) == run + KeySet(a, key);
      }
    }
  }

  /** The kept items carry each key outside `run` exactly once. */
  lemma {:induction false} DedupKeys(items: seq<Listing>, run: set<string>,
                                     key: Listing -> string, rewrite: Listing -> Listing)
    requires KeepsKeys(items, key, rewrite)
    decreases |items|
    ensures KeySet(Dedup(items, run, key, rewrite), key) == KeySet(items, key) - run
    ensures DistinctKeys(Dedup(items, run, key, rewrite), key)
  {
    if |items| > 0 {
      var x := items[0];
      var rest := items[1..];
      assert items == [x] + rest;
      KeySetCons(x, rest, key);
      assert KeepsKeys(rest, key, rewrite) by {
        forall i | 0 <= i < |rest| ensures key(rewrite(rest[i])) == key(rest[i]) {
          assert rest[i] == items[i + 1];
        }
      }
      if key(x) in run {
        DedupKeys(rest, run, key, rewrite);
      } else {
        var run' := run + {key(x)};
        DedupKeys(rest, run', key, rewrite);
        var r := Dedup(rest, run', key, rewrite);
        var y := rewrite(x);
        assert key(y) == key(x) by { assert items[0] == x; }
        KeySetCons(y, r, key);
        assert key(y) !in KeySet(r, key);
        DistinctCons(y, r, key);
      }
    }
  }

  lemma DistinctCons(y: Listing, r: seq<Listing>, key: Listing -> string)
    requires DistinctKeys(r, key) && key(y) !in KeySet(r, key)
    ensures DistinctKeys([y] + r, key)
  {
    forall i, j | 0 <= i < j < |[y] + r|
      ensures key(([y] + r)[i]) != key(([y] + r)[j])
    {
      assert ([y] + r)[j] == r[j - 1];
      if i == 0 {
        KeySetMembers(r, key, key(r[j - 1]));
      } else {
        assert ([y] + r)[i] == r[i - 1];
      }
    }
  }

  /** `j` is the first index of its key in `items`, and that key is not in `run`. */
  predicate IsFirstFresh(items: seq<Listing>, run: set<string>, key: Listing -> string, j: int)
  {
    0 <= j < |items| && key(items[j]) !in run
    && forall i :: 0 <= i < j ==> key(items[i]) != key(items[j])
  }

  /** Every kept item is the first occurrence of its key, in scan order. */
  lemma {:induction false} DedupKeepsFirst(items: seq<Listing>, run: set<string>, key: Listing -> string,
                                           rewrite: Listing -> Listing, m: nat)
    requires m < |Dedup(items, run, key, rewrite)|
    decreases |items|
    ensures exists j :: IsFirstFresh(items, run, key, j)
                        && Dedup(items, run, key, rewrite)[m] == rewrite(items[j])
  {
    var x := items[0];
    var rest := items[1..];
    var run' := if key(x) in run then run else run + {key(x)};
    if key(x) !in run && m == 0 {
      assert IsFirstFresh(items, run, key, 0);
    } else {
      var m' := if key(x) in run then m else m - 1;
      DedupKeepsFirst(rest, run', key, rewrite, m');
      var j' :| IsFirstFresh(rest, run', key, j') && Dedup(rest, run', key, rewrite)[m'] == rewrite(rest[j']);
      assert rest[j'] == items[j' + 1];
      forall i | 0 <= i < j' + 1 ensures key(items[i]) != key(items[j' + 1]) {
        if i > 0 {
          assert items[i] == rest[i - 1];
        }
      }
      assert IsFirstFresh(items, run, key, j' + 1);
    }
  }

  lemma DisjointKeys(a: seq<Listing>, b: seq<Listing>, key: Listing -> string, i: nat, j: nat)
    requires i < |a| && j < |b| && KeySet(a, key) * KeySet(b, key) == {}
    ensures key(a[i]) != key(b[j])
  {
    KeySetMembers(a, key, key(a[i]));
    KeySetMembers(b, key, key(b[j]));
    assert key(a[i]) in KeySet(a, key);
    assert key(b[j]) in KeySet(b, key);
  }

  lemma DistinctKeysAppend(a: seq<Listing>, b: seq<Listing>, key: Listing -> string)
    requires DistinctKeys(a, key) && DistinctKeys(b, key) && KeySet(a, key) * KeySet(b, key) == {}
    ensures DistinctKeys(a + b, key)
  {
    forall i, j | 0 <= i < j < |a + b| ensures key((a + b)[i]) != key((a + b)[j]) {
      if i < |a| && j >= |a| {
        assert (a + b)[i] == a[i] && (a + b)[j] == b[j - |a|];
        DisjointKeys(a, b, key, i, j - |a|);
      } else if j < |a| {
        assert (a + b)[i] == a[i] && (a + b)[j] == a[j];
      } else {
        assert (a + b)[i] == b[i - |a|] && (a + b)[j] == b[j - |a|];
      }
    }
  }

  /** The key the provider crawl loops de-duplicate by. */
  function PlatformIdOf(l: Listing): string
  {
    l.platformId
  }

  /**
   * Appending a page's not-yet-seen listings keeps a list unique by key,
   * with every listed key recorded among the seen ones.
   */
  lemma DedupExtends(items: seq<Listing>, page: seq<Listing>, seen: set<string>, key: Listing -> string)
    requires DistinctKeys(items, key) && KeySet(items, key) <= seen
    ensures var kept := Dedup(page, seen, key, NoRewrite);
            && DistinctKeys(items + kept, key)
            && KeySet(items + kept, key) <= seen + KeySet(page, key)
  {
    var kept := Dedup(page, seen, key, NoRewrite);
    assert KeepsKeys(page, key, NoRewrite);
    DedupKeys(page, seen, key, NoRewrite);
    KeySetAppend(items, kept, key);
    DistinctKeysAppend(items, kept, key);
  }

  /** Keep each listing as it is. */
  function NoRewrite(item: Listing): Listing
  {
    item
  }

  /** One de-duplication loop, appending to `acc` and growing `seen_this_run`. */
  method DedupInto(items: seq<Listing>, acc: seq<Listing>, run: set<string>,
                   key: Listing -> string, rewrite: Listing -> Listing)
    returns (acc': seq<Listing>, run': set<string>)
    ensures acc' == acc + Dedup(items, run, key, rewrite)
    ensures run' == run + KeySet(items, key)
  {
    acc' := acc;
    run' := run;
    var i := 0;
    while i < |items|
      invariant 0 <= i <= |items|
      invariant acc' + Dedup(items[i..], run', key, rewrite) == acc + Dedup(items, run, key, rewrite)
      invariant run' == run + KeySet(items[..i], key)
    {
      assert items[..i + 1][..i] == items[..i];
      assert items[i..][1..] == items[i + 1..];
      var item := items[i];
      var k := key(item);
      if k !in run' {
        run' := run' + {k};
        acc' := acc' + [rewrite(item)];
      }
      i := i + 1;
    }
    assert items[..i] == items;
  }
}
