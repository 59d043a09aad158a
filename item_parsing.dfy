/**
 * `parse_items` of billy/api/invoice/views.py: flat, numbered request
 * parameters (`item_name1`, `item_amount2`, ...) become a list of
 * dictionaries, one per item number, in ascending order of that number.
 *
 * The request's parameters are a sequence of key/value pairs.  Looking a key
 * up (`request.params[key]`) yields the value of the LAST pair with that key,
 * as a multi-valued dictionary does.  Python's `int()` on a key's suffix is
 * `PyInt.ParseInt`.
 */
module ItemParsing {
  import opened Wrappers
  import opened PyInt

  /* ------------------------------------------------------------------ */
  /* sorted(keys) over the item numbers                                  */
  /* ------------------------------------------------------------------ */

  ghost predicate Sorted(ks: seq<int>)
  {
    forall i, j :: 0 <= i < j < |ks| ==> ks[i] <= ks[j]
  }

  ghost predicate StrictlyIncreasing(ks: seq<int>)
  {
    forall i, j :: 0 <= i < j < |ks| ==> ks[i] < ks[j]
  }

  ghost predicate Distinct(ks: seq<int>)
  {
    forall i, j :: 0 <= i < j < |ks| ==> ks[i] != ks[j]
  }

  /** A lower bound of every element of a sorted list extends it at the front. */
  lemma SortedCons(h: int, t: seq<int>)
    requires Sorted(t)
    requires forall y :: y in multiset(t) ==> h <= y
    ensures Sorted([h] + t)
  {
    forall i, j | 0 <= i < j < |t| + 1 ensures ([h] + t)[i] <= ([h] + t)[j] {
      assert ([h] + t)[j] == t[j - 1];
      assert t[j - 1] in multiset(t);
    }
  }

  /** The head of a sorted list bounds the list from below. */
  lemma SortedHead(ks: seq<int>)
    requires Sorted(ks)
    ensures ks != [] ==> forall y :: y in multiset(ks) ==> ks[0] <= y
    ensures ks != [] ==> forall y :: y in multiset(ks[1..]) ==> ks[0] <= y
  {
    if ks != [] {
      forall y | y in multiset(ks) ensures ks[0] <= y {
        var k :| 0 <= k < |ks| && ks[k] == y;
      }
      assert ks == [ks[0]] + ks[1..];
    }
  }

  /** `x` put into the sorted list `ks` before the first element larger than it. */
  function InsertInt(x: int, ks: seq<int>): (r: seq<int>)
    requires Sorted(ks)
    ensures |r| == |ks| + 1
    ensures multiset(r) == multiset(ks) + multiset{x}
    ensures Sorted(r)
  {
    if ks == [] || x <= ks[0] then
      SortedHead(ks);
      SortedCons(x, ks);
      [x] + ks
    else
      var tail := InsertInt(x, ks[1..]);
      assert ks == [ks[0]] + ks[1..];
      SortedHead(ks);
      SortedCons(ks[0], tail);
      [ks[0]] + tail
  }

  /** Python's `sorted` on a list of integers. */
  function SortInts(ks: seq<int>): (r: seq<int>)
    ensures |r| == |ks| && multiset(r) == multiset(ks)
    ensures forall i :: 0 <= i < |r| ==> r[i] in ks
    ensures Sorted(r)
  {
    if ks == [] then []
    else
      assert ks == ks[..|ks| - 1] + [ks[|ks| - 1]];
      var r := InsertInt(ks[|ks| - 1], SortInts(ks[..|ks| - 1]));
      assert forall i :: 0 <= i < |r| ==> r[i] in multiset(r);
      r
  }

  /** An element that stands at two positions occurs twice. */
  lemma TwoPositions(ks: seq<int>, i: nat, j: nat)
    requires i < j < |ks|
    ensures ks[i] == ks[j] ==> multiset(ks)[ks[i]] >= 2
  {
    assert ks == ks[..j] + [ks[j]] + ks[j + 1..];
    assert ks[..j][i] == ks[i];
  }

  /** A sorted list that holds each element at most once is strictly increasing. */
  lemma SortedDistinct(ks: seq<int>)
    requires Sorted(ks)
    requires forall k :: multiset(ks)[k] <= 1
    ensures StrictlyIncreasing(ks)
  {
    forall i, j | 0 <= i < j < |ks|
      ensures ks[i] < ks[j]
    {
      TwoPositions(ks, i, j);
    }
  }

  /** A list without repetitions holds each of its elements once. */
  lemma {:induction false} DistinctMultiplicity(ks: seq<int>)
    requires Distinct(ks)
    ensures forall k :: multiset(ks)[k] <= 1
  {
    if ks != [] {
      var front := ks[..|ks| - 1];
      assert ks == front + [ks[|ks| - 1]];
      DistinctMultiplicity(front);
      assert ks[|ks| - 1] !in front;
    }
  }

  /* ------------------------------------------------------------------ */
  /* Grouping the parameters by item number                              */
  /* ------------------------------------------------------------------ */

  /** One request parameter. */
  datatype Param = Param(key: string, value: string)

  /** One parsed item: keyword -> request value. */
  type Item = map<string, string>

  predicate StartsWith(s: string, p: string)
  {
    |p| <= |s| && s[..|p|] == p
  }

  /**
   * `request.params[key]`: the value of the last pair whose key is `key`
   * (the empty string when there is none; the model never looks up a key
   * that is absent).
   */
  function ValueOf(params: seq<Param>, key: string): string
    decreases |params|
  {
    if params == [] then ""
    else if params[|params| - 1].key == key then params[|params| - 1].value
    else ValueOf(params[..|params| - 1], key)
  }

  /** The value looked up is that of a pair with the key, and no later pair has the key. */
  lemma {:induction false} ValueOfLast(params: seq<Param>, key: string, i0: nat)
    requires i0 < |params| && params[i0].key == key
    ensures exists i :: i0 <= i < |params| && params[i].key == key && params[i].value == ValueOf(params, key) &&
              forall j :: i < j < |params| ==> params[j].key != key
    decreases |params|
  {
    var last := |params| - 1;
    if params[last].key == key {
      assert params[last].value == ValueOf(params, key);
    } else {
      var front := params[..last];
      ValueOfLast(front, key, i0);
      var i :| i0 <= i < |front| && front[i].key == key && front[i].value == ValueOf(front, key) &&
               forall j :: i < j < |front| ==> front[j].key != key;
      assert params[i] == front[i];
    }
  }

  /**
   * The item number a key carries for one prefixed keyword: the key must
   * start with `prefixedKeyword` and the rest must pass `int()`.
   */
  function ItemNumber(key: string, prefixedKeyword: string): Option<int>
  {
    if StartsWith(key, prefixedKeyword) then ParseInt(key[|prefixedKeyword|..]) else None
  }

  /**
   * The `items` dictionary: item number -> item, together with a listing of
   * its keys, kept in insertion order.  Which order `list(items)` gives does
   * not matter: `sorted` follows it.
   */
  datatype Table = Table(items: map<int, Item>, keys: seq<int>)

  /** The inner loop's body: `items.setdefault(item_num, {})[keyword] = value`. */
  function AddMatch(t: Table, key: string, value: string, prefix: string, keyword: string): Table
  {
    match ItemNumber(key, prefix + keyword)
    case None => t
    case Some(n) =>
      if n in t.items then Table(t.items[n := t.items[n][keyword := value]], t.keys)
      else Table(t.items[n := map[keyword := value]], t.keys + [n])
  }

  /** The inner loop over `keywords` for one parameter key. */
  function AddKey(t: Table, key: string, value: string, prefix: string, keywords: seq<string>): Table
    decreases |keywords|
  {
    if keywords == [] then t
    else
      AddMatch(AddKey(t, key, value, prefix, keywords[..|keywords| - 1]), key, value, prefix, keywords[|keywords| - 1])
  }

  /** The `items` dictionary after the outer loop has seen the first `n` parameters. */
  function Grouped(params: seq<Param>, n: nat, prefix: string, keywords: seq<string>): Table
    requires n <= |params|
  {
    if n == 0 then Table(map[], [])
    else
      var key := params[n - 1].key;
      AddKey(Grouped(params, n - 1, prefix, keywords), key, ValueOf(params, key), prefix, keywords)
  }

  /** `[items[k] for k in ks]`. */
  function Arrange(items: map<int, Item>, ks: seq<int>): (r: seq<Item>)
    requires forall n :: 0 <= n < |ks| ==> ks[n] in items
    ensures |r| == |ks| && forall n :: 0 <= n < |ks| ==> r[n] == items[ks[n]]
  {
    seq(|ks|, n requires 0 <= n < |ks| => items[ks[n]])
  }

  /** The item numbers in the order `parse_items` emits their dictionaries. */
  function ItemNumbers(params: seq<Param>, prefix: string, keywords: seq<string>): seq<int>
  {
    SortInts(Grouped(params, |params|, prefix, keywords).keys)
  }

  /** What `parse_items(request, prefix, keywords)` returns. */
  ghost function ParsedItems(params: seq<Param>, prefix: string, keywords: seq<string>): seq<Item>
  {
    var t := Grouped(params, |params|, prefix, keywords);
    GroupedKeysListed(params, prefix, keywords);
    Arrange(t.items, ItemNumbers(params, prefix, keywords))
  }

  /** `parse_items`: group the parameters, then emit the items by ascending number. */
  method ParseItems(params: seq<Param>, prefix: string, keywords: seq<string>) returns (result: seq<Item>)
    ensures result == ParsedItems(params, prefix, keywords)
  {
    var items, order := GroupParams(params, prefix, keywords);
    GroupedKeysListed(params, prefix, keywords);
    var keys := SortInts(order);
    result := Arrange(items, keys);
  }

  /**
   * The two loops of `parse_items` that fill the `items` dictionary; `order`
   * is the dictionary's key list.
   */
  method GroupParams(params: seq<Param>, prefix: string, keywords: seq<string>) returns (items: map<int, Item>, order: seq<int>)
    ensures Table(items, order) == Grouped(params, |params|, prefix, keywords)
  {
    items, order := map[], [];
    for i := 0 to |params|
      invariant Table(items, order) == Grouped(params, i, prefix, keywords)
    {
      var key := params[i].key;
      for j := 0 to |keywords|
        invariant Table(items, order) == AddKey(Grouped(params, i, prefix, keywords), key, ValueOf(params, key), prefix, keywords[..j])
      {
        assert keywords[..j + 1][..j] == keywords[..j];
        ghost var before := Table(items, order);
        assert AddKey(Grouped(params, i, prefix, keywords), key, ValueOf(params, key), prefix, keywords[..j + 1])
            == AddMatch(before, key, ValueOf(params, key), prefix, keywords[j]);
        var keyword := keywords[j];
        // the key must start with prefix + keyword, and int() must accept the rest
        var itemNum := ItemNumber(key, prefix + keyword);
        if itemNum.None? {
          continue;
        }
        var n := itemNum.value;
        if n !in items {
          items, order := items[n := map[]], order + [n];
        }
        items := items[n := items[n][keyword := ValueOf(params, key)]];
      }
      assert keywords[..|keywords|] == keywords;
    }
  }

  /* ------------------------------------------------------------------ */
  /* What the grouping keeps: the loop invariant of parse_items           */
  /* ------------------------------------------------------------------ */

  /** Parameter `i` with keyword `j` carries item number `k`. */
  ghost predicate Matches(params: seq<Param>, prefix: string, keywords: seq<string>, i: int, j: int, k: int)
  {
    0 <= i < |params| && 0 <= j < |keywords| && ItemNumber(params[i].key, prefix + keywords[j]) == Some(k)
  }

  /** Pair (i, j) has been visited once the loops stand at parameter n, keyword m. */
  ghost predicate Visited(n: nat, m: nat, i: int, j: int)
  {
    i < n || (i == n && j < m)
  }

  /** `list(items)` lists the keys of `items`, each once. */
  ghost predicate KeysListed(t: Table)
  {
    Distinct(t.keys) && forall k :: k in t.items <==> k in t.keys
  }

  /** No item is an empty dictionary. */
  ghost predicate NoEmptyItem(t: Table)
  {
    forall k :: k in t.items ==> t.items[k] != map[]
  }

  /** Every entry comes from a visited match and holds that parameter's value. */
  ghost predicate EntriesFromMatches(t: Table, params: seq<Param>, prefix: string, keywords: seq<string>, n: nat, m: nat)
  {
    forall k, kw :: k in t.items && kw in t.items[k] ==>
      exists i, j :: Matches(params, prefix, keywords, i, j, k) && Visited(n, m, i, j) &&
        keywords[j] == kw && t.items[k][kw] == ValueOf(params, params[i].key)
  }

  /** Every visited match has its entry. */
  ghost predicate MatchesEntered(t: Table, params: seq<Param>, prefix: string, keywords: seq<string>, n: nat, m: nat)
  {
    forall i, j, k :: Matches(params, prefix, keywords, i, j, k) && Visited(n, m, i, j) ==>
      k in t.items && keywords[j] in t.items[k]
  }

  /** What the dictionary holds once the loops have visited everything before (n, m). */
  ghost predicate GroupInv(t: Table, params: seq<Param>, prefix: string, keywords: seq<string>, n: nat, m: nat)
  {
    && KeysListed(t)
    && NoEmptyItem(t)
    && EntriesFromMatches(t, params, prefix, keywords, n, m)
    && MatchesEntered(t, params, prefix, keywords, n, m)
  }

  /** Visiting more pairs keeps every entry's origin a visited one. */
  lemma EntriesWiden(t: Table, params: seq<Param>, prefix: string, keywords: seq<string>, n: nat, m: nat, n': nat, m': nat)
    requires EntriesFromMatches(t, params, prefix, keywords, n, m)
    requires forall i, j :: Visited(n, m, i, j) ==> Visited(n', m', i, j)
    ensures EntriesFromMatches(t, params, prefix, keywords, n', m')
  {
    forall k, kw | k in t.items && kw in t.items[k]
      ensures exists i, j :: Matches(params, prefix, keywords, i, j, k) && Visited(n', m', i, j) &&
                keywords[j] == kw && t.items[k][kw] == ValueOf(params, params[i].key)
    {
      var i, j :| Matches(params, prefix, keywords, i, j, k) && Visited(n, m, i, j) &&
                  keywords[j] == kw && t.items[k][kw] == ValueOf(params, params[i].key);
      assert Visited(n', m', i, j);
    }
  }

  /** A pair without a match adds nothing. */
  lemma AddNoMatchInv(t: Table, params: seq<Param>, prefix: string, keywords: seq<string>, n: nat, m: nat)
    requires n < |params| && m < |keywords|
    requires ItemNumber(params[n].key, prefix + keywords[m]) == None
    requires GroupInv(t, params, prefix, keywords, n, m)
    ensures GroupInv(t, params, prefix, keywords, n, m + 1)
  {
    EntriesWiden(t, params, prefix, keywords, n, m, n, m + 1);
    forall i, j, k | Matches(params, prefix, keywords, i, j, k) && Visited(n, m + 1, i, j)
      ensures k in t.items && keywords[j] in t.items[k]
    {
      assert Visited(n, m, i, j);
    }
  }

  /** A match of pair (n, m) with item number k0 enters its entry. */
  lemma AddSomeMatchInv(t: Table, params: seq<Param>, prefix: string, keywords: seq<string>, n: nat, m: nat, k0: int)
    requires n < |params| && m < |keywords|
    requires ItemNumber(params[n].key, prefix + keywords[m]) == Some(k0)
    requires GroupInv(t, params, prefix, keywords, n, m)
    ensures GroupInv(AddMatch(t, params[n].key, ValueOf(params, params[n].key), prefix, keywords[m]),
                     params, prefix, keywords, n, m + 1)
  {
    var key := params[n].key;
    var t' := AddMatch(t, key, ValueOf(params, key), prefix, keywords[m]);
    var old0: Item := if k0 in t.items then t.items[k0] else map[];
    assert t'.items == t.items[k0 := old0[keywords[m] := ValueOf(params, key)]];
    assert t'.keys == if k0 in t.items then t.keys else t.keys + [k0];
    EntriesWiden(t, params, prefix, keywords, n, m, n, m + 1);
    EnteredEntries(t, t', params, prefix, keywords, n, m, k0);
    EnteredMatches(t, t', params, prefix, keywords, n, m, k0);
    KeysListedKept(t, t', k0, keywords[m], ValueOf(params, key));
  }

  /** Entering a value under item number k0 keeps the key list exact and no item empty. */
  lemma KeysListedKept(t: Table, t': Table, k0: int, kw0: string, v: string)
    requires KeysListed(t) && NoEmptyItem(t)
    requires t'.items == t.items[k0 := (if k0 in t.items then t.items[k0] else map[])[kw0 := v]]
    requires t'.keys == if k0 in t.items then t.keys else t.keys + [k0]
    ensures KeysListed(t') && NoEmptyItem(t')
  {
    if k0 !in t.items {
      assert k0 !in t.keys;
    }
    assert kw0 in t'.items[k0];
  }

  lemma EnteredEntries(t: Table, t': Table, params: seq<Param>, prefix: string, keywords: seq<string>, n: nat, m: nat, k0: int)
    requires n < |params| && m < |keywords|
    requires ItemNumber(params[n].key, prefix + keywords[m]) == Some(k0)
    requires EntriesFromMatches(t, params, prefix, keywords, n, m + 1)
    requires t'.items == t.items[k0 := (if k0 in t.items then t.items[k0] else map[])[keywords[m] := ValueOf(params, params[n].key)]]
    ensures EntriesFromMatches(t', params, prefix, keywords, n, m + 1)
  {
    assert Matches(params, prefix, keywords, n, m, k0);
    forall k, kw | k in t'.items && kw in t'.items[k]
      ensures exists i, j :: Matches(params, prefix, keywords, i, j, k) && Visited(n, m + 1, i, j) &&
                keywords[j] == kw && t'.items[k][kw] == ValueOf(params, params[i].key)
    {
      if k == k0 && kw == keywords[m] {
        assert Visited(n, m + 1, n, m);
        assert t'.items[k][kw] == ValueOf(params, params[n].key);
      } else {
        assert k in t.items && kw in t.items[k] && t'.items[k][kw] == t.items[k][kw];
        var i, j :| Matches(params, prefix, keywords, i, j, k) && Visited(n, m + 1, i, j) &&
                    keywords[j] == kw && t.items[k][kw] == ValueOf(params, params[i].key);
        assert t'.items[k][kw] == ValueOf(params, params[i].key);
      }
    }
  }

  lemma EnteredMatches(t: Table, t': Table, params: seq<Param>, prefix: string, keywords: seq<string>, n: nat, m: nat, k0: int)
    requires n < |params| && m < |keywords|
    requires ItemNumber(params[n].key, prefix + keywords[m]) == Some(k0)
    requires MatchesEntered(t, params, prefix, keywords, n, m)
    requires t'.items == t.items[k0 := (if k0 in t.items then t.items[k0] else map[])[keywords[m] := ValueOf(params, params[n].key)]]
    ensures MatchesEntered(t', params, prefix, keywords, n, m + 1)
  {
    MapGrows(t, t', k0, keywords[m], ValueOf(params, params[n].key));
    forall i, j, k | Matches(params, prefix, keywords, i, j, k) && Visited(n, m + 1, i, j)
      ensures k in t'.items && keywords[j] in t'.items[k]
    {
      if i == n && j == m {
        assert k == k0;
      } else {
        assert Visited(n, m, i, j);
      }
    }
  }

  /** Setting one entry keeps every other entry's key. */
  lemma MapGrows(t: Table, t': Table, k0: int, kw0: string, v: string)
    requires t'.items == t.items[k0 := (if k0 in t.items then t.items[k0] else map[])[kw0 := v]]
    ensures forall k, kw :: k in t.items && kw in t.items[k] ==> k in t'.items && kw in t'.items[k]
    ensures k0 in t'.items && kw0 in t'.items[k0]
  {
  }

  lemma AddMatchInv(t: Table, params: seq<Param>, prefix: string, keywords: seq<string>, n: nat, m: nat)
    requires n < |params| && m < |keywords|
    requires GroupInv(t, params, prefix, keywords, n, m)
    ensures GroupInv(AddMatch(t, params[n].key, ValueOf(params, params[n].key), prefix, keywords[m]),
                     params, prefix, keywords, n, m + 1)
  {
    match ItemNumber(params[n].key, prefix + keywords[m])
    case None => AddNoMatchInv(t, params, prefix, keywords, n, m);
    case Some(k0) => AddSomeMatchInv(t, params, prefix, keywords, n, m, k0);
  }

  lemma {:induction false} AddKeyInv(t: Table, params: seq<Param>, prefix: string, keywords: seq<string>, n: nat, m: nat)
    requires n < |params| && m <= |keywords|
    requires GroupInv(t, params, prefix, keywords, n, 0)
    ensures GroupInv(AddKey(t, params[n].key, ValueOf(params, params[n].key), prefix, keywords[..m]),
                     params, prefix, keywords, n, m)
  {
    if m > 0 {
      assert keywords[..m][..m - 1] == keywords[..m - 1];
      assert keywords[..m][m - 1] == keywords[m - 1];
      AddKeyInv(t, params, prefix, keywords, n, m - 1);
      AddMatchInv(AddKey(t, params[n].key, ValueOf(params, params[n].key), prefix, keywords[..m - 1]),
                  params, prefix, keywords, n, m - 1);
    }
  }

  /** Having visited every keyword of parameter n is having visited parameter n. */
  lemma NextParamInv(t: Table, params: seq<Param>, prefix: string, keywords: seq<string>, n: nat)
    requires n < |params|
    requires GroupInv(t, params, prefix, keywords, n, |keywords|)
    ensures GroupInv(t, params, prefix, keywords, n + 1, 0)
  {
    EntriesWiden(t, params, prefix, keywords, n, |keywords|, n + 1, 0);
    forall i, j, k | Matches(params, prefix, keywords, i, j, k) && Visited(n + 1, 0, i, j)
      ensures k in t.items && keywords[j] in t.items[k]
    {
      assert Visited(n, |keywords|, i, j);
    }
  }

  lemma {:induction false} GroupedInv(params: seq<Param>, prefix: string, keywords: seq<string>, n: nat)
    requires n <= |params|
    ensures GroupInv(Grouped(params, n, prefix, keywords), params, prefix, keywords, n, 0)
  {
    if n > 0 {
      var key := params[n - 1].key;
      var t := Grouped(params, n - 1, prefix, keywords);
      GroupedInv(params, prefix, keywords, n - 1);
      AddKeyInv(t, params, prefix, keywords, n - 1, |keywords|);
      assert keywords[..|keywords|] == keywords;
      var t' := AddKey(t, key, ValueOf(params, key), prefix, keywords);
      assert GroupInv(t', params, prefix, keywords, n - 1, |keywords|);
      NextParamInv(t', params, prefix, keywords, n - 1);
      assert Grouped(params, n, prefix, keywords) == t';
    }
  }

  /** The dictionary `parse_items` builds lists its keys, each once. */
  lemma GroupedKeysListed(params: seq<Param>, prefix: string, keywords: seq<string>)
    ensures KeysListed(Grouped(params, |params|, prefix, keywords))
  {
    GroupedInv(params, prefix, keywords, |params|);
  }

  /* ------------------------------------------------------------------ */
  /* What parse_items returns                                            */
  /* ------------------------------------------------------------------ */

  /** Some parameter key, read with some keyword, carries item number k. */
  ghost predicate Parsed(params: seq<Param>, prefix: string, keywords: seq<string>, k: int)
  {
    exists i, j :: Matches(params, prefix, keywords, i, j, k)
  }

  /**
   * The dictionaries come out in strictly ascending order of item number,
   * one dictionary per number.
   */
  lemma ParsedItemsAscending(params: seq<Param>, prefix: string, keywords: seq<string>)
    ensures |ParsedItems(params, prefix, keywords)| == |ItemNumbers(params, prefix, keywords)|
    ensures StrictlyIncreasing(ItemNumbers(params, prefix, keywords))
  {
    var t := Grouped(params, |params|, prefix, keywords);
    GroupedKeysListed(params, prefix, keywords);
    DistinctMultiplicity(t.keys);
    SortedDistinct(SortInts(t.keys));
  }

  /**
   * An item number is emitted exactly when some parameter key starts with
   * `prefix + keyword` and `int()` accepts the rest; every other key is
   * ignored.
   */
  lemma ParsedItemsNumbers(params: seq<Param>, prefix: string, keywords: seq<string>)
    ensures forall k :: k in ItemNumbers(params, prefix, keywords) <==> Parsed(params, prefix, keywords, k)
  {
    var t := Grouped(params, |params|, prefix, keywords);
    var ks := ItemNumbers(params, prefix, keywords);
    GroupedInv(params, prefix, keywords, |params|);
    assert multiset(ks) == multiset(t.keys);
    forall k
      ensures k in ks <==> Parsed(params, prefix, keywords, k)
    {
      assert k in ks <==> k in multiset(ks);
      assert k in t.keys <==> k in multiset(t.keys);
      if k in t.items {
        var kw :| kw in t.items[k];
        var i, j :| Matches(params, prefix, keywords, i, j, k) && Visited(|params|, 0, i, j) &&
                    keywords[j] == kw && t.items[k][kw] == ValueOf(params, params[i].key);
      }
      if Parsed(params, prefix, keywords, k) {
        var i, j :| Matches(params, prefix, keywords, i, j, k);
        assert Visited(|params|, 0, i, j);
      }
    }
  }

  /**
   * The n-th dictionary belongs to the n-th item number; it is not empty;
   * each of its keys is a keyword read off a parameter key carrying that
   * number, with the request's value for that parameter key.
   */
  lemma ParsedItemsEntries(params: seq<Param>, prefix: string, keywords: seq<string>, n: nat)
    requires n < |ItemNumbers(params, prefix, keywords)|
    ensures var r := ParsedItems(params, prefix, keywords);
            var k := ItemNumbers(params, prefix, keywords)[n];
            n < |r| && r[n] != map[] &&
            forall kw :: kw in r[n] ==>
              exists i, j :: Matches(params, prefix, keywords, i, j, k) && keywords[j] == kw &&
                             r[n][kw] == ValueOf(params, params[i].key)
  {
    var t := Grouped(params, |params|, prefix, keywords);
    var ks := ItemNumbers(params, prefix, keywords);
    var r := ParsedItems(params, prefix, keywords);
    GroupedInv(params, prefix, keywords, |params|);
    var k := ks[n];
    assert k in t.keys;
    assert r[n] == t.items[k];
    forall kw | kw in r[n]
      ensures exists i, j :: Matches(params, prefix, keywords, i, j, k) && keywords[j] == kw &&
                             r[n][kw] == ValueOf(params, params[i].key)
    {
      var i, j :| Matches(params, prefix, keywords, i, j, k) && Visited(|params|, 0, i, j) &&
                  keywords[j] == kw && t.items[k][kw] == ValueOf(params, params[i].key);
    }
  }

  /**
   * Nothing is lost: when parameter i read with keyword j carries item
   * number k, the dictionary of number k holds that keyword.
   */
  lemma ParsedItemsComplete(params: seq<Param>, prefix: string, keywords: seq<string>, i: nat, j: nat, k: int)
    requires Matches(params, prefix, keywords, i, j, k)
    ensures exists n :: 0 <= n < |ItemNumbers(params, prefix, keywords)| && ItemNumbers(params, prefix, keywords)[n] == k &&
                        n < |ParsedItems(params, prefix, keywords)| && keywords[j] in ParsedItems(params, prefix, keywords)[n]
  {
    var t := Grouped(params, |params|, prefix, keywords);
    var ks := ItemNumbers(params, prefix, keywords);
    GroupedInv(params, prefix, keywords, |params|);
    assert Visited(|params|, 0, i, j);
    assert k in t.keys;
    assert multiset(ks) == multiset(t.keys);
    assert k in multiset(t.keys);
    assert k in ks;
    var n :| 0 <= n < |ks| && ks[n] == k;
    assert ParsedItems(params, prefix, keywords)[n] == t.items[k];
  }
}
