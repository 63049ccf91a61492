/**
 * `tolls_function` of tarifas.py: read the toll quantity, then for each toll
 * a name and a validated price, store the price under the name in a dict
 * (a repeated name overwrites), and total the dict's values.
 */
module Tolls {
  import opened Wrappers
  import opened Input

  /** One (name, price) pair as the user entered it. */
  datatype TollEntry = TollEntry(name: string, price: real)

  /**
   * The `tolls` dict: the price stored under each name, and the dict's
   * iteration order (the order in which names were first inserted).
   */
  datatype TollTable = TollTable(prices: map<string, real>, order: seq<string>) {
    ghost predicate Valid() {
      && (forall i, j :: 0 <= i < j < |order| ==> order[i] != order[j])
      && (forall k :: k in prices <==> k in order)
    }
  }

  /** The dict `{}` the collection starts from. */
  const Empty := TollTable(map[], [])

  /** The dict `{}` is well formed and totals 0. */
  lemma EmptyTotal()
    ensures Empty.Valid() && Total(Empty) == 0.0
  {
  }

  /** Assigning a price to a name in the dict. */
  function Insert(t: TollTable, name: string, price: real): (r: TollTable)
    requires t.Valid()
    ensures r.Valid()
  {
    if name in t.prices then
      TollTable(t.prices[name := price], t.order)
    else
      TollTable(t.prices[name := price], t.order + [name])
  }

  /** Storing under a name replaces its price and touches no other name; a name
      already present keeps its place in the order and the key count, a new
      name goes last and adds one key. */
  lemma InsertOverwrites(t: TollTable, name: string, price: real)
    requires t.Valid()
    ensures var r := Insert(t, name, price);
            && name in r.prices && r.prices[name] == price
            && (forall k :: k != name ==> (k in r.prices <==> k in t.prices))
            && (forall k :: k != name && k in t.prices ==> r.prices[k] == t.prices[k])
            && (name in t.prices ==> r.order == t.order && |r.prices| == |t.prices|)
            && (name !in t.prices ==> r.order == t.order + [name] && |r.prices| == |t.prices| + 1)
  {
    if name !in t.prices {
      assert t.prices[name := price].Keys == t.prices.Keys + {name};
    }
  }

  /** Sum of the prices of `keys`, added left to right as `sum()` does. */
  function SumOver(keys: seq<string>, prices: map<string, real>): (r: real)
    requires forall k :: k in keys ==> k in prices
  {
    if keys == [] then 0.0 else SumOver(keys[..|keys| - 1], prices) + prices[keys[|keys| - 1]]
  }

  /** The sum of the dict's values, taken in its iteration order: 0 for the
      empty dict, and never negative when no price is. */
  function Total(t: TollTable): (r: real)
    requires t.Valid()
    ensures t.prices == map[] ==> r == 0.0
    ensures (forall k :: k in t.prices ==> t.prices[k] >= 0.0) ==> r >= 0.0
  {
    SumOverNonNegative(t.order, t.prices);
    SumOver(t.order, t.prices)
  }

  lemma {:induction false} SumOverAgree(keys: seq<string>, m: map<string, real>, m': map<string, real>)
    requires forall k :: k in keys ==> k in m && k in m' && m[k] == m'[k]
    ensures SumOver(keys, m) == SumOver(keys, m')
  {
    if keys != [] {
      SumOverAgree(keys[..|keys| - 1], m, m');
    }
  }

  /** Changing the price of a key that occurs once in `keys` changes the sum by the difference. */
  lemma {:induction false} SumOverUpdate(keys: seq<string>, m: map<string, real>, name: string, price: real)
    requires forall k :: k in keys ==> k in m
    requires forall i, j :: 0 <= i < j < |keys| ==> keys[i] != keys[j]
    requires name in keys
    ensures SumOver(keys, m[name := price]) == SumOver(keys, m) - m[name] + price
  {
    var pre := keys[..|keys| - 1];
    if keys[|keys| - 1] == name {
      assert name !in pre by {
        forall i | 0 <= i < |pre| ensures pre[i] != name {
          assert keys[i] != keys[|keys| - 1];
        }
      }
      SumOverAgree(pre, m, m[name := price]);
    } else {
      assert name in pre by {
        var i :| 0 <= i < |keys| && keys[i] == name;
        assert pre[i] == name;
      }
      SumOverUpdate(pre, m, name, price);
    }
  }

  lemma {:induction false} SumOverNonNegative(keys: seq<string>, m: map<string, real>)
    requires forall k :: k in keys ==> k in m
    ensures (forall k :: k in keys ==> m[k] >= 0.0) ==> SumOver(keys, m) >= 0.0
  {
    if keys != [] {
      SumOverNonNegative(keys[..|keys| - 1], m);
    }
  }

  /** Overwriting never double-counts: the total loses the old price of the
      name (if any) and gains the new one. */
  lemma InsertTotal(t: TollTable, name: string, price: real)
    requires t.Valid()
    ensures Total(Insert(t, name, price)) == Total(t) - (if name in t.prices then t.prices[name] else 0.0) + price
  {
    var m := t.prices[name := price];
    if name in t.prices {
      assert Insert(t, name, price) == TollTable(m, t.order);
      SumOverUpdate(t.order, t.prices, name, price);
    } else {
      var order := t.order + [name];
      assert Insert(t, name, price) == TollTable(m, order);
      assert order[..|order| - 1] == t.order;
      assert SumOver(order, m) == SumOver(t.order, m) + price;
      SumOverAgree(t.order, t.prices, m);
    }
  }

  /** The names among the entries. */
  function Names(entries: seq<TollEntry>): (r: set<string>) {
    if entries == [] then {} else Names(entries[..|entries| - 1]) + {entries[|entries| - 1].name}
  }

  lemma {:induction false} InNames(entries: seq<TollEntry>, k: string)
    ensures k in Names(entries) <==> exists i :: 0 <= i < |entries| && entries[i].name == k
  {
    if entries != [] {
      var pre := entries[..|entries| - 1];
      InNames(pre, k);
      if k in Names(pre) {
        var i :| 0 <= i < |pre| && pre[i].name == k;
        assert entries[i].name == k;
      }
    }
  }

  /** The dict after the entries were stored one after the other: one key
      per distinct name, so never more keys than entries. */
  function Build(entries: seq<TollEntry>): (t: TollTable)
    ensures t.Valid()
  {
    if entries == [] then Empty
    else
      var last := entries[|entries| - 1];
      Insert(Build(entries[..|entries| - 1]), last.name, last.price)
  }

  /** One key per distinct name entered, so never more keys than entries. */
  lemma {:induction false} BuildKeys(entries: seq<TollEntry>)
    ensures Build(entries).prices.Keys == Names(entries)
    ensures |Build(entries).prices| <= |entries|
  {
    if entries != [] {
      var pre := entries[..|entries| - 1];
      var last := entries[|entries| - 1];
      BuildKeys(pre);
      var t := Build(pre);
      assert Build(entries).prices == t.prices[last.name := last.price];
      assert Build(entries).prices.Keys == t.prices.Keys + {last.name};
    }
  }

  /** Last write wins: a name holds the price of its last entry. */
  lemma {:induction false} BuildLastWins(entries: seq<TollEntry>, i: nat)
    requires i < |entries|
    requires forall j :: i < j < |entries| ==> entries[j].name != entries[i].name
    ensures entries[i].name in Build(entries).prices
    ensures Build(entries).prices[entries[i].name] == entries[i].price
  {
    if i < |entries| - 1 {
      var pre := entries[..|entries| - 1];
      BuildLastWins(pre, i);
    }
  }

  /** Every stored price is a price that was entered. */
  lemma {:induction false} BuildPricesNonNegative(entries: seq<TollEntry>)
    requires forall e :: e in entries ==> e.price >= 0.0
    ensures forall k :: k in Build(entries).prices ==> Build(entries).prices[k] >= 0.0
  {
    if entries != [] {
      var pre := entries[..|entries| - 1];
      assert forall e :: e in pre ==> e in entries;
      BuildPricesNonNegative(pre);
    }
  }

  /** Sum of every price entered, overwritten ones included. */
  function EnteredSum(entries: seq<TollEntry>): (r: real) {
    if entries == [] then 0.0 else EnteredSum(entries[..|entries| - 1]) + entries[|entries| - 1].price
  }

  /** With non-negative prices the total is at most the sum of everything
      entered: overwritten prices are not counted. */
  lemma {:induction false} TotalAtMostEntered(entries: seq<TollEntry>)
    requires forall e :: e in entries ==> e.price >= 0.0
    ensures Total(Build(entries)) <= EnteredSum(entries)
  {
    if entries != [] {
      var pre := entries[..|entries| - 1];
      var last := entries[|entries| - 1];
      assert forall e :: e in pre ==> e in entries;
      TotalAtMostEntered(pre);
      BuildPricesNonNegative(pre);
      InsertTotal(Build(pre), last.name, last.price);
    }
  }

  /** Without repeated names, the total is exactly the sum of what was entered. */
  lemma {:induction false} TotalOfDistinctNames(entries: seq<TollEntry>)
    requires forall i, j :: 0 <= i < j < |entries| ==> entries[i].name != entries[j].name
    ensures Total(Build(entries)) == EnteredSum(entries)
  {
    if entries != [] {
      var pre := entries[..|entries| - 1];
      var last := entries[|entries| - 1];
      TotalOfDistinctNames(pre);
      InNames(pre, last.name);
      BuildKeys(pre);
      InsertTotal(Build(pre), last.name, last.price);
    }
  }

  /** One toll: a name line, then price lines until one is a non-negative amount;
      None when the input runs out first. */
  function NextToll(input: seq<Line>, pos: nat): (res: Option<(TollEntry, nat)>)
    requires pos <= |input|
    ensures res.Some? ==> pos < res.value.1 <= |input| && res.value.0.price >= 0.0
    ensures res.None? ==> pos == |input| || Scan(input, pos + 1, RealValue, NonNegative).0.None?
  {
    if pos == |input| then None
    else
      var price := Scan(input, pos + 1, RealValue, NonNegative);
      if price.0.None? then None
      else Some((TollEntry(input[pos].stripped, price.0.value), price.1))
  }

  /** One pass of the `for` loop of `tolls_function`: read the toll's name,
      then retry its price until it is a number >= 0. */
  method ReadToll(input: seq<Line>, pos: nat) returns (entry: Option<TollEntry>, next: nat)
    requires pos <= |input|
    ensures entry.Some? ==> entry.value.price >= 0.0
    ensures entry.None? ==> NextToll(input, pos).None? && next == |input|
    ensures entry.Some? ==> NextToll(input, pos) == Some((entry.value, next))
  {
    if pos == |input| {
      return None, pos;  // EOFError at the name prompt
    }
    var name := input[pos].stripped;
    var price;
    price, next := ReadValidated(input, pos + 1, RealValue, NonNegative);
    if price.None? {
      return None, next;
    }
    entry := Some(TollEntry(name, price.value));
  }

  /** The first `count` tolls read from `pos` on, and the position after them;
      None when the input runs out first. */
  function TollEntries(input: seq<Line>, pos: nat, count: nat): (res: Option<(seq<TollEntry>, nat)>)
    requires pos <= |input|
    ensures res.Some? ==> |res.value.0| == count && pos <= res.value.1 <= |input|
    ensures res.Some? ==> forall e :: e in res.value.0 ==> e.price >= 0.0
  {
    if count == 0 then Some(([], pos))
    else
      match TollEntries(input, pos, count - 1)
      case None => None
      case Some(done) =>
        match NextToll(input, done.1)
        case None => None
        case Some(one) => Some((done.0 + [one.0], one.1))
  }

  /** Once the input has run out, asking for more tolls does not help. */
  lemma {:induction false} TollEntriesStaysNone(input: seq<Line>, pos: nat, count: nat, more: nat)
    requires pos <= |input|
    requires count <= more
    requires TollEntries(input, pos, count).None?
    ensures TollEntries(input, pos, more).None?
    decreases more - count
  {
    if count < more {
      TollEntriesStaysNone(input, pos, count + 1, more);
    }
  }

  lemma TollEntriesStep(input: seq<Line>, pos: nat, count: nat, entries: seq<TollEntry>, entry: TollEntry, after: nat)
    requires pos <= |input|
    requires TollEntries(input, pos, count).Some?
    requires TollEntries(input, pos, count).value.0 == entries
    requires NextToll(input, TollEntries(input, pos, count).value.1) == Some((entry, after))
    ensures TollEntries(input, pos, count + 1) == Some((entries + [entry], after))
  {
  }

  lemma TollEntriesFail(input: seq<Line>, pos: nat, count: nat)
    requires pos <= |input|
    requires TollEntries(input, pos, count).Some?
    requires NextToll(input, TollEntries(input, pos, count).value.1).None?
    ensures TollEntries(input, pos, count + 1).None?
  {
  }

  lemma BuildStep(entries: seq<TollEntry>, entry: TollEntry)
    ensures Build(entries + [entry]) == Insert(Build(entries), entry.name, entry.price)
  {
    assert (entries + [entry])[..|entries|] == entries;
  }

  /** What `tolls_function` returns: the dict and its total. */
  datatype TollSummary = TollSummary(tolls: TollTable, totalTolls: real)

  /** The outcome `tolls_function` has on the given lines: the quantity, then
      that many tolls, stored one after the other; None at the end of the
      input when it runs out first. */
  function TollsOutcome(input: seq<Line>, start: nat): (res: (Option<TollSummary>, nat))
    requires start <= |input|
    ensures start <= res.1 <= |input|
    ensures res.0.None? ==> res.1 == |input|
    ensures var r := res.0;
            r.Some? ==> && r.value.tolls.Valid()
                        && (forall k :: k in r.value.tolls.prices ==> r.value.tolls.prices[k] >= 0.0)
                        && r.value.totalTolls == Total(r.value.tolls)
                        && r.value.totalTolls >= 0.0
  {
    var quantity := Scan(input, start, IntValue, NonNegativeCount);
    if quantity.0.None? then (None, |input|)
    else
      var read := TollEntries(input, quantity.1, quantity.0.value);
      if read.None? then (None, |input|)
      else
        BuildPricesNonNegative(read.value.0);
        (Some(TollSummary(Build(read.value.0), Total(Build(read.value.0)))), read.value.1)
  }

  /** When the toll after the first `count` cannot be read, the whole read fails. */
  lemma TollsOutcomeRunsOut(input: seq<Line>, start: nat, count: nat)
    requires start <= |input|
    requires Scan(input, start, IntValue, NonNegativeCount).0.Some?
    requires count < Scan(input, start, IntValue, NonNegativeCount).0.value
    requires TollEntries(input, Scan(input, start, IntValue, NonNegativeCount).1, count).Some?
    requires NextToll(input, TollEntries(input, Scan(input, start, IntValue, NonNegativeCount).1, count).value.1).None?
    ensures TollsOutcome(input, start) == (None, |input|)
  {
    var quantity := Scan(input, start, IntValue, NonNegativeCount);
    TollEntriesFail(input, quantity.1, count);
    TollEntriesStaysNone(input, quantity.1, count + 1, quantity.0.value);
  }

  /** The dict has at most as many keys as the quantity entered, and none when
      the quantity is zero. */
  lemma TollsOutcomeKeyCount(input: seq<Line>, start: nat)
    requires start <= |input|
    ensures var quantity := Scan(input, start, IntValue, NonNegativeCount);
            var r := TollsOutcome(input, start).0;
            r.Some? ==> quantity.0.Some? && |r.value.tolls.prices| <= quantity.0.value
    ensures var r := TollsOutcome(input, start).0;
            r.Some? && Scan(input, start, IntValue, NonNegativeCount).0 == Some(0) ==>
              r.value.tolls == Empty && r.value.totalTolls == 0.0
  {
    var quantity := Scan(input, start, IntValue, NonNegativeCount);
    if quantity.0.Some? {
      var read := TollEntries(input, quantity.1, quantity.0.value);
      if read.Some? {
        BuildKeys(read.value.0);
      }
    }
  }

  /** "Bridge" entered twice, at 5 then 7: one key, holding 7, and a total of 7. */
  lemma RepeatedNameScenario()
    ensures var t := Build([TollEntry("Bridge", 5.0), TollEntry("Bridge", 7.0)]);
            t == TollTable(map["Bridge" := 7.0], ["Bridge"]) && Total(t) == 7.0
  {
  }

  /**
   * `tolls_function`: read the quantity (an integer >= 0), then that many
   * tolls, each a name and a price >= 0 stored under its name (overwriting),
   * and return the dict with the sum of its values. None when the input
   * ends first (EOFError in Python).
   */
  method CollectTolls(input: seq<Line>, start: nat) returns (r: Option<TollSummary>, next: nat)
    requires start <= |input|
    ensures next <= |input|
    ensures (r, next) == TollsOutcome(input, start)
    ensures r.None? ==> next == |input|
    ensures r.Some? ==> r.value.tolls.Valid() && r.value.totalTolls == Total(r.value.tolls)
    ensures r.Some? ==> r.value.totalTolls >= 0.0
    ensures r.Some? ==> forall k :: k in r.value.tolls.prices ==> r.value.tolls.prices[k] >= 0.0
  {
    var quantity;
    quantity, next := ReadValidated(input, start, IntValue, NonNegativeCount);
    if quantity.None? {
      return None, next;
    }
    ghost var afterQuantity := next;
    var tolls := Empty;
    ghost var entries: seq<TollEntry> := [];
    for i := 0 to quantity.value
      invariant TollEntries(input, afterQuantity, i) == Some((entries, next))
      invariant tolls == Build(entries)
    {
      var entry;
      entry, next := ReadToll(input, next);
      if entry.None? {
        TollsOutcomeRunsOut(input, start, i);
        return None, next;
      }
      TollEntriesStep(input, afterQuantity, i, entries, entry.value, next);
      BuildStep(entries, entry.value);
      tolls := Insert(tolls, entry.value.name, entry.value.price);  // overwrites a repeated name
      entries := entries + [entry.value];
    }
    return Some(TollSummary(tolls, Total(tolls))), next;
  }
}
