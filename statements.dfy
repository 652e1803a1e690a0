/** The spending breakdown of the statements screen: spending (negative)
    transactions summed per category, largest first, with a drill-down list
    for the selected category. */
module Statements {
  import opened Types

  /** A pie slice: a category and its spending in cents. */
  datatype CategoryTotal = CategoryTotal(name: Category, value: nat)

  predicate IsSpending(t: Transaction, c: Category) {
    t.amount < 0 && t.category == c
  }

  /** The absolute amounts of the spending transactions of `c`, summed. */
  function SpendingIn(txs: seq<Transaction>, c: Category): nat
    decreases |txs|
  {
    if txs == [] then 0
    else
      var t := txs[|txs| - 1];
      SpendingIn(txs[..|txs| - 1], c) + (if IsSpending(t, c) then -t.amount else 0)
  }

  predicate HasSpending(txs: seq<Transaction>, c: Category) {
    exists i :: 0 <= i < |txs| && IsSpending(txs[i], c)
  }

  predicate Distinct(cs: seq<Category>) {
    forall i, j :: 0 <= i < j < |cs| ==> cs[i] != cs[j]
  }

  /** The keys of the aggregates dictionary in the order they were first
      written, which is the order `Object.entries` lists them: each category
      with spending, once, in order of its first spending transaction. */
  function SpendingCategories(txs: seq<Transaction>): (cs: seq<Category>)
    ensures Distinct(cs)
    ensures forall c :: c in cs <==> HasSpending(txs, c)
    decreases |txs|
  {
    if txs == [] then []
    else
      var init := txs[..|txs| - 1];
      var t := txs[|txs| - 1];
      var cs := SpendingCategories(init);
      assert forall i :: 0 <= i < |init| ==> init[i] == txs[i];
      if t.amount < 0 && t.category !in cs then cs + [t.category] else cs
  }

  /** A category with no spending transaction sums to nothing; one with
      some sums to more than nothing. */
  lemma {:induction false} SpendingPositiveIff(txs: seq<Transaction>, c: Category)
    ensures SpendingIn(txs, c) > 0 <==> HasSpending(txs, c)
    decreases |txs|
  {
    if txs != [] {
      var init := txs[..|txs| - 1];
      SpendingPositiveIff(init, c);
      assert forall i :: 0 <= i < |init| ==> init[i] == txs[i];
      if HasSpending(txs, c) && !IsSpending(txs[|txs| - 1], c) {
        var i :| 0 <= i < |txs| && IsSpending(txs[i], c);
        assert IsSpending(init[i], c);
      }
    }
  }

  /** The `forEach` loop: fills the aggregates dictionary, category by
      category, with the summed absolute amounts of the spending
      transactions; `keys` records the order in which keys were added. */
  method Aggregate(txs: seq<Transaction>) returns (aggregates: map<Category, nat>, keys: seq<Category>)
    ensures keys == SpendingCategories(txs)
    ensures forall c :: c in aggregates <==> HasSpending(txs, c)
    ensures forall c :: c in aggregates ==> aggregates[c] == SpendingIn(txs, c)
  {
    aggregates := map[];
    keys := [];
    for i := 0 to |txs|
      invariant keys == SpendingCategories(txs[..i])
      invariant forall c :: c in aggregates <==> c in keys
      invariant forall c :: c in aggregates ==> aggregates[c] == SpendingIn(txs[..i], c)
    {
      assert txs[..i + 1][..i] == txs[..i];
      var tx := txs[i];
      assert forall c :: SpendingIn(txs[..i + 1], c) ==
                         SpendingIn(txs[..i], c) + (if IsSpending(tx, c) then -tx.amount else 0);
      if tx.amount < 0 {
        var absAmount := -tx.amount;
        if tx.category !in aggregates {
          SpendingPositiveIff(txs[..i], tx.category);
          keys := keys + [tx.category];
        }
        var sofar := if tx.category in aggregates then aggregates[tx.category] else 0;
        aggregates := aggregates[tx.category := sofar + absAmount];
      }
    }
    assert txs[..|txs|] == txs;
  }

  predicate SortedByValueDesc(s: seq<CategoryTotal>) {
    forall i, j :: 0 <= i < j < |s| ==> s[i].value >= s[j].value
  }

  function Names(s: seq<CategoryTotal>): (ns: seq<Category>)
    ensures |ns| == |s| && forall i :: 0 <= i < |s| ==> ns[i] == s[i].name
  {
    seq(|s|, i requires 0 <= i < |s| => s[i].name)
  }

  /** Place `x` before the first entry that is not larger than it. */
  function Insert(x: CategoryTotal, s: seq<CategoryTotal>): (r: seq<CategoryTotal>)
    requires SortedByValueDesc(s)
    ensures SortedByValueDesc(r)
    ensures |r| == |s| + 1
    ensures r[0] == if s == [] || x.value >= s[0].value then x else s[0]
    decreases |s|
  {
    if s == [] || x.value >= s[0].value then [x] + s
    else
      var rest := Insert(x, s[1..]);
      assert s == [s[0]] + s[1..];
      [s[0]] + rest
  }

  function SortByValueDesc(s: seq<CategoryTotal>): (r: seq<CategoryTotal>)
    ensures SortedByValueDesc(r)
    ensures |r| == |s|
    decreases |s|
  {
    if s == [] then []
    else
      assert s == [s[0]] + s[1..];
      Insert(s[0], SortByValueDesc(s[1..]))
  }

  /** Inserting adds exactly the one slice: nothing is lost or duplicated. */
  lemma {:induction false} InsertPermutes(x: CategoryTotal, s: seq<CategoryTotal>)
    requires SortedByValueDesc(s)
    ensures multiset(Insert(x, s)) == multiset(s) + multiset{x}
    decreases |s|
  {
    if s != [] && x.value < s[0].value {
      assert s == [s[0]] + s[1..];
      InsertPermutes(x, s[1..]);
    }
  }

  /** The sort is a permutation of its input. */
  lemma {:induction false} SortPermutes(s: seq<CategoryTotal>)
    ensures multiset(SortByValueDesc(s)) == multiset(s)
    decreases |s|
  {
    if s != [] {
      assert s == [s[0]] + s[1..];
      SortPermutes(s[1..]);
      InsertPermutes(s[0], SortByValueDesc(s[1..]));
    }
  }

  predicate NoRepeats(s: seq<CategoryTotal>) {
    forall i, j :: 0 <= i < j < |s| ==> s[i] != s[j]
  }

  lemma {:induction false} NoRepeatsCountsOnce(s: seq<CategoryTotal>, e: CategoryTotal)
    requires NoRepeats(s)
    ensures multiset(s)[e] <= 1
    decreases |s|
  {
    if s != [] {
      assert s == [s[0]] + s[1..];
      NoRepeatsCountsOnce(s[1..], e);
      if e == s[0] {
        assert e !in s[1..];
      }
    }
  }

  /** A permutation of a sequence without repeats has none either. */
  lemma PermutationKeepsNoRepeats(a: seq<CategoryTotal>, b: seq<CategoryTotal>)
    requires NoRepeats(a) && multiset(a) == multiset(b)
    ensures NoRepeats(b)
  {
    forall i, j | 0 <= i < j < |b| ensures b[i] != b[j] {
      if b[i] == b[j] {
        assert b == b[..j] + [b[j]] + b[j + 1..];
        assert b[i] in b[..j];
        assert multiset(b)[b[i]] >= 2;
        NoRepeatsCountsOnce(a, b[i]);
      }
    }
  }

  /** `Object.entries(aggregates).map(...)` over the dictionary the loop
      fills: one slice per key, in key order. `parseFloat(value.toFixed(2))`
      leaves a whole number of cents as it is. */
  function Entries(txs: seq<Transaction>, keys: seq<Category>): seq<CategoryTotal> {
    seq(|keys|, i requires 0 <= i < |keys| => CategoryTotal(keys[i], SpendingIn(txs, keys[i])))
  }

  /** `categoryData`: the slices, largest first. */
  function Breakdown(txs: seq<Transaction>): seq<CategoryTotal> {
    SortByValueDesc(Entries(txs, SpendingCategories(txs)))
  }

  /** A slice is in the breakdown exactly when it names a category with
      spending and holds that category's sum. */
  lemma InBreakdownIff(txs: seq<Transaction>, e: CategoryTotal)
    ensures e in Breakdown(txs) <==>
      HasSpending(txs, e.name) && e.value == SpendingIn(txs, e.name)
  {
    var cs := SpendingCategories(txs);
    var entries := Entries(txs, cs);
    SortPermutes(entries);
    assert e in Breakdown(txs) <==> e in multiset(entries);
    if e.name in cs && e.value == SpendingIn(txs, e.name) {
      var k :| 0 <= k < |cs| && cs[k] == e.name;
      assert entries[k] == e;
    }
  }

  /** The breakdown has one slice per category with spending and no other,
      each holding that category's summed spending, ordered largest first. */
  lemma BreakdownSlices(txs: seq<Transaction>)
    ensures SortedByValueDesc(Breakdown(txs))
    ensures forall c :: c in Names(Breakdown(txs)) <==> HasSpending(txs, c)
    ensures forall e :: e in Breakdown(txs) ==> e.value == SpendingIn(txs, e.name) && e.value > 0
    ensures Distinct(Names(Breakdown(txs)))
  {
    var data := Breakdown(txs);
    forall e | e in data ensures e.value == SpendingIn(txs, e.name) && e.value > 0 {
      InBreakdownIff(txs, e);
      SpendingPositiveIff(txs, e.name);
    }
    forall c ensures c in Names(data) <==> HasSpending(txs, c) {
      if c in Names(data) {
        var i :| 0 <= i < |data| && Names(data)[i] == c;
        InBreakdownIff(txs, data[i]);
      }
      if HasSpending(txs, c) {
        var e := CategoryTotal(c, SpendingIn(txs, c));
        InBreakdownIff(txs, e);
        var i :| 0 <= i < |data| && data[i] == e;
        assert Names(data)[i] == c;
      }
    }
    BreakdownDistinct(txs);
  }

  lemma BreakdownDistinct(txs: seq<Transaction>)
    ensures Distinct(Names(Breakdown(txs)))
  {
    var entries := Entries(txs, SpendingCategories(txs));
    var data := Breakdown(txs);
    SortPermutes(entries);
    PermutationKeepsNoRepeats(entries, data);
    forall i, j | 0 <= i < j < |data| ensures Names(data)[i] != Names(data)[j] {
      InBreakdownIff(txs, data[i]);
      InBreakdownIff(txs, data[j]);
    }
  }

  /** `totalSpending`: the slice values added up from zero. */
  function TotalSpending(data: seq<CategoryTotal>): nat
    decreases |data|
  {
    if data == [] then 0 else data[0].value + TotalSpending(data[1..])
  }

  /** All spending in the statement: the absolute amounts of every negative
      transaction. */
  function AllSpending(txs: seq<Transaction>): nat
    decreases |txs|
  {
    if txs == [] then 0
    else
      var t := txs[|txs| - 1];
      AllSpending(txs[..|txs| - 1]) + (if t.amount < 0 then -t.amount else 0)
  }

  lemma {:induction false} TotalOfInsert(x: CategoryTotal, s: seq<CategoryTotal>)
    requires SortedByValueDesc(s)
    ensures TotalSpending(Insert(x, s)) == x.value + TotalSpending(s)
    decreases |s|
  {
    if s != [] && x.value < s[0].value {
      TotalOfInsert(x, s[1..]);
      assert ([s[0]] + Insert(x, s[1..]))[1..] == Insert(x, s[1..]);
    }
  }

  /** Sorting does not change the total. */
  lemma {:induction false} TotalOfSorted(s: seq<CategoryTotal>)
    ensures TotalSpending(SortByValueDesc(s)) == TotalSpending(s)
    decreases |s|
  {
    if s != [] {
      TotalOfSorted(s[1..]);
      TotalOfInsert(s[0], SortByValueDesc(s[1..]));
    }
  }

  /** One more transaction adds its absolute amount to the slice of its
      category, if that slice is among `keys`, and nothing to the others. */
  lemma {:induction false} TotalOfEntriesStep(txs: seq<Transaction>, t: Transaction, keys: seq<Category>)
    requires Distinct(keys)
    ensures TotalSpending(Entries(txs + [t], keys)) ==
      TotalSpending(Entries(txs, keys)) + (if t.amount < 0 && t.category in keys then -t.amount else 0)
    decreases |keys|
  {
    assert (txs + [t])[..|txs|] == txs;
    if keys != [] {
      TotalOfEntriesStep(txs, t, keys[1..]);
      assert Entries(txs + [t], keys)[1..] == Entries(txs + [t], keys[1..]);
      assert Entries(txs, keys)[1..] == Entries(txs, keys[1..]);
    }
  }

  lemma {:induction false} TotalOfEntriesAppend(txs: seq<Transaction>, keys: seq<Category>, c: Category)
    ensures TotalSpending(Entries(txs, keys + [c])) ==
      TotalSpending(Entries(txs, keys)) + SpendingIn(txs, c)
    decreases |keys|
  {
    if keys != [] {
      TotalOfEntriesAppend(txs, keys[1..], c);
      assert (keys + [c])[1..] == keys[1..] + [c];
      assert Entries(txs, keys + [c])[1..] == Entries(txs, keys[1..] + [c]);
      assert Entries(txs, keys)[1..] == Entries(txs, keys[1..]);
    } else {
      assert Entries(txs, [c])[1..] == [];
    }
  }

  lemma {:induction false} TotalOfEntries(txs: seq<Transaction>)
    ensures TotalSpending(Entries(txs, SpendingCategories(txs))) == AllSpending(txs)
    decreases |txs|
  {
    if txs != [] {
      var init, t := txs[..|txs| - 1], txs[|txs| - 1];
      assert txs == init + [t];
      var cs := SpendingCategories(init);
      TotalOfEntries(init);
      TotalOfEntriesStep(init, t, cs);
      if t.amount < 0 && t.category !in cs {
        TotalOfEntriesAppend(txs, cs, t.category);
        SpendingPositiveIff(init, t.category);
      }
    }
  }

  /** The total under the chart is all the spending in the statement, and
      the sum of the slices. */
  lemma TotalIsAllSpending(txs: seq<Transaction>)
    ensures TotalSpending(Breakdown(txs)) == AllSpending(txs)
  {
    TotalOfSorted(Entries(txs, SpendingCategories(txs)));
    TotalOfEntries(txs);
  }

  /** The spending transactions of `c`, in statement order. */
  function SpendingTransactions(txs: seq<Transaction>, c: Category): seq<Transaction>
    decreases |txs|
  {
    if txs == [] then []
    else
      var init, t := txs[..|txs| - 1], txs[|txs| - 1];
      SpendingTransactions(init, c) + (if IsSpending(t, c) then [t] else [])
  }

  /** The drill-down holds exactly the spending transactions of `c`. */
  lemma {:induction false} SpendingTransactionsMembers(txs: seq<Transaction>, c: Category)
    ensures forall t :: t in SpendingTransactions(txs, c) <==> t in txs && IsSpending(t, c)
    decreases |txs|
  {
    if txs != [] {
      var init, t := txs[..|txs| - 1], txs[|txs| - 1];
      SpendingTransactionsMembers(init, c);
      assert txs == init + [t];
    }
  }

  /** `filteredTransactions`: nothing without a selection, otherwise the
      selected category's spending transactions. */
  function FilteredTransactions(txs: seq<Transaction>, selected: Option<Category>): (r: seq<Transaction>)
    ensures selected.None? ==> r == []
    ensures selected.Some? ==> forall t :: t in r <==> t in txs && IsSpending(t, selected.value)
  {
    match selected
    case None => []
    case Some(c) =>
      SpendingTransactionsMembers(txs, c);
      SpendingTransactions(txs, c)
  }

  lemma SpendingTransactionsSnoc(txs: seq<Transaction>, t: Transaction, c: Category)
    ensures SpendingTransactions(txs + [t], c) ==
      SpendingTransactions(txs, c) + (if IsSpending(t, c) then [t] else [])
  {
    assert (txs + [t])[..|txs|] == txs;
  }

  /** Filtering keeps statement order: the filtered list of two pieces is the
      filtered first piece followed by the filtered second. */
  lemma {:induction false} FilterKeepsOrder(a: seq<Transaction>, b: seq<Transaction>, c: Category)
    ensures SpendingTransactions(a + b, c) == SpendingTransactions(a, c) + SpendingTransactions(b, c)
    decreases |b|
  {
    if b == [] {
      assert a + b == a;
    } else {
      var binit, t := b[..|b| - 1], b[|b| - 1];
      var tail := if IsSpending(t, c) then [t] else [];
      assert b == binit + [t];
      calc {
        SpendingTransactions(a + b, c);
        { assert a + b == (a + binit) + [t]; }
        SpendingTransactions((a + binit) + [t], c);
        { SpendingTransactionsSnoc(a + binit, t, c); }
        SpendingTransactions(a + binit, c) + tail;
        { FilterKeepsOrder(a, binit, c); }
        (SpendingTransactions(a, c) + SpendingTransactions(binit, c)) + tail;
        SpendingTransactions(a, c) + (SpendingTransactions(binit, c) + tail);
        { SpendingTransactionsSnoc(binit, t, c); }
        SpendingTransactions(a, c) + SpendingTransactions(b, c);
      }
    }
  }

  function AbsoluteSum(ts: seq<Transaction>): int
    decreases |ts|
  {
    if ts == [] then 0 else AbsoluteSum(ts[..|ts| - 1]) - ts[|ts| - 1].amount
  }

  lemma {:induction false} AbsoluteSumAppend(a: seq<Transaction>, b: seq<Transaction>)
    ensures AbsoluteSum(a + b) == AbsoluteSum(a) + AbsoluteSum(b)
    decreases |b|
  {
    if b == [] {
      assert a + b == a;
    } else {
      assert (a + b)[..|a + b| - 1] == a + b[..|b| - 1];
      AbsoluteSumAppend(a, b[..|b| - 1]);
    }
  }

  /** The drill-down list adds up to its category's slice. */
  lemma {:induction false} DrillDownAddsUp(txs: seq<Transaction>, c: Category)
    ensures AbsoluteSum(SpendingTransactions(txs, c)) == SpendingIn(txs, c)
    decreases |txs|
  {
    if txs != [] {
      var init, t := txs[..|txs| - 1], txs[|txs| - 1];
      DrillDownAddsUp(init, c);
      if IsSpending(t, c) {
        SpendingStepTakes(txs, c);
        AbsoluteSumAppend(SpendingTransactions(init, c), [t]);
        AbsoluteSumSingle(t);
      } else {
        SpendingStepSkips(txs, c);
      }
    }
  }

  lemma SpendingStepTakes(txs: seq<Transaction>, c: Category)
    requires txs != [] && IsSpending(txs[|txs| - 1], c)
    ensures SpendingTransactions(txs, c) ==
      SpendingTransactions(txs[..|txs| - 1], c) + [txs[|txs| - 1]]
    ensures SpendingIn(txs, c) == SpendingIn(txs[..|txs| - 1], c) - txs[|txs| - 1].amount
  {
  }

  lemma SpendingStepSkips(txs: seq<Transaction>, c: Category)
    requires txs != [] && !IsSpending(txs[|txs| - 1], c)
    ensures SpendingTransactions(txs, c) == SpendingTransactions(txs[..|txs| - 1], c)
    ensures SpendingIn(txs, c) == SpendingIn(txs[..|txs| - 1], c)
  {
    assert SpendingTransactions(txs, c) == SpendingTransactions(txs[..|txs| - 1], c) + [];
  }

  lemma AbsoluteSumSingle(t: Transaction)
    ensures AbsoluteSum([t]) == -t.amount
  {
    assert [t][..0] == [];
  }

  /** The default selection: with nothing selected and some slice, the
      first (largest) slice. */
  function SelectionAfter(selected: Option<Category>, data: seq<CategoryTotal>): Option<Category> {
    if selected.None? && |data| > 0 then Some(data[0].name) else selected
  }

  /** The default is a category with the most spending, and there is a
      default exactly when some transaction is spending. */
  lemma DefaultIsLargest(txs: seq<Transaction>)
    ensures SelectionAfter(None, Breakdown(txs)).Some? <==> exists c :: HasSpending(txs, c)
    ensures SelectionAfter(None, Breakdown(txs)).Some? ==>
      forall c :: SpendingIn(txs, c) <= SpendingIn(txs, SelectionAfter(None, Breakdown(txs)).value)
  {
    var data := Breakdown(txs);
    BreakdownSlices(txs);
    if exists c :: HasSpending(txs, c) {
      var c :| HasSpending(txs, c);
      assert c in Names(data);
    }
    if |data| > 0 {
      assert data[0].name in Names(data);
      forall c ensures SpendingIn(txs, c) <= SpendingIn(txs, data[0].name) {
        SpendingPositiveIff(txs, c);
        if HasSpending(txs, c) {
          var j :| 0 <= j < |data| && Names(data)[j] == c;
          assert data[0] in data && data[j] in data;
        }
      }
    }
  }

  lemma SpendingInSnoc(txs: seq<Transaction>, t: Transaction)
    ensures forall c :: SpendingIn(txs + [t], c) ==
                        SpendingIn(txs, c) + (if IsSpending(t, c) then -t.amount else 0)
  {
  }

  /** The per-category sums of the demonstration statement. */
  lemma MockSums()
    ensures SpendingIn(MockTransactions, Shopping) == 12900
    ensures SpendingIn(MockTransactions, Food) == 15165
    ensures SpendingIn(MockTransactions, Bills) == 8500
    ensures SpendingIn(MockTransactions, Transfer) == 20000
    ensures SpendingIn(MockTransactions, Income) == 0
  {
    var txs := MockTransactions;
    var s1 := [txs[0]];
    var s2 := s1 + [txs[1]];
    var s3 := s2 + [txs[2]];
    var s4 := s3 + [txs[3]];
    var s5 := s4 + [txs[4]];
    SpendingInSnoc([], txs[0]);
    SpendingInSnoc(s1, txs[1]);
    SpendingInSnoc(s2, txs[2]);
    SpendingInSnoc(s3, txs[3]);
    SpendingInSnoc(s4, txs[4]);
    SpendingInSnoc(s5, txs[5]);
    assert s5 + [txs[5]] == txs;
  }

  lemma SpendingCategoriesSnoc(txs: seq<Transaction>, t: Transaction)
    ensures SpendingCategories(txs + [t]) ==
      if t.amount < 0 && t.category !in SpendingCategories(txs)
      then SpendingCategories(txs) + [t.category] else SpendingCategories(txs)
  {
  }

  lemma CategoriesStep(txs: seq<Transaction>, t: Transaction, cs: seq<Category>)
    requires SpendingCategories(txs) == cs
    ensures SpendingCategories(txs + [t]) ==
      if t.amount < 0 && t.category !in cs then cs + [t.category] else cs
  {
    SpendingCategoriesSnoc(txs, t);
  }

  lemma CategoriesOfOne(t0: Transaction)
    requires t0.amount < 0 && t0.category == Shopping
    ensures SpendingCategories([t0]) == [Shopping]
  {
    CategoriesStep([], t0, []);
    assert [] + [t0] == [t0];
  }

  lemma CategoriesOfTwo(t0: Transaction, t1: Transaction)
    requires t0.amount < 0 && t0.category == Shopping
    requires t1.amount < 0 && t1.category == Food
    ensures SpendingCategories([t0, t1]) == [Shopping, Food]
  {
    CategoriesOfOne(t0);
    CategoriesStep([t0], t1, [Shopping]);
    assert [t0] + [t1] == [t0, t1];
  }

  lemma CategoriesOfFour(t0: Transaction, t1: Transaction, t2: Transaction, t3: Transaction)
    requires t0.amount < 0 && t0.category == Shopping
    requires t1.amount < 0 && t1.category == Food
    requires t2.amount >= 0
    requires t3.amount < 0 && t3.category == Bills
    ensures SpendingCategories([t0, t1, t2, t3]) == [Shopping, Food, Bills]
  {
    CategoriesOfTwo(t0, t1);
    CategoriesStep([t0, t1], t2, [Shopping, Food]);
    assert [t0, t1] + [t2] == [t0, t1, t2];
    CategoriesStep([t0, t1, t2], t3, [Shopping, Food]);
    assert [t0, t1, t2] + [t3] == [t0, t1, t2, t3];
  }

  /** Six transactions shaped like the demonstration statement's: the
      categories appear in the order Shopping, Food, Bills, Transfer. */
  lemma CategoriesOfSix(t0: Transaction, t1: Transaction, t2: Transaction,
                        t3: Transaction, t4: Transaction, t5: Transaction)
    requires t0.amount < 0 && t0.category == Shopping
    requires t1.amount < 0 && t1.category == Food
    requires t2.amount >= 0
    requires t3.amount < 0 && t3.category == Bills
    requires t4.amount < 0 && t4.category == Transfer
    requires t5.amount < 0 && t5.category == Food
    ensures SpendingCategories([t0, t1, t2, t3, t4, t5]) == [Shopping, Food, Bills, Transfer]
  {
    CategoriesOfFour(t0, t1, t2, t3);
    CategoriesStep([t0, t1, t2, t3], t4, [Shopping, Food, Bills]);
    assert [t0, t1, t2, t3] + [t4] == [t0, t1, t2, t3, t4];
    CategoriesStep([t0, t1, t2, t3, t4], t5, [Shopping, Food, Bills, Transfer]);
    assert [t0, t1, t2, t3, t4] + [t5] == [t0, t1, t2, t3, t4, t5];
  }

  /** The categories of the demonstration statement, in the order they
      first spend. */
  lemma MockCategories()
    ensures SpendingCategories(MockTransactions) == [Shopping, Food, Bills, Transfer]
  {
    var txs := MockTransactions;
    CategoriesOfSix(txs[0], txs[1], txs[2], txs[3], txs[4], txs[5]);
    assert txs == [txs[0], txs[1], txs[2], txs[3], txs[4], txs[5]];
  }

  /** The slices of the demonstration statement before sorting, in the
      order their categories first spend. */
  lemma MockEntries()
    ensures Entries(MockTransactions, SpendingCategories(MockTransactions)) == [
      CategoryTotal(Shopping, 12900), CategoryTotal(Food, 15165),
      CategoryTotal(Bills, 8500), CategoryTotal(Transfer, 20000)]
  {
    MockCategories();
    MockSums();
  }

  lemma InsertFront(x: CategoryTotal, s: seq<CategoryTotal>)
    requires SortedByValueDesc(s) && (s == [] || x.value >= s[0].value)
    ensures Insert(x, s) == [x] + s
  {
  }

  lemma InsertPast(x: CategoryTotal, s: seq<CategoryTotal>)
    requires SortedByValueDesc(s) && s != [] && x.value < s[0].value
    ensures Insert(x, s) == [s[0]] + Insert(x, s[1..])
  {
  }

  lemma SortFirst(s: seq<CategoryTotal>)
    requires s != []
    ensures SortByValueDesc(s) == Insert(s[0], SortByValueDesc(s[1..]))
  {
  }

  lemma SortTwoSlices(bi: CategoryTotal, tr: CategoryTotal)
    requires tr.value > bi.value
    ensures SortByValueDesc([bi, tr]) == [tr, bi]
  {
  }

  lemma SortThreeSlices(fo: CategoryTotal, bi: CategoryTotal, tr: CategoryTotal)
    requires tr.value > fo.value > bi.value
    ensures SortByValueDesc([fo, bi, tr]) == [tr, fo, bi]
  {
    SortTwoSlices(bi, tr);
    SortFirst([fo, bi, tr]);
    assert [fo, bi, tr][1..] == [bi, tr];
    InsertPast(fo, [tr, bi]);
    assert [tr, bi][1..] == [bi];
    InsertFront(fo, [bi]);
  }

  lemma InsertBetweenTwo(sh: CategoryTotal, fo: CategoryTotal, bi: CategoryTotal)
    requires fo.value > sh.value > bi.value
    ensures Insert(sh, [fo, bi]) == [fo, sh, bi]
  {
  }

  lemma InsertThirdOfThree(sh: CategoryTotal, tr: CategoryTotal, fo: CategoryTotal, bi: CategoryTotal)
    requires tr.value > fo.value > sh.value > bi.value
    ensures Insert(sh, [tr, fo, bi]) == [tr, fo, sh, bi]
  {
    var s := [tr, fo, bi];
    assert SortedByValueDesc(s);
    assert s[1..] == [fo, bi];
    InsertPast(sh, s);
    InsertBetweenTwo(sh, fo, bi);
    assert [tr] + [fo, sh, bi] == [tr, fo, sh, bi];
  }

  /** Four slices whose values are ordered tr > fo > sh > bi, entered as
      sh, fo, bi, tr: the order the demonstration statement produces. */
  lemma SortFourSlices(sh: CategoryTotal, fo: CategoryTotal, bi: CategoryTotal, tr: CategoryTotal)
    requires tr.value > fo.value > sh.value > bi.value
    ensures SortByValueDesc([sh, fo, bi, tr]) == [tr, fo, sh, bi]
  {
    SortThreeSlices(fo, bi, tr);
    SortFirst([sh, fo, bi, tr]);
    assert [sh, fo, bi, tr][1..] == [fo, bi, tr];
    InsertThirdOfThree(sh, tr, fo, bi);
  }

  /** The four mock slices, largest first, add up to the spending total and
      none of them is income. */
  lemma MockSlices(data: seq<CategoryTotal>)
    requires data == [
      CategoryTotal(Transfer, 20000), CategoryTotal(Food, 15165),
      CategoryTotal(Shopping, 12900), CategoryTotal(Bills, 8500)]
    ensures TotalSpending(data) == 56565
    ensures Income !in Names(data)
  {
    assert data[1..][1..][1..][1..] == [];
    assert TotalSpending(data[1..][1..][1..]) == 8500;
    assert TotalSpending(data[1..][1..]) == 21400;
    assert TotalSpending(data[1..]) == 36565;
    assert Names(data) == [Transfer, Food, Shopping, Bills];
  }

  /** On the demonstration statement: Transfer 200.00, Food 151.65,
      Shopping 129.00, Bills 85.00, 565.65 in all, and Income nowhere. */
  lemma MockBreakdown()
    ensures Breakdown(MockTransactions) == [
      CategoryTotal(Transfer, 20000), CategoryTotal(Food, 15165),
      CategoryTotal(Shopping, 12900), CategoryTotal(Bills, 8500)]
    ensures TotalSpending(Breakdown(MockTransactions)) == 56565
    ensures Income !in Names(Breakdown(MockTransactions))
  {
    MockEntries();
    SortFourSlices(CategoryTotal(Shopping, 12900), CategoryTotal(Food, 15165),
                   CategoryTotal(Bills, 8500), CategoryTotal(Transfer, 20000));
    MockSlices(Breakdown(MockTransactions));
  }

  /** The centre of the chart: the selected slice's value (nothing when no
      slice carries that name) or, with nothing selected, the total. */
  function CentreFigure(data: seq<CategoryTotal>, selected: Option<Category>): (r: Option<nat>)
    ensures selected.None? ==> r == Some(TotalSpending(data))
    ensures selected.Some? ==> (r.Some? <==> selected.value in Names(data))
    ensures selected.Some? && r.Some? ==> CategoryTotal(selected.value, r.value) in data
    decreases |data|
  {
    match selected
    case None => Some(TotalSpending(data))
    case Some(c) =>
      if data == [] then None
      else if data[0].name == c then Some(data[0].value)
      else
        var rest := CentreFigure(data[1..], selected);
        assert Names(data) == [data[0].name] + Names(data[1..]);
        rest
  }

  /** On a breakdown, the centre shows the selected category's whole
      spending, or the total of all spending. */
  lemma CentreOfBreakdown(txs: seq<Transaction>, selected: Option<Category>)
    ensures selected.None? ==> CentreFigure(Breakdown(txs), selected) == Some(AllSpending(txs))
    ensures selected.Some? && HasSpending(txs, selected.value) ==>
      CentreFigure(Breakdown(txs), selected) == Some(SpendingIn(txs, selected.value))
    ensures selected.Some? && !HasSpending(txs, selected.value) ==>
      CentreFigure(Breakdown(txs), selected) == None
  {
    BreakdownSlices(txs);
    TotalIsAllSpending(txs);
    var r := CentreFigure(Breakdown(txs), selected);
    if selected.Some? && r.Some? {
      assert CategoryTotal(selected.value, r.value) in Breakdown(txs);
    }
  }

  /** The statements screen: the statement it summarises and the selected
      category, which the breakdown computation defaults and a tap on a
      slice or a legend button sets. */
  class StatementsView {
    const txs: seq<Transaction>
    var selectedCategory: Option<Category>

    constructor(txs: seq<Transaction>)
      ensures this.txs == txs && selectedCategory.None?
    {
      this.txs := txs;
      selectedCategory := None;
    }

    /** `categoryData`: aggregates the statement, lists the slices in key
        order, sorts them largest first and, with nothing selected, selects
        the largest. */
    method ComputeCategoryData() returns (data: seq<CategoryTotal>)
      modifies this`selectedCategory
      ensures data == Breakdown(txs)
      ensures selectedCategory == SelectionAfter(old(selectedCategory), data)
    {
      var aggregates, keys := Aggregate(txs);
      var entries := [];
      for i := 0 to |keys|
        invariant entries == Entries(txs, keys[..i])
      {
        assert keys[i] in aggregates;
        entries := entries + [CategoryTotal(keys[i], aggregates[keys[i]])];
      }
      assert keys[..|keys|] == keys;
      data := SortByValueDesc(entries);
      if selectedCategory.None? && |data| > 0 {
        selectedCategory := Some(data[0].name);
      }
    }

    /** `filteredTransactions` for the current selection. */
    function Filtered(): (r: seq<Transaction>)
      reads this
      ensures selectedCategory.None? ==> r == []
      ensures selectedCategory.Some? ==> AbsoluteSum(r) == SpendingIn(txs, selectedCategory.value)
    {
      if selectedCategory.Some? then
        DrillDownAddsUp(txs, selectedCategory.value);
        FilteredTransactions(txs, selectedCategory)
      else
        []
    }

    /** A click or hover on the slice at `index` selects its category. */
    method SelectSlice(data: seq<CategoryTotal>, index: int)
      requires data == Breakdown(txs) && 0 <= index < |data|
      modifies this`selectedCategory
      ensures selectedCategory == Some(data[index].name)
      ensures HasSpending(txs, selectedCategory.value)
    {
      BreakdownSlices(txs);
      assert data[index].name in Names(data);
      selectedCategory := Some(data[index].name);
    }

    /** A legend button selects its category. */
    method SelectCategory(c: Category)
      modifies this`selectedCategory
      ensures selectedCategory == Some(c)
    {
      selectedCategory := Some(c);
    }
  }
}
