/** The analytics view: tasks counted per category for the pie chart and its legend. */
module AnalyticsView {
  import opened Types
  import opened Text

  /** One slice of the pie: a category and how many tasks it holds. */
  datatype CategoryEntry = CategoryEntry(name: string, value: int)

  // ---------------------------------------------------------------------
  // Which keys behave as plain keys of a JavaScript object

  /** A canonical array index ("0", "7", "42", below 2^32 - 1): a JavaScript
      object lists such keys first, in numeric order. */
  predicate IsArrayIndex(s: string) {
    s != [] && AllDigits(s) && (s == "0" || s[0] != '0') && DigitsValue(s) < 0xFFFF_FFFF
  }

  /** Names an empty object literal already answers through its prototype. */
  const InheritedNames: set<string> := {
    "constructor", "__proto__", "hasOwnProperty", "isPrototypeOf",
    "propertyIsEnumerable", "toLocaleString", "toString", "valueOf",
    "__defineGetter__", "__defineSetter__", "__lookupGetter__", "__lookupSetter__"}

  /** A key that a fresh object stores and lists in insertion order. */
  predicate IsPlainKey(s: string) {
    !IsArrayIndex(s) && s !in InheritedNames
  }

  // ---------------------------------------------------------------------
  // Specification

  /** How many tasks have category `c`. */
  function CountOf(ts: seq<Task>, c: string): (n: nat)
    ensures n <= |ts|
  {
    if ts == [] then 0
    else CountOf(ts[..|ts| - 1], c) + (if ts[|ts| - 1].category == c then 1 else 0)
  }

  /** The categories of `ts`, each once, in order of first appearance. */
  function Categories(ts: seq<Task>): (cs: seq<string>)
    ensures |cs| <= |ts|
  {
    if ts == [] then []
    else
      var cs := Categories(ts[..|ts| - 1]);
      var c := ts[|ts| - 1].category;
      if c in cs then cs else cs + [c]
  }

  /** The pie data: one entry per category, with its count. */
  function CategoryEntries(ts: seq<Task>): (r: seq<CategoryEntry>)
    ensures |r| == |Categories(ts)|
  {
    var cs := Categories(ts);
    seq(|cs|, i requires 0 <= i < |cs| => CategoryEntry(cs[i], CountOf(ts, cs[i])))
  }

  // ---------------------------------------------------------------------
  // The counting loop

  /** After `i` tasks: `keys` lists the categories seen, in order, and `counts`
      holds each one's count. */
  ghost predicate Tallied(ts: seq<Task>, i: int, counts: map<string, int>, keys: seq<string>)
    requires 0 <= i <= |ts|
  {
    && keys == Categories(ts[..i])
    && (forall c :: c in counts <==> c in keys)
    && (forall c :: c in counts ==> counts[c] == CountOf(ts[..i], c))
  }

  /** One pass of the counting loop keeps the tally. */
  lemma TallyStep(ts: seq<Task>, i: int, counts: map<string, int>, keys: seq<string>)
    requires 0 <= i < |ts| && Tallied(ts, i, counts, keys)
    ensures var c := ts[i].category;
      Tallied(ts, i + 1,
        counts[c := (if c in counts then counts[c] else 0) + 1],
        if c in counts then keys else keys + [c])
  {
    PrefixStep(ts, i);
    CategoriesMembers(ts[..i], ts[i].category);
  }

  /** A full tally lists, key by key, exactly the pie data. */
  lemma TallyEntries(ts: seq<Task>, counts: map<string, int>, keys: seq<string>)
    requires Tallied(ts, |ts|, counts, keys)
    ensures |keys| == |CategoryEntries(ts)|
    ensures forall k :: 0 <= k < |keys| ==>
      keys[k] in counts && CategoryEntries(ts)[k] == CategoryEntry(keys[k], counts[keys[k]])
  {
    assert ts[..|ts|] == ts;
  }

  /** `categoryData`: count into an object keyed by category, then list the
      object's entries. */
  method CategoryData(tasks: seq<Task>) returns (data: seq<CategoryEntry>)
    requires forall i :: 0 <= i < |tasks| ==> IsPlainKey(tasks[i].category)
    ensures data == CategoryEntries(tasks)
  {
    var counts: map<string, int> := map[];
    var keys: seq<string> := [];   // the object's own keys, in insertion order
    var i := 0;
    while i < |tasks|
      invariant 0 <= i <= |tasks|
      invariant Tallied(tasks, i, counts, keys)
    {
      var t := tasks[i];
      TallyStep(tasks, i, counts, keys);
      var previous := if t.category in counts then counts[t.category] else 0;
      if t.category !in counts {
        keys := keys + [t.category];
      }
      counts := counts[t.category := previous + 1];
      i := i + 1;
    }
    TallyEntries(tasks, counts, keys);
    data := [];
    var j := 0;
    while j < |keys|
      invariant 0 <= j <= |keys|
      invariant data == CategoryEntries(tasks)[..j]
    {
      data := data + [CategoryEntry(keys[j], counts[keys[j]])];
      j := j + 1;
    }
  }

  /** Extending a prefix by one task: its category joins the list if new, and its count grows by one. */
  lemma PrefixStep(ts: seq<Task>, i: int)
    requires 0 <= i < |ts|
    ensures Categories(ts[..i + 1]) ==
      if ts[i].category in Categories(ts[..i]) then Categories(ts[..i]) else Categories(ts[..i]) + [ts[i].category]
    ensures forall c :: CountOf(ts[..i + 1], c) == CountOf(ts[..i], c) + (if ts[i].category == c then 1 else 0)
  {
    assert ts[..i + 1][..i] == ts[..i];
  }

  // ---------------------------------------------------------------------
  // Properties of the pie data

  lemma {:induction false} CategoriesMembers(ts: seq<Task>, c: string)
    ensures c in Categories(ts) <==> exists p :: 0 <= p < |ts| && ts[p].category == c
    ensures c !in Categories(ts) ==> CountOf(ts, c) == 0
    ensures c in Categories(ts) ==> CountOf(ts, c) >= 1
    decreases |ts|
  {
    if ts != [] {
      var init := ts[..|ts| - 1];
      CategoriesMembers(init, c);
      if exists p :: 0 <= p < |init| && init[p].category == c {
        var p :| 0 <= p < |init| && init[p].category == c;
        assert ts[p].category == c;
      }
      if exists p :: 0 <= p < |ts| && ts[p].category == c {
        var p :| 0 <= p < |ts| && ts[p].category == c;
        if p < |init| {
          assert init[p].category == c;
        }
      }
    }
  }

  lemma {:induction false} CategoriesDistinct(ts: seq<Task>)
    ensures forall i, j :: 0 <= i < j < |Categories(ts)| ==> Categories(ts)[i] != Categories(ts)[j]
    decreases |ts|
  {
    if ts != [] {
      CategoriesDistinct(ts[..|ts| - 1]);
    }
  }

  /** The sum of the counts over the names `cs`. */
  function SumOver(cs: seq<string>, ts: seq<Task>): int {
    if cs == [] then 0 else SumOver(cs[..|cs| - 1], ts) + CountOf(ts, cs[|cs| - 1])
  }

  /** Appending a task adds one to the sum over distinct names exactly when its category is among them. */
  lemma {:induction false} SumOverAppend(cs: seq<string>, ts: seq<Task>, t: Task)
    requires forall i, j :: 0 <= i < j < |cs| ==> cs[i] != cs[j]
    ensures SumOver(cs, ts + [t]) == SumOver(cs, ts) + (if t.category in cs then 1 else 0)
    decreases |cs|
  {
    assert (ts + [t])[..|ts|] == ts;
    if cs != [] {
      var init := cs[..|cs| - 1];
      SumOverAppend(init, ts, t);
      assert cs == init + [cs[|cs| - 1]];
      assert t.category in cs <==> t.category in init || t.category == cs[|cs| - 1];
    }
  }

  lemma {:induction false} SumOfCounts(ts: seq<Task>)
    ensures SumOver(Categories(ts), ts) == |ts|
    decreases |ts|
  {
    if ts != [] {
      var init := ts[..|ts| - 1];
      var t := ts[|ts| - 1];
      assert ts == init + [t];
      var cs := Categories(init);
      SumOfCounts(init);
      CategoriesDistinct(init);
      SumOverAppend(cs, init, t);
      if t.category !in cs {
        CategoriesMembers(init, t.category);
        assert (cs + [t.category])[..|cs|] == cs;
        assert (init + [t])[..|init|] == init;
      }
    }
  }

  function SumValues(entries: seq<CategoryEntry>): int {
    if entries == [] then 0 else SumValues(entries[..|entries| - 1]) + entries[|entries| - 1].value
  }

  lemma {:induction false} SumValuesIsSumOver(ts: seq<Task>, cs: seq<string>, entries: seq<CategoryEntry>)
    requires |entries| == |cs|
    requires forall i :: 0 <= i < |cs| ==> entries[i] == CategoryEntry(cs[i], CountOf(ts, cs[i]))
    ensures SumValues(entries) == SumOver(cs, ts)
    decreases |cs|
  {
    if cs != [] {
      SumValuesIsSumOver(ts, cs[..|cs| - 1], entries[..|entries| - 1]);
    }
  }

  /** The slices add up to the number of tasks, each slice holds at least one
      task, and each name appears once. */
  lemma CategoryEntriesSum(ts: seq<Task>)
    ensures SumValues(CategoryEntries(ts)) == |ts|
    ensures forall i :: 0 <= i < |CategoryEntries(ts)| ==> CategoryEntries(ts)[i].value >= 1
    ensures forall i, j :: 0 <= i < j < |CategoryEntries(ts)| ==>
      CategoryEntries(ts)[i].name != CategoryEntries(ts)[j].name
  {
    var cs := Categories(ts);
    SumValuesIsSumOver(ts, cs, CategoryEntries(ts));
    SumOfCounts(ts);
    CategoriesDistinct(ts);
    forall i | 0 <= i < |cs| ensures CountOf(ts, cs[i]) >= 1 {
      CategoriesMembers(ts, cs[i]);
    }
  }

  /** The names are exactly the categories present, and each value is that category's count. */
  lemma CategoryEntriesNames(ts: seq<Task>, c: string)
    ensures (exists i :: 0 <= i < |CategoryEntries(ts)| && CategoryEntries(ts)[i].name == c)
        <==> (exists p :: 0 <= p < |ts| && ts[p].category == c)
  {
    CategoriesMembers(ts, c);
    var cs := Categories(ts);
    if c in cs {
      var i :| 0 <= i < |cs| && cs[i] == c;
      assert CategoryEntries(ts)[i].name == c;
    }
  }

  /** Order of first appearance: every task of a later slice's category comes
      after some task of each earlier slice's category. */
  lemma {:induction false} CategoriesInFirstAppearanceOrder(ts: seq<Task>, i: int, j: int, q: int)
    requires 0 <= i < j < |Categories(ts)| && 0 <= q < |ts| && ts[q].category == Categories(ts)[j]
    ensures exists p :: 0 <= p < q && ts[p].category == Categories(ts)[i]
    decreases |ts|
  {
    var init := ts[..|ts| - 1];
    var cs := Categories(init);
    var c := Categories(ts)[i];
    assert i < |cs| && c == cs[i];
    if q < |init| {
      assert init[q] == ts[q];
      if j < |cs| {
        CategoriesInFirstAppearanceOrder(init, i, j, q);
        var p :| 0 <= p < q && init[p].category == c;
        assert ts[p] == init[p];
      } else {
        CategoriesMembers(init, ts[q].category);
      }
    } else {
      CategoriesMembers(init, c);
      var p :| 0 <= p < |init| && init[p].category == c;
      assert ts[p] == init[p];
    }
  }

  // ---------------------------------------------------------------------
  // Chart and legend

  const COLORS: seq<string> := ["#6366f1", "#f97316", "#ef4444", "#10b981", "#ec4899"]

  /** The colour of the slice or legend item at `index`: the palette, cycled. */
  function ColorAt(index: nat): (c: string)
    ensures c in COLORS
  {
    COLORS[index % |COLORS|]
  }

  /** Slices five apart share a colour, and the first five colours are all different. */
  lemma ColorsCycle(index: nat)
    ensures ColorAt(index + 5) == ColorAt(index)
    ensures forall i, j :: 0 <= i < j < 5 ==> ColorAt(i) != ColorAt(j)
  {
  }

  /** What the pie draws: the data, or a single "None" placeholder when there is none. */
  function PieData(entries: seq<CategoryEntry>): (r: seq<CategoryEntry>)
    ensures |r| >= 1
    ensures entries == [] ==> r == [CategoryEntry("None", 1)]
    ensures entries != [] ==> r == entries
  {
    if |entries| > 0 then entries else [CategoryEntry("None", 1)]
  }

  datatype LegendItem = LegendItem(name: string, value: int, color: string)

  /** The legend under the pie: the first four entries, each with its slice's colour. */
  function Legend(entries: seq<CategoryEntry>): (r: seq<LegendItem>)
    ensures |r| == if |entries| < 4 then |entries| else 4
    ensures forall i :: 0 <= i < |r| ==>
      r[i] == LegendItem(entries[i].name, entries[i].value, ColorAt(i))
  {
    var shown := if |entries| < 4 then entries else entries[..4];
    seq(|shown|, i requires 0 <= i < |shown| => LegendItem(shown[i].name, shown[i].value, ColorAt(i)))
  }
}
