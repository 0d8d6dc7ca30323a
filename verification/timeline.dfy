/** What the two timeline views share
    (src/components/features/dashboard/main/timelineView.tsx and
    src/components/features/dashboard/timelineView.tsx): timeline items for
    notes and reminders, the notes/reminders/all filter, the newest-first
    order, the grouping by calendar day (the `YYYY-MM-DD` of the item's ISO
    time, that is, its UTC day number) and the set of collapsed days. */
module Timeline {
  import opened Common

  datatype Kind = NoteKind | ReminderKind

  /** A timeline item; `date` is `None` for an unreadable date. */
  datatype Item = Item(id: string, kind: Kind, title: string, date: Option<int>, noteId: string,
                       content: Option<string>, tags: Option<seq<string>>, completed: Option<bool>,
                       noteTitle: Option<string>)

  datatype Show = All | Notes | Reminders

  predicate Shows(f: Show, item: Item) {
    match f
    case Notes => item.kind == NoteKind
    case Reminders => item.kind == ReminderKind
    case All => true
  }

  function ShownBy(f: Show): Item -> bool {
    (item: Item) => Shows(f, item)
  }

  /** `(a, b) => b.date - a.date`, newest first. An unreadable date makes
      that comparator answer `NaN`; here such items go last. */
  function Newest(): (Item, Item) -> bool {
    (a: Item, b: Item) => b.date.None? || (a.date.Some? && a.date.value >= b.date.value)
  }

  lemma NewestTotal()
    ensures TotalPreorder(Newest())
  {
    var le := Newest();
    forall a: Item, b: Item ensures le(a, b) || le(b, a) {
      if a.date.Some? && b.date.Some? {
        assert le(a, b) || le(b, a);
      }
    }
    forall a: Item, b: Item, c: Item | le(a, b) && le(b, c) ensures le(a, c) {
    }
  }

  /** The filtered items, newest first. */
  function Arranged(items: seq<Item>, f: Show): (r: seq<Item>)
    ensures forall x :: x in r <==> x in items && Shows(f, x)
    ensures multiset(r) == multiset(Filter(items, ShownBy(f)))
    ensures forall i, j :: 0 <= i < j < |r| && r[j].date.Some? ==>
              r[i].date.Some? && r[i].date.value >= r[j].date.value
  {
    NewestTotal();
    var r := Sort(Filter(items, ShownBy(f)), Newest());
    assert forall x :: x in r <==> x in Filter(items, ShownBy(f)) by {
      forall x ensures x in r <==> x in Filter(items, ShownBy(f)) {
        assert x in r <==> x in multiset(r);
      }
    }
    assert forall i, j :: 0 <= i < j < |r| ==> Newest()(r[i], r[j]);
    r
  }

  /** The note and reminder filters split the items: each is kept by
      exactly one of them, and `all` keeps every item. */
  lemma {:induction false} KindSplit(items: seq<Item>)
    ensures multiset(Filter(items, ShownBy(Notes))) + multiset(Filter(items, ShownBy(Reminders)))
            == multiset(items)
    ensures Filter(items, ShownBy(All)) == items
  {
    FilterKeepsAll(items, ShownBy(All));
    if items != [] {
      KindSplit(items[1..]);
      assert items == [items[0]] + items[1..];
    }
  }

  /** `toggleDateGroup`: the day string enters the set when absent and
      leaves it when present. */
  function Toggled(collapsed: set<string>, dateStr: string): (r: set<string>)
    ensures dateStr in r <==> dateStr !in collapsed
    ensures forall d :: d != dateStr ==> (d in r <==> d in collapsed)
  {
    if dateStr in collapsed then collapsed - {dateStr} else collapsed + {dateStr}
  }

  /** Toggling the same day twice restores the set. */
  lemma ToggleTwice(collapsed: set<string>, dateStr: string)
    ensures Toggled(Toggled(collapsed, dateStr), dateStr) == collapsed
  {
  }

  predicate OnDay(item: Item, day: int) {
    item.date.Some? && DayOf(item.date.value) == day
  }

  function DatedOn(day: int): Item -> bool {
    (item: Item) => OnDay(item, day)
  }

  /** One step of the grouping loop. */
  lemma GroupStep(pre: seq<Item>, item: Item, groups: map<int, seq<Item>>)
    requires forall d :: d in groups ==> groups[d] == Filter(pre, DatedOn(d))
    requires forall x :: x in pre && x.date.Some? ==> DayOf(x.date.value) in groups
    ensures item.date.None? ==> forall d :: d in groups ==> groups[d] == Filter(pre + [item], DatedOn(d))
    ensures item.date.Some? ==>
              var day := DayOf(item.date.value);
              var g := groups[day := (if day in groups then groups[day] else []) + [item]];
              forall d :: d in g ==> g[d] == Filter(pre + [item], DatedOn(d))
  {
    forall d | d in groups ensures Filter(pre + [item], DatedOn(d)) == Filter(pre, DatedOn(d)) + (if OnDay(item, d) then [item] else []) {
      FilterSnoc(pre, item, DatedOn(d));
    }
    if item.date.Some? {
      var day := DayOf(item.date.value);
      FilterSnoc(pre, item, DatedOn(day));
      if day !in groups {
        FilterNone(pre, DatedOn(day));
      }
    }
  }

  /** What the grouping loop holds after the items `seen`: the keys are the
      days of the groups, each once, each group holds its day's items, and
      every dated item has its group. */
  ghost predicate GroupedBy(byDay: map<int, seq<Item>>, keys: seq<int>, seen: seq<Item>) {
    (forall d :: d in byDay <==> d in keys)
    && NoDups(keys)
    && (forall d :: d in byDay ==> byDay[d] == Filter(seen, DatedOn(d)) && byDay[d] != [])
    && (forall x :: x in seen && x.date.Some? ==> DayOf(x.date.value) in byDay)
  }

  /** The `forEach` of `groupedData`: the items of each day, in list
      order, keyed by day, and the days in the order they first appear. */
  method CollectByDay(items: seq<Item>) returns (byDay: map<int, seq<Item>>, keys: seq<int>)
    ensures forall d :: d in byDay <==> d in keys
    ensures NoDups(keys)
    ensures forall d :: d in byDay ==> byDay[d] == Filter(items, DatedOn(d)) && byDay[d] != []
    ensures forall x :: x in items && x.date.Some? ==> DayOf(x.date.value) in byDay
  {
    byDay := map[];
    keys := [];
    var i := 0;
    while i < |items|
      invariant 0 <= i <= |items|
      invariant GroupedBy(byDay, keys, items[..i])
    {
      AppendSlice([], items, i);
      assert [] + items[..i + 1] == items[..i + 1] && [] + items[..i] == items[..i];
      byDay, keys := AddItem(byDay, keys, items[..i], items[i]);
      i := i + 1;
    }
    assert items[..|items|] == items;
  }

  /** The body of the `forEach` for one item: a dated item joins the group
      of its day, which is opened when it is the first of that day. */
  method AddItem(byDay: map<int, seq<Item>>, keys: seq<int>, ghost seen: seq<Item>, item: Item)
    returns (byDay': map<int, seq<Item>>, keys': seq<int>)
    requires GroupedBy(byDay, keys, seen)
    ensures GroupedBy(byDay', keys', seen + [item])
  {
    GroupStep(seen, item, byDay);
    byDay', keys' := byDay, keys;
    if item.date.Some? {
      var dateKey := DayOf(item.date.value);
      if dateKey !in byDay' {
        byDay' := byDay'[dateKey := []];
        keys' := keys' + [dateKey];
      }
      byDay' := byDay'[dateKey := byDay'[dateKey] + [item]];
    }
  }

  /** `groupedData`: one group per day that some dated item falls on,
      holding that day's items in list order, the days newest first; items
      with an unreadable date are left out. */
  method GroupByDay(items: seq<Item>) returns (groups: seq<(int, seq<Item>)>)
    ensures forall k :: 0 <= k < |groups| ==>
              groups[k].1 == Filter(items, DatedOn(groups[k].0)) && groups[k].1 != []
    ensures forall i, j :: 0 <= i < j < |groups| ==> groups[i].0 > groups[j].0
    ensures forall x :: x in items && x.date.Some? ==>
              exists k :: 0 <= k < |groups| && groups[k].0 == DayOf(x.date.value) && x in groups[k].1
    ensures forall x, i, j :: 0 <= i < |groups| && 0 <= j < |groups| && x in groups[i].1 && x in groups[j].1 ==> i == j
    ensures forall k, x :: 0 <= k < |groups| && x in groups[k].1 ==> x in items && x.date.Some?
  {
    var byDay, keys := CollectByDay(items);
    var sorted := Sort(keys, (a: int, b: int) => a >= b);
    MultisetNoDups(keys, sorted);
    assert forall d :: d in sorted <==> d in keys by {
      forall d ensures d in sorted <==> d in keys {
        assert d in sorted <==> d in multiset(sorted);
      }
    }
    groups := seq(|sorted|, k requires 0 <= k < |sorted| => (sorted[k], byDay[sorted[k]]));
    forall x | x in items && x.date.Some?
      ensures exists k :: 0 <= k < |groups| && groups[k].0 == DayOf(x.date.value) && x in groups[k].1
    {
      var k :| 0 <= k < |sorted| && sorted[k] == DayOf(x.date.value);
      assert groups[k].0 == sorted[k];
    }
  }

  /** The view's own state: the active filter and the collapsed days. */
  class TimelinePanel {
    var filter: Show
    var collapsedDates: set<string>

    constructor()
      ensures filter == All && collapsedDates == {}
    {
      filter := All;
      collapsedDates := {};
    }

    method SetFilter(f: Show)
      modifies this
      ensures filter == f && collapsedDates == old(collapsedDates)
    {
      filter := f;
    }

    method ToggleDateGroup(dateStr: string)
      modifies this
      ensures collapsedDates == Toggled(old(collapsedDates), dateStr) && filter == old(filter)
    {
      collapsedDates := Toggled(collapsedDates, dateStr);
    }
  }
}
