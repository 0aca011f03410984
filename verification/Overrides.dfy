/** Bundle overrides of a profile: the upsert loop of pkg/profile/update.go and
    the grouping by bundle of pkg/profile/git.go. */
module Overrides {
  import opened Wrappers
  import opened Text

  datatype Override = Override(bundle: string, key: string, value: string)

  datatype KVPair = KVPair(key: string, value: string)

  /** What an override is about. */
  type Slot = (string, string)

  function SlotOf(o: Override): Slot {
    (o.bundle, o.key)
  }

  function Slots(list: seq<Override>): seq<Slot> {
    seq(|list|, i requires 0 <= i < |list| => SlotOf(list[i]))
  }

  /** The list read as a map, later entries winning. */
  function Values(list: seq<Override>): map<Slot, string> {
    Updated(map[], list)
  }

  /** A map updated with overrides from left to right. */
  function Updated(values: map<Slot, string>, news: seq<Override>): map<Slot, string>
    decreases |news|
  {
    if news == [] then values else Updated(values[SlotOf(news[0]) := news[0].value], news[1..])
  }

  /** The slots of news that are not yet seen, in first-seen order. */
  function FirstSeen(news: seq<Override>, seen: set<Slot>): seq<Slot> {
    if news == [] then []
    else if SlotOf(news[0]) in seen then FirstSeen(news[1..], seen)
    else [SlotOf(news[0])] + FirstSeen(news[1..], seen + {SlotOf(news[0])})
  }

  /** The position of the first entry about the same thing, or the length. */
  function Position(list: seq<Override>, slot: Slot): (i: nat)
    ensures i <= |list| && slot !in Slots(list)[..i]
    ensures i < |list| ==> SlotOf(list[i]) == slot
  {
    if list == [] || SlotOf(list[0]) == slot then 0
    else
      var i := Position(list[1..], slot);
      assert Slots(list)[..i + 1] == [SlotOf(list[0])] + Slots(list[1..])[..i];
      i + 1
  }

  function UpsertOne(list: seq<Override>, o: Override): seq<Override> {
    var i := Position(list, SlotOf(o));
    if i < |list| then list[i := o] else list + [o]
  }

  function Upsert(list: seq<Override>, news: seq<Override>): seq<Override>
    decreases |news|
  {
    if news == [] then list else Upsert(UpsertOne(list, news[0]), news[1..])
  }

  /** The dirty flag of the loop: some entry was appended or got another value. */
  function Dirty(list: seq<Override>, news: seq<Override>): bool
    decreases |news|
  {
    news != [] && (UpsertOne(list, news[0]) != list || Dirty(UpsertOne(list, news[0]), news[1..]))
  }

  // ------------------------------------------------------------ the map view

  lemma {:induction false} UpdatedAppend(values: map<Slot, string>, news: seq<Override>, o: Override)
    ensures Updated(values, news + [o]) == Updated(values, news)[SlotOf(o) := o.value]
    decreases |news|
  {
    if news == [] {
      assert Updated(values[SlotOf(o) := o.value], []) == values[SlotOf(o) := o.value];
    } else {
      assert (news + [o])[1..] == news[1..] + [o];
      UpdatedAppend(values[SlotOf(news[0]) := news[0].value], news[1..], o);
    }
  }

  /** For lists with unique slots the map has exactly the entries of the list. */
  lemma {:induction false} ValuesOfUnique(list: seq<Override>)
    requires Distinct(Slots(list))
    ensures forall slot :: slot in Values(list) <==> slot in Slots(list)
    ensures forall i | 0 <= i < |list| ::
              SlotOf(list[i]) in Values(list) && Values(list)[SlotOf(list[i])] == list[i].value
  {
    if list != [] {
      var rest, last := list[..|list| - 1], list[|list| - 1];
      assert list == rest + [last];
      assert Slots(list) == Slots(rest) + [SlotOf(last)];
      forall i, j | 0 <= i < j < |Slots(rest)| ensures Slots(rest)[i] != Slots(rest)[j] {
        assert Slots(list)[i] != Slots(list)[j];
      }
      ValuesOfUnique(rest);
      UpdatedAppend(map[], rest, last);
      forall i | 0 <= i < |rest| ensures SlotOf(list[i]) != SlotOf(last) {
        assert Slots(list)[i] != Slots(list)[|list| - 1];
      }
    }
  }

  lemma UpsertOneSound(list: seq<Override>, o: Override)
    requires Distinct(Slots(list))
    ensures var r := UpsertOne(list, o);
            && Distinct(Slots(r)) && Values(r) == Values(list)[SlotOf(o) := o.value]
            && Slots(r) == Slots(list) + FirstSeen([o], Items(Slots(list)))
            && (r == list <==> SlotOf(o) in Values(list) && Values(list)[SlotOf(o)] == o.value)
  {
    var slot, r := SlotOf(o), UpsertOne(list, o);
    var i := Position(list, slot);
    ValuesOfUnique(list);
    assert FirstSeen([o], Items(Slots(list))) == if slot in Slots(list) then [] else [slot];
    if i < |list| {
      assert Slots(list)[i] == slot;
      assert Slots(r) == Slots(list);
      ValuesOfUnique(r);
      forall s ensures s in Values(r) <==> s in Values(list)[slot := o.value] {
      }
      forall s | s in Values(r) ensures Values(r)[s] == Values(list)[slot := o.value][s] {
        var j :| 0 <= j < |list| && Slots(r)[j] == s;
        if j != i {
          assert Slots(list)[if j < i then j else i] != Slots(list)[if j < i then i else j];
        }
        assert SlotOf(r[j]) == s && SlotOf(list[j]) == s;
      }
      assert list[i] == Override(o.bundle, o.key, list[i].value);
    } else {
      assert Slots(list)[..i] == Slots(list);
      assert Slots(r) == Slots(list) + [slot];
      UpdatedAppend(map[], list, o);
    }
  }

  /** Upsert: unique slots stay unique, old entries keep their places, new slots
      follow in first-seen order, and the map view is the old one updated from
      left to right. */
  lemma {:induction false} UpsertSound(list: seq<Override>, news: seq<Override>)
    requires Distinct(Slots(list))
    ensures var r := Upsert(list, news);
            && Distinct(Slots(r)) && Values(r) == Updated(Values(list), news)
            && Slots(r) == Slots(list) + FirstSeen(news, Items(Slots(list)))
    decreases |news|
  {
    if news != [] {
      var one := UpsertOne(list, news[0]);
      UpsertOneSound(list, news[0]);
      UpsertSound(one, news[1..]);
      var slot, seen := SlotOf(news[0]), Items(Slots(list));
      if slot in seen {
        assert Slots(one) == Slots(list);
      } else {
        assert FirstSeen([news[0]], seen) == [slot];
        assert Items(Slots(one)) == seen + {slot};
      }
    }
  }

  /** The override is the last of its bundle and key in the list. */
  ghost predicate LastOf(list: seq<Override>, o: Override) {
    exists k ::
      && 0 <= k < |list| && list[k] == o
      && forall j | k < j < |list| :: list[j].bundle != o.bundle || list[j].key != o.key
  }

  lemma {:induction false} UpdatedMeans(values: map<Slot, string>, news: seq<Override>, o: Override)
    ensures var u, slot := Updated(values, news), (o.bundle, o.key);
            slot in u && u[slot] == o.value <==>
              || LastOf(news, o)
              || ((forall p | p in news :: p.bundle != o.bundle || p.key != o.key)
                  && slot in values && values[slot] == o.value)
    decreases |news|
  {
    if news != [] {
      var first, rest := news[0], news[1..];
      assert news == [first] + rest;
      UpdatedMeans(values[SlotOf(first) := first.value], rest, o);
      LastOfRest(first, rest, o);
    }
  }

  lemma LastOfRest(first: Override, rest: seq<Override>, o: Override)
    ensures LastOf([first] + rest, o) <==>
              LastOf(rest, o) || (first == o && forall p | p in rest :: p.bundle != o.bundle || p.key != o.key)
  {
    var all := [first] + rest;
    if k :| && 0 <= k < |all| && all[k] == o
            && forall j | k < j < |all| :: all[j].bundle != o.bundle || all[j].key != o.key {
      forall j | 0 <= j < |rest| ensures rest[j] == all[j + 1] {
      }
      if k > 0 {
        assert rest[k - 1] == o;
      }
    }
    if k :| && 0 <= k < |rest| && rest[k] == o
            && forall j | k < j < |rest| :: rest[j].bundle != o.bundle || rest[j].key != o.key {
      assert all[k + 1] == o;
    }
    if first == o && forall p | p in rest :: p.bundle != o.bundle || p.key != o.key {
      assert all[0] == o;
    }
  }

  /** The upsert in plain terms: what remains is, for each bundle and key, its
      last mention in the old list followed by the new one. */
  lemma {:induction false} UpsertMeans(list: seq<Override>, news: seq<Override>, o: Override)
    requires Distinct(Slots(list))
    ensures o in Upsert(list, news) <==> LastOf(list + news, o)
  {
    UpsertSound(list, news);
    var r := Upsert(list, news);
    ValuesOfUnique(r);
    UpdatedConcat(map[], list, news);
    UpdatedMeans(map[], list + news, o);
    hide Updated, Upsert, LastOf;
  }

  lemma {:induction false} UpdatedConcat(values: map<Slot, string>, a: seq<Override>, b: seq<Override>)
    ensures Updated(values, a + b) == Updated(Updated(values, a), b)
    decreases |a|
  {
    if a == [] {
      assert a + b == b;
    } else {
      assert (a + b)[1..] == a[1..] + b;
      UpdatedConcat(values[SlotOf(a[0]) := a[0].value], a[1..], b);
    }
  }

  /** The dirty flag is exact: the list was clean iff every override already had
      its value before the loop. A clean loop changes nothing. */
  lemma {:induction false} DirtyExact(list: seq<Override>, news: seq<Override>)
    requires Distinct(Slots(list))
    ensures !Dirty(list, news) <==>
              forall o | o in news :: SlotOf(o) in Values(list) && Values(list)[SlotOf(o)] == o.value
    ensures !Dirty(list, news) ==> Upsert(list, news) == list
    decreases |news|
  {
    if news != [] {
      UpsertOneSound(list, news[0]);
      assert news == [news[0]] + news[1..];
      if UpsertOne(list, news[0]) == list {
        DirtyExact(list, news[1..]);
      } else {
        assert news[0] in news;
      }
    }
  }

  lemma {:induction false} UpdatedElsewhere(values: map<Slot, string>, news: seq<Override>, slot: Slot)
    requires slot !in Slots(news)
    ensures slot in Updated(values, news) <==> slot in values
    ensures slot in values ==> Updated(values, news)[slot] == values[slot]
    decreases |news|
  {
    if news != [] {
      assert Slots(news)[0] == SlotOf(news[0]);
      forall s | s in Slots(news[1..]) ensures s in Slots(news) {
        var i :| 0 <= i < |Slots(news[1..])| && Slots(news[1..])[i] == s;
        assert Slots(news)[i + 1] == s;
      }
      UpdatedElsewhere(values[SlotOf(news[0]) := news[0].value], news[1..], slot);
    }
  }

  lemma {:induction false} UpdatedTakes(values: map<Slot, string>, news: seq<Override>, i: nat)
    requires Distinct(Slots(news)) && i < |news|
    ensures SlotOf(news[i]) in Updated(values, news) && Updated(values, news)[SlotOf(news[i])] == news[i].value
    decreases |news|
  {
    var next := values[SlotOf(news[0]) := news[0].value];
    forall j, k | 0 <= j < k < |news[1..]| ensures Slots(news[1..])[j] != Slots(news[1..])[k] {
      assert Slots(news)[j + 1] != Slots(news)[k + 1];
    }
    if i == 0 {
      forall j | 0 <= j < |news[1..]| ensures Slots(news[1..])[j] != SlotOf(news[0]) {
        assert Slots(news)[0] != Slots(news)[j + 1];
      }
      UpdatedElsewhere(next, news[1..], SlotOf(news[0]));
    } else {
      UpdatedTakes(next, news[1..], i - 1);
    }
  }

  /** Applying overrides without duplicates a second time is clean. */
  lemma {:induction false} ReapplyIsClean(list: seq<Override>, news: seq<Override>)
    requires Distinct(Slots(list)) && Distinct(Slots(news))
    ensures !Dirty(Upsert(list, news), news) && Upsert(Upsert(list, news), news) == Upsert(list, news)
  {
    UpsertSound(list, news);
    DirtyExact(Upsert(list, news), news);
    forall o | o in news
      ensures SlotOf(o) in Values(Upsert(list, news)) && Values(Upsert(list, news))[SlotOf(o)] == o.value
    {
      var i :| 0 <= i < |news| && news[i] == o;
      UpdatedTakes(Values(list), news, i);
    }
  }

  // ------------------------------------------------------------ grouping

  /** The entries of one bundle, in list order. */
  function GroupOf(list: seq<Override>, bundle: string): seq<KVPair> {
    if list == [] then []
    else
      var last := list[|list| - 1];
      GroupOf(list[..|list| - 1], bundle) + if last.bundle == bundle then [KVPair(last.key, last.value)] else []
  }

  /** MakeOverridesMap: appends each entry to its bundle's list. */
  method MakeOverridesMap(list: seq<Override>) returns (om: map<string, seq<KVPair>>)
    ensures forall b :: b in om <==> GroupOf(list, b) != []
    ensures forall b :: (if b in om then om[b] else []) == GroupOf(list, b)
  {
    om := map[];
    for i := 0 to |list|
      invariant forall b :: b in om <==> GroupOf(list[..i], b) != []
      invariant forall b :: (if b in om then om[b] else []) == GroupOf(list[..i], b)
    {
      var item := list[i];
      GroupOfStep(list, i);
      var group := if item.bundle in om then om[item.bundle] else [];
      om := om[item.bundle := group + [KVPair(item.key, item.value)]];
    }
    assert list[..|list|] == list;
  }

  lemma GroupOfStep(list: seq<Override>, i: nat)
    requires i < |list|
    ensures forall b :: GroupOf(list[..i + 1], b)
                     == GroupOf(list[..i], b) + if list[i].bundle == b then [KVPair(list[i].key, list[i].value)] else []
  {
    assert list[..i + 1][..i] == list[..i];
  }

  /** Grouping conserves every entry, as often as it occurs. */
  lemma {:induction false} GroupingConserves(list: seq<Override>, o: Override)
    ensures multiset(list)[o] == multiset(GroupOf(list, o.bundle))[KVPair(o.key, o.value)]
  {
    if list != [] {
      var rest, last := list[..|list| - 1], list[|list| - 1];
      assert list == rest + [last];
      GroupingConserves(rest, o);
    }
  }

  /** Grouping keeps the order: a bundle's group is its subsequence. */
  lemma {:induction false} GroupingKeepsOrder(a: seq<Override>, b: seq<Override>, bundle: string)
    ensures GroupOf(a + b, bundle) == GroupOf(a, bundle) + GroupOf(b, bundle)
  {
    if b == [] {
      assert a + b == a;
    } else {
      assert (a + b)[..|a + b| - 1] == a + b[..|b| - 1];
      GroupingKeepsOrder(a, b[..|b| - 1], bundle);
    }
  }

  lemma {:induction false} GroupHas(list: seq<Override>, bundle: string, kv: KVPair)
    ensures kv in GroupOf(list, bundle) <==> Override(bundle, kv.key, kv.value) in list
  {
    GroupingConserves(list, Override(bundle, kv.key, kv.value));
    assert kv in GroupOf(list, bundle) <==> kv in multiset(GroupOf(list, bundle));
    assert Override(bundle, kv.key, kv.value) in list <==> Override(bundle, kv.key, kv.value) in multiset(list);
  }

  lemma {:induction false} GroupKeysUnique(list: seq<Override>, bundle: string)
    requires Distinct(Slots(list))
    ensures forall i, j | 0 <= i < j < |GroupOf(list, bundle)| ::
              GroupOf(list, bundle)[i].key != GroupOf(list, bundle)[j].key
  {
    if list != [] {
      var rest, last := list[..|list| - 1], list[|list| - 1];
      forall i, j | 0 <= i < j < |rest| ensures Slots(rest)[i] != Slots(rest)[j] {
        assert Slots(list)[i] != Slots(list)[j];
      }
      GroupKeysUnique(rest, bundle);
      var group := GroupOf(rest, bundle);
      forall i | 0 <= i < |group| && last.bundle == bundle ensures group[i].key != last.key {
        GroupHas(rest, bundle, group[i]);
        var j :| 0 <= j < |rest| && rest[j] == Override(bundle, group[i].key, group[i].value);
        assert Slots(list)[j] != Slots(list)[|list| - 1];
      }
    }
  }

  /** Overrides reach the right bundle: after an upsert, what a bundle is
      rendered with has each key once, exactly the keys that were ever set for
      this bundle, each with its latest value. */
  lemma {:induction false} RenderedLatest(list: seq<Override>, news: seq<Override>, bundle: string)
    requires Distinct(Slots(list))
    ensures var group, latest := GroupOf(Upsert(list, news), bundle), Updated(Values(list), news);
            && (forall i, j | 0 <= i < j < |group| :: group[i].key != group[j].key)
            && (forall kv :: kv in group <==> (bundle, kv.key) in latest && latest[(bundle, kv.key)] == kv.value)
  {
    var r := Upsert(list, news);
    UpsertSound(list, news);
    GroupKeysUnique(r, bundle);
    ValuesOfUnique(r);
    forall kv ensures kv in GroupOf(r, bundle) <==>
        (bundle, kv.key) in Values(r) && Values(r)[(bundle, kv.key)] == kv.value
    {
      GroupHas(r, bundle, kv);
      var o := Override(bundle, kv.key, kv.value);
      if o in r {
        var i :| 0 <= i < |r| && r[i] == o;
        assert SlotOf(r[i]) == (bundle, kv.key);
      }
      if (bundle, kv.key) in Values(r) {
        var i :| 0 <= i < |r| && Slots(r)[i] == (bundle, kv.key);
        assert r[i] == Override(bundle, kv.key, Values(r)[(bundle, kv.key)]);
      }
    }
  }
}
