/** Update of pkg/profile/update.go on the in-memory profile, up to the point
    where a dirty profile is regenerated in git and stored. */
module ProfileUpdate {
  import opened Wrappers
  import opened Text
  import opened Overrides

  datatype UpdateError = MissingBundles

  /** isSubset of pkg/profile/utils.go. */
  predicate IsSubset(sub: seq<string>, super: seq<string>): (r: bool)
    ensures r <==> forall b | b in sub :: b in super
  {
    assert forall b :: b in sub <==> b in Items(sub);
    assert forall b :: b in super <==> b in Items(super);
    Items(sub) <= Items(super)
  }

  /** A list argument replaces the old list only when it differs as a set. */
  function Replaced(before: seq<string>, given: seq<string>): seq<string> {
    if StringListsEquivalent(given, before) then before else given
  }

  class Profile {
    var description: string
    var tags: seq<string>
    var bundles: seq<string>
    var overrides: seq<Override>

    constructor (description: string, tags: seq<string>, bundles: seq<string>, overrides: seq<Override>)
      ensures this.description == description && this.tags == tags && this.bundles == bundles
      ensures this.overrides == overrides
    {
      this.description, this.tags, this.bundles, this.overrides := description, tags, bundles, overrides;
    }

    /** The nested search loops upsert `news` in place, from left to right, and
        raise the flag exactly when `Dirty` says so. */
    method UpsertOverrides(news: seq<Override>) returns (dirty: bool)
      modifies this`overrides
      ensures overrides == Upsert(old(overrides), news)
      ensures dirty == Dirty(old(overrides), news)
    {
      dirty := false;
      for k := 0 to |news|
        invariant Upsert(overrides, news[k..]) == Upsert(old(overrides), news)
        invariant dirty || Dirty(overrides, news[k..]) <==> Dirty(old(overrides), news)
      {
        var o, found := news[k], false;
        ghost var before := overrides;
        assert news[k..][0] == o && news[k..][1..] == news[k + 1..];
        for i := 0 to |overrides|
          invariant overrides == before && !found
          invariant SlotOf(o) !in Slots(overrides)[..i]
        {
          var x := overrides[i];
          if o.bundle == x.bundle && o.key == x.key {
            found := true;
            FirstPosition(overrides, SlotOf(o), i);
            if o.value != x.value {
              overrides := overrides[i := x.(value := o.value)];
              dirty := true;
            }
            break;
          }
          assert Slots(overrides)[..i + 1] == Slots(overrides)[..i] + [SlotOf(x)];
        }
        if !found {
          assert Slots(overrides)[..|overrides|] == Slots(overrides);
          FirstPosition(overrides, SlotOf(o), |overrides|);
          overrides := overrides + [o];
          dirty := true;
        }
        assert overrides == UpsertOne(before, o);
      }
    }

    /** `bundlesArg` is None when the caller passes no bundles. */
    method Update(existingBundles: seq<string>, bundlesArg: Option<seq<string>>, desc: string, tagsArg: string,
                  news: seq<Override>)
      returns (result: Result<bool, UpdateError>)
      modifies this
      ensures result.Failure? <==> bundlesArg.Some? && !forall b | b in bundlesArg.value :: b in existingBundles
      ensures result.Failure? ==>
                description == old(description) && tags == old(tags)
                && bundles == old(bundles) && overrides == old(overrides)
      ensures result.Success? ==>
                && description == (if desc != "" then desc else old(description))
                && tags == (if tagsArg != "" then Replaced(old(tags), StringListFromCommaSeparated(tagsArg))
                            else old(tags))
                && bundles == Replaced(old(bundles),
                     StringListFromCommaSeparated(Join(if bundlesArg.Some? then bundlesArg.value
                                                else old(bundles), ',')))
                && overrides == Upsert(old(overrides), news)
      // a list is replaced exactly when it differs as a set
      ensures result.Success? && tagsArg != "" ==>
                if forall t :: t in StringListFromCommaSeparated(tagsArg) <==> t in old(tags)
                then tags == old(tags) else tags == StringListFromCommaSeparated(tagsArg)
      ensures result.Success? && bundlesArg.Some? && Encodable(bundlesArg.value) ==>
                if forall b :: b in bundlesArg.value <==> b in old(bundles)
                then bundles == old(bundles) else bundles == bundlesArg.value
      // exactly which updates are dirty: the last clause is about the overrides alone
      ensures result.Success? ==>
                (result.value <==> description != old(description) || tags != old(tags) || bundles != old(bundles)
                                   || Dirty(old(overrides), news))
      // without a bundle argument the bundle list survives exactly when it is encodable
      ensures result.Success? && bundlesArg.None? ==> (bundles == old(bundles) <==> Encodable(old(bundles)))
    {
      if bundlesArg.Some? && !IsSubset(bundlesArg.value, existingBundles) {
        return Failure(MissingBundles);
      }
      EquivalentMeans(StringListFromCommaSeparated(tagsArg), tags);
      if bundlesArg.Some? {
        EquivalentMeans(bundlesArg.value, bundles);
        DecodeEncoded(bundlesArg.value);
      }
      var dirty := false;
      if desc != "" && desc != description {
        description := desc;
        dirty := true;
      }
      if tagsArg != "" && !StringListsEquivalent(StringListFromCommaSeparated(tagsArg), tags) {
        tags := StringListFromCommaSeparated(tagsArg);
        dirty := true;
      }
      var text: string;
      if bundlesArg.None? {
        text := CommaSeparatedFromStringList(bundles);
      } else {
        text := CommaSeparatedFromStringList(bundlesArg.value);
      }
      DecodeEncoded(bundles);
      if !StringListsEquivalent(StringListFromCommaSeparated(text), bundles) {
        bundles := StringListFromCommaSeparated(text);
        dirty := true;
      }
      var upserted := UpsertOverrides(news);
      result := Success(dirty || upserted);
    }
  }

  lemma {:induction false} FirstPosition(list: seq<Override>, slot: Slot, i: nat)
    requires i <= |list| && slot !in Slots(list)[..i] && (i < |list| ==> SlotOf(list[i]) == slot)
    ensures Position(list, slot) == i
  {
    var j := Position(list, slot);
    NotBefore(list, slot, i);
    NotBefore(list, slot, j);
  }

  lemma NotBefore(list: seq<Override>, slot: Slot, i: nat)
    requires i <= |list| && slot !in Slots(list)[..i]
    ensures forall k | 0 <= k < i :: SlotOf(list[k]) != slot
  {
    forall k | 0 <= k < i ensures SlotOf(list[k]) != slot {
      assert Slots(list)[..i][k] == SlotOf(list[k]);
    }
  }
}
