/** Splitting the records of a batch by minute (main.cpp). */
module Minutes {
  import opened Bags
  import opened Ordered
  import opened Decoder
  import opened Rows

  type Records = map<int, DecoderData>

  /** A group by name; `std::map` makes it up when it is missing. */
  function Group<K>(groups: map<string, map<K, DecoderData>>, t: string): map<K, DecoderData> {
    if t in groups then groups[t] else map[]
  }

  function Put(groups: map<string, Records>, key: int, r: DecoderData): map<string, Records> {
    var t := Minute(r.timestamp);
    groups[t := Group(groups, t)[key := r]]
  }

  /** Records put into their groups one after the other. */
  ghost function Scattered(groups: map<string, Records>, left: Records): map<string, Records>
    decreases |left|
  {
    if left == map[] then groups
    else
      var key := Least(left.Keys);
      Scattered(Put(groups, key, left[key]), left - {key})
  }

  ghost function Groups(data: Records): map<string, Records> {
    Scattered(map[], data)
  }

  /** The iterator loop that fills the nested map. */
  method SplitOnMinute(decoderData: Records) returns (splitData: map<string, Records>)
    ensures splitData == Groups(decoderData)
  {
    splitData := map[];
    var left := decoderData;
    while left != map[]
      invariant Scattered(splitData, left) == Groups(decoderData)
      decreases |left|
    {
      var key := Begin(left);
      splitData := Put(splitData, key, left[key]);
      left := left - {key};
    }
  }

  // ---------- the split, without its loop ----------

  /** A group holds only records of the input, of its own minute. */
  ghost predicate Homogeneous<K>(data: map<K, DecoderData>, groups: map<string, map<K, DecoderData>>) {
    forall t, key :: t in groups && key in groups[t] ==>
      key in data && groups[t][key] == data[key] && t == Minute(data[key].timestamp)
  }

  /** Every record is in the group of its minute. */
  ghost predicate Covers<K>(data: map<K, DecoderData>, groups: map<string, map<K, DecoderData>>) {
    forall key :: key in data ==> key in Group(groups, Minute(data[key].timestamp))
  }

  ghost predicate NoneEmpty<K>(groups: map<string, map<K, DecoderData>>) {
    forall t :: t in groups ==> groups[t] != map[]
  }

  /** `groups` partitions `data` by minute. */
  ghost predicate IsSplit<K>(data: map<K, DecoderData>, groups: map<string, map<K, DecoderData>>) {
    NoneEmpty(groups) && Homogeneous(data, groups) && Covers(data, groups)
  }

  lemma PutKeepsSplit(data: Records, groups: map<string, Records>, key: int, r: DecoderData)
    requires IsSplit(data, groups) && key !in data
    ensures IsSplit(data[key := r], Put(groups, key, r))
  {
    hide NoneEmpty, Homogeneous, Covers, Put;
    PutNoneEmpty(groups, key, r);
    PutHomogeneous(data, groups, key, r);
    PutCovers(data, groups, key, r);
  }

  lemma PutNoneEmpty(groups: map<string, Records>, key: int, r: DecoderData)
    requires NoneEmpty(groups)
    ensures NoneEmpty(Put(groups, key, r))
  {
    hide Minute;
    assert key in Put(groups, key, r)[Minute(r.timestamp)];
  }

  lemma PutHomogeneous(data: Records, groups: map<string, Records>, key: int, r: DecoderData)
    requires Homogeneous(data, groups) && key !in data
    ensures Homogeneous(data[key := r], Put(groups, key, r))
  {
    hide Minute;
  }

  lemma PutCovers(data: Records, groups: map<string, Records>, key: int, r: DecoderData)
    requires Covers(data, groups) && key !in data
    ensures Covers(data[key := r], Put(groups, key, r))
  {
    hide Minute;
    var more, all := Put(groups, key, r), data[key := r];
    forall k | k in all
      ensures k in Group(more, Minute(all[k].timestamp))
    {
      if k != key {
        assert k in Group(groups, Minute(data[k].timestamp));
      }
    }
  }

  lemma MoveKey(data: Records, left: Records, key: int)
    requires key in left && data.Keys !! left.Keys
    ensures data[key := left[key]] + (left - {key}) == data + left
    ensures data[key := left[key]].Keys !! (left - {key}).Keys
  {
  }

  lemma {:induction false} ScatteredIsSplit(data: Records, groups: map<string, Records>, left: Records)
    requires IsSplit(data, groups) && data.Keys !! left.Keys
    ensures IsSplit(data + left, Scattered(groups, left))
    decreases |left|
  {
    hide IsSplit, Put;
    if left == map[] {
      assert data + left == data;
    } else {
      var key := Least(left.Keys);
      PutKeepsSplit(data, groups, key, left[key]);
      MoveKey(data, left, key);
      ScatteredIsSplit(data[key := left[key]], Put(groups, key, left[key]), left - {key});
    }
  }

  lemma GroupsAreSplit(data: Records)
    ensures IsSplit(data, Groups(data))
  {
    ScatteredIsSplit(map[], map[], data);
    assert map[] + data == data;
  }

  /** There is only one such partition. */
  lemma SplitUnique<K>(data: map<K, DecoderData>, a: map<string, map<K, DecoderData>>, b: map<string, map<K, DecoderData>>)
    requires IsSplit(data, a) && IsSplit(data, b)
    ensures a == b
  {
    forall t | t in b
      ensures t in a
    {
      SplitWithin(data, b, a, t);
    }
    forall t | t in a
      ensures t in b && a[t] == b[t]
    {
      SplitWithin(data, a, b, t);
      SplitWithin(data, b, a, t);
      SameMap(a[t], b[t]);
    }
  }

  lemma SplitWithin<K>(
    data: map<K, DecoderData>, a: map<string, map<K, DecoderData>>, b: map<string, map<K, DecoderData>>, t: string)
    requires IsSplit(data, a) && IsSplit(data, b) && t in a
    ensures t in b && forall key :: key in a[t] ==> key in b[t] && a[t][key] == b[t][key]
  {
    var any := Member(a[t].Keys);
    assert any in a[t] && t == Minute(data[any].timestamp);
    assert any in Group(b, Minute(data[any].timestamp));
    forall key | key in a[t]
      ensures key in b[t] && a[t][key] == b[t][key]
    {
      assert key in Group(b, Minute(data[key].timestamp));
    }
  }

  // ---------- rows ----------

  ghost function GroupBags(groups: map<string, Records>): map<string, multiset<Item>> {
    map t | t in groups :: ItemBag(groups[t])
  }

  /** All that the groups insert. */
  ghost function GroupItems(groups: map<string, Records>): multiset<Item> {
    Total(GroupBags(groups))
  }

  lemma EmptyRows()
    ensures ItemBag(map[]) == multiset{} && GroupItems(map[]) == multiset{}
  {
    assert ItemMap(map[]) == map[];
    assert GroupBags(map[]) == map[];
  }

  lemma ItemBagAdd(data: Records, key: int, r: DecoderData)
    requires key !in data
    ensures ItemBag(data[key := r]) == ItemBag(data) + RecordItems(r)
  {
    ItemBagPut(data, key, r);
    ItemBagTake(data, key);
  }

  lemma PutRows(groups: map<string, Records>, key: int, r: DecoderData)
    requires key !in Group(groups, Minute(r.timestamp))
    ensures GroupItems(Put(groups, key, r)) == GroupItems(groups) + RecordItems(r)
  {
    hide ItemBag, RecordItems;
    var t, rows := Minute(r.timestamp), RecordItems(r);
    EmptyRows();
    ItemBagAdd(Group(groups, t), key, r);
    assert GroupBags(Put(groups, key, r))
        == GroupBags(groups)[t := (if t in GroupBags(groups) then GroupBags(groups)[t] else multiset{}) + rows];
    TotalGrow(GroupBags(groups), t, rows);
  }

  lemma {:induction false} ScatteredRows(data: Records, groups: map<string, Records>, left: Records)
    requires IsSplit(data, groups) && data.Keys !! left.Keys
    ensures GroupItems(Scattered(groups, left)) == GroupItems(groups) + ItemBag(left)
    decreases |left|
  {
    hide ItemBag, RecordItems, GroupItems, Minute;
    if left == map[] {
      EmptyRows();
    } else {
      var key := Least(left.Keys);
      var r, rest := left[key], left - {key};
      PutKeepsSplit(data, groups, key, r);
      PutRows(groups, key, r);
      ScatteredRows(data[key := r], Put(groups, key, r), rest);
      ItemBagAdd(rest, key, r);
      assert rest[key := r] == left;
    }
  }

  /** Splitting neither loses nor adds a row. */
  lemma SplitKeepsRows(data: Records)
    ensures GroupItems(Groups(data)) == ItemBag(data)
  {
    EmptyRows();
    ScatteredRows(map[], map[], data);
  }
}
