/** The cache of prepared images (internal/feature/imageprep/prepare.go): a map into a
    recency list, bounded by entry count and by bytes. */
module ImageCache {

  const MAX_ENTRIES := 32
  const MAX_BYTES := 64 * 1024 * 1024

  datatype Policy = Policy(maxDimension: int, maxPatches: int, patchSize: int, maxOutputBytes: int)
  datatype Key = Key(digest: string, policy: Policy)
  datatype Prepared = Prepared(mimeType: string, data: string, sourceWidth: int, sourceHeight: int, width: int, height: int)
  datatype Entry = Entry(key: Key, value: Prepared, size: nat)

  function Stored(key: Key, value: Prepared): Entry {
    Entry(key, value, |value.data|)
  }

  // ---------- the list as a value, most recently used first ----------

  function Bytes(list: seq<Entry>): nat {
    if list == [] then 0 else list[0].size + Bytes(list[1..])
  }

  predicate Fits(list: seq<Entry>) {
    |list| <= MAX_ENTRIES && Bytes(list) <= MAX_BYTES
  }

  /** The bounds: 32 entries and 64 MiB, an entry weighing as much as the bytes of its image. */
  lemma {:induction false} BoundsMean(list: seq<Entry>, key: Key, value: Prepared)
    ensures Fits(list) <==> |list| <= 32 && Bytes(list) <= 67108864
    ensures Bytes([]) == 0 && Bytes([Stored(key, value)] + list) == |value.data| + Bytes(list)
    ensures Stored(key, value).key == key && Stored(key, value).value == value
  {
    assert ([Stored(key, value)] + list)[1..] == list;
  }

  function Without(list: seq<Entry>, key: Key): (r: seq<Entry>)
    ensures |r| <= |list|
  {
    if list == [] then []
    else if list[0].key == key then Without(list[1..], key)
    else [list[0]] + Without(list[1..], key)
  }

  /** Drop least recently used entries until both bounds hold. */
  function Evict(list: seq<Entry>): (r: seq<Entry>)
    ensures r <= list && Fits(r)
    ensures forall n :: |r| < n <= |list| ==> !Fits(list[..n])
  {
    if Fits(list) then list
    else
      var shorter := list[..|list| - 1];
      var r := Evict(shorter);
      assert forall n :: |r| < n < |list| ==> list[..n] == shorter[..n];
      assert list[..|list|] == list;
      r
  }

  lemma {:induction false} BytesDropLast(list: seq<Entry>)
    requires list != []
    ensures Bytes(list) == Bytes(list[..|list| - 1]) + list[|list| - 1].size
  {
    if |list| > 1 {
      BytesDropLast(list[1..]);
      assert list[1..][..|list| - 2] == list[..|list| - 1][1..];
    } else {
      assert list[1..] == [] && list[..0] == [];
    }
  }

  /** The entry just stored is never evicted: alone it fits both bounds. */
  lemma {:induction false} NewestSurvives(entry: Entry, older: seq<Entry>)
    requires entry.size <= MAX_BYTES
    ensures |Evict([entry] + older)| >= 1 && Evict([entry] + older)[0] == entry
  {
    var list := [entry] + older;
    assert list[..1] == [entry];
    assert Bytes(list[..1]) == entry.size + Bytes([]);
  }

  // ---------- recency over a history of uses ----------

  function Drop(keys: seq<Key>, key: Key): seq<Key> {
    if keys == [] then []
    else if keys[0] == key then Drop(keys[1..], key)
    else [keys[0]] + Drop(keys[1..], key)
  }

  /** Distinct keys of a history of uses, latest use first. */
  function Recency(uses: seq<Key>): seq<Key> {
    if uses == [] then []
    else [uses[|uses| - 1]] + Drop(Recency(uses[..|uses| - 1]), uses[|uses| - 1])
  }

  /** Position of the latest use of a key; -1 when it was never used. */
  function LastUse(uses: seq<Key>, key: Key): (n: int)
    ensures -1 <= n < |uses| && (n == -1 <==> key !in uses)
  {
    if uses == [] then -1
    else if uses[|uses| - 1] == key then |uses| - 1
    else LastUse(uses[..|uses| - 1], key)
  }

  /** Each key was used later than all that follow it. */
  ghost predicate ByLastUse(keys: seq<Key>, uses: seq<Key>) {
    keys == [] || (UsedAfter(keys[0], keys[1..], uses) && ByLastUse(keys[1..], uses))
  }

  ghost predicate UsedAfter(key: Key, others: seq<Key>, uses: seq<Key>) {
    forall k <- others :: LastUse(uses, key) > LastUse(uses, k)
  }

  lemma {:induction false} DropIsFilter(keys: seq<Key>, key: Key)
    ensures forall k :: k in Drop(keys, key) <==> k in keys && k != key
  {
    if keys == [] {
    } else {
      DropIsFilter(keys[1..], key);
    }
  }

  /** Using a key again leaves the order of the others as it was. */
  lemma {:induction false} DropKeepsOrder(keys: seq<Key>, key: Key, earlier: seq<Key>)
    requires ByLastUse(keys, earlier)
    ensures ByLastUse(Drop(keys, key), earlier + [key])
  {
    if keys == [] {
    } else {
      DropKeepsOrder(keys[1..], key, earlier);
      DropIsFilter(keys[1..], key);
      assert (earlier + [key])[..|earlier|] == earlier;
      if keys[0] != key {
        var rest := Drop(keys[1..], key);
        assert UsedAfter(keys[0], rest, earlier + [key]);
        assert ([keys[0]] + rest)[1..] == rest;
      }
    }
  }

  /** Recency lists every used key once, in order of its latest use. */
  lemma {:induction false} RecencyIsByLastUse(uses: seq<Key>)
    ensures ByLastUse(Recency(uses), uses)
    ensures forall key :: key in Recency(uses) <==> key in uses
  {
    if uses == [] {
    } else {
      var earlier, key := uses[..|uses| - 1], uses[|uses| - 1];
      RecencyIsByLastUse(earlier);
      assert uses == earlier + [key];
      DropKeepsOrder(Recency(earlier), key, earlier);
      DropIsFilter(Recency(earlier), key);
      var rest := Drop(Recency(earlier), key);
      assert UsedAfter(key, rest, uses);
      assert ([key] + rest)[1..] == rest;
    }
  }

  function Keys(list: seq<Entry>): (keys: seq<Key>)
    ensures |keys| == |list| && forall i :: 0 <= i < |list| ==> keys[i] == list[i].key
  {
    if list == [] then [] else [list[0].key] + Keys(list[1..])
  }

  lemma {:induction false} DropKeepsPrefix(shorter: seq<Key>, longer: seq<Key>, key: Key)
    requires shorter <= longer
    ensures Drop(shorter, key) <= Drop(longer, key)
  {
    if shorter == [] {
    } else {
      DropKeepsPrefix(shorter[1..], longer[1..], key);
    }
  }

  lemma {:induction false} KeysWithout(list: seq<Entry>, key: Key)
    ensures Keys(Without(list, key)) == Drop(Keys(list), key)
  {
    if list == [] {
    } else {
      KeysWithout(list[1..], key);
      assert Keys(list)[1..] == Keys(list[1..]);
    }
  }

  /** Moving an entry to the front, or pushing a new one, follows the recency of uses. */
  lemma {:induction false} UseFollowsRecency(list: seq<Entry>, entry: Entry, uses: seq<Key>)
    requires Keys(list) <= Recency(uses)
    ensures Keys([entry] + Without(list, entry.key)) <= Recency(uses + [entry.key])
  {
    assert (uses + [entry.key])[..|uses|] == uses;
    DropKeepsPrefix(Keys(list), Recency(uses), entry.key);
    KeysWithout(list, entry.key);
    assert ([entry] + Without(list, entry.key))[1..] == Without(list, entry.key);
  }

  // ---------- what the list keeps, as facts about its value ----------

  ghost predicate DistinctKeys(list: seq<Entry>) {
    forall i, j :: 0 <= i < j < |list| ==> list[i].key != list[j].key
  }

  /** One entry per key, each with the last value stored under it, and the keys are the most
      recently used ones in order of use. */
  ghost predicate Sound(list: seq<Entry>, latest: map<Key, Prepared>, uses: seq<Key>) {
    DistinctKeys(list) && Current(list, latest) && Keys(list) <= Recency(uses)
  }

  ghost predicate Current(list: seq<Entry>, latest: map<Key, Prepared>) {
    forall i :: 0 <= i < |list| ==> list[i].key in latest && list[i] == Stored(list[i].key, latest[list[i].key])
  }

  function Moved(list: seq<Entry>, i: nat, entry: Entry): seq<Entry>
    requires i < |list|
  {
    [entry] + list[..i] + list[i + 1..]
  }

  lemma {:induction false} WithoutAbsent(list: seq<Entry>, key: Key)
    requires forall i :: 0 <= i < |list| ==> list[i].key != key
    ensures Without(list, key) == list
  {
    if list == [] {
    } else {
      WithoutAbsent(list[1..], key);
    }
  }

  lemma {:induction false} WithoutAt(list: seq<Entry>, i: nat)
    requires DistinctKeys(list) && i < |list|
    ensures Without(list, list[i].key) == list[..i] + list[i + 1..]
    ensures Bytes(list) == Bytes(list[..i] + list[i + 1..]) + list[i].size
  {
    if i == 0 {
      WithoutAbsent(list[1..], list[0].key);
      assert list[..0] + list[1..] == list[1..];
    } else {
      WithoutAt(list[1..], i - 1);
      assert list[..i] + list[i + 1..] == [list[0]] + (list[1..][..i - 1] + list[1..][i..]);
    }
  }

  lemma {:induction false} MovedStaysCurrent(list: seq<Entry>, i: nat, entry: Entry, latest: map<Key, Prepared>)
    requires DistinctKeys(list) && Current(list, latest) && i < |list| && entry == Stored(list[i].key, entry.value)
    ensures DistinctKeys(Moved(list, i, entry)) && Current(Moved(list, i, entry), latest[entry.key := entry.value])
  {
  }

  lemma {:induction false} MovedIsUse(list: seq<Entry>, i: nat, entry: Entry)
    requires DistinctKeys(list) && i < |list| && list[i].key == entry.key
    ensures Moved(list, i, entry) == [entry] + Without(list, entry.key)
    ensures Bytes(Moved(list, i, entry)) == Bytes(list) - list[i].size + entry.size
  {
    WithoutAt(list, i);
    var others := list[..i] + list[i + 1..];
    assert Moved(list, i, entry) == [entry] + others;
    assert ([entry] + others)[1..] == others;
  }

  /** Storing under a resident key, or using it, moves the entry to the front. */
  lemma {:induction false} MoveIsSound(list: seq<Entry>, i: nat, entry: Entry, latest: map<Key, Prepared>, uses: seq<Key>)
    requires Sound(list, latest, uses) && i < |list| && entry == Stored(list[i].key, entry.value)
    ensures Sound(Moved(list, i, entry), latest[entry.key := entry.value], uses + [entry.key])
  {
    MovedIsUse(list, i, entry);
    UseFollowsRecency(list, entry, uses);
    MovedStaysCurrent(list, i, entry, latest);
  }

  lemma {:induction false} PushIsSound(list: seq<Entry>, entry: Entry, latest: map<Key, Prepared>, uses: seq<Key>)
    requires entry == Stored(entry.key, entry.value)
    requires Sound(list, latest, uses) && forall i :: 0 <= i < |list| ==> list[i].key != entry.key
    ensures Without(list, entry.key) == list
    ensures Sound([entry] + list, latest[entry.key := entry.value], uses + [entry.key])
    ensures Bytes([entry] + list) == Bytes(list) + entry.size
  {
    WithoutAbsent(list, entry.key);
    UseFollowsRecency(list, entry, uses);
    assert ([entry] + list)[1..] == list;
  }

  lemma {:induction false} DropLastIsSound(list: seq<Entry>, latest: map<Key, Prepared>, uses: seq<Key>)
    requires Sound(list, latest, uses) && list != []
    ensures Sound(list[..|list| - 1], latest, uses)
  {
  }

  lemma {:induction false} EvictGoesOn(list: seq<Entry>, shorter: seq<Entry>)
    requires !Fits(list) && shorter == list[..|list| - 1]
    ensures Evict(shorter) == Evict(list)
  {
  }

  // ---------- the map beside the list ----------

  /** The map holds exactly the entries of the list, each under its own key. */
  ghost predicate InStep(items: map<Key, Entry>, list: seq<Entry>) {
    && (forall i :: 0 <= i < |list| ==> list[i].key in items && items[list[i].key] == list[i])
    && items.Keys == KeySet(list)
  }

  function KeySet(list: seq<Entry>): set<Key> {
    set entry <- list :: entry.key
  }

  function IndexOf(list: seq<Entry>, entry: Entry): (i: nat)
    requires entry in list
    ensures i < |list| && list[i] == entry
  {
    if list[0] == entry then 0 else 1 + IndexOf(list[1..], entry)
  }

  lemma {:induction false} ResidentIsListed(items: map<Key, Entry>, list: seq<Entry>, key: Key)
    requires InStep(items, list) && key in items
    ensures items[key] in list && items[key].key == key
  {
    assert key in KeySet(list);
    var entry :| entry in list && entry.key == key;
    var i := IndexOf(list, entry);
    assert items[list[i].key] == list[i];
  }

  lemma {:induction false} MovedKeySet(list: seq<Entry>, i: nat, entry: Entry)
    requires i < |list| && entry.key == list[i].key
    ensures KeySet(Moved(list, i, entry)) == KeySet(list)
  {
    var moved := Moved(list, i, entry);
    assert moved[0] == entry && list[i] in list;
    forall e | e in list ensures e.key in KeySet(moved) {
      var j := IndexOf(list, e);
      var m := MovedAt(list, i, entry, j);
      assert moved[m] in moved && moved[m].key == e.key;
    }
    forall e | e in moved ensures e.key in KeySet(list) {
      var m := IndexOf(moved, e);
      var j := MovedFrom(list, i, entry, m);
      assert list[j] in list;
    }
  }

  lemma {:induction false} MovedAt(list: seq<Entry>, i: nat, entry: Entry, j: nat) returns (m: nat)
    requires i < |list| && j < |list|
    ensures m < |Moved(list, i, entry)| && Moved(list, i, entry)[m] == if j == i then entry else list[j]
  {
    m := if j == i then 0 else if j < i then j + 1 else j;
  }

  lemma {:induction false} MovedFrom(list: seq<Entry>, i: nat, entry: Entry, m: nat) returns (j: nat)
    requires i < |list| && m < |list|
    ensures j < |list| && Moved(list, i, entry)[m] == if m == 0 then entry else list[j]
    ensures m != 0 ==> j != i
  {
    j := if m == 0 then i else if m <= i then m - 1 else m;
  }

  lemma {:induction false} MoveInStep(items: map<Key, Entry>, list: seq<Entry>, i: nat, entry: Entry)
    requires InStep(items, list) && DistinctKeys(list) && i < |list| && entry.key == list[i].key
    ensures InStep(items[entry.key := entry], Moved(list, i, entry))
  {
    var moved, known := Moved(list, i, entry), items[entry.key := entry];
    MovedKeySet(list, i, entry);
    assert list[i] in list;
    forall m | 0 <= m < |moved| ensures moved[m].key in known && known[moved[m].key] == moved[m] {
      var j := MovedFrom(list, i, entry, m);
      assert j != i ==> list[j].key != list[i].key;
    }
  }

  lemma {:induction false} PushInStep(items: map<Key, Entry>, list: seq<Entry>, entry: Entry)
    requires InStep(items, list) && entry.key !in items
    ensures InStep(items[entry.key := entry], [entry] + list)
  {
    assert KeySet([entry] + list) == {entry.key} + KeySet(list) by {
      assert ([entry] + list)[0] == entry;
      forall e | e in list ensures e in [entry] + list { assert ([entry] + list)[IndexOf(list, e) + 1] == e; }
    }
  }

  lemma {:induction false} DropInStep(items: map<Key, Entry>, list: seq<Entry>)
    requires InStep(items, list) && DistinctKeys(list) && list != []
    ensures InStep(items - {list[|list| - 1].key}, list[..|list| - 1])
  {
    var n := |list| - 1;
    var kept := list[..n];
    assert KeySet(kept) == KeySet(list) - {list[n].key} by {
      forall e | e in kept ensures e.key in KeySet(list) && e.key != list[n].key {
        var i := IndexOf(kept, e);
        assert list[i] == e && list[i] in list;
      }
      forall e | e in list && e.key != list[n].key ensures e in kept {
        var i := IndexOf(list, e);
        assert kept[i] == e;
      }
    }
  }

  lemma {:induction false} SameValueAgain<V>(m: map<Key, V>, key: Key)
    requires key in m
    ensures m[key := m[key]] == m
  {
  }

  /** A use without a change keeps everything but the order. */
  lemma {:induction false} HitInStep(items: map<Key, Entry>, list: seq<Entry>, i: nat)
    requires InStep(items, list) && DistinctKeys(list) && i < |list|
    ensures InStep(items, Moved(list, i, list[i]))
  {
    MoveInStep(items, list, i, list[i]);
    SameValueAgain(items, list[i].key);
  }

  lemma {:induction false} HitIsSound(list: seq<Entry>, i: nat, latest: map<Key, Prepared>, uses: seq<Key>)
    requires Sound(list, latest, uses) && i < |list|
    ensures Sound(Moved(list, i, list[i]), latest, uses + [list[i].key])
  {
    MoveIsSound(list, i, list[i], latest, uses);
    SameValueAgain(latest, list[i].key);
  }

  /** What the fields of a cache say together. */
  ghost predicate Consistent(items: map<Key, Entry>, list: seq<Entry>, bytes: int, latest: map<Key, Prepared>, uses: seq<Key>) {
    InStep(items, list) && Sound(list, latest, uses) && bytes == Bytes(list)
  }

  lemma {:induction false} HitKeeps(items: map<Key, Entry>, list: seq<Entry>, bytes: int, latest: map<Key, Prepared>, uses: seq<Key>, i: nat)
    requires Consistent(items, list, bytes, latest, uses) && i < |list|
    ensures var moved := Moved(list, i, list[i]);
            && Consistent(items, moved, bytes, latest, uses + [list[i].key])
            && moved == [list[i]] + Without(list, list[i].key) && (Fits(list) ==> Fits(moved))
  {
    HitInStep(items, list, i);
    HitIsSound(list, i, latest, uses);
    MovedIsUse(list, i, list[i]);
  }

  lemma {:induction false} MoveKeeps(items: map<Key, Entry>, list: seq<Entry>, bytes: int, latest: map<Key, Prepared>, uses: seq<Key>, i: nat, entry: Entry)
    requires Consistent(items, list, bytes, latest, uses) && i < |list| && entry == Stored(list[i].key, entry.value)
    ensures var moved := Moved(list, i, entry);
            && Consistent(items[entry.key := entry], moved, bytes - list[i].size + entry.size, latest[entry.key := entry.value], uses + [entry.key])
            && moved == [entry] + Without(list, entry.key)
  {
    MoveInStep(items, list, i, entry);
    MoveIsSound(list, i, entry, latest, uses);
    MovedIsUse(list, i, entry);
  }

  lemma {:induction false} PushKeeps(items: map<Key, Entry>, list: seq<Entry>, bytes: int, latest: map<Key, Prepared>, uses: seq<Key>, entry: Entry)
    requires Consistent(items, list, bytes, latest, uses) && entry.key !in items && entry == Stored(entry.key, entry.value)
    ensures Consistent(items[entry.key := entry], [entry] + list, bytes + entry.size, latest[entry.key := entry.value], uses + [entry.key])
    ensures Without(list, entry.key) == list
  {
    PushInStep(items, list, entry);
    PushIsSound(list, entry, latest, uses);
  }

  lemma {:induction false} DropKeeps(items: map<Key, Entry>, list: seq<Entry>, bytes: int, latest: map<Key, Prepared>, uses: seq<Key>)
    requires Consistent(items, list, bytes, latest, uses) && list != []
    ensures var last := list[|list| - 1];
            Consistent(items - {last.key}, list[..|list| - 1], bytes - last.size, latest, uses)
  {
    BytesDropLast(list);
    DropLastIsSound(list, latest, uses);
    DropInStep(items, list);
  }

  // ---------- the cache ----------

  class Cache {
    var items: map<Key, Entry>
    var lru: seq<Entry>
    var bytes: int
    ghost var latest: map<Key, Prepared>  // value of the last accepted put
    ghost var uses: seq<Key>              // accepted puts and hits, in order

    ghost predicate Linked()
      reads this
    {
      Consistent(items, lru, bytes, latest, uses)
    }

    /** Map and list agree, the byte count is exact and both bounds hold. */
    ghost predicate Valid()
      reads this
    {
      Linked() && Fits(lru)
    }

    constructor ()
      ensures Valid() && lru == [] && latest == map[] && uses == []
    {
      items, lru, bytes, latest, uses := map[], [], 0, map[], [];
    }

    /** A hit returns the last value stored under the key and makes it the most recent. */
    method Get(key: Key) returns (value: Prepared, found: bool)
      requires Valid()
      modifies this`lru, this`uses
      ensures Valid()
      ensures found <==> key in items
      ensures found ==> key in latest && value == latest[key]
      ensures lru == if found then [Stored(key, value)] + Without(old(lru), key) else old(lru)
      ensures uses == if found then old(uses) + [key] else old(uses)
    {
      if key !in items { return Prepared("", "", 0, 0, 0, 0), false; }
      ResidentIsListed(items, lru, key);
      var element := items[key];
      var i := IndexOf(lru, element);
      value, found := element.value, true;
      assert element == Stored(key, value) && key in latest && value == latest[key];
      MoveToFront(i);
    }

    method MoveToFront(i: nat)
      requires Linked() && i < |lru|
      modifies this`lru, this`uses
      ensures Linked() && (old(Fits(lru)) ==> Fits(lru))
      ensures lru == [old(lru[i])] + Without(old(lru), old(lru[i]).key)
      ensures uses == old(uses) + [old(lru[i]).key]
    {
      HitKeeps(items, lru, bytes, latest, uses, i);
      var moved := Moved(lru, i, lru[i]);
      uses := uses + [lru[i].key];
      lru := moved;
    }

    /** Update the entry in place or push a new one; either way it is now in front. */
    method Admit(key: Key, value: Prepared, size: nat)
      requires Linked() && size == |value.data|
      modifies this
      ensures Linked()
      ensures lru == [Stored(key, value)] + Without(old(lru), key)
      ensures latest == old(latest)[key := value] && uses == old(uses) + [key]
    {
      var entry := Entry(key, value, size);
      if key in items {
        ResidentIsListed(items, lru, key);
        var existing := items[key];
        var i := IndexOf(lru, existing);
        MoveKeeps(items, lru, bytes, latest, uses, i, entry);
        bytes := bytes - existing.size + size;
        lru := Moved(lru, i, entry);
      } else {
        PushKeeps(items, lru, bytes, latest, uses, entry);
        lru := [entry] + lru;
        bytes := bytes + size;
      }
      items := items[key := entry];
      latest, uses := latest[key := value], uses + [key];
    }

    method DropLast()
      requires Linked() && lru != []
      modifies this`items, this`lru, this`bytes
      ensures Linked()
      ensures lru == old(lru)[..|old(lru)| - 1]
    {
      hide Consistent;
      DropKeeps(items, lru, bytes, latest, uses);
      var last, kept := lru[|lru| - 1], lru[..|lru| - 1];
      items, bytes, lru := items - {last.key}, bytes - last.size, kept;
    }

    /** An empty or oversized value is refused. Any other becomes the most recent entry, and then
        only least recently used entries leave, no more of them than the bounds require. */
    method Put(key: Key, value: Prepared)
      requires Valid()
      modifies this
      ensures Valid()
      ensures |value.data| == 0 || |value.data| > MAX_BYTES ==>
                lru == old(lru) && latest == old(latest) && uses == old(uses) && items == old(items)
      ensures 0 < |value.data| <= MAX_BYTES ==>
                && lru == Evict([Stored(key, value)] + Without(old(lru), key))
                && lru != [] && lru[0] == Stored(key, value)
                && latest == old(latest)[key := value]
                && uses == old(uses) + [key]
    {
      var size := |value.data|;
      if size <= 0 || size > MAX_BYTES { return; }
      NewestSurvives(Stored(key, value), Without(lru, key));
      Admit(key, value, size);
      EvictExcess();
    }

    method EvictExcess()
      requires Linked()
      modifies this`items, this`lru, this`bytes
      ensures Linked() && lru == Evict(old(lru))
    {
      while |lru| > MAX_ENTRIES || bytes > MAX_BYTES
        invariant Linked() && Evict(lru) == Evict(old(lru))
        decreases |lru|
      {
        ghost var before := lru;
        assert !Fits(before);
        DropLast();
        EvictGoesOn(before, lru);
      }
      assert Fits(lru);
    }
  }
}
