/** The tables of runtime/c/map.c as values: open addressing within a window of eight slots, and a
    table that doubles when the window or half of the table is full. */
module HashTable {
  import opened Crc
  import opened Wrappers

  const INITIAL_SIZE: nat := 256
  const MAX_CHAIN_LENGTH: nat := 8

  /** The loops over slots count with 16 bits.  In a table of this size or more they never reach the
      end, and meet the slots before this one over and over. */
  const REACH: nat := 0x1_0000

  /** A table of this size is never doubled: the slot that probing answers is a signed word. */
  const LIMIT: nat := 0x8000_0000

  /** `ENDLESS` stands for a call that never returns. */
  datatype Status = OK | OMEM | MISSING | ENDLESS

  /** A C pointer; 0 is NULL. */
  type Pointer = nat

  datatype Element = Element(inUse: bool, key: Text, value: Pointer)

  const FREE := Element(false, [], 0)

  // where a key goes

  /** The integer mix of Robert Jenkins and the multiplication of Knuth. */
  function Mix(crc: bv32): bv32 {
    var a := crc + (crc << 12);
    var b := a ^ (a >> 22);
    var c := b + (b << 4);
    var d := c ^ (c >> 9);
    var e := d + (d << 10);
    var f := e ^ (e >> 2);
    var g := f + (f << 7);
    var h := g ^ (g >> 12);
    (h >> 3) * 2654435761
  }

  function Home(key: Text, tableSize: nat): (h: nat)
    requires 0 < tableSize
    ensures h < tableSize
  {
    Mix(Remainder(key)) as nat % tableSize
  }

  /** Slot `d` of the window that starts at slot `h` of `n`, around the end of the table. */
  function Probe(h: nat, d: nat, n: nat): (k: nat)
    requires h < n && d < MAX_CHAIN_LENGTH <= n
    ensures k < n
  {
    if h + d < n then h + d else h + d - n
  }

  /** The `d`-th slot in which a key is looked for. */
  function Slot(s: seq<Element>, key: Text, d: nat): (k: nat)
    requires d < MAX_CHAIN_LENGTH <= |s|
    ensures k < |s|
  {
    Probe(Home(key, |s|), d, |s|)
  }

  /** The slot holds another key. */
  predicate Taken(s: seq<Element>, key: Text, d: nat)
    requires d < MAX_CHAIN_LENGTH <= |s|
  {
    s[Slot(s, key, d)].inUse && s[Slot(s, key, d)].key != key
  }

  predicate AllTaken(s: seq<Element>, key: Text, d: nat)
    requires d <= MAX_CHAIN_LENGTH <= |s|
  {
    forall e: nat :: e < d ==> Taken(s, key, e)
  }

  /** Slot `k`, if used, is the first one that its key could have gone to. */
  ghost predicate PlacedAt(s: seq<Element>, k: nat)
    requires k < |s| && MAX_CHAIN_LENGTH <= |s|
  {
    s[k].inUse ==>
      exists d: nat :: d < MAX_CHAIN_LENGTH && k == Slot(s, s[k].key, d) && AllTaken(s, s[k].key, d)
  }

  ghost predicate Placed(s: seq<Element>)
    requires MAX_CHAIN_LENGTH <= |s|
  {
    forall k: nat :: k < |s| ==> PlacedAt(s, k)
  }

  // what a table means

  /** The finite map that a table represents. */
  function Entries(s: seq<Element>): map<Text, Pointer> {
    if s == [] then map[]
    else
      var e, before := s[|s| - 1], Entries(s[..|s| - 1]);
      if e.inUse then before[e.key := e.value] else before
  }

  ghost predicate Distinct(s: seq<Element>) {
    forall j, k :: 0 <= j < k < |s| && s[j].inUse && s[k].inUse ==> s[j].key != s[k].key
  }

  lemma {:induction false} EntriesDomain(s: seq<Element>, key: Text)
    ensures key in Entries(s) <==> exists k :: 0 <= k < |s| && s[k].inUse && s[k].key == key
  {
    if s != [] {
      EntriesDomain(s[..|s| - 1], key);
      assert forall k :: 0 <= k < |s| - 1 ==> s[..|s| - 1][k] == s[k];
    }
  }

  lemma {:induction false} EntriesAt(s: seq<Element>, k: nat)
    requires Distinct(s) && k < |s| && s[k].inUse
    ensures s[k].key in Entries(s) && Entries(s)[s[k].key] == s[k].value
  {
    if k < |s| - 1 {
      EntriesAt(s[..|s| - 1], k);
    }
  }

  /** The slots before `i` hold part of what the table holds. */
  lemma EntriesPrefix(s: seq<Element>, i: nat)
    requires Distinct(s) && i <= |s|
    ensures Within(Entries(s[..i]), Entries(s))
  {
    forall key | key in Entries(s[..i])
      ensures key in Entries(s) && Entries(s)[key] == Entries(s[..i])[key]
    {
      EntriesDomain(s[..i], key);
      var k: nat :| k < i && s[..i][k].inUse && s[..i][k].key == key;
      EntriesAt(s, k);
      EntriesAt(s[..i], k);
    }
  }

  ghost predicate Within(small: map<Text, Pointer>, big: map<Text, Pointer>) {
    forall key :: key in small ==> key in big && small[key] == big[key]
  }

  /** A key of the table is not among the keys before its slot. */
  lemma FreshKey(s: seq<Element>, i: nat)
    requires Distinct(s) && i < |s|
    ensures s[i].inUse ==> s[i].key !in Entries(s[..i])
  {
    EntriesDomain(s[..i], s[i].key);
  }

  /** No other key fills the window of the only key. */
  lemma OwnWindow(s: seq<Element>, key: Text)
    requires MAX_CHAIN_LENGTH <= |s|
    ensures Entries(s).Keys <= {key} ==> !AllTaken(s, key, MAX_CHAIN_LENGTH)
  {
    var e := s[Slot(s, key, 0)];
    EntriesDomain(s, e.key);
    assert Taken(s, key, 0) <==> e.inUse && e.key != key;
  }

  lemma MergeStep(base: map<Text, Pointer>, m: map<Text, Pointer>, key: Text, value: Pointer)
    ensures (base + m)[key := value] == base + m[key := value]
  {
  }

  /** Writing the one slot that a key may be in, or a free slot when the key is in none, puts the
      key into the map. */
  lemma {:induction false} EntriesUpdate(s: seq<Element>, k: nat, e: Element)
    requires k < |s| && e.inUse && (s[k].inUse ==> s[k].key == e.key)
    requires forall j :: 0 <= j < |s| && j != k && s[j].inUse ==> s[j].key != e.key
    ensures Entries(s[k := e]) == Entries(s)[e.key := e.value]
  {
    var n := |s| - 1;
    if k == n {
      assert s[k := e][..n] == s[..n];
    } else {
      assert s[k := e][..n] == s[..n][k := e];
      EntriesUpdate(s[..n], k, e);
    }
  }

  lemma EntriesStep(s: seq<Element>, i: nat)
    requires i < |s|
    ensures Entries(s[..i + 1]) ==
              if s[i].inUse then Entries(s[..i])[s[i].key := s[i].value] else Entries(s[..i])
  {
    assert s[..i + 1][..i] == s[..i];
  }

  lemma {:induction false} NoEntries(s: seq<Element>)
    requires forall k :: 0 <= k < |s| ==> !s[k].inUse
    ensures Entries(s) == map[]
  {
    if s != [] {
      NoEntries(s[..|s| - 1]);
    }
  }

  // the window

  lemma PlacedDistinct(s: seq<Element>)
    requires MAX_CHAIN_LENGTH <= |s| && Placed(s)
    ensures Distinct(s)
  {
    forall j: nat, k: nat | j < k < |s| && s[j].inUse && s[k].inUse
      ensures s[j].key != s[k].key
    {
      assert PlacedAt(s, j) && PlacedAt(s, k);
      if s[j].key == s[k].key {
        SameSlot(s, j, k);
      }
    }
  }

  lemma SameSlot(s: seq<Element>, j: nat, k: nat)
    requires MAX_CHAIN_LENGTH <= |s| && j < |s| && k < |s| && PlacedAt(s, j) && PlacedAt(s, k)
    requires s[j].inUse && s[k].inUse && s[j].key == s[k].key
    ensures j == k
  {
    var key := s[j].key;
    var d: nat :| d < MAX_CHAIN_LENGTH && j == Slot(s, key, d) && AllTaken(s, key, d);
    var e: nat :| e < MAX_CHAIN_LENGTH && k == Slot(s, key, e) && AllTaken(s, key, e);
    assert d < e ==> Taken(s, key, d);
    assert e < d ==> Taken(s, key, e);
  }

  /** A key in the table is at the first slot of its window that does not hold another key. */
  lemma FoundAt(s: seq<Element>, key: Text, d: nat)
    requires MAX_CHAIN_LENGTH <= |s| && Placed(s) && d < MAX_CHAIN_LENGTH
    requires AllTaken(s, key, d) && !Taken(s, key, d)
    ensures forall j: nat :: j < |s| && j != Slot(s, key, d) && s[j].inUse ==> s[j].key != key
  {
    forall j: nat | j < |s| && s[j].inUse && s[j].key == key
      ensures j == Slot(s, key, d)
    {
      assert PlacedAt(s, j);
      var e: nat :| e < MAX_CHAIN_LENGTH && j == Slot(s, key, e) && AllTaken(s, key, e);
      assert e < d ==> Taken(s, key, e);
    }
  }

  /** A key is in the table only if some slot of its window holds it. */
  lemma InWindow(s: seq<Element>, key: Text)
    requires MAX_CHAIN_LENGTH <= |s| && Placed(s) && key in Entries(s)
    ensures exists d: nat :: d < MAX_CHAIN_LENGTH && s[Slot(s, key, d)].inUse && s[Slot(s, key, d)].key == key
  {
    EntriesDomain(s, key);
    var k: nat :| k < |s| && s[k].inUse && s[k].key == key;
    assert PlacedAt(s, k);
  }

  lemma SlotsDiffer(s: seq<Element>, key: Text, d: nat, e: nat)
    requires d < e < MAX_CHAIN_LENGTH <= |s|
    ensures Slot(s, key, d) != Slot(s, key, e)
  {
  }

  /** Writing a key at its place keeps every other key in place. */
  lemma PutPlaced(s: seq<Element>, d: nat, e: Element)
    requires MAX_CHAIN_LENGTH <= |s| && Placed(s) && d < MAX_CHAIN_LENGTH && e.inUse
    requires AllTaken(s, e.key, d) && !Taken(s, e.key, d)
    ensures Placed(s[Slot(s, e.key, d) := e])
  {
    var k, t := Slot(s, e.key, d), s[Slot(s, e.key, d) := e];
    forall j: nat | j < |t|
      ensures PlacedAt(t, j)
    {
      if j == k {
        forall c: nat | c < d
          ensures Taken(t, e.key, c)
        {
          assert Taken(s, e.key, c);
          SlotsDiffer(s, e.key, c, d);
        }
        assert AllTaken(t, e.key, d);
      } else if s[j].inUse {
        assert PlacedAt(s, j);
        var key := s[j].key;
        var b: nat :| b < MAX_CHAIN_LENGTH && j == Slot(s, key, b) && AllTaken(s, key, b);
        forall c: nat | c < b
          ensures Taken(t, key, c)
        {
          assert Taken(s, key, c);
        }
        assert AllTaken(t, key, b) && j == Slot(t, key, b);
      }
    }
  }

  // where a key is put

  /** `dzn_map_hash` answers this slot, or that the map is full. */
  ghost predicate IsPlace(s: seq<Element>, key: Text, k: nat) {
    && MAX_CHAIN_LENGTH <= |s|
    && exists d: nat :: d < MAX_CHAIN_LENGTH && k == Slot(s, key, d) && AllTaken(s, key, d) && !Taken(s, key, d)
  }

  lemma PutAtPlace(s: seq<Element>, k: nat, e: Element)
    requires MAX_CHAIN_LENGTH <= |s| && Placed(s) && e.inUse && IsPlace(s, e.key, k)
    ensures k < |s| && Placed(s[k := e])
    ensures Entries(s[k := e]) == Entries(s)[e.key := e.value]
  {
    var d: nat :| d < MAX_CHAIN_LENGTH && k == Slot(s, e.key, d) && AllTaken(s, e.key, d) && !Taken(s, e.key, d);
    PutPlaced(s, d, e);
    FoundAt(s, e.key, d);
    EntriesUpdate(s, k, e);
  }

  lemma NextSlot(h: nat, i: nat, n: nat)
    requires h < n && i + 1 < MAX_CHAIN_LENGTH <= n
    ensures (Probe(h, i, n) + 1) % n == Probe(h, i + 1, n)
  {
    WrapAround(Probe(h, i, n) + 1, n);
  }

  lemma WrapAround(k: nat, n: nat)
    requires 0 < n && k <= n
    ensures k % n == if k < n then k else 0
  {
  }

  lemma EmptyPlaced(s: seq<Element>)
    requires MAX_CHAIN_LENGTH <= |s| && forall k :: 0 <= k < |s| ==> !s[k].inUse
    ensures Placed(s) && Entries(s) == map[]
  {
    NoEntries(s);
  }

  /** The answer of probing from the `d`-th slot of the window on. */
  function Place(s: seq<Element>, key: Text, d: nat): Option<nat>
    requires d <= MAX_CHAIN_LENGTH <= |s|
    decreases MAX_CHAIN_LENGTH - d
  {
    if d == MAX_CHAIN_LENGTH then None
    else if Taken(s, key, d) then Place(s, key, d + 1)
    else Some(Slot(s, key, d))
  }

  lemma PlaceStep(s: seq<Element>, key: Text, d: nat)
    requires d < MAX_CHAIN_LENGTH <= |s|
    ensures var e := s[Slot(s, key, d)];
      Place(s, key, d) == if e.inUse && e.key != key then Place(s, key, d + 1) else Some(Slot(s, key, d))
  {
  }

  lemma {:induction false} PlaceIs(s: seq<Element>, key: Text, d: nat)
    requires d <= MAX_CHAIN_LENGTH <= |s| && AllTaken(s, key, d)
    ensures Place(s, key, d) == None ==> AllTaken(s, key, MAX_CHAIN_LENGTH)
    ensures Place(s, key, d).Some? ==> IsPlace(s, key, Place(s, key, d).value)
    decreases MAX_CHAIN_LENGTH - d
  {
    if d < MAX_CHAIN_LENGTH && Taken(s, key, d) {
      PlaceIs(s, key, d + 1);
    }
  }

  /** Probing skips slots that are taken. */
  lemma {:induction false} PlaceFrom(s: seq<Element>, key: Text, d: nat, e: nat)
    requires e <= d <= MAX_CHAIN_LENGTH <= |s| && AllTaken(s, key, d)
    ensures Place(s, key, e) == Place(s, key, d)
    decreases d - e
  {
    if e < d {
      PlaceFrom(s, key, d, e + 1);
    }
  }

  // putting and rehashing

  /** The slots of a map and its counter. */
  datatype Table = Table(slots: seq<Element>, size: nat)

  /** How a call ends, with the table it leaves and what the allocator is going to answer next. */
  datatype Outcome = Outcome(status: Status, table: Table, grants: seq<bool>)

  /** An allocator that has no answer left denies. */
  predicate Denied(grants: seq<bool>) {
    grants == [] || !grants[0]
  }

  function Rest(grants: seq<bool>): seq<bool> {
    if grants == [] then [] else grants[1..]
  }

  function Empty(n: nat): Table {
    Table(seq(n, _ => FREE), 0)
  }

  /** The counter is below half of the table, and the window has a place. */
  predicate Room(t: Table, key: Text)
    requires MAX_CHAIN_LENGTH <= |t.slots|
  {
    t.size < |t.slots| / 2 && Place(t.slots, key, 0).Some?
  }

  function Stored(t: Table, key: Text, value: Pointer): (r: Table)
    requires MAX_CHAIN_LENGTH <= |t.slots| && Room(t, key)
    ensures |r.slots| == |t.slots|
  {
    PlaceIs(t.slots, key, 0);
    Table(t.slots[Place(t.slots, key, 0).value := Element(true, key, value)], t.size + 1)
  }

  /** No slot from `i` on is used. */
  predicate Unused(s: seq<Element>, i: nat)
    requires i <= |s|
  {
    forall k :: i <= k < |s| ==> !s[k].inUse
  }

  /** How many puts a table takes before its counter is half of its size. */
  function Spare(t: Table): nat {
    if t.size < |t.slots| / 2 then |t.slots| / 2 - t.size else 0
  }

  /** `dzn_map_put`. */
  function Put(t: Table, key: Text, value: Pointer, grants: seq<bool>): (r: Outcome)
    requires MAX_CHAIN_LENGTH <= |t.slots|
    ensures |r.grants| <= |grants| && |t.slots| <= |r.table.slots| && r.status != MISSING
    ensures r.status == OK && |r.grants| == |grants| ==> |r.table.slots| == |t.slots| && Spare(r.table) < Spare(t)
    decreases |grants|, 1, 0
  {
    if Room(t, key) then Outcome(OK, Stored(t, key, value), grants)
    else
      var r := Rehash(t, grants);
      if r.status != OK then r else Put(r.table, key, value, r.grants)
  }

  /** `dzn_map_rehash`. */
  function Rehash(t: Table, grants: seq<bool>): (r: Outcome)
    requires MAX_CHAIN_LENGTH <= |t.slots|
    ensures |r.grants| <= |grants| && |t.slots| <= |r.table.slots| && r.status != MISSING
    ensures r.status == OK ==> |r.grants| < |grants| && |t.slots| < REACH
    decreases |grants|, 0, 0
  {
    if Denied(grants) || |t.slots| >= LIMIT then Outcome(OMEM, t, Rest(grants))
    else Reload(t.slots, Empty(2 * |t.slots|), Rest(grants))
  }

  /** A loop over all slots of `s` that puts the elements into `t`. */
  function Reload(s: seq<Element>, t: Table, grants: seq<bool>): (r: Outcome)
    requires MAX_CHAIN_LENGTH <= |t.slots|
    ensures |r.grants| <= |grants| && |t.slots| <= |r.table.slots| && r.status != MISSING
    ensures r.status == OK ==> |s| < REACH
    decreases |grants|, 4, 0
  {
    if |s| < REACH then Load(s, 0, t, grants) else Sweep(s[..REACH], t, grants)
  }

  /** The loop when its index wraps: it ends when a put fails, and never if it puts nothing. */
  function Sweep(s: seq<Element>, t: Table, grants: seq<bool>): (r: Outcome)
    requires MAX_CHAIN_LENGTH <= |t.slots|
    ensures |r.grants| <= |grants| && |t.slots| <= |r.table.slots| && (r.status == OMEM || r.status == ENDLESS)
    decreases |grants|, 3, Spare(t)
  {
    if Unused(s, 0) then Outcome(ENDLESS, t, grants)
    else
      var r := Load(s, 0, t, grants);
      if r.status != OK then r else Sweep(s, r.table, r.grants)
  }

  /** The loop from slot `i` to the end of `s`. */
  function Load(s: seq<Element>, i: nat, t: Table, grants: seq<bool>): (r: Outcome)
    requires i <= |s| && MAX_CHAIN_LENGTH <= |t.slots|
    ensures |r.grants| <= |grants| && |t.slots| <= |r.table.slots| && r.status != MISSING
    ensures r.status == OK && |r.grants| == |grants| ==>
              |r.table.slots| == |t.slots| && Spare(r.table) <= Spare(t) && (Unused(s, i) || Spare(r.table) < Spare(t))
    decreases |grants|, 2, |s| - i
  {
    if i == |s| then Outcome(OK, t, grants)
    else if !s[i].inUse then Load(s, i + 1, t, grants)
    else
      var r := Put(t, s[i].key, s[i].value, grants);
      if r.status != OK then r else Load(s, i + 1, r.table, r.grants)
  }

  // what the calls mean

  /** The finite map that the table stands for. */
  function Meaning(t: Table): map<Text, Pointer> {
    Entries(t.slots)
  }

  ghost predicate Good(t: Table) {
    && INITIAL_SIZE <= |t.slots| && Placed(t.slots)
    && |Meaning(t)| <= t.size <= |t.slots| / 2
    && (t.size > 0 ==> Meaning(t) != map[])
  }

  lemma EmptyGood(n: nat)
    requires INITIAL_SIZE <= n
    ensures Good(Empty(n)) && Meaning(Empty(n)) == map[]
  {
    EmptyPlaced(Empty(n).slots);
  }

  lemma StoredMeans(t: Table, key: Text, value: Pointer)
    requires Good(t) && Room(t, key)
    ensures Good(Stored(t, key, value)) && Meaning(Stored(t, key, value)) == Meaning(t)[key := value]
  {
    PlaceIs(t.slots, key, 0);
    PutAtPlace(t.slots, Place(t.slots, key, 0).value, Element(true, key, value));
    assert key in Meaning(Stored(t, key, value));
  }

  /** A table without one of the keys stands for less. */
  lemma Smaller(small: map<Text, Pointer>, big: map<Text, Pointer>, key: Text)
    requires Within(small, big) && key in big && key !in small
    ensures |small| < |big| && small != big
  {
    assert small.Keys <= big.Keys - {key};
    SubsetSize(small.Keys, big.Keys - {key});
  }

  /** What `r` is worth to a caller that put a key into `t`.  The counter tells whether a call that
      ran out of memory lost keys, unless it doubled a table whose loop wraps. */
  ghost predicate PutOk(t: Table, key: Text, value: Pointer, r: Outcome) {
    && Good(r.table)
    && (r.status == OK ==>
          && Meaning(r.table) == Meaning(t)[key := value]
          && r.table.size == 1 + if |r.table.slots| == |t.slots| then t.size else |Meaning(t)|)
    && (r.status != OK ==> Within(Meaning(r.table), Meaning(t)))
    && (r.status != OK && (r.table == t || |r.table.slots| <= REACH) ==>
          && r.status == OMEM
          && (Meaning(r.table) == Meaning(t) <==> r.table.size >= |Meaning(t)|)
          && (r.table == t || r.table.size == |Meaning(r.table)|))
  }

  /** What `r` is worth to a caller that loaded a new table with elements that stand for `m`. */
  ghost predicate LoadOk(m: map<Text, Pointer>, r: Outcome) {
    && Good(r.table)
    && (r.status == OK ==> Meaning(r.table) == m && r.table.size == |m|)
    && (r.status != OK ==>
          && Within(Meaning(r.table), m) && |Meaning(r.table)| < |m|
          && (|r.table.slots| <= REACH ==> r.status == OMEM && r.table.size == |Meaning(r.table)|))
  }

  /** What `r` is worth after a loop that may have wrapped. */
  ghost predicate SweepOk(m: map<Text, Pointer>, r: Outcome) {
    Good(r.table) && Within(Meaning(r.table), m)
  }

  /** Through any depth of rehashing, a put that succeeds updates the finite map, and one that runs
      out of memory loses keys exactly when the counter tells so. */
  lemma PutMeans(t: Table, key: Text, value: Pointer, grants: seq<bool>)
    requires Good(t)
    ensures PutOk(t, key, value, Put(t, key, value, grants))
    decreases |grants|, 1, 0
  {
    if Room(t, key) {
      StoredMeans(t, key, value);
    } else {
      RehashMeans(t, grants);
      var r := Rehash(t, grants);
      if r.status == OK {
        PutMeans(r.table, key, value, r.grants);
      }
    }
  }

  /** A rehash that gets no memory changes nothing; one that gets it and fails loses a key, unless
      its loop wraps.  Such a loop never succeeds. */
  lemma RehashMeans(t: Table, grants: seq<bool>)
    requires Good(t)
    ensures var r := Rehash(t, grants);
      if Denied(grants) || |t.slots| >= LIMIT then r.status == OMEM && r.table == t
      else
        && |r.table.slots| > |t.slots|
        && if |t.slots| < REACH then LoadOk(Meaning(t), r) else r.status != OK && SweepOk(Meaning(t), r)
    decreases |grants|, 0, 0
  {
    if !Denied(grants) && |t.slots| < LIMIT {
      EmptyGood(2 * |t.slots|);
      PlacedDistinct(t.slots);
      ReloadMeans(t.slots, Empty(2 * |t.slots|), Rest(grants));
    }
  }

  lemma ReloadMeans(s: seq<Element>, t: Table, grants: seq<bool>)
    requires Distinct(s) && Good(t) && Meaning(t) == map[]
    ensures var r := Reload(s, t, grants); if |s| < REACH then LoadOk(Entries(s), r) else SweepOk(Entries(s), r)
    decreases |grants|, 4, 0
  {
    assert Entries(s[..0]) == map[];
    if |s| < REACH {
      LoadMeans(s, 0, t, grants);
    } else {
      EntriesPrefix(s, REACH);
      SweepMeans(s[..REACH], t, grants, Entries(s));
    }
  }

  lemma LoadMeans(s: seq<Element>, i: nat, t: Table, grants: seq<bool>)
    requires Distinct(s) && i <= |s| && Good(t)
    requires Meaning(t) == Entries(s[..i]) && t.size == |Meaning(t)|
    ensures LoadOk(Entries(s), Load(s, i, t, grants))
    decreases |grants|, 2, |s| - i
  {
    if i == |s| {
      assert s[..i] == s;
    } else {
      EntriesStep(s, i);
      EntriesPrefix(s, i);
      FreshKey(s, i);
      hide Good, Distinct, Entries, Within;
      if s[i].inUse {
        PutMeans(t, s[i].key, s[i].value, grants);
        var r := Put(t, s[i].key, s[i].value, grants);
        if r.status == OK {
          LoadMeans(s, i + 1, r.table, r.grants);
        } else {
          EntriesAt(s, i);
          LostKey(Meaning(r.table), Entries(s[..i]), Entries(s), s[i].key);
        }
      } else {
        LoadMeans(s, i + 1, t, grants);
      }
    }
  }

  /** Putting elements of `m` again adds nothing else. */
  lemma SweepMeans(s: seq<Element>, t: Table, grants: seq<bool>, m: map<Text, Pointer>)
    requires Distinct(s) && Within(Entries(s), m) && Good(t) && Within(Meaning(t), m)
    ensures SweepOk(m, Sweep(s, t, grants))
    decreases |grants|, 3, Spare(t)
  {
    if !Unused(s, 0) {
      LoadWithin(s, 0, t, grants, m);
      var r := Load(s, 0, t, grants);
      if r.status == OK {
        SweepMeans(s, r.table, r.grants, m);
      }
    }
  }

  lemma LoadWithin(s: seq<Element>, i: nat, t: Table, grants: seq<bool>, m: map<Text, Pointer>)
    requires Distinct(s) && i <= |s| && Within(Entries(s), m) && Good(t) && Within(Meaning(t), m)
    ensures SweepOk(m, Load(s, i, t, grants))
    decreases |grants|, 2, |s| - i
  {
    if i < |s| {
      if s[i].inUse {
        EntriesAt(s, i);
        PutMeans(t, s[i].key, s[i].value, grants);
        var r := Put(t, s[i].key, s[i].value, grants);
        hide Good, Distinct, Entries;
        if r.status == OK {
          LoadWithin(s, i + 1, r.table, r.grants, m);
        }
      } else {
        LoadWithin(s, i + 1, t, grants, m);
      }
    }
  }

  /** A loop that puts all elements into a table that is not new merges two finite maps. */
  lemma LoadMerges(s: seq<Element>, i: nat, t: Table, grants: seq<bool>, base: map<Text, Pointer>)
    requires i <= |s| && Good(t) && Meaning(t) == base + Entries(s[..i])
    ensures var r := Load(s, i, t, grants);
      Good(r.table) && (r.status == OK ==> Meaning(r.table) == base + Entries(s))
    decreases |s| - i
  {
    if i == |s| {
      assert s[..i] == s;
    } else {
      EntriesStep(s, i);
      MergeStep(base, Entries(s[..i]), s[i].key, s[i].value);
      hide Good, Entries;
      if s[i].inUse {
        PutMeans(t, s[i].key, s[i].value, grants);
        var r := Put(t, s[i].key, s[i].value, grants);
        if r.status == OK {
          LoadMerges(s, i + 1, r.table, r.grants, base);
        }
      } else {
        LoadMerges(s, i + 1, t, grants, base);
      }
    }
  }

  /** What a loop over the slots of a map makes of another map.  If that was empty, and no index
      wraps, a loop that fails leaves it without some of the elements. */
  lemma ReloadMerges(s: seq<Element>, t: Table, grants: seq<bool>)
    requires Distinct(s) && Good(t)
    ensures var r := Reload(s, t, grants);
      && (r.status == OK ==> Meaning(r.table) == Meaning(t) + Entries(s))
      && (Meaning(t) == map[] ==> Within(Meaning(r.table), Entries(s)))
      && (Meaning(t) == map[] && |s| < REACH && r.status != OK ==> Meaning(r.table) != Entries(s))
  {
    assert Meaning(t) + Entries(s[..0]) == Meaning(t);
    if |s| < REACH {
      LoadMerges(s, 0, t, grants, Meaning(t));
    }
    if Meaning(t) == map[] {
      assert map[] + Entries(s) == Entries(s);
      ReloadMeans(s, t, grants);
    }
  }

  lemma LostKey(a: map<Text, Pointer>, b: map<Text, Pointer>, c: map<Text, Pointer>, key: Text)
    requires Within(a, b) && Within(b, c) && key !in b && key in c
    ensures Within(a, c) && |a| < |c|
  {
    Smaller(a, c, key);
  }

  // what the allocator is asked

  function Doubled(n: nat, k: nat): nat {
    if k == 0 then n else 2 * Doubled(n, k - 1)
  }

  /** A call that began with `n` slots and the answers `grants` used up a part of these, from the front.
      Every answer but the last granted a table, and each table was twice the size of the one before.
      The last answer was a denial, or there was none left, exactly if the call ran out of memory; or
      the table was of a size that is never doubled. */
  ghost predicate Asked(n: nat, grants: seq<bool>, r: Outcome) {
    exists k: nat :: AskedFor(n, grants, r, k)
  }

  ghost predicate AskedFor(n: nat, grants: seq<bool>, r: Outcome, k: nat) {
    && k <= |grants| && (forall i :: 0 <= i < k ==> grants[i])
    && |r.table.slots| == Doubled(n, k)
    && (if r.status == OMEM then r.grants == Rest(grants[k..]) && (Denied(grants[k..]) || |r.table.slots| >= LIMIT)
        else r.grants == grants[k..])
  }

  lemma {:induction false} DoubledMore(n: nat, j: nat, k: nat)
    ensures Doubled(Doubled(n, j), k) == Doubled(n, j + k)
  {
    if k > 0 {
      DoubledMore(n, j, k - 1);
    }
  }

  lemma AskedOn(n: nat, grants: seq<bool>, a: Outcome, r: Outcome)
    requires Asked(n, grants, a) && a.status != OMEM && Asked(|a.table.slots|, a.grants, r)
    ensures Asked(n, grants, r)
  {
    var j: nat :| AskedFor(n, grants, a, j);
    var k: nat :| AskedFor(|a.table.slots|, a.grants, r, k);
    assert a.grants == grants[j..] && a.grants[k..] == grants[j + k..];
    forall i | 0 <= i < j + k ensures grants[i] {
      assert i >= j ==> a.grants[i - j] == grants[i];
    }
    DoubledMore(n, j, k);
    assert AskedFor(n, grants, r, j + k);
  }

  lemma AskedNothing(n: nat, grants: seq<bool>, r: Outcome)
    requires r.status != OMEM && r.grants == grants && |r.table.slots| == n
    ensures Asked(n, grants, r)
  {
    assert AskedFor(n, grants, r, 0);
  }

  /** A put asks for memory only as long as there is no room, and runs out of it only when it is
      denied. */
  lemma PutAsks(t: Table, key: Text, value: Pointer, grants: seq<bool>)
    requires MAX_CHAIN_LENGTH <= |t.slots|
    ensures Asked(|t.slots|, grants, Put(t, key, value, grants))
    ensures Room(t, key) <==> Put(t, key, value, grants).status == OK && Put(t, key, value, grants).grants == grants
    decreases |grants|, 1, 0
  {
    var r := Put(t, key, value, grants);
    if Room(t, key) {
      AskedNothing(|t.slots|, grants, r);
    } else {
      RehashAsks(t, grants);
      var a := Rehash(t, grants);
      if a.status == OK {
        PutAsks(a.table, key, value, a.grants);
        hide Put, Rehash, Room, Asked;
        AskedOn(|t.slots|, grants, a, r);
      }
    }
  }

  lemma RehashAsks(t: Table, grants: seq<bool>)
    requires MAX_CHAIN_LENGTH <= |t.slots|
    ensures Asked(|t.slots|, grants, Rehash(t, grants))
    decreases |grants|, 0, 0
  {
    var n, r := |t.slots|, Rehash(t, grants);
    if Denied(grants) || n >= LIMIT {
      assert AskedFor(n, grants, r, 0);
    } else {
      ReloadAsks(t.slots, Empty(2 * n), Rest(grants));
      var a := Outcome(OK, Empty(2 * n), Rest(grants));
      assert Doubled(n, 1) == 2 * n by { assert Doubled(n, 0) == n; }
      assert AskedFor(n, grants, a, 1);
      AskedOn(n, grants, a, r);
    }
  }

  lemma ReloadAsks(s: seq<Element>, t: Table, grants: seq<bool>)
    requires MAX_CHAIN_LENGTH <= |t.slots|
    ensures Asked(|t.slots|, grants, Reload(s, t, grants))
    decreases |grants|, 4, 0
  {
    if |s| < REACH {
      LoadAsks(s, 0, t, grants);
    } else {
      SweepAsks(s[..REACH], t, grants);
    }
  }

  lemma SweepAsks(s: seq<Element>, t: Table, grants: seq<bool>)
    requires MAX_CHAIN_LENGTH <= |t.slots|
    ensures Asked(|t.slots|, grants, Sweep(s, t, grants))
    decreases |grants|, 3, Spare(t)
  {
    if Unused(s, 0) {
      AskedNothing(|t.slots|, grants, Sweep(s, t, grants));
    } else {
      LoadAsks(s, 0, t, grants);
      var a := Load(s, 0, t, grants);
      if a.status == OK {
        SweepAsks(s, a.table, a.grants);
        AskedOn(|t.slots|, grants, a, Sweep(s, t, grants));
      }
    }
  }

  lemma LoadAsks(s: seq<Element>, i: nat, t: Table, grants: seq<bool>)
    requires i <= |s| && MAX_CHAIN_LENGTH <= |t.slots|
    ensures Asked(|t.slots|, grants, Load(s, i, t, grants))
    decreases |grants|, 2, |s| - i
  {
    if i == |s| {
      AskedNothing(|t.slots|, grants, Load(s, i, t, grants));
    } else if !s[i].inUse {
      LoadAsks(s, i + 1, t, grants);
    } else {
      PutAsks(t, s[i].key, s[i].value, grants);
      var a := Put(t, s[i].key, s[i].value, grants);
      if a.status == OK {
        LoadAsks(s, i + 1, a.table, a.grants);
        AskedOn(|t.slots|, grants, a, Load(s, i, t, grants));
      }
    }
  }

  // running out of memory

  /** Filling a table of twice the size, when nothing more is granted. */
  function Refilled(t: Table): (r: Outcome)
    requires MAX_CHAIN_LENGTH <= |t.slots|
    ensures |r.table.slots| > |t.slots|
  {
    Reload(t.slots, Empty(2 * |t.slots|), [])
  }

  /** However often a table whose loop wraps is doubled, the keys stay or the call never returns. */
  predicate Lasts(t: Table)
    requires MAX_CHAIN_LENGTH <= |t.slots|
    decreases LIMIT - |t.slots|
  {
    |t.slots| >= LIMIT ||
    (var r := Refilled(t);
     r.status == ENDLESS || (Meaning(r.table) == Meaning(t) && Lasts(r.table)))
  }

  /** The key has room, or the elements fit a table of twice the size in the order of their slots
      and the key can be put there in the same sense. */
  predicate Safe(t: Table, key: Text)
    requires MAX_CHAIN_LENGTH <= |t.slots|
    decreases LIMIT - |t.slots|
  {
    Room(t, key) ||
    if |t.slots| >= REACH then Lasts(t)
    else Refilled(t).status == OK && Safe(Refilled(t).table, key)
  }

  lemma PutDenied(t: Table, key: Text, value: Pointer, grants: seq<bool>)
    requires MAX_CHAIN_LENGTH <= |t.slots| && Denied(grants)
    ensures Put(t, key, value, grants) ==
              if Room(t, key) then Outcome(OK, Stored(t, key, value), grants) else Outcome(OMEM, t, Rest(grants))
  {
  }

  /** Further grants play a role only when an element has no room. */
  lemma {:induction false} LoadMore(s: seq<Element>, i: nat, t: Table, grants: seq<bool>)
    requires i <= |s| && MAX_CHAIN_LENGTH <= |t.slots|
    ensures var r, d := Load(s, i, t, grants), Load(s, i, t, []);
      && (d.status == OK || d.status == OMEM) && |d.table.slots| == |t.slots| && d.grants == []
      && (d.status == OK ==> r == Outcome(OK, d.table, grants))
      && (d.status == OMEM && |t.slots| >= REACH ==> r == Rehash(d.table, grants))
    decreases |s| - i
  {
    if i < |s| {
      if !s[i].inUse {
        LoadMore(s, i + 1, t, grants);
      } else if Room(t, s[i].key) {
        LoadMore(s, i + 1, Stored(t, s[i].key, s[i].value), grants);
      }
    }
  }

  /** A loop that wraps goes on to the next table as soon as there is no room. */
  lemma {:induction false} SweepMore(s: seq<Element>, t: Table, grants: seq<bool>)
    requires REACH <= |t.slots| && !Unused(s, 0)
    ensures var r, d := Sweep(s, t, grants), Sweep(s, t, []);
      d.status == OMEM && |d.table.slots| == |t.slots| && r == Rehash(d.table, grants)
    decreases Spare(t)
  {
    LoadMore(s, 0, t, grants);
    var d := Load(s, 0, t, []);
    if d.status == OK {
      SweepMore(s, d.table, grants);
    }
  }

  lemma RefilledGood(t: Table)
    requires Good(t)
    ensures Good(Refilled(t).table)
    ensures |t.slots| < REACH ==>
              && Refilled(t).status != ENDLESS
              && (Refilled(t).status == OK <==> Meaning(Refilled(t).table) == Meaning(t))
  {
    EmptyGood(2 * |t.slots|);
    PlacedDistinct(t.slots);
    ReloadMeans(t.slots, Empty(2 * |t.slots|), []);
    if |t.slots| < REACH {
      LoadMore(t.slots, 0, Empty(2 * |t.slots|), []);
    }
  }

  /** A rehash whose loop wraps is one of the table that it filled. */
  lemma RehashMore(t: Table, grants: seq<bool>)
    requires REACH <= |t.slots| < LIMIT && !Denied(grants)
    ensures var r, d := Rehash(t, grants), Refilled(t);
      if Unused(t.slots[..REACH], 0) then r.status == d.status == ENDLESS
      else d.status == OMEM && r == Rehash(d.table, Rest(grants))
  {
    if !Unused(t.slots[..REACH], 0) {
      SweepMore(t.slots[..REACH], Empty(2 * |t.slots|), Rest(grants));
    }
  }

  /** A rehash whose loop does not wrap, when the elements fit or nothing more is granted. */
  lemma NarrowRehash(t: Table, grants: seq<bool>)
    requires MAX_CHAIN_LENGTH <= |t.slots| < REACH && !Denied(grants)
    requires Refilled(t).status == OK || Rest(grants) == []
    ensures Rehash(t, grants) == Outcome(Refilled(t).status, Refilled(t).table, Rest(grants))
  {
    LoadMore(t.slots, 0, Empty(2 * |t.slots|), Rest(grants));
  }

  ghost predicate Loses(t: Table, r: Outcome) {
    r.status == OMEM && Meaning(r.table) != Meaning(t)
  }

  lemma {:induction false} LastsAlways(t: Table, grants: seq<bool>)
    requires REACH <= |t.slots| && Lasts(t)
    ensures !Loses(t, Rehash(t, grants))
    decreases |grants|
  {
    if |t.slots| < LIMIT && !Denied(grants) {
      RehashMore(t, grants);
      if Refilled(t).status == OMEM {
        LastsAlways(Refilled(t).table, Rest(grants));
      }
    }
  }

  lemma {:induction false} LosesSometimes(t: Table) returns (grants: seq<bool>)
    requires REACH <= |t.slots| && !Lasts(t)
    ensures Loses(t, Rehash(t, grants))
    decreases LIMIT - |t.slots|
  {
    var d, more := Refilled(t), [];
    if Meaning(d.table) == Meaning(t) {
      more := LosesSometimes(d.table);
    }
    grants := [true] + more;
    assert Rest(grants) == more;
    RehashMore(t, grants);
  }

  lemma {:induction false} SafeAlways(t: Table, key: Text, value: Pointer, grants: seq<bool>)
    requires Good(t) && Safe(t, key)
    ensures !Loses(t, Put(t, key, value, grants))
    decreases |grants|
  {
    if !Room(t, key) {
      if |t.slots| >= REACH {
        LastsAlways(t, grants);
      } else if !Denied(grants) {
        RefilledGood(t);
        NarrowRehash(t, grants);
        hide Good, Rehash, Refilled, Room, Meaning;
        SafeAlways(Refilled(t).table, key, value, Rest(grants));
      }
    }
  }

  lemma {:induction false} UnsafeSometimes(t: Table, key: Text, value: Pointer) returns (grants: seq<bool>)
    requires Good(t) && !Safe(t, key)
    ensures Loses(t, Put(t, key, value, grants))
    decreases LIMIT - |t.slots|
  {
    if |t.slots| >= REACH {
      grants := LosesSometimes(t);
    } else {
      RefilledGood(t);
      var d, more := Refilled(t), [];
      if d.status == OK {
        more := UnsafeSometimes(d.table, key, value);
      }
      grants := [true] + more;
      assert Rest(grants) == more;
      NarrowRehash(t, grants);
      hide Good, Rehash, Refilled, Room, Meaning;
    }
  }

  /** Whatever the allocator answers, a put does not lose a key, if and only if it is safe. */
  lemma LosesExactly(t: Table, key: Text, value: Pointer)
    requires Good(t)
    ensures Safe(t, key) <==> forall grants :: !Loses(t, Put(t, key, value, grants))
  {
    if Safe(t, key) {
      forall grants ensures !Loses(t, Put(t, key, value, grants)) {
        SafeAlways(t, key, value, grants);
      }
    } else {
      var grants := UnsafeSometimes(t, key, value);
      assert Loses(t, Put(t, key, value, grants));
    }
  }

  // a table with one key

  lemma SoleRoom(t: Table, key: Text)
    requires Good(t) && Meaning(t).Keys <= {key} && t.size < |t.slots| / 2
    ensures Room(t, key)
  {
    OwnWindow(t.slots, key);
    PlaceIs(t.slots, key, 0);
  }

  /** Reloading the only key never runs out of room. */
  lemma {:induction false} SoleLoad(s: seq<Element>, i: nat, t: Table, key: Text, grants: seq<bool>)
    requires Distinct(s) && i <= |s| && Good(t) && Entries(s).Keys <= {key}
    requires Meaning(t) == Entries(s[..i]) && t.size == |Meaning(t)|
    ensures var r := Load(s, i, t, grants);
      r.status == OK && |r.table.slots| == |t.slots| && r.grants == grants
    decreases |s| - i
  {
    if i < |s| {
      EntriesStep(s, i);
      EntriesPrefix(s, i);
      FreshKey(s, i);
      if s[i].inUse {
        EntriesAt(s, i);
        assert s[i].key == key;
        assert Meaning(t).Keys == {};
        assert |Meaning(t)| == |Meaning(t).Keys|;
        SoleRoom(t, key);
        StoredMeans(t, key, s[i].value);
        hide Good, Entries, Distinct;
        SoleLoad(s, i + 1, Stored(t, key, s[i].value), key, grants);
      } else {
        SoleLoad(s, i + 1, t, key, grants);
      }
    }
  }

  /** Putting one key over and over needs memory only when the counter says so. */
  lemma SolePut(t: Table, key: Text, value: Pointer, grants: seq<bool>)
    requires Good(t) && Meaning(t).Keys <= {key}
    ensures var r := Put(t, key, value, grants);
      && (t.size < |t.slots| / 2 ==> r.status == OK && |r.table.slots| == |t.slots| && r.grants == grants)
      && (t.size >= |t.slots| / 2 && !Denied(grants) && |t.slots| < REACH ==>
            r.status == OK && |r.table.slots| == 2 * |t.slots| && r.grants == Rest(grants))
  {
    if t.size < |t.slots| / 2 {
      SoleRoom(t, key);
    } else if !Denied(grants) && |t.slots| < REACH {
      var n := 2 * |t.slots|;
      EmptyGood(n);
      PlacedDistinct(t.slots);
      assert Entries(t.slots[..0]) == map[];
      SoleLoad(t.slots, 0, Empty(n), key, Rest(grants));
      RehashMeans(t, grants);
      var r := Rehash(t, grants);
      OneOrNone(Meaning(t), key);
      SoleRoom(r.table, key);
    }
  }

  lemma OneOrNone(m: map<Text, Pointer>, key: Text)
    requires m.Keys <= {key}
    ensures |m| <= 1
  {
    assert m.Keys == {} || m.Keys == {key};
    assert |m| == |m.Keys|;
  }
}
