/** The map of runtime/c/map.c as an object: an array of slots that probing and rehashing edit in
    place. */
module HashMap {
  import opened Crc
  import opened HashTable
  import opened Wrappers

  class Map {
    var data: array<Element>
    var size: nat
    var tableSize: nat
    /** What the allocator will answer to the rehashes of this map. */
    var grants: seq<bool>

    ghost function Tab(): Table
      reads this, data
    {
      Table(data[..], size)
    }

    ghost predicate Valid()
      reads this, data
    {
      tableSize == data.Length && Good(Tab())
    }

    /** The finite map that this map stands for. */
    ghost function Contents(): map<Text, Pointer>
      reads this, data
    {
      Meaning(Tab())
    }

    /** The state in which a call leaves the map. */
    ghost function End(status: Status): Outcome
      reads this, data
    {
      Outcome(status, Tab(), grants)
    }

    /** `dzn_map_init`. */
    constructor (answers: seq<bool>)
      ensures Valid() && fresh(data) && Tab() == Empty(INITIAL_SIZE) && grants == answers
      ensures Contents() == map[]
    {
      data := new Element[INITIAL_SIZE](_ => FREE);
      tableSize, size, grants := INITIAL_SIZE, 0, answers;
      new;
      EmptyGood(INITIAL_SIZE);
      assert data[..] == Empty(INITIAL_SIZE).slots;
    }

    /** `dzn_map_hash_int`. */
    method HashInt(key: Text) returns (h: nat)
      requires 0 < tableSize
      ensures h == Home(key, tableSize)
    {
      hide Remainder, Mix;
      var crc := Crc32(key);
      h := Mix(crc) as nat % tableSize;
    }

    /** `dzn_map_hash`; no slot when the map is full. */
    method Hash(key: Text) returns (index: Option<nat>)
      requires Valid()
      ensures index == if size >= tableSize / 2 then None else Place(data[..], key, 0)
    {
      if size >= tableSize / 2 {
        return None;
      }
      var curr := HashInt(key);
      ghost var s := data[..];
      hide Good, Place, Home;
      for i := 0 to MAX_CHAIN_LENGTH
        invariant data[..] == s && Place(s, key, i) == Place(s, key, 0)
        invariant i < MAX_CHAIN_LENGTH ==> curr == Slot(s, key, i)
      {
        PlaceStep(s, key, i);
        if !data[curr].inUse || data[curr].key == key {
          return Some(curr);
        }
        if i + 1 < MAX_CHAIN_LENGTH {
          NextSlot(Home(key, |s|), i, |s|);
        }
        curr := (curr + 1) % tableSize;
      }
      return None;
    }

    /** The allocation of `dzn_map_rehash`, and the exchange of the tables. */
    method Enlarge() returns (done: bool)
      requires Valid()
      modifies this
      ensures done == (!Denied(old(grants)) && old(tableSize) < LIMIT) && grants == Rest(old(grants))
      ensures done ==> Valid() && fresh(data) && Tab() == Empty(2 * old(tableSize))
      ensures !done ==> data == old(data) && tableSize == old(tableSize) && size == old(size)
    {
      done := grants != [] && grants[0] && tableSize < LIMIT;
      grants := if grants == [] then [] else grants[1..];
      if done {
        data := new Element[2 * tableSize](_ => FREE);
        EmptyGood(2 * tableSize);
        assert data[..] == Empty(2 * tableSize).slots;
        tableSize := 2 * tableSize;
        size := 0;
      }
    }

    /** `dzn_map_rehash`.  The old table is left to the garbage collector. */
    method Rehash() returns (r: Status)
      requires Valid()
      modifies this
      ensures Valid() && End(r) == HashTable.Rehash(old(Tab()), old(grants))
      ensures fresh(data) || data == old(data)
      decreases |grants|, 0, 0
    {
      var curr, oldSize := data, tableSize;
      var done := Enlarge();
      if !done {
        return OMEM;
      }
      r := Reload(curr, oldSize);
    }

    /** The loop of `dzn_map_rehash`, and with `dzn_map_copy` that of `dzn_map_iterate`: put the
        elements of an array into this map.  The index has 16 bits. */
    method Reload(curr: array<Element>, oldSize: nat) returns (r: Status)
      requires Valid() && curr != data && oldSize == curr.Length
      modifies this, data
      ensures Valid() && End(r) == HashTable.Reload(curr[..], old(Tab()), old(grants))
      ensures fresh(data) || data == old(data)
      ensures curr[..] == old(curr[..])
      decreases |grants|, 4, 0
    {
      hide HashTable.Load, Placed, Entries;
      if oldSize < REACH {
        r := Load(curr, oldSize);
        assert curr[..oldSize] == curr[..];
        return;
      }
      ghost var s := curr[..REACH];
      r := OK;
      while r == OK
        invariant Valid() && curr != data && curr[..] == old(curr[..]) && (fresh(data) || data == old(data))
        invariant |grants| <= |old(grants)|
        invariant r == OK ==> Sweep(s, Tab(), grants) == Sweep(s, old(Tab()), old(grants))
        invariant r != OK ==> End(r) == Sweep(s, old(Tab()), old(grants))
        decreases r == OK, |grants|, Spare(Tab())
      {
        // the loop would go round for ever
        if forall k | 0 <= k < REACH :: !curr[k].inUse {
          return ENDLESS;
        }
        r := Load(curr, REACH);
      }
    }

    /** The loop once over the first slots. */
    method Load(curr: array<Element>, end: nat) returns (r: Status)
      requires Valid() && curr != data && end <= curr.Length
      modifies this, data
      ensures Valid() && End(r) == HashTable.Load(curr[..end], 0, old(Tab()), old(grants))
      ensures fresh(data) || data == old(data)
      ensures curr[..] == old(curr[..])
      decreases |grants|, 2, 0
    {
      ghost var s := curr[..end];
      for i := 0 to end
        invariant Valid() && curr != data && curr[..] == old(curr[..]) && (fresh(data) || data == old(data))
        invariant |grants| <= |old(grants)| && curr[..end] == s
        invariant HashTable.Load(s, i, Tab(), grants) == HashTable.Load(s, 0, old(Tab()), old(grants))
      {
        if curr[i].inUse {
          var status := Put(curr[i].key, curr[i].value);
          if status != OK {
            return status;
          }
        }
      }
      return OK;
    }

    /** The last lines of `dzn_map_put`. */
    method Store(index: nat, key: Text, value: Pointer)
      requires Valid() && Room(Tab(), key) && Place(data[..], key, 0) == Some(index)
      modifies `size, data
      ensures Valid() && Tab() == Stored(old(Tab()), key, value)
    {
      StoredMeans(Tab(), key, value);
      ghost var stored := Stored(Tab(), key, value);
      PlaceIs(data[..], key, 0);
      data[index] := Element(true, key, value);
      size := size + 1;
      assert Tab() == stored;
    }

    /** `dzn_map_put`. */
    method Put(key: Text, value: Pointer) returns (r: Status)
      requires Valid()
      modifies this, data
      ensures Valid() && End(r) == HashTable.Put(old(Tab()), key, value, old(grants))
      ensures PutOk(old(Tab()), key, value, End(r))
      ensures data == old(data) || fresh(data)
      decreases |grants|, 1, 0
    {
      ghost var t, g := Tab(), grants;
      PutMeans(t, key, value, g);
      hide PutOk;
      var index := Hash(key);
      while index == None
        invariant Valid() && |grants| <= |g| && (data == old(data) || fresh(data))
        invariant index == if size >= tableSize / 2 then None else Place(data[..], key, 0)
        invariant HashTable.Put(Tab(), key, value, grants) == HashTable.Put(t, key, value, g)
        decreases |grants|
      {
        var status := Rehash();
        if status != OK {
          return status;
        }
        index := Hash(key);
      }
      Store(index.value, key, value);
      return OK;
    }

    /** `dzn_map_get`; `*arg` is NULL when the key is missing. */
    method Get(key: Text) returns (r: Status, arg: Pointer)
      requires Valid()
      ensures r == if key in Contents() then OK else MISSING
      ensures arg == if key in Contents() then Contents()[key] else 0
    {
      var curr := HashInt(key);
      ghost var s := data[..];
      PlacedDistinct(s);
      for i := 0 to MAX_CHAIN_LENGTH
        invariant data[..] == s
        invariant i < MAX_CHAIN_LENGTH ==> curr == Slot(s, key, i)
        invariant forall d: nat :: d < i ==> !(s[Slot(s, key, d)].inUse && s[Slot(s, key, d)].key == key)
      {
        if data[curr].inUse && data[curr].key == key {
          EntriesAt(s, curr);
          return OK, data[curr].value;
        }
        if i + 1 < MAX_CHAIN_LENGTH {
          NextSlot(Home(key, |s|), i, |s|);
        }
        curr := (curr + 1) % tableSize;
      }
      if key in Entries(s) {
        InWindow(s, key);
      }
      return MISSING, 0;
    }

    /** `dzn_map_length`: the counter cut to 8 bits. */
    method Length() returns (n: nat)
      ensures n == size % 256
    {
      n := size % 256;
    }

    /** `dzn_map_iterate` with `dzn_map_copy` of runtime/c/locator.c, the one function that the
        repository passes to it: put every element into `dst`. */
    method CopyInto(dst: Map) returns (r: Status)
      requires Valid() && dst.Valid() && dst != this && dst.data != data
      modifies dst, dst.data
      ensures Valid() && dst.Valid() && (dst.data == old(dst.data) || fresh(dst.data))
      ensures r == MISSING <==> size % 256 == 0
      ensures dst.End(r) == if size % 256 == 0 then old(dst.End(MISSING))
                            else HashTable.Reload(data[..], old(dst.Tab()), old(dst.grants))
      ensures r == OK ==> dst.Contents() == old(dst.Contents()) + Contents()
      ensures r != MISSING && old(dst.Contents()) == map[] ==> Within(dst.Contents(), Contents())
      ensures r != MISSING && r != OK && old(dst.Contents()) == map[] && tableSize < REACH ==>
                dst.Contents() != Contents()
    {
      var n := Length();
      if n == 0 {
        return MISSING;
      }
      PlacedDistinct(data[..]);
      ReloadMerges(data[..], dst.Tab(), dst.grants);
      hide HashTable.Reload, Meaning, Good;
      r := dst.Reload(data, tableSize);
    }
  }
}
