/** A run of puts that loses a service.  Eight keys fill the window at slot 252 around the end of a
    table of 256, and a ninth key follows them.  Rehashing begins at slot 0 and so meets them in
    another order, in which the ninth key takes the last slot of the window away. */
module HashLoss {
  import opened Crc
  import opened HashTable
  import opened Locator
  import opened Wrappers

  // ten keys

  /** "ia". */
  const A1: Text := [105, 97]
  /** "uh". */
  const A2: Text := [117, 104]
  /** "dck". */
  const A3: Text := [100, 99, 107]
  /** "dev". */
  const A4: Text := [100, 101, 118]
  /** "eno". */
  const A5: Text := [101, 110, 111]
  /** "ezl". */
  const A6: Text := [101, 122, 108]
  /** "ezz". */
  const A7: Text := [101, 122, 122]
  /** "fds". */
  const A8: Text := [102, 100, 115]
  /** "de". */
  const C: Text := [100, 101]
  /** "fgd". */
  const D: Text := [102, 103, 100]

  lemma ByteFed(x: bv32, b: bv32)
    requires b <= 0xff
    ensures Feed(x, b, 8) == Shift8(Plus(x, b))
  {
    hide *;
    ShiftsFeed(x, b, 8);
    OctetHalves(b);
    PlusTwice(Feed(x, b, 8), 0);
    EightShifts(Plus(x, b));
  }

  function OneByte(x: bv32, b: bv8): bv32 {
    Shift8(Plus(x, b as bv32))
  }

  lemma TwoBytes(a: bv8, b: bv8)
    ensures Remainder([a, b]) == OneByte(OneByte(0, a), b)
  {
    hide Shift8, Plus, Feed;
    assert [a, b][..1] == [a] && [a][..0] == [];
    assert Remainder([a]) == Feed(0, a as bv32, 8);
    WideByte(a);
    WideByte(b);
    ByteFed(0, a as bv32);
    ByteFed(Remainder([a]), b as bv32);
  }

  lemma ThreeBytes(a: bv8, b: bv8, c: bv8)
    ensures Remainder([a, b, c]) == OneByte(OneByte(OneByte(0, a), b), c)
  {
    TwoBytes(a, b);
    hide Shift8, Plus, Feed;
    assert [a, b, c][..2] == [a, b];
    WideByte(c);
    ByteFed(Remainder([a, b]), c as bv32);
  }

  lemma RemainderA1()
    ensures Remainder(A1) == 2391441696 && Mix(2391441696) == 46943996
  {
    TwoBytes(105, 97);
    hide Remainder;
  }

  lemma RemainderA2()
    ensures Remainder(A2) == 287401177 && Mix(287401177) == 694011132
  {
    TwoBytes(117, 104);
    hide Remainder;
  }

  lemma RemainderA3()
    ensures Remainder(A3) == 3681477448 && Mix(3681477448) == 3711004412
  {
    ThreeBytes(100, 99, 107);
    hide Remainder;
  }

  lemma RemainderA4()
    ensures Remainder(A4) == 3996264471 && Mix(3996264471) == 3242606844
  {
    ThreeBytes(100, 101, 118);
    hide Remainder;
  }

  lemma RemainderA5()
    ensures Remainder(A5) == 1752118059 && Mix(1752118059) == 1599810812
  {
    ThreeBytes(101, 110, 111);
    hide Remainder;
  }

  lemma RemainderA6()
    ensures Remainder(A6) == 3754472900 && Mix(3754472900) == 2499668220
  {
    ThreeBytes(101, 122, 108);
    hide Remainder;
  }

  lemma RemainderA7()
    ensures Remainder(A7) == 723255445 && Mix(723255445) == 3487035644
  {
    ThreeBytes(101, 122, 122);
    hide Remainder;
  }

  lemma RemainderA8()
    ensures Remainder(A8) == 2227648951 && Mix(2227648951) == 3295797500
  {
    ThreeBytes(102, 100, 115);
    hide Remainder;
  }

  lemma RemainderC()
    ensures Remainder(C) == 1011432308 && Mix(1011432308) == 2894331645
  {
    TwoBytes(100, 101);
    hide Remainder;
  }

  lemma RemainderD()
    ensures Remainder(D) == 741994419 && Mix(741994419) == 1509435644
  {
    ThreeBytes(102, 103, 100);
    hide Remainder;
  }

  lemma Homes()
    ensures forall n: nat :: n == 256 || n == 512 ==>
              && Home(A1, n) == 252
              && Home(A2, n) == 252
              && Home(A3, n) == 252
              && Home(A4, n) == 252
              && Home(A5, n) == 252
              && Home(A6, n) == 252
              && Home(A7, n) == 252
              && Home(A8, n) == 252
              && Home(C, n) == 253
              && Home(D, n) == 252
  {
    hide Remainder, Mix;
    RemainderA1();
    RemainderA2();
    RemainderA3();
    RemainderA4();
    RemainderA5();
    RemainderA6();
    RemainderA7();
    RemainderA8();
    RemainderC();
    RemainderD();
  }

  // keys in a row

  /** Slot `j` from slot `h` on, around the end of a table of `n`. */
  function At(h: nat, j: nat, n: nat): (k: nat)
    requires h < n && j < n
    ensures k < n
  {
    if h + j < n then h + j else h + j - n
  }

  /** A table of `n` slots with the elements `es` in a row from slot `h` on. */
  function Filled(n: nat, h: nat, es: seq<Element>): (s: seq<Element>)
    requires h < n && |es| <= n
    ensures |s| == n
  {
    if es == [] then seq(n, _ => FREE)
    else Filled(n, h, es[..|es| - 1])[At(h, |es| - 1, n) := es[|es| - 1]]
  }

  lemma {:induction false} FilledAt(n: nat, h: nat, es: seq<Element>)
    requires h < n && |es| <= n
    ensures forall j: nat :: j < |es| ==> Filled(n, h, es)[At(h, j, n)] == es[j]
    ensures forall j: nat :: |es| <= j < n ==> Filled(n, h, es)[At(h, j, n)] == FREE
  {
    if es != [] {
      FilledAt(n, h, es[..|es| - 1]);
    }
  }

  /** Used elements with distinct keys, none of which is `key`. */
  ghost predicate Others(es: seq<Element>, key: Text) {
    forall j :: 0 <= j < |es| ==> es[j].inUse && es[j].key != key
  }

  lemma RowTaken(n: nat, h: nat, es: seq<Element>, key: Text, o: nat, d: nat)
    requires INITIAL_SIZE <= n && h < n && |es| <= 9 && Others(es, key)
    requires o <= 1 && Home(key, n) == At(h, o, n) && d <= MAX_CHAIN_LENGTH && o + d <= |es|
    ensures AllTaken(Filled(n, h, es), key, d)
    ensures d < MAX_CHAIN_LENGTH && o + d == |es| ==>
              !Taken(Filled(n, h, es), key, d) && Slot(Filled(n, h, es), key, d) == At(h, |es|, n)
  {
    var s := Filled(n, h, es);
    FilledAt(n, h, es);
    hide Home, Filled;
    forall e: nat | e < d ensures Taken(s, key, e) {
      assert Slot(s, key, e) == At(h, o + e, n);
      assert s[At(h, o + e, n)] == es[o + e];
    }
    if d < MAX_CHAIN_LENGTH && o + d == |es| {
      assert Slot(s, key, d) == At(h, |es|, n);
      assert s[At(h, |es|, n)] == FREE;
    }
  }

  /** The next key goes to the end of the row. */
  lemma RowPut(n: nat, h: nat, es: seq<Element>, e: Element, o: nat, grants: seq<bool>)
    requires INITIAL_SIZE <= n && h < n && |es| <= 8 && Others(es, e.key) && e.inUse
    requires o <= 1 && o <= |es| < o + MAX_CHAIN_LENGTH && Home(e.key, n) == At(h, o, n)
    ensures Put(Table(Filled(n, h, es), |es|), e.key, e.value, grants)
         == Outcome(OK, Table(Filled(n, h, es + [e]), |es| + 1), grants)
  {
    var s, d: nat := Filled(n, h, es), |es| - o;
    RowTaken(n, h, es, e.key, o, d);
    PlaceFrom(s, e.key, d, 0);
    assert Place(s, e.key, 0) == Some(At(h, |es|, n));
    assert (es + [e])[..|es|] == es;
    assert Element(true, e.key, e.value) == e;
  }

  /** The row is full for a key whose window it covers. */
  lemma RowFull(n: nat, h: nat, es: seq<Element>, key: Text)
    requires INITIAL_SIZE <= n && h < n && MAX_CHAIN_LENGTH <= |es| <= 9 && Others(es, key) && Home(key, n) == h
    ensures !Room(Table(Filled(n, h, es), |es|), key)
  {
    RowTaken(n, h, es, key, 0, MAX_CHAIN_LENGTH);
    PlaceFrom(Filled(n, h, es), key, MAX_CHAIN_LENGTH, 0);
  }

  // the run

  function E(i: nat): Element
    requires i < 9
  {
    Element(true, [A1, A2, A3, A4, A5, A6, A7, A8, C][i], i + 1)
  }

  const PUTS: seq<Element> := [E(0), E(1), E(2), E(3), E(4), E(5), E(6), E(7), E(8)]

  /** The order in which rehashing a table of 256 slots meets them, as far as they fit. */
  const RELOADED: seq<Element> := [E(4), E(5), E(6), E(7), E(8), E(0), E(1), E(2)]

  /** The map after nine puts, and what is left of it after the tenth. */
  const FULL := Table(Filled(256, 252, PUTS), 9)
  const LEFT := Table(Filled(512, 252, RELOADED), 8)

  lemma FullSlots()
    ensures forall k: nat :: k < 256 ==>
              FULL.slots[k] == if k < 5 then PUTS[k + 4] else if k < 252 then FREE else PUTS[k - 252]
  {
    FilledAt(256, 252, PUTS);
    hide Filled;
    forall k: nat | k < 256
      ensures FULL.slots[k] == if k < 5 then PUTS[k + 4] else if k < 252 then FREE else PUTS[k - 252]
    {
      var j: nat := if k < 252 then k + 4 else k - 252;
      assert At(252, j, 256) == k;
    }
  }

  lemma KeysDiffer()
    ensures forall i: nat, j: nat :: i < j < 9 ==> E(i).key != E(j).key
    ensures forall i: nat :: i < 9 ==> E(i).key != D
  {
  }

  /** The `i`-th key of nine has its home at slot 252, or 253 for the last. */
  lemma HomeOf(i: nat, n: nat)
    requires i < 9 && (n == 256 || n == 512)
    ensures Home(E(i).key, n) == At(252, if i == 8 then 1 else 0, n)
    ensures Home(D, 256) == 252
  {
    Homes();
    hide Home;
    if i < 4 {
      if i == 0 {} else if i == 1 {} else if i == 2 {} else {}
    } else {
      if i == 4 {} else if i == 5 {} else if i == 6 {} else if i == 7 {} else {}
    }
  }

  lemma {:induction false} LoadFree(s: seq<Element>, i: nat, j: nat, t: Table, grants: seq<bool>)
    requires i <= j <= |s| && MAX_CHAIN_LENGTH <= |t.slots|
    requires forall k :: i <= k < j ==> !s[k].inUse
    ensures Load(s, i, t, grants) == Load(s, j, t, grants)
    decreases j - i
  {
    if i < j {
      LoadFree(s, i + 1, j, t, grants);
    }
  }

  /** Rehashing puts the next element at the end of the row. */
  lemma LoadRow(i: nat, m: nat, x: nat)
    requires i < 256 && m < 8 && x < 9 && FULL.slots[i] == E(x) && RELOADED[m] == E(x)
    requires x == 8 ==> m >= 1
    ensures Load(FULL.slots, i, Table(Filled(512, 252, RELOADED[..m]), m), [])
         == Load(FULL.slots, i + 1, Table(Filled(512, 252, RELOADED[..m + 1]), m + 1), [])
  {
    hide *;
    Lengths();
    UsedE();
    HomeOf(x, 512);
    OthersOf(m, x);
    assert RELOADED[..m] + [E(x)] == RELOADED[..m + 1];
    RowLoad(FULL.slots, i, RELOADED[..m], E(x), if x == 8 then 1 else 0);
  }

  lemma RowLoad(s: seq<Element>, i: nat, es: seq<Element>, e: Element, o: nat)
    requires i < |s| && s[i] == e && e.inUse && |es| < 8 && Others(es, e.key)
    requires o <= 1 && o <= |es| && Home(e.key, 512) == At(252, o, 512)
    ensures Load(s, i, Table(Filled(512, 252, es), |es|), [])
         == Load(s, i + 1, Table(Filled(512, 252, es + [e]), |es| + 1), [])
  {
    hide Filled, Home, Others, Put;
    RowPut(512, 252, es, e, o, []);
  }

  /** The element at place `m` is not among those before it. */
  lemma OthersOf(m: nat, x: nat)
    requires m < 8 && x < 9 && RELOADED[m] == E(x)
    ensures Others(RELOADED[..m], E(x).key)
  {
    forall j: nat | j < m ensures RELOADED[..m][j].inUse && RELOADED[..m][j].key != E(x).key {
      assert RELOADED[..m][j] == RELOADED[j];
      RowKeys(j, m);
    }
  }

  lemma RowKeys(j: nat, m: nat)
    requires j < m < 8
    ensures RELOADED[j].inUse && RELOADED[j].key != RELOADED[m].key
  {
    KeysDiffer();
  }

  lemma Lengths()
    ensures |RELOADED| == 8 && |PUTS| == 9 && |FULL.slots| == 256 && |LEFT.slots| == 512
    ensures FULL == Table(Filled(256, 252, PUTS), 9) && LEFT.size == 8 && MAX_CHAIN_LENGTH == 8 && INITIAL_SIZE == 256
  {
    hide Filled, E;
  }

  lemma Rows()
    ensures |FULL.slots| == 256 && |RELOADED| == 8
    ensures FULL.slots[0] == RELOADED[0] == E(4) && FULL.slots[1] == RELOADED[1] == E(5)
    ensures FULL.slots[2] == RELOADED[2] == E(6) && FULL.slots[3] == RELOADED[3] == E(7)
    ensures FULL.slots[4] == RELOADED[4] == E(8) && FULL.slots[252] == RELOADED[5] == E(0)
    ensures FULL.slots[253] == RELOADED[6] == E(1) && FULL.slots[254] == RELOADED[7] == E(2)
    ensures FULL.slots[255] == E(3) && forall k :: 5 <= k < 252 ==> !FULL.slots[k].inUse
  {
    FullSlots();
    hide Filled;
  }

  lemma EmptyRow()
    ensures Empty(512) == Table(Filled(512, 252, RELOADED[..0]), 0) && LEFT == Table(Filled(512, 252, RELOADED[..8]), 8)
  {
    assert RELOADED[..0] == [] && RELOADED[..8] == RELOADED;
  }

  /** The fourth key finds its window full of the others, and there is no memory for a larger table. */
  lemma Reload()
    ensures Load(FULL.slots, 0, Empty(512), []) == Outcome(OMEM, LEFT, [])
  {
    hide *;
    Lengths();
    Rows();
    EmptyRow();
    LoadRow(0, 0, 4);
    LoadRow(1, 1, 5);
    LoadRow(2, 2, 6);
    LoadRow(3, 3, 7);
    LoadRow(4, 4, 8);
    LoadFree(FULL.slots, 5, 252, Table(Filled(512, 252, RELOADED[..5]), 5), []);
    LoadRow(252, 5, 0);
    LoadRow(253, 6, 1);
    LoadRow(254, 7, 2);
    ReloadEnd();
  }

  lemma ReloadEnd()
    ensures Load(FULL.slots, 255, LEFT, []) == Outcome(OMEM, LEFT, [])
  {
    FullSlots();
    HomeOf(3, 512);
    LeftOthers();
    hide Filled, Home;
    RowFull(512, 252, RELOADED, E(3).key);
    PutDenied(LEFT, E(3).key, E(3).value, []);
  }

  lemma LeftOthers()
    ensures Others(RELOADED, E(3).key)
  {
    KeysDiffer();
  }

  lemma FullForD()
    ensures |FULL.slots| == 256 && |LEFT.slots| == 512 && LEFT.size == 8 && !Room(FULL, D)
  {
    hide *;
    Lengths();
    HomeOf(0, 256);
    PutsOthers();
    RowFull(256, 252, PUTS, D);
  }

  lemma PutsOthers()
    ensures Others(PUTS, D)
  {
    KeysDiffer();
    UsedE();
    PutsAt();
    hide E, PUTS;
  }

  lemma PutsAt()
    ensures |PUTS| == 9 && forall j: nat :: j < 9 ==> PUTS[j] == E(j)
  {
    hide E;
  }

  /** With memory for one rehash and no more, the tenth put loses the fourth key. */
  lemma TenthLoses(value: Pointer)
    ensures |FULL.slots| == 256 && Put(FULL, D, value, [true]) == Outcome(OMEM, LEFT, []) && !Safe(FULL, D)
    ensures A4 in Meaning(FULL) && A4 !in Meaning(LEFT)
  {
    FullForD();
    Reload();
    FourthKey();
    LeftWithout();
    hide FULL, LEFT, Load, Room, Meaning;
    assert [true][1..] == [];
    assert HashTable.Rehash(FULL, [true]) == Load(FULL.slots, 0, Empty(512), []);
  }

  lemma FourthKey()
    ensures A4 in Meaning(FULL)
  {
    Rows();
    assert E(3).inUse && E(3).key == A4;
    hide FULL, Entries;
    EntriesDomain(FULL.slots, A4);
  }

  lemma LeftWithout()
    ensures A4 !in Meaning(LEFT)
  {
    FilledAt(512, 252, RELOADED);
    LeftOthers();
    EntriesDomain(LEFT.slots, A4);
    hide Filled, Entries;
    forall k: nat | k < 512 ensures !(LEFT.slots[k].inUse && LEFT.slots[k].key == A4) {
      var j: nat := if k < 252 then k + 260 else k - 252;
      assert At(252, j, 512) == k;
    }
  }

  /** A service that was set is gone after another one is set, and nobody is told. */
  method SetLosesService() returns (l: Locator, before: Pointer, after: Pointer)
    ensures l.Valid() && before == 4 && after == 0
  {
    hide Filled, Put, Good, E;
    l := new Locator([true]);
    EmptyStart();
    var keys := [A1, A2, A3, A4, A5, A6, A7, A8, C];
    for i := 0 to 9
      invariant l.Valid() && fresh(l.services) && fresh(l.services.data)
      invariant l.services.Tab() == Table(Filled(256, 252, PUTS[..i]), i) && l.services.grants == [true]
      invariant i > 3 ==> A4 in l.Contents() && l.Contents()[A4] == 4
    {
      NextPut(i);
      KeyOf(i, keys);
      ghost var status := l.Set(keys[i], i + 1);
    }
    before := l.Get(A4);
    TenthLoses(10);
    ghost var status := l.Set(D, 10);
    after := l.Get(A4);
  }

  lemma EmptyStart()
    ensures |PUTS| == 9 && Empty(INITIAL_SIZE) == Table(Filled(256, 252, PUTS[..0]), 0)
    ensures Table(Filled(256, 252, PUTS[..9]), 9) == FULL
  {
    assert PUTS[..0] == [] && PUTS[..9] == PUTS;
  }

  lemma KeyOf(i: nat, keys: seq<Text>)
    requires i < 9 && keys == [A1, A2, A3, A4, A5, A6, A7, A8, C]
    ensures keys[i] == E(i).key && (i == 3 <==> keys[i] == A4)
  {
    KeysDiffer();
    assert E(3).key == A4;
  }

  lemma NextPut(i: nat)
    requires i < 9
    ensures |PUTS| == 9 && Put(Table(Filled(256, 252, PUTS[..i]), i), E(i).key, i + 1, [true])
         == Outcome(OK, Table(Filled(256, 252, PUTS[..i + 1]), i + 1), [true])
  {
    EarlierOthers(i);
    HomeOf(i, 256);
    hide *;
    RowPut(256, 252, PUTS[..i], E(i), if i == 8 then 1 else 0, [true]);
  }

  lemma EarlierOthers(i: nat)
    requires i < 9
    ensures |PUTS| == 9 && Others(PUTS[..i], E(i).key) && E(i).inUse && E(i).value == i + 1
    ensures PUTS[..i] + [E(i)] == PUTS[..i + 1]
  {
    KeysDiffer();
    PutsAt();
    UsedE();
    hide E, PUTS;
    assert forall j: nat :: j < i ==> PUTS[..i][j] == E(j);
  }

  lemma UsedE()
    ensures forall j: nat :: j < 9 ==> E(j).inUse && E(j).value == j + 1
  {
  }
}
