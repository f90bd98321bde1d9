/** The service locator of runtime/c/locator.c, and runs of the map below it. */
module Locator {
  import opened Crc
  import opened HashMap
  import opened HashTable

  // any run of puts and gets

  datatype Call = PutCall(key: Text, value: Pointer) | GetCall(key: Text)
  datatype Answer = Answer(status: Status, value: Pointer)

  /** What a finite map answers to one call. */
  function Answered(m: map<Text, Pointer>, call: Call): Answer {
    match call
    case PutCall(_, _) => Answer(OK, 0)
    case GetCall(key) => if key in m then Answer(OK, m[key]) else Answer(MISSING, 0)
  }

  function Changed(m: map<Text, Pointer>, call: Call): map<Text, Pointer> {
    if call.PutCall? then m[call.key := call.value] else m
  }

  function Answers(m: map<Text, Pointer>, calls: seq<Call>): seq<Answer>
    decreases |calls|
  {
    if calls == [] then [] else [Answered(m, calls[0])] + Answers(Changed(m, calls[0]), calls[1..])
  }

  /** Unless memory runs out, every call of a run is answered as a finite map would. */
  method Run(m: Map, calls: seq<Call>) returns (answers: seq<Answer>)
    requires m.Valid()
    modifies m, m.data
    ensures m.Valid()
    ensures |answers| == |calls| ==> answers == Answers(old(m.Contents()), calls)
    ensures |answers| < |calls| ==>
              && calls[|answers|].PutCall?
              && answers == Answers(old(m.Contents()), calls[..|answers|])
  {
    answers := [];
    ghost var before := m.Contents();
    AnswersSplit(before, calls, 0);
    for i := 0 to |calls|
      invariant m.Valid() && (m.data == old(m.data) || fresh(m.data)) && |answers| == i
      invariant answers == Answers(before, calls[..i]) && m.Contents() == After(before, calls[..i])
    {
      AnswersSplit(before, calls, i);
      if calls[i].PutCall? {
        var status := m.Put(calls[i].key, calls[i].value);
        if status != OK {
          return;
        }
        answers := answers + [Answer(OK, 0)];
      } else {
        var status, value := m.Get(calls[i].key);
        answers := answers + [Answer(status, value)];
      }
    }
    assert calls[..|calls|] == calls;
  }

  function After(m: map<Text, Pointer>, calls: seq<Call>): map<Text, Pointer>
    decreases |calls|
  {
    if calls == [] then m else After(Changed(m, calls[0]), calls[1..])
  }

  lemma {:induction false} AnswersSplit(m: map<Text, Pointer>, calls: seq<Call>, i: nat)
    requires i <= |calls|
    ensures |Answers(m, calls[..i])| == i
    ensures i < |calls| ==>
              && Answers(m, calls[..i + 1]) == Answers(m, calls[..i]) + [Answered(After(m, calls[..i]), calls[i])]
              && After(m, calls[..i + 1]) == Changed(After(m, calls[..i]), calls[i])
    decreases |calls|
  {
    if i == 0 {
      if calls != [] {
        assert calls[..1] == [calls[0]] && [calls[0]][1..] == [];
      }
    } else {
      AnswersSplit(Changed(m, calls[0]), calls[1..], i - 1);
      assert calls[..i][1..] == calls[1..][..i - 1] && calls[..i][0] == calls[0];
      if i < |calls| {
        assert calls[..i + 1][1..] == calls[1..][..i] && calls[1..][i - 1] == calls[i];
      }
    }
  }

  // the locator

  class Locator {
    var services: Map

    ghost predicate Valid()
      reads this, services, services.data
    {
      services.Valid()
    }

    ghost function Contents(): map<Text, Pointer>
      reads this, services, services.data
    {
      services.Contents()
    }

    /** `dzn_locator_init`; the answers are those of the allocator to later rehashes. */
    constructor (answers: seq<bool>)
      ensures Valid() && fresh(services) && fresh(services.data)
      ensures Contents() == map[] && services.Tab() == Empty(INITIAL_SIZE) && services.grants == answers
    {
      services := new Map(answers);
    }

    /** `dzn_locator_get`. */
    method Get(key: Text) returns (p: Pointer)
      requires Valid()
      ensures p == if key in Contents() then Contents()[key] else 0
    {
      var _, arg := services.Get(key);
      p := arg;
    }

    /** `dzn_locator_set`, which does not tell its caller whether memory ran out.  If it did, all
        services are left when the map was safe for the key, and, as long as no index wraps, exactly
        when the counter has not dropped below their number. */
    method Set(key: Text, value: Pointer) returns (ghost status: Status)
      requires Valid()
      modifies services, services.data
      ensures Valid() && (services.data == old(services.data) || fresh(services.data))
      ensures services.End(status) == HashTable.Put(old(services.Tab()), key, value, old(services.grants))
      ensures status == OK ==> Contents() == old(Contents())[key := value]
      ensures status == OMEM ==>
                && Within(Contents(), old(Contents()))
                && (Safe(old(services.Tab()), key) ==> Contents() == old(Contents()))
                && (services.tableSize <= REACH ==>
                      (Contents() == old(Contents()) <==> services.size >= |old(Contents())|))
    {
      ghost var t, grants := services.Tab(), services.grants;
      if Safe(t, key) {
        SafeAlways(t, key, value, grants);
      }
      hide Safe, Good;
      var r := services.Put(key, value);
      status := r;
    }

    /** `dzn_locator_clone`, which does not look at the answer of the iteration.  The clone holds
        every service exactly when the iteration succeeds or there is none; a length of zero, cut
        to 8 bits, makes the iteration skip a filled map. */
    method Clone(answers: seq<bool>) returns (clone: Locator, ghost status: Status)
      requires Valid()
      ensures Valid() && clone.Valid()
      ensures fresh(clone) && fresh(clone.services) && fresh(clone.services.data)
      ensures clone.services.End(status) ==
                if services.size % 256 == 0 then Outcome(MISSING, Empty(INITIAL_SIZE), answers)
                else HashTable.Reload(services.data[..], Empty(INITIAL_SIZE), answers)
      ensures Within(clone.Contents(), Contents())
      ensures services.tableSize < REACH ==> (clone.Contents() == Contents() <==> status == OK || services.size == 0)
      ensures services.size % 256 == 0 ==> clone.Contents() == map[]
    {
      clone := new Locator(answers);
      var r := services.CopyInto(clone.services);
      status := r;
      assert map[] + Contents() == Contents();
      assert services.size == 0 ==> |Contents()| == 0;
    }
  }

  // what a clone is worth

  /** Services set on the original or on its clone after cloning stay apart. */
  method SetBoth(a: Locator, b: Locator, calls: seq<(bool, Text, Pointer)>) returns (ghost stored: bool)
    requires a.Valid() && b.Valid() && a.services != b.services && a.services.data != b.services.data
    modifies a.services, a.services.data, b.services, b.services.data
    ensures a.Valid() && b.Valid()
    ensures stored ==> a.Contents() == SetBy(old(a.Contents()), calls, true)
    ensures stored ==> b.Contents() == SetBy(old(b.Contents()), calls, false)
  {
    hide Meaning, Good, Put, Safe, Within;
    stored := true;
    for i := 0 to |calls|
      invariant a.Valid() && b.Valid() && a.services.data != b.services.data
      invariant a.services.data == old(a.services.data) || fresh(a.services.data)
      invariant b.services.data == old(b.services.data) || fresh(b.services.data)
      invariant stored ==> a.Contents() == SetBy(old(a.Contents()), calls[..i], true)
      invariant stored ==> b.Contents() == SetBy(old(b.Contents()), calls[..i], false)
    {
      assert calls[..i + 1][..i] == calls[..i];
      var (first, key, value) := calls[i];
      if first {
        ghost var status := a.Set(key, value);
        stored := stored && status == OK;
      } else {
        ghost var status := b.Set(key, value);
        stored := stored && status == OK;
      }
    }
    assert calls[..|calls|] == calls;
  }

  /** A finite map after those calls that went to one of two locators. */
  function SetBy(m: map<Text, Pointer>, calls: seq<(bool, Text, Pointer)>, first: bool): map<Text, Pointer>
    decreases |calls|
  {
    if calls == [] then m
    else
      var before, call := SetBy(m, calls[..|calls| - 1], first), calls[|calls| - 1];
      if call.0 == first then before[call.1 := call.2] else before
  }

  /** The map after `i` sets of one service, with memory for one rehash at first. */
  predicate Counting(t: Table, grants: seq<bool>, i: nat, key: Text, value: Pointer) {
    && t.size == (if i <= 128 then i else i - 127)
    && |t.slots| == (if i <= 128 then INITIAL_SIZE else 2 * INITIAL_SIZE)
    && grants == (if i <= 128 then [true] else [])
    && Meaning(t) == if i == 0 then map[] else map[key := value]
  }

  lemma CountingStep(t: Table, grants: seq<bool>, i: nat, key: Text, value: Pointer)
    requires Good(t) && Counting(t, grants, i, key, value) && i < 383
    ensures var r := Put(t, key, value, grants);
      r.status == OK && Counting(r.table, r.grants, i + 1, key, value)
  {
    SolePut(t, key, value, grants);
    PutMeans(t, key, value, grants);
    hide Meaning, Good;
    assert |map[key := value]| == 1;
  }

  /** Setting one service 383 times, with memory for one rehash, brings the counter to 256, and the
      clone comes out empty. */
  method CloneLosesService(key: Text, value: Pointer) returns (l: Locator, clone: Locator)
    ensures l.Valid() && clone.Valid()
    ensures l.Contents() == map[key := value] && clone.Contents() == map[]
  {
    hide Meaning, Good;
    l := new Locator([true]);
    EmptyGood(INITIAL_SIZE);
    for i := 0 to 383
      invariant l.Valid() && fresh(l.services) && fresh(l.services.data)
      invariant Counting(l.services.Tab(), l.services.grants, i, key, value)
    {
      CountingStep(l.services.Tab(), l.services.grants, i, key, value);
      hide Counting, Put;
      ghost var status := l.Set(key, value);
    }
    var copy, _ := l.Clone([]);
    clone := copy;
  }
}
