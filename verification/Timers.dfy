/** The timers of the C++ pump: `handle`, `remove` and the last loop of `worker` in
    runtime/c++/pump.cc, and `deadline` in runtime/c++/dzn/pump.hh. */
module Timers {

  /** A deadline with its identifier, and the event to run. */
  datatype Timer = Timer(time: nat, id: nat, event: nat)

  /** `deadline::operator <`. */
  predicate Before(a: Timer, b: Timer) {
    a.time < b.time || (a.time == b.time && a.id < b.id)
  }

  predicate Expired(t: Timer, now: nat) {
    t.time <= now
  }

  /** What happened, with the clock at that moment.  A timer fires in a pass that began at `now`. */
  datatype Entry =
    | Set(clock: nat, timer: Timer)
    | Cancelled(clock: nat, id: nat)
    | Fired(clock: nat, timer: Timer, now: nat)

  /** What a handler does: let time pass, set a timer, cancel one. */
  datatype Act = Wait(d: nat) | SetTimer(id: nat, ms: nat, event: nat) | Cancel(id: nat)

  // what a history means

  /** The timers that were set and neither fired nor cancelled since. */
  ghost function Pending(log: seq<Entry>): set<Timer> {
    if log == [] then {}
    else
      var before := Pending(log[..|log| - 1]);
      match log[|log| - 1]
      case Set(_, t) => before + {t}
      case Cancelled(_, id) => set t | t in before && t.id != id
      case Fired(_, t, _) => before - {t}
  }

  /** A new timer has a fresh identifier and lies in the future; the timer that fires is the
      earliest one pending, and its deadline is past. */
  ghost predicate LawfulAt(log: seq<Entry>, i: nat)
    requires i < |log|
  {
    var pending := Pending(log[..i]);
    match log[i]
    case Set(clock, t) => clock <= t.time && forall u :: u in pending ==> u.id != t.id
    case Cancelled(_, _) => true
    case Fired(clock, t, now) =>
      t in pending && t.time <= now <= clock && forall u :: u in pending ==> u == t || Before(t, u)
  }

  ghost predicate Lawful(log: seq<Entry>) {
    && (forall i: nat :: i < |log| ==> LawfulAt(log, i))
    && (forall i, j :: 0 <= i < j < |log| ==> log[i].clock <= log[j].clock)
  }

  lemma PendingStep(log: seq<Entry>, i: nat)
    requires i < |log|
    ensures Pending(log[..i + 1]) ==
      match log[i]
      case Set(_, t) => Pending(log[..i]) + {t}
      case Cancelled(_, id) => (set t | t in Pending(log[..i]) && t.id != id)
      case Fired(_, t, _) => Pending(log[..i]) - {t}
  {
    assert log[..i + 1][..i] == log[..i];
  }

  /** A timer pending at `j` was pending at `i`, and neither fired nor was cancelled in between, or
      it was set in between. */
  lemma {:induction false} PendingSince(log: seq<Entry>, i: nat, j: nat, t: Timer)
    requires i <= j <= |log| && t in Pending(log[..j])
    ensures
      || (t in Pending(log[..i]) && forall k :: i <= k < j ==> !Ends(log[k], t))
      || exists k :: i <= k < j && log[k].Set? && log[k].timer == t
    decreases j
  {
    if i < j {
      PendingStep(log, j - 1);
      if !(log[j - 1].Set? && log[j - 1].timer == t) {
        PendingSince(log, i, j - 1, t);
      }
    }
  }

  predicate Ends(e: Entry, t: Timer) {
    (e.Cancelled? && e.id == t.id) || (e.Fired? && e.timer == t)
  }

  lemma {:induction false} PendingUnique(log: seq<Entry>, i: nat)
    requires Lawful(log) && i <= |log|
    ensures forall t, u :: t in Pending(log[..i]) && u in Pending(log[..i]) && t.id == u.id ==> t == u
  {
    if i > 0 {
      PendingUnique(log, i - 1);
      PendingStep(log, i - 1);
      assert LawfulAt(log, i - 1);
    }
  }

  // what holds of every lawful history

  /** Timers fire in the order of their deadlines, in one pass and over all passes, and never
      early. */
  lemma FiredInOrder(log: seq<Entry>, i: nat, j: nat)
    requires Lawful(log) && i < j < |log| && log[i].Fired? && log[j].Fired?
    ensures log[i].timer.time <= log[j].timer.time
    ensures log[i].timer.time <= log[i].now <= log[i].clock
  {
    var t, u := log[i].timer, log[j].timer;
    assert LawfulAt(log, i) && LawfulAt(log, j);
    PendingSince(log, i, j, u);
    if k :| i <= k < j && log[k].Set? && log[k].timer == u {
      assert LawfulAt(log, k);
      assert log[i].clock <= log[k].clock;
    }
  }

  /** A timer that was cancelled, or fired, fires again only after it is set again. */
  lemma FiresOnlyIfSet(log: seq<Entry>, i: nat, j: nat)
    requires Lawful(log) && i < j < |log| && log[j].Fired? && Ends(log[i], log[j].timer)
    ensures exists k :: i < k < j && log[k].Set? && log[k].timer == log[j].timer
  {
    assert LawfulAt(log, j);
    PendingStep(log, i);
    PendingSince(log, i + 1, j, log[j].timer);
    var k :| i < k < j && log[k].Set? && log[k].timer == log[j].timer;
  }

  /** A history goes on, and in a pass that began at `now`. */
  ghost predicate Continues(before: seq<Entry>, log: seq<Entry>, now: nat) {
    && |before| <= |log| && log[..|before|] == before
    && forall k :: |before| <= k < |log| && log[k].Fired? ==> log[k].now == now
  }

  // the sorted map

  ghost predicate Sorted(ts: seq<Timer>) {
    forall i, j :: 0 <= i < j < |ts| ==> Before(ts[i], ts[j])
  }

  /** `emplace` of a key that is not in the map. */
  function Insert(ts: seq<Timer>, t: Timer): (r: seq<Timer>)
    ensures |r| == |ts| + 1 && forall u :: u in r <==> u in ts || u == t
  {
    if ts == [] || Before(t, ts[0]) then [t] + ts else [ts[0]] + Insert(ts[1..], t)
  }

  lemma {:induction false} InsertSorted(ts: seq<Timer>, t: Timer)
    requires Sorted(ts) && forall u :: u in ts ==> u.id != t.id
    ensures Sorted(Insert(ts, t))
  {
    if ts != [] && !Before(t, ts[0]) {
      InsertSorted(ts[1..], t);
      var r := Insert(ts[1..], t);
      assert forall u :: u in r ==> Before(ts[0], u);
    }
  }

  /** `erase` of the first timer with the identifier, if any. */
  function Erase(ts: seq<Timer>, id: nat): (r: seq<Timer>)
    ensures forall u :: u in r ==> u in ts
  {
    if ts == [] then [] else if ts[0].id == id then ts[1..] else [ts[0]] + Erase(ts[1..], id)
  }

  lemma {:induction false} EraseAt(ts: seq<Timer>, i: nat, id: nat)
    requires i <= |ts| && (i < |ts| ==> ts[i].id == id) && forall j :: 0 <= j < i ==> ts[j].id != id
    ensures Erase(ts, id) == if i < |ts| then ts[..i] + ts[i + 1..] else ts
  {
    if 0 < i {
      assert ts[0].id != id;
      EraseAt(ts[1..], i - 1, id);
    }
  }

  lemma {:induction false} EraseSorted(ts: seq<Timer>, id: nat)
    requires Sorted(ts)
    ensures Sorted(Erase(ts, id))
  {
    if ts != [] && ts[0].id != id {
      EraseSorted(ts[1..], id);
      assert forall u :: u in Erase(ts[1..], id) ==> Before(ts[0], u);
    }
  }

  lemma {:induction false} EraseMembers(ts: seq<Timer>, id: nat)
    requires Sorted(ts) && forall t, u :: t in ts && u in ts && t.id == u.id ==> t == u
    ensures forall u :: u in Erase(ts, id) <==> u in ts && u.id != id
  {
    if ts != [] {
      assert ts[0] !in ts[1..];
      if ts[0].id != id {
        EraseMembers(ts[1..], id);
      }
    }
  }

  lemma FirstIsEarliest(ts: seq<Timer>, now: nat)
    requires Sorted(ts) && (ts != [] ==> !Expired(ts[0], now))
    ensures forall t :: t in ts ==> !Expired(t, now)
  {
  }

  // how long a pass goes on

  /** How many timers have expired. */
  function Due(ts: seq<Timer>, now: nat): nat {
    if ts == [] then 0 else (if Expired(ts[0], now) then 1 else 0) + Due(ts[1..], now)
  }

  lemma {:induction false} InsertDue(ts: seq<Timer>, t: Timer, now: nat)
    ensures Due(Insert(ts, t), now) == Due(ts, now) + if Expired(t, now) then 1 else 0
  {
    if ts == [] || Before(t, ts[0]) {
      assert ([t] + ts)[1..] == ts;
    } else {
      assert Insert(ts, t)[1..] == Insert(ts[1..], t);
      InsertDue(ts[1..], t, now);
    }
  }

  lemma {:induction false} EraseDue(ts: seq<Timer>, id: nat, now: nat)
    ensures Due(Erase(ts, id), now) <= Due(ts, now)
  {
    if ts != [] && ts[0].id != id {
      assert Erase(ts, id)[1..] == Erase(ts[1..], id);
      EraseDue(ts[1..], id, now);
    }
  }

  /** The time that a handler lets pass. */
  function Waited(acts: seq<Act>): nat {
    if acts == [] then 0 else (if acts[0].Wait? then acts[0].d else 0) + Waited(acts[1..])
  }

  /** What the closure of an event does when it is the `k`-th one to run in a pass. */
  type Handlers = (nat, nat) -> seq<Act>

  /** The time that the handlers of these timers let pass. */
  function Elapsed(handlers: Handlers, fired: seq<Timer>): nat {
    if fired == [] then 0
    else
      var k := |fired| - 1;
      Elapsed(handlers, fired[..k]) + Waited(handlers(fired[k].event, k))
  }

  /** What a handler that starts at `clock` leaves in the history. */
  function Entries(acts: seq<Act>, clock: nat): seq<Entry> {
    if acts == [] then []
    else
      match acts[0]
      case Wait(d) => Entries(acts[1..], clock + d)
      case SetTimer(id, ms, event) => [Set(clock, Timer(clock + ms, id, event))] + Entries(acts[1..], clock)
      case Cancel(id) => [Cancelled(clock, id)] + Entries(acts[1..], clock)
  }

  /** What a pass that began at `now` leaves in the history: the firings in order, each followed by
      what its handler does. */
  function PassLog(handlers: Handlers, now: nat, fired: seq<Timer>): seq<Entry> {
    if fired == [] then []
    else
      var k := |fired| - 1;
      var clock := now + Elapsed(handlers, fired[..k]);
      PassLog(handlers, now, fired[..k]) + [Fired(clock, fired[k], now)] + Entries(handlers(fired[k].event, k), clock)
  }

  lemma PassLogStep(handlers: Handlers, now: nat, fired: seq<Timer>, t: Timer)
    ensures var acts, clock := handlers(t.event, |fired|), now + Elapsed(handlers, fired);
      && PassLog(handlers, now, fired + [t])
         == PassLog(handlers, now, fired) + [Fired(clock, t, now)] + Entries(acts, clock)
      && Elapsed(handlers, fired + [t]) == Elapsed(handlers, fired) + Waited(acts)
  {
    assert (fired + [t])[..|fired|] == fired;
  }

  lemma {:induction false} EntriesAppend(acts: seq<Act>, act: Act, clock: nat)
    ensures Entries(acts + [act], clock) == Entries(acts, clock) + Entries([act], clock + Waited(acts))
    ensures Waited(acts + [act]) == Waited(acts) + Waited([act])
  {
    if acts == [] {
      assert acts + [act] == [act];
    } else {
      assert (acts + [act])[1..] == acts[1..] + [act];
      EntriesAppend(acts[1..], act, if acts[0].Wait? then clock + acts[0].d else clock);
    }
  }

  lemma ActStep(acts: seq<Act>, i: nat, clock: nat)
    requires i < |acts|
    ensures acts[i..][1..] == acts[i + 1..]
    ensures var w, before := Waited(acts[..i]), Entries(acts[..i], clock);
      match acts[i]
      case Wait(d) => Waited(acts[..i + 1]) == w + d && Entries(acts[..i + 1], clock) == before
      case SetTimer(id, ms, event) =>
        && Waited(acts[..i + 1]) == w
        && Entries(acts[..i + 1], clock) == before + [Set(clock + w, Timer(clock + w + ms, id, event))]
      case Cancel(id) =>
        Waited(acts[..i + 1]) == w && Entries(acts[..i + 1], clock) == before + [Cancelled(clock + w, id)]
  {
    assert acts[..i + 1] == acts[..i] + [acts[i]];
    EntriesAppend(acts[..i], acts[i], clock);
    assert [acts[i]][1..] == [];
  }

  /** A handler stops at its `j`-th act, which sets a timer with an identifier in use. */
  predicate ClashesAt(acts: seq<Act>, j: nat, timers: seq<Timer>) {
    j < |acts| && acts[j].SetTimer? && exists t :: t in timers && t.id == acts[j].id
  }

  /** A handler has stopped in this way, and has left `entries` in the history. */
  ghost predicate Clashed(acts: seq<Act>, clock: nat, entries: seq<Entry>, timers: seq<Timer>) {
    exists j: nat :: ClashesAt(acts, j, timers) && entries == Entries(acts[..j], clock)
  }

  /** A handler that runs `w` after the pass began sets no timer that expires with it. */
  predicate Late(acts: seq<Act>, w: nat) {
    acts == [] ||
    match acts[0]
    case Wait(d) => Late(acts[1..], w + d)
    case SetTimer(_, ms, _) => w + ms > 0 && Late(acts[1..], w)
    case Cancel(_) => Late(acts[1..], w)
  }

  lemma FirstDue(ts: seq<Timer>, now: nat)
    requires ts != [] && Expired(ts[0], now)
    ensures Due(ts, now) == Due(ts[1..], now) + 1
  {
  }

  lemma {:induction false} EntriesFireNothing(acts: seq<Act>, clock: nat)
    ensures forall e :: e in Entries(acts, clock) ==> !e.Fired?
  {
    if acts != [] {
      EntriesFireNothing(acts[1..], if acts[0].Wait? then clock + acts[0].d else clock);
    }
  }

  lemma {:induction false} PassLogFires(handlers: Handlers, now: nat, fired: seq<Timer>)
    ensures forall e :: e in PassLog(handlers, now, fired) && e.Fired? ==> e.now == now
  {
    if fired != [] {
      var k := |fired| - 1;
      PassLogFires(handlers, now, fired[..k]);
      EntriesFireNothing(handlers(fired[k].event, k), now + Elapsed(handlers, fired[..k]));
    }
  }

  lemma PassContinues(handlers: Handlers, now: nat, fired: seq<Timer>, before: seq<Entry>)
    ensures Continues(before, before + PassLog(handlers, now, fired), now)
  {
    PassLogFires(handlers, now, fired);
    var log := before + PassLog(handlers, now, fired);
    assert forall k :: |before| <= k < |log| ==> log[k] in PassLog(handlers, now, fired);
  }

  lemma ExecuteBegins(acts: seq<Act>, clock: nat)
    ensures acts[0..] == acts && Waited(acts[..0]) == 0 && Entries(acts[..0], clock) == []
  {
  }

  lemma PassBegins(handlers: Handlers, log: seq<Entry>, now: nat)
    ensures log == log + PassLog(handlers, now, []) && Elapsed(handlers, []) == 0
  {
  }

  /** The handler of the last of these timers has stopped a pass. */
  ghost predicate Stopped(handlers: Handlers, now: nat, fired: seq<Timer>, before: seq<Entry>, log: seq<Entry>,
                          timers: seq<Timer>) {
    fired != [] &&
    var k := |fired| - 1;
    var clock := now + Elapsed(handlers, fired[..k]);
    var until := before + PassLog(handlers, now, fired[..k]) + [Fired(clock, fired[k], now)];
    until <= log && Clashed(handlers(fired[k].event, k), clock, log[|until|..], timers)
  }

  lemma StoppedContinues(handlers: Handlers, now: nat, fired: seq<Timer>, before: seq<Entry>, log: seq<Entry>,
                         timers: seq<Timer>)
    requires Stopped(handlers, now, fired, before, log, timers)
    ensures Continues(before, log, now)
  {
    var k := |fired| - 1;
    var clock := now + Elapsed(handlers, fired[..k]);
    var passed := before + PassLog(handlers, now, fired[..k]);
    var until := passed + [Fired(clock, fired[k], now)];
    var acts := handlers(fired[k].event, k);
    var j: nat :| ClashesAt(acts, j, timers) && log[|until|..] == Entries(acts[..j], clock);
    PassContinues(handlers, now, fired[..k], before);
    EntriesFireNothing(acts[..j], clock);
    hide PassLog, Entries, Elapsed;
    assert forall x :: |until| <= x < |log| ==> log[x] == log[|until|..][x - |until|];
    assert forall x :: |before| <= x < |passed| ==> log[x] == passed[x];
    assert log[..|before|] == passed[..|before|];
  }

  class TimerQueue {
    var timers: seq<Timer>
    var clock: nat
    ghost var log: seq<Entry>

    ghost predicate Valid()
      reads this
    {
      && Sorted(timers) && (forall t :: t in timers <==> t in Pending(log))
      && (forall t, u :: t in timers && u in timers && t.id == u.id ==> t == u)
      && Lawful(log) && (log != [] ==> log[|log| - 1].clock <= clock)
    }

    constructor ()
      ensures Valid() && timers == [] && log == []
    {
      timers, clock, log := [], 0, [];
    }

    /** The history goes on lawfully. */
    lemma Extended(e: Entry)
      requires Valid() && e.clock == clock
      requires LawfulAt(log + [e], |log|)
      ensures Lawful(log + [e])
      ensures Pending(log + [e]) == match e
        case Set(_, t) => Pending(log) + {t}
        case Cancelled(_, id) => (set t | t in Pending(log) && t.id != id)
        case Fired(_, t, _) => Pending(log) - {t}
    {
      var r := log + [e];
      assert r[..|log|] == log && r[..|log| + 1] == r;
      PendingStep(r, |log|);
      forall i: nat | i < |r| ensures LawfulAt(r, i) {
        if i < |log| {
          assert r[..i] == log[..i] && LawfulAt(log, i);
        }
      }
    }

    method Advance(d: nat)
      requires Valid()
      modifies `clock
      ensures Valid() && clock == old(clock) + d
    {
      clock := clock + d;
    }

    /** A fresh timer goes into the map. */
    lemma Settable(t: Timer)
      requires Valid() && clock <= t.time && forall u :: u in timers ==> u.id != t.id
      ensures Lawful(log + [Set(clock, t)]) && Sorted(Insert(timers, t))
      ensures forall u :: u in Insert(timers, t) <==> u in Pending(log + [Set(clock, t)])
    {
      assert (log + [Set(clock, t)])[..|log|] == log;
      Extended(Set(clock, t));
      InsertSorted(timers, t);
    }

    /** `handle`; false when its assertion fails, because the identifier is in use. */
    method Handle(id: nat, ms: nat, event: nat) returns (ok: bool)
      requires Valid()
      modifies this
      ensures Valid() && clock == old(clock)
      ensures ok == forall t :: t in old(timers) ==> t.id != id
      ensures ok ==>
                var t := Timer(clock + ms, id, event);
                timers == Insert(old(timers), t) && log == old(log) + [Set(clock, t)]
      ensures !ok ==> timers == old(timers) && log == old(log)
    {
      hide Pending, Lawful, Sorted, Insert;
      var i := Find(id);
      ok := i == |timers|;
      if ok {
        var t := Timer(clock + ms, id, event);
        Settable(t);
        timers := Insert(timers, t);
        log := log + [Set(clock, t)];
      }
    }

    /** The linear search of `handle` and `remove`. */
    method Find(id: nat) returns (i: nat)
      requires Valid()
      ensures i <= |timers| && (i < |timers| ==> timers[i].id == id)
      ensures forall j :: 0 <= j < i ==> timers[j].id != id
      ensures i == |timers| <==> forall t :: t in timers ==> t.id != id
    {
      i := 0;
      while i < |timers| && timers[i].id != id
        invariant i <= |timers|
        invariant forall j :: 0 <= j < i ==> timers[j].id != id
      {
        i := i + 1;
      }
      assert i < |timers| ==> timers[i] in timers;
    }

    /** A timer leaves the map. */
    lemma Cancellable(id: nat)
      requires Valid()
      ensures Lawful(log + [Cancelled(clock, id)]) && Sorted(Erase(timers, id))
      ensures forall u :: u in Erase(timers, id) <==> u in Pending(log + [Cancelled(clock, id)])
    {
      assert (log + [Cancelled(clock, id)])[..|log|] == log;
      Extended(Cancelled(clock, id));
      EraseSorted(timers, id);
      EraseMembers(timers, id);
    }

    /** `remove`. */
    method Remove(id: nat)
      requires Valid()
      modifies `timers, `log
      ensures Valid() && log == old(log) + [Cancelled(clock, id)] && timers == Erase(old(timers), id)
      ensures forall t :: t in timers <==> t in old(timers) && t.id != id
    {
      hide Pending, Lawful, Sorted, Erase;
      Cancellable(id);
      EraseMembers(timers, id);
      var i := Find(id);
      EraseAt(timers, i, id);
      if i < |timers| {
        timers := timers[..i] + timers[i + 1..];
      }
      log := log + [Cancelled(clock, id)];
    }

    /** A handler runs, without the lock, in a pass that began at `now`. */
    method Execute(acts: seq<Act>, ghost now: nat) returns (ok: bool)
      requires Valid() && now <= clock
      modifies this
      ensures Valid() && old(clock) <= clock
      ensures ok ==> clock == old(clock) + Waited(acts) && log == old(log) + Entries(acts, old(clock))
      ensures !ok ==> old(log) <= log && Clashed(acts, old(clock), log[|old(log)|..], timers)
      ensures Late(acts, old(clock) - now) ==> Due(timers, now) <= Due(old(timers), now)
    {
      hide Valid, Insert, Erase, Due, Entries, Waited;
      ExecuteBegins(acts, clock);
      ok := true;
      for i := 0 to |acts|
        invariant Valid() && old(clock) <= clock && clock == old(clock) + Waited(acts[..i])
        invariant log == old(log) + Entries(acts[..i], old(clock))
        invariant Late(acts, old(clock) - now) ==>
                    Late(acts[i..], clock - now) && Due(timers, now) <= Due(old(timers), now)
      {
        ActStep(acts, i, old(clock));
        match acts[i]
        case Wait(d) => Advance(d);
        case SetTimer(id, ms, event) =>
          InsertDue(timers, Timer(clock + ms, id, event), now);
          ok := Handle(id, ms, event);
          if !ok {
            assert ClashesAt(acts, i, timers);
            return;
          }
        case Cancel(id) =>
          EraseDue(timers, id, now);
          Remove(id);
      }
      assert acts[..|acts|] == acts;
    }

    /** The first timer leaves the map. */
    method Fire(now: nat)
      requires Valid() && timers != [] && Expired(timers[0], now) && now <= clock
      modifies `timers, `log
      ensures Valid() && timers == old(timers)[1..] && log == old(log) + [Fired(clock, old(timers)[0], now)]
    {
      ghost var t, was := timers[0], timers;
      assert was == [t] + was[1..];
      assert (log + [Fired(clock, t, now)])[..|log|] == log;
      Extended(Fired(clock, t, now));
      timers := timers[1..];
      log := log + [Fired(clock, t, now)];
    }

    /** One round of the last loop of `worker`. */
    method Round(acts: seq<Act>, now: nat) returns (ok: bool)
      requires Valid() && timers != [] && Expired(timers[0], now) && now <= clock
      modifies this
      ensures Valid() && old(clock) <= clock
      ensures Late(acts, old(clock) - now) ==> Due(timers, now) < Due(old(timers), now)
      ensures var fired := old(log) + [Fired(old(clock), old(timers[0]), now)];
        && (ok ==> clock == old(clock) + Waited(acts) && log == fired + Entries(acts, old(clock)))
        && (!ok ==> fired <= log && Clashed(acts, old(clock), log[|fired|..], timers))
    {
      hide Valid, Late, Waited, Entries, Clashed, Due;
      FirstDue(timers, now);
      Fire(now);
      ok := Execute(acts, now);
    }

    /** The last loop of `worker`: a timer that fires as the `k`-th one runs `handlers(event, k)`.  If
        all handlers from the `n`-th one on set only timers that expire later than this pass began,
        the loop ends.  A pass leaves no timer that had expired when it began, fires only such timers,
        and does nothing but to run their handlers one after the other. */
    method Pass(handlers: Handlers, ghost n: nat) returns (ok: bool, ghost fired: seq<Timer>)
      requires Valid()
      requires forall before: seq<Timer>, event: nat ::
        n <= |before| ==> Late(handlers(event, |before|), Elapsed(handlers, before))
      modifies this
      ensures Valid() && old(clock) <= clock && Continues(old(log), log, old(clock))
      ensures ok ==> forall t :: t in timers ==> !Expired(t, old(clock))
      ensures ok ==> log == old(log) + PassLog(handlers, old(clock), fired)
      ensures ok ==> clock == old(clock) + Elapsed(handlers, fired)
      ensures !ok ==> Stopped(handlers, old(clock), fired, old(log), log, timers)
    {
      hide Pending, Lawful, Sorted, Late, Waited, Due, Continues, Entries, PassLog, Elapsed, Clashed;
      ok, fired := true, [];
      var now, i := clock, 0;
      PassBegins(handlers, log, now);
      while timers != [] && Expired(timers[0], now)
        invariant Valid() && now <= clock && i == |fired|
        invariant log == old(log) + PassLog(handlers, now, fired) && clock == now + Elapsed(handlers, fired)
        decreases if i < n then n - i else 0, Due(timers, now)
      {
        ghost var first := timers[0];
        PassLogStep(handlers, now, fired, first);
        ok := Round(handlers(timers[0].event, i), now);
        fired, i := fired + [first], i + 1;
        if !ok {
          assert fired[..i - 1] + [first] == fired;
          StoppedContinues(handlers, now, fired, old(log), log, timers);
          return;
        }
      }
      PassContinues(handlers, now, fired, old(log));
      FirstIsEarliest(timers, now);
    }

    /** While the clock stands still, a handler that sets its timer again for at once brings the loop
        back to where it was, so then no bound exists. */
    method StandStill(id: nat, event: nat)
      requires Valid() && timers == [Timer(clock, id, event)]
      modifies this
      ensures Valid() && timers == old(timers) && clock == old(clock)
    {
      ghost var now := clock;
      Fire(clock);
      var ok := Handle(id, 0, event);
    }
  }
}
