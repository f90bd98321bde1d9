/** Where the coroutines of the pump are: who is in which list, in which order, waiting for what, and
    at which point of its program. */
module PumpPlaces {
  import opened Sequences
  import opened PumpModel
  import opened PumpProofs
  import opened PumpTheorems
  import opened PumpHistory
  import opened Wrappers

  // the lists

  /** The coroutines in the order of their arrival, those of them that have handed over control for
      good, and the waiters in the order of their arrival. */
  datatype Roster = Roster(active: seq<nat>, gone: set<nat>, waiting: seq<nat>)

  /** A coroutine that waits leaves the one list for the end of the other; one that gets control is
      in the first list, at its end if it is new there; one that hands over to a released coroutine or
      waiter has gone, and stays in the list until a `block` is resumed. */
  function Rostered(r: Roster, self: nat, next: nat, parks: bool, sweeps: bool, hands: bool): Roster {
    var left := if parks then Without(r.active, {self}) else if sweeps then Without(r.active, r.gone) else r.active;
    Roster(if next in left then left else left + [next],
           if hands && next != self then r.gone + {self} else r.gone,
           if parks then r.waiting + [self] else Without(r.waiting, {next}))
  }

  ghost function RosterAfter(s: State, a: Action, r: Roster): Roster
    requires Enabled(s, a)
  {
    Rostered(r, s.self, Apply(s, a).self, a.CollateralBlock?, a.BlockResume?, a.ContextSwitch? || a.CollateralRelease?)
  }

  ghost function RosterBy(s: State, steps: seq<Action>, r: Roster): Roster
    decreases |steps|
  {
    if steps == [] || !Enabled(s, steps[0]) then r
    else RosterBy(Apply(s, steps[0]), steps[1..], RosterAfter(s, steps[0], r))
  }

  ghost predicate Listed(s: State, r: Roster) {
    && s.coroutines == r.active && s.collateral == r.waiting
    && (forall id :: id in s.coroutines || id in s.collateral ==> (id in r.gone <==> s.At(id).finished))
    && (forall id :: id in r.gone ==> id <= s.current)
  }

  lemma {:induction false} WithoutAbsent(s: seq<nat>, x: nat)
    requires x !in s
    ensures Without(s, {x}) == s
  {
    if s != [] {
      WithoutAbsent(s[1..], x);
    }
  }

  lemma {:induction false} RemovedWithout(s: seq<nat>, i: nat)
    requires NoDup(s) && i < |s|
    ensures RemoveAt(s, i) == Without(s, {s[i]})
  {
    if i == 0 {
      WithoutAbsent(s[1..], s[0]);
    } else {
      assert s[i] == s[1..][i - 1] && s[i] in s[1..];
      RemovedWithout(s[1..], i - 1);
      assert RemoveAt(s, i) == [s[0]] + RemoveAt(s[1..], i - 1);
    }
  }

  lemma {:induction false} WithoutSame(s: seq<nat>, a: set<nat>, b: set<nat>)
    requires forall x :: x in s ==> (x in a <==> x in b)
    ensures Without(s, a) == Without(s, b)
  {
    if s != [] {
      WithoutSame(s[1..], a, b);
    }
  }

  /** Nothing moves. */
  lemma StayListed(s: State, t: State, r: Roster, hands: bool)
    requires Inv(s) && t.self == s.self && Listed(s, r)
    requires t.coroutines == s.coroutines && t.collateral == s.collateral && t.current == s.current && t.co == s.co
    ensures Listed(t, Rostered(r, s.self, s.self, false, false, hands))
  {
    BatonKnown(s);
    WithoutAbsent(s.collateral, s.self);
    hide Inv, Without;
    assert forall id :: t.At(id) == s.At(id);
  }

  /** Control goes to coroutine `w`. */
  lemma MoveListed(s: State, t: State, w: nat, r: Roster, hands: bool)
    requires t.self == w && w != s.self && Listed(s, r) && w !in r.gone && t.current >= s.current
    requires t.coroutines == if w in s.coroutines then s.coroutines else s.coroutines + [w]
    requires t.collateral == Without(s.collateral, {w}) && s.self <= s.current
    requires s.self in s.coroutines && s.self !in s.collateral && !t.At(w).finished
    requires (t.At(s.self).finished <==> hands) && !s.At(s.self).finished
    requires forall id :: id != w && id != s.self ==> t.At(id).finished == s.At(id).finished
    ensures Listed(t, Rostered(r, s.self, w, false, false, hands))
  {
    assert forall id :: id in t.collateral ==> id in s.collateral && id != w;
    hide Without;
  }

  lemma SwitchListed(s: State, r: Roster)
    requires Inv(s) && Enabled(s, ContextSwitch) && Listed(s, r)
    ensures Listed(Apply(s, ContextSwitch), RosterAfter(s, ContextSwitch, r))
  {
    var t := AfterContextSwitch(s);
    if s.switches == [] {
      StayListed(s, t, r, true);
    } else {
      var b := s.switches[0];
      SwitchHandsOver(s);
      Unfinished(s, b);
      WithoutAbsent(s.collateral, b);
      hide Inv, Without, AfterContextSwitch, Listed;
      HandedListed(s, t, b, r);
    }
  }

  lemma HandedListed(s: State, t: State, w: nat, r: Roster)
    requires HandsOver(s, t, w) && Listed(s, r) && s.self !in s.collateral && s.self <= s.current
    requires !s.At(s.self).finished && (w in s.coroutines || w in s.collateral)
    requires t.coroutines == if w in s.coroutines then s.coroutines else s.coroutines + [w]
    requires t.collateral == Without(s.collateral, {w})
    ensures Listed(t, Rostered(r, s.self, w, false, false, true))
  {
    MoveListed(s, t, w, r, true);
  }

  /** The coroutine in control and the blocked ones are not finished, nor are the waiters. */
  lemma Unfinished(s: State, b: nat)
    requires Inv(s) && (b in s.collateral || (b in s.coroutines && s.At(b).port != 0))
    ensures !s.At(b).finished && (b in s.coroutines ==> b !in s.collateral)
    ensures s.self in s.coroutines && s.self !in s.collateral && !s.At(s.self).finished && b != s.self
    ensures s.self <= s.current && NoDup(s.collateral)
  {
    assert s.Runnable(s.self) && s.self in s.co;
    assert b in s.coroutines ==> !s.Runnable(b);
  }

  lemma ReleaseListed(s: State, r: Roster)
    requires Inv(s) && Enabled(s, CollateralRelease) && Listed(s, r)
    ensures Listed(Apply(s, CollateralRelease), RosterAfter(s, CollateralRelease, r))
  {
    hide Inv, First, RemoveAt, Listed;
    var t, i := AfterCollateralRelease(s), First(s.collateral, s.Unblockable());
    if s.unblocked == [] || i == |s.collateral| {
      StayListed(s, t, r, true);
    } else {
      var w := s.collateral[i];
      assert w in s.collateral;
      Unfinished(s, w);
      WaiterHandsOver(s, i);
      hide AfterCollateralRelease, Without;
      HandedListed(s, t, w, r);
    }
  }

  lemma WaiterHandsOver(s: State, i: nat)
    requires Inv(s) && s.Pc(s.self) == Looping(Releasing)
    requires s.unblocked != [] && i == First(s.collateral, s.Unblockable()) < |s.collateral|
    ensures var t, w := AfterCollateralRelease(s), s.collateral[i];
      && HandsOver(s, t, w) && w !in s.coroutines && w in s.collateral
      && t.coroutines == s.coroutines + [w] && t.collateral == Without(s.collateral, {w})
  {
    CollateralReleaseHandsOver(s, i);
    RemovedWithout(s.collateral, i);
    assert s.collateral[i] in s.collateral;
    hide First, Without, HandsOver;
  }

  lemma ParkListed(s: State, c: nat, r: Roster)
    requires Inv(s) && Enabled(s, CollateralBlock(c)) && Listed(s, r)
    ensures Listed(Apply(s, CollateralBlock(c)), RosterAfter(s, CollateralBlock(c), r))
  {
    hide Inv, AfterCollateralBlock, Without, Listed, OwnerBlocked;
    var t, n: nat := AfterCollateralBlock(s, c), s.current + 1;
    ParkFields(s, c);
    ParkedListed(s, t, n, r);
  }

  lemma ParkedListed(s: State, t: State, n: nat, r: Roster)
    requires Listed(s, r) && n == s.current + 1 && n !in s.coroutines && n !in s.collateral
    requires t.coroutines == Without(s.coroutines, {s.self}) + [n] && t.collateral == s.collateral + [s.self]
    requires t.self == t.current == n && !t.At(n).finished && s.self in s.coroutines
    requires forall id :: id != n ==> t.At(id).finished == s.At(id).finished
    ensures Listed(t, Rostered(r, s.self, n, true, false, false))
  {
    assert n !in r.gone && n !in Without(r.active, {s.self});
    hide Without;
  }

  lemma ParkFields(s: State, c: nat)
    requires Inv(s) && s.Pc(s.self).Executing? && OwnerBlocked(s, c)
    ensures var t, n: nat := AfterCollateralBlock(s, c), s.current + 1;
      && t.coroutines == Without(s.coroutines, {s.self}) + [n] && t.collateral == s.collateral + [s.self]
      && t.self == t.current == n && n !in s.coroutines && n !in s.collateral
      && (forall id :: id != n ==> t.At(id).finished == s.At(id).finished) && !t.At(n).finished
      && s.self in s.coroutines && s.self !in s.collateral
  {
    hide Inv, Without, OwnerBlocked, Lookup;
    SelfKnown(s);
    NewId(s);
    BatonKnown(s);
    var r := Parked(s, c);
    assert forall id :: r.At(id).finished == s.At(id).finished;
    assert forall id :: id != s.current + 1 ==> AfterCollateralBlock(s, c).At(id) == r.At(id);
  }

  lemma NewId(s: State)
    requires Inv(s)
    ensures s.current + 1 !in s.co && s.current + 1 !in s.coroutines && s.current + 1 !in s.collateral
  {
    var n: nat := s.current + 1;
    assert n !in s.co;
  }

  lemma ResumeListed(s: State, r: Roster)
    requires Inv(s) && Enabled(s, BlockResume) && Listed(s, r)
    ensures Listed(Apply(s, BlockResume), RosterAfter(s, BlockResume, r))
  {
    hide Inv, Without, AfterBlockResume, Listed;
    var t := AfterBlockResume(s);
    BatonKnown(s);
    SweepFields(s);
    SweptListed(s, t, r);
  }

  lemma SweepFields(s: State)
    requires Inv(s) && s.Pc(s.self).Blocking?
    ensures var t := AfterBlockResume(s);
      && t.self == s.self && t.coroutines == Without(s.coroutines, s.Finished()) && t.collateral == s.collateral
      && t.current == s.current && s.self in t.coroutines
      && forall id :: id in t.coroutines || id in t.collateral ==> t.At(id) == s.At(id)
  {
    BlockResumeMembers(s);
    BatonKnown(s);
    assert s.Runnable(s.self);
    hide Inv, Without;
  }

  lemma SweptListed(s: State, t: State, r: Roster)
    requires Listed(s, r) && t.self == s.self && s.self !in s.collateral && s.self in t.coroutines
    requires t.coroutines == Without(s.coroutines, s.Finished()) && t.collateral == s.collateral
    requires t.current == s.current
    requires forall id :: id in t.coroutines || id in t.collateral ==> t.At(id) == s.At(id)
    ensures Listed(t, Rostered(r, s.self, s.self, false, true, false))
  {
    WithoutAbsent(s.collateral, s.self);
    WithoutSame(s.coroutines, s.Finished(), r.gone);
    hide Without;
  }

  // what a block does to the coroutines

  /** A waiter for component `c` has got control from coroutine `me`. */
  ghost predicate Relayed(s: State, t: State, c: nat, me: nat) {
    && t.self in s.Relayable(c) && t.collateral == Without(s.collateral, {t.self}) && t.current == s.current
    && t.At(t.self).port == 0 && t.At(t.self).finished == s.At(t.self).finished
    && forall id :: id != me && id != t.self ==> t.At(id) == s.At(id)
  }

  /** A fresh coroutine has got control, and the first waiter on an unblocked port, whatever it waits
      for, has been moved to `port`. */
  ghost predicate Retargeted(s: State, t: State, port: nat, me: nat) {
    && t.self == t.current == s.current + 1 && t.collateral == s.collateral && t.At(t.self) == Coroutine(0, 0, false)
    && var i := First(s.collateral, s.Unblockable());
       forall id :: id != me && id != t.self ==>
         t.At(id) == if i < |s.collateral| && id == s.collateral[i] then s.At(id).(port := port) else s.At(id)
  }

  /** A block that yields puts its coroutine on its port.  If a waiter for its component is on an
      unblocked port, that one gets control, and otherwise a fresh coroutine. */
  lemma BlockEffects(s: State)
    requires Inv(s) && Committing(s) && !FallsThrough(s) && AtMostOneRelay(s, Top(s).component)
    ensures var t, c, p := AfterBlockCommit(s), Top(s).component, Top(s).port;
      && t.coroutines == s.coroutines + [t.self] && t.self !in s.coroutines
      && t.At(s.self) == s.At(s.self).(port := p)
      && if s.Relayable(c) != {} then Relayed(s, t, c, s.self) else Retargeted(s, t, p, s.self)
  {
    var r, c, p := PortSet(s), Top(s).component, Top(s).port;
    PortSetSuspends(s);
    SameRelays(s);
    PortSetOthers(s);
    CommitFields(s);
    hide Inv, PortSet, AfterBlockCommit, FallsThrough, Yield, Committing, Retargeted, Relayed, Suspended;
    if s.Relayable(c) != {} {
      RelayEffects(r, c, p);
      RelayedFrom(s, r, Yield(r, c, p), c);
    } else {
      RetargetEffects(r, c, p);
      RetargetedFrom(s, r, Yield(r, c, p), p);
    }
  }

  lemma PortSetOthers(s: State)
    requires Inv(s) && Committing(s)
    ensures var r := PortSet(s);
      && r.self == s.self && r.coroutines == s.coroutines && r.collateral == s.collateral && r.current == s.current
      && (forall id :: id != s.self ==> r.At(id) == s.At(id)) && r.At(s.self) == s.At(s.self).(port := Top(s).port)
      && s.self in s.coroutines && s.self !in s.collateral && s.self <= s.current
  {
    BatonKnown(s);
    SelfKnown(s);
    assert s.self in s.co;
  }

  lemma RelayedFrom(s: State, r: State, t: State, c: nat)
    requires Relayed(r, t, c, t.self) && r.Relayable(c) == s.Relayable(c) && r.collateral == s.collateral
    requires r.current == s.current && s.self !in s.collateral && forall id :: id != s.self ==> r.At(id) == s.At(id)
    ensures Relayed(s, t, c, s.self) && t.At(s.self) == r.At(s.self)
  {
    assert t.self in s.collateral;
  }

  lemma RetargetedFrom(s: State, r: State, t: State, port: nat)
    requires Retargeted(r, t, port, t.self) && r.Unblockable() == s.Unblockable() && r.collateral == s.collateral
    requires r.current == s.current && s.self !in s.collateral && forall id :: id != s.self ==> r.At(id) == s.At(id)
    requires s.self <= s.current
    ensures Retargeted(s, t, port, s.self) && t.At(s.self) == r.At(s.self)
  {
    var i := First(s.collateral, s.Unblockable());
    assert i < |s.collateral| ==> s.collateral[i] in s.collateral;
    hide First;
  }

  /** The waiter that is relayed, when there is one. */
  lemma OneRelayed(s: State, c: nat) returns (w: nat)
    requires Suspended(s) && s.Relayable(c) != {} && |Within(s.collateral, s.Relayable(c))| <= 1
    ensures Within(s.collateral, s.Relayable(c)) == [w] && w in s.Relayable(c) && w in s.collateral
    ensures w !in s.coroutines && !s.At(w).finished
  {
    var x :| x in s.Relayable(c);
    assert x in Within(s.collateral, s.Relayable(c));
    w := Within(s.collateral, s.Relayable(c))[0];
    assert w in Within(s.collateral, s.Relayable(c));
    assert w in s.collateral;
  }

  lemma ListsParked(s: State)
    requires Suspended(s)
    ensures Lists(s) && Control(s)
  {
  }

  lemma RelayEffects(s: State, c: nat, port: nat)
    requires Suspended(s) && s.Relayable(c) != {} && |Within(s.collateral, s.Relayable(c))| <= 1
    ensures var t := Yield(s, c, port);
      t.coroutines == s.coroutines + [t.self] && t.self !in s.coroutines && Relayed(s, t, c, t.self)
  {
    hide Suspended, Lists, Control, Within, Without, Reverse, Cleared, Yield;
    var relayed := s.Relayable(c);
    var w := OneRelayed(s, c);
    ListsParked(s);
    RelayMembers(s, relayed, w);
    YieldIs(s, c, port);
    var r, t := Relay(s, relayed), Yield(s, c, port);
    assert forall id :: t.At(id) == r.At(id);
  }

  lemma RetargetEffects(s: State, c: nat, port: nat)
    requires Suspended(s) && s.Relayable(c) == {}
    ensures var t := Yield(s, c, port);
      t.coroutines == s.coroutines + [t.self] && t.self !in s.coroutines && Retargeted(s, t, port, t.self)
  {
    hide Suspended, Lists, Control, Within, First, Yield, Retarget;
    WithinNothing(s.collateral);
    YieldIs(s, c, port);
    ListsParked(s);
    var n: nat, r := s.current + 1, Retarget(s, port);
    NewAmong(s);
    RetargetOthers(s, port);
    assert forall id :: id != n ==> Yield(s, c, port).At(id) == r.At(id);
  }

  lemma NewAmong(s: State)
    requires Lists(s)
    ensures s.current + 1 !in s.coroutines
  {
    var n: nat := s.current + 1;
    assert n !in s.co;
  }

  lemma RetargetOthers(s: State, port: nat)
    requires Lists(s)
    ensures var t, i := Retarget(s, port), First(s.collateral, s.Unblockable());
      && t.coroutines == s.coroutines && t.collateral == s.collateral && t.current == s.current
      && forall id ::
           t.At(id) == if i < |s.collateral| && id == s.collateral[i] then s.At(id).(port := port) else s.At(id)
  {
    var i := First(s.collateral, s.Unblockable());
    assert i < |s.collateral| ==> s.collateral[i] in s.collateral;
    hide First;
  }

  lemma {:induction false} WithinNothing(s: seq<nat>)
    ensures Within(s, {}) == []
  {
    if s != [] {
      WithinNothing(s[1..]);
    }
  }

  lemma CommitListed(s: State, r: Roster)
    requires Inv(s) && Enabled(s, BlockCommit) && Listed(s, r)
    ensures Listed(Apply(s, BlockCommit), RosterAfter(s, BlockCommit, r))
  {
    hide Inv, Listed;
    var t := AfterBlockCommit(s);
    if FallsThrough(s) {
      StayListed(s, t, r, false);
    } else {
      hide AfterBlockCommit, FallsThrough, AtMostOneRelay, Committing;
      YieldListed(s, r);
    }
  }

  lemma YieldListed(s: State, r: Roster)
    requires Inv(s) && Committing(s) && !FallsThrough(s) && AtMostOneRelay(s, Top(s).component) && Listed(s, r)
    ensures var t := AfterBlockCommit(s); Listed(t, Rostered(r, s.self, t.self, false, false, false))
  {
    var t := AfterBlockCommit(s);
    BlockEffects(s);
    BlockingIs(s);
    hide Inv, AfterBlockCommit, FallsThrough, AtMostOneRelay, Committing, Without, Listed, Relayed, Retargeted;
    if s.Relayable(Top(s).component) != {} {
      RelayedListed(s, t, Top(s).component, r);
    } else {
      RetargetedListed(s, t, Top(s).port, r);
    }
  }

  /** The coroutine in control and the waiters. */
  ghost predicate AtWork(s: State) {
    && s.self in s.coroutines && s.self !in s.collateral && !s.At(s.self).finished && s.self <= s.current
    && (forall w :: w in s.collateral ==> !s.At(w).finished)
    && s.current + 1 !in s.collateral
  }

  lemma BlockingIs(s: State)
    requires Inv(s)
    ensures AtWork(s)
  {
    NewId(s);
    assert s.Runnable(s.self) && s.self in s.co;
  }

  lemma RelayedListed(s: State, t: State, c: nat, r: Roster)
    requires Listed(s, r) && AtWork(s) && Relayed(s, t, c, s.self) && !t.At(s.self).finished
    requires t.coroutines == s.coroutines + [t.self] && t.self !in s.coroutines
    ensures Listed(t, Rostered(r, s.self, t.self, false, false, false))
  {
    assert t.self in s.collateral;
    hide Without;
    MoveListed(s, t, t.self, r, false);
  }

  lemma RetargetedListed(s: State, t: State, port: nat, r: Roster)
    requires Listed(s, r) && AtWork(s) && Retargeted(s, t, port, s.self) && !t.At(s.self).finished
    requires t.coroutines == s.coroutines + [t.self] && t.self !in s.coroutines
    ensures Listed(t, Rostered(r, s.self, t.self, false, false, false))
  {
    WithoutAbsent(s.collateral, t.self);
    hide Without, First;
    MoveListed(s, t, t.self, r, false);
  }

  lemma LocalListed(s: State, a: Action, r: Roster)
    requires Inv(s) && Enabled(s, a) && Local(a) && Listed(s, r)
    ensures Listed(Apply(s, a), RosterAfter(s, a, r))
  {
    LocalSameLists(s, a);
    hide Inv, Apply, Enabled, Listed;
    StayListed(s, Apply(s, a), r, false);
  }

  lemma StepListed(s: State, a: Action, r: Roster)
    requires Inv(s) && Enabled(s, a) && Listed(s, r)
    ensures Listed(Apply(s, a), RosterAfter(s, a, r))
  {
    hide Inv, Listed, Apply, Enabled, RosterAfter;
    match a
    case ContextSwitch => SwitchListed(s, r);
    case CollateralRelease => ReleaseListed(s, r);
    case CollateralBlock(c) => ParkListed(s, c, r);
    case BlockCommit => CommitListed(s, r);
    case BlockResume => ResumeListed(s, r);
    case _ => LocalListed(s, a, r);
  }

  lemma {:induction false} RunListed(s: State, steps: seq<Action>, t: State, r: Roster)
    requires Inv(s) && Runs(s, steps, t) && Listed(s, r)
    ensures Listed(t, RosterBy(s, steps, r))
    decreases |steps|
  {
    if steps != [] {
      StepListed(s, steps[0], r);
      StepKeeps(s, steps[0]);
      hide Inv, Apply, Enabled, RosterAfter, Listed;
      RunListed(Apply(s, steps[0]), steps[1..], t, RosterAfter(s, steps[0], r));
    }
  }

  /** In every run both lists are in the order of arrival, and the finished coroutines are those that
      have handed over to a released coroutine or waiter. */
  lemma ListsInOrderOfArrival(steps: seq<Action>, t: State)
    requires Runs(START, steps, t)
    ensures Listed(t, RosterBy(START, steps, Roster([1], {}, [])))
  {
    StartInv();
    assert Listed(START, Roster([1], {}, []));
    hide Inv, Listed, RosterBy, Runs;
    RunListed(START, steps, t, Roster([1], {}, []));
  }

  /** Of several coroutines blocked on a port a release finds the one that arrived first, and it finds
      one if there is any. */
  lemma ReleaseFindsOldest(s: State, c: nat, port: Pointer)
    requires Enabled(s, Release(c, port))
    ensures var t := Apply(s, Release(c, port));
      if t.switches == s.switches then forall id :: id in s.coroutines ==> s.At(id).port != port
      else exists i :: 0 <= i < |s.coroutines| && t.switches == s.switches + [s.coroutines[i]]
                       && s.At(s.coroutines[i]).port == port
                       && forall k :: 0 <= k < i ==> s.At(s.coroutines[k]).port != port
  {
    var t, i := Apply(s, Release(c, port)), s.FindBlocked(port);
    forall k | 0 <= k < i ensures s.At(s.coroutines[k]).port != port {
      assert s.coroutines[k] in s.coroutines;
    }
    if i < |s.coroutines| {
      assert |t.switches| == |s.switches| + 1;
    }
  }
}
