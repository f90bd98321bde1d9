/** The loop of `collateral_release_skip_block` (runtime/c++/pump.cc:506-530), step by step. */
module PumpScan {
  import opened Sequences
  import opened PumpModel
  import opened PumpProofs

  function Members(ids: seq<nat>): set<nat> {
    set id | id in ids
  }

  lemma CoClearOne(co: map<nat, Coroutine>, ids: seq<nat>, id: nat)
    requires id in co && id !in ids
    ensures Cleared(co, Members(ids))[id := co[id].(component := 0, port := 0)]
         == Cleared(co, Members(ids + [id]))
  {
  }

  /** `t` is `s` after the reversal and after `seen` waiters have been looked at, `i` of which
      were left in the list and `moved` out of it. */
  ghost predicate Scanned(s: State, c: nat, seen: nat, i: nat, t: State, moved: bool) {
    var ws, out := Reverse(s.collateral), s.Relayable(c);
    seen <= |ws|
    && i == |Without(ws[..seen], out)|
    && t == Spliced(s, Without(ws[..seen], out) + ws[seen..], Within(ws[..seen], out))
    && (moved <==> Within(ws[..seen], out) != [])
  }

  function Spliced(s: State, rest: seq<nat>, moved: seq<nat>): State {
    s.(collateral := rest, coroutines := s.coroutines + moved, co := Cleared(s.co, Members(moved)))
  }

  /** The loop body moves the waiter at `i` to the coroutines. */
  function Take(t: State, i: nat): State
    requires i < |t.collateral| && t.collateral[i] in t.co
  {
    var id := t.collateral[i];
    t.(co := t.co[id := t.co[id].(component := 0, port := 0)],
       coroutines := t.coroutines + [id], collateral := RemoveAt(t.collateral, i))
  }

  lemma TakeSplices(s: State, rest: seq<nat>, moved: seq<nat>, i: nat)
    requires i < |rest| && rest[i] in s.co && rest[i] !in moved
    ensures Take(Spliced(s, rest, moved), i) == Spliced(s, RemoveAt(rest, i), moved + [rest[i]])
    ensures Spliced(s, rest, moved).co[rest[i]] == s.co[rest[i]]
  {
    CoClearOne(s.co, moved, rest[i]);
    assert s.coroutines + moved + [rest[i]] == s.coroutines + (moved + [rest[i]]);
  }

  lemma ScanStart(s: State, c: nat)
    ensures Scanned(s, c, 0, 0, s.(collateral := Reverse(s.collateral)), false)
  {
    var ws := Reverse(s.collateral);
    assert ws[..0] == [] && ws[0..] == ws;
    assert Cleared(s.co, Members([])) == s.co;
    assert s.coroutines + [] == s.coroutines;
  }

  lemma ScanStep(s: State, c: nat, seen: nat, i: nat, t: State, moved: bool)
    requires Lists(s) && Scanned(s, c, seen, i, t, moved) && i < |t.collateral|
    ensures t.collateral[i] in t.co
    ensures var id := t.collateral[i];
      if t.co[id].component == c && t.co[id].port in t.unblocked then
        Scanned(s, c, seen + 1, i, Take(t, i), true)
      else Scanned(s, c, seen + 1, i + 1, t, moved)
  {
    var ws, out := Reverse(s.collateral), s.Relayable(c);
    ReverseNoDup(s.collateral);
    ReverseMembers(s.collateral);
    SpliceStep(ws, seen, out, t.collateral, i);
    assert ws[seen] in ws;
    TakeSplices(s, t.collateral, Within(ws[..seen], out), i);
  }

  /** Reversing back leaves the others in their order, and the relayed ones newest first. */
  lemma ScanEnd(s: State, c: nat, seen: nat, i: nat, t: State, moved: bool)
    requires Scanned(s, c, seen, i, t, moved) && i >= |t.collateral|
    ensures t.(collateral := Reverse(t.collateral)) == Relay(s, s.Relayable(c))
    ensures moved <==> Within(s.collateral, s.Relayable(c)) != []
  {
    var ws, out := Reverse(s.collateral), s.Relayable(c);
    assert seen == |ws| && ws[..seen] == ws;
    ReverseMembers(s.collateral);
    WithoutReverse(s.collateral, out);
    WithinReverse(s.collateral, out);
    ReverseTwice(Without(s.collateral, out));
    assert t.collateral == Reverse(Without(s.collateral, out));
    assert Members(Within(ws, out)) == out;
    assert |Within(ws, out)| == |Within(s.collateral, out)|;
  }

  /** `t` is `s` after `remove_finished_coroutines` has looked at `seen` coroutines. */
  ghost predicate Swept(s: State, seen: nat, i: nat, t: State) {
    && seen <= |s.coroutines|
    && i == |Without(s.coroutines[..seen], s.Finished())|
    && t == Dropped(s, Without(s.coroutines[..seen], s.Finished()) + s.coroutines[seen..],
                    Within(s.coroutines[..seen], s.Finished()))
  }

  function Dropped(s: State, rest: seq<nat>, gone: seq<nat>): State {
    s.(coroutines := rest, co := s.co - Members(gone), where := s.where - Members(gone))
  }

  lemma DropOne(s: State, rest: seq<nat>, gone: seq<nat>, i: nat)
    requires i < |rest| && rest[i] in s.co && rest[i] !in gone
    ensures var t, id := Dropped(s, rest, gone), rest[i];
      && t.(coroutines := RemoveAt(rest, i), co := t.co - {id}, where := t.where - {id})
         == Dropped(s, RemoveAt(rest, i), gone + [id])
      && id in t.co && t.co[id] == s.co[id]
  {
    assert Members(gone + [rest[i]]) == Members(gone) + {rest[i]};
    assert s.co - Members(gone) - {rest[i]} == s.co - Members(gone + [rest[i]]);
    assert s.where - Members(gone) - {rest[i]} == s.where - Members(gone + [rest[i]]);
  }

  lemma SweepStart(s: State)
    ensures Swept(s, 0, 0, s)
  {
    assert s.coroutines[..0] == [] && s.coroutines[0..] == s.coroutines;
    assert s.co - Members([]) == s.co && s.where - Members([]) == s.where;
  }

  lemma SweepStep(s: State, seen: nat, i: nat, t: State)
    requires Lists(s) && Swept(s, seen, i, t) && i < |t.coroutines|
    ensures t.coroutines[i] in t.co
    ensures var id := t.coroutines[i];
      if t.co[id].finished then
        Swept(s, seen + 1, i, t.(coroutines := RemoveAt(t.coroutines, i), co := t.co - {id},
                                 where := t.where - {id}))
      else Swept(s, seen + 1, i + 1, t)
  {
    var cs, gone := s.coroutines, s.Finished();
    SpliceStep(cs, seen, gone, t.coroutines, i);
    assert cs[seen] in cs;
    DropOne(s, t.coroutines, Within(cs[..seen], gone), i);
  }

  lemma SweepEnd(s: State, seen: nat, i: nat, t: State)
    requires Lists(s) && Swept(s, seen, i, t) && i >= |t.coroutines|
    ensures t == s.(coroutines := Without(s.coroutines, s.Finished()), co := s.co - s.Finished(),
                    where := s.where - s.Finished())
  {
    assert s.coroutines[..seen] == s.coroutines;
    assert Members(Within(s.coroutines, s.Finished())) == s.Finished();
  }
}
