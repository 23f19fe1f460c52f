/** The registry of open panels (internal/bot/state.go, panelRegistry). Times are in seconds.
    Among entries of the same age any may be the one evicted first: the map is walked in no
    fixed order, so a run is a relation.
 */
module Panels {
  import opened Wrappers

  const PANEL_TTL := 48 * 3600
  const PANEL_MAX := 2048

  datatype MsgRef = MsgRef(chat: int, message: int)

  datatype Entry = Entry(command: MsgRef, at: int)

  type Registry = map<MsgRef, Entry>

  predicate Expired(e: Entry, now: int) {
    now - e.at > PANEL_TTL
  }

  function Unexpired(m: Registry, now: int): Registry {
    map k | k in m && !Expired(m[k], now) :: m[k]
  }

  predicate SubMap(a: Registry, b: Registry) {
    forall k :: k in a ==> k in b && a[k] == b[k]
  }

  /** No entry removed is younger than one kept. */
  predicate OldestGone(before: Registry, after: Registry) {
    forall k, j :: k in before && k !in after && j in after ==> before[k].at <= after[j].at
  }

  /** What prune may leave: the entries that have not expired, but never as many as the
      registry holds; those that must go for it are the oldest. */
  predicate Pruned(m: Registry, now: int, m': Registry) {
    var live := Unexpired(m, now);
    && SubMap(m', live)
    && |m'| == (if |live| < PANEL_MAX then |live| else PANEL_MAX - 1)
    && OldestGone(live, m')
  }

  ghost predicate Registered(m: Registry, panel: MsgRef, e: Entry, m': Registry) {
    if |m| < PANEL_MAX then m' == m[panel := e]
    else exists p :: Pruned(m, e.at, p) && m' == p[panel := e]
  }

  function TakeAnswer(m: Registry, panel: MsgRef, now: int): Option<MsgRef> {
    if panel in m && !Expired(m[panel], now) then Some(m[panel].command) else None
  }

  class PanelRegistry {
    var m: Registry

    constructor ()
      ensures m == map[]
    {
      m := map[];
    }

    method Register(panel: MsgRef, command: MsgRef, now: int)
      modifies this
      ensures Registered(old(m), panel, Entry(command, now), m)
    {
      if |m| >= PANEL_MAX {
        Prune(now);
      }
      m := m[panel := Entry(command, now)];
    }

    /** The command message of a panel, which is forgotten whether it had expired or not. */
    method Take(panel: MsgRef, now: int) returns (command: Option<MsgRef>)
      modifies this
      ensures command == TakeAnswer(old(m), panel, now)
      ensures command == if panel in old(m) && now <= old(m)[panel].at + PANEL_TTL then Some(old(m)[panel].command)
                         else None
      ensures m == old(m) - {panel}
    {
      if panel !in m {
        return None;
      }
      var e := m[panel];
      m := m - {panel};
      if now - e.at > PANEL_TTL {
        return None;
      }
      return Some(e.command);
    }

    method DropExpired(now: int)
      modifies this
      ensures m == Unexpired(old(m), now)
    {
      var keys := m.Keys;
      while keys != {}
        invariant keys <= old(m).Keys
        invariant forall k :: k in m <==> k in old(m) && (k in keys || !Expired(old(m)[k], now))
        invariant forall k :: k in m ==> m[k] == old(m)[k]
        decreases |keys|
      {
        var k :| k in keys;
        if now - m[k].at > PANEL_TTL {
          m := m - {k};
        }
        keys := keys - {k};
      }
      assert m == Unexpired(old(m), now);
    }

    /** A key none of whose fellows is older. */
    method Oldest() returns (oldest: MsgRef)
      requires m != map[]
      ensures oldest in m && forall k :: k in m ==> m[oldest].at <= m[k].at
    {
      var keys := m.Keys;
      var first := true;
      var at := 0;
      oldest :| oldest in m;
      while keys != {}
        invariant keys <= m.Keys && oldest in m
        invariant first ==> keys == m.Keys
        invariant !first ==> at == m[oldest].at && forall k :: k in m && k !in keys ==> at <= m[k].at
        decreases |keys|
      {
        var k :| k in keys;
        if first || m[k].at < at {
          oldest, at, first := k, m[k].at, false;
        }
        keys := keys - {k};
      }
    }

    method Prune(now: int)
      modifies this
      ensures Pruned(old(m), now, m)
    {
      DropExpired(now);
      ghost var live := m;
      while |m| >= PANEL_MAX
        invariant SubMap(m, live) && OldestGone(live, m)
        invariant |m| == |live| || (|live| >= PANEL_MAX && |m| >= PANEL_MAX - 1)
        decreases |m|
      {
        var oldest := Oldest();
        OneGone(live, m, oldest);
        m := m - {oldest};
      }
    }
  }

  lemma OneGone(live: Registry, m: Registry, oldest: MsgRef)
    requires SubMap(m, live) && OldestGone(live, m)
    requires oldest in m && forall k :: k in m ==> m[oldest].at <= m[k].at
    ensures SubMap(m - {oldest}, live) && OldestGone(live, m - {oldest})
    ensures |m - {oldest}| == |m| - 1
  {
    assert (m - {oldest}).Keys == m.Keys - {oldest};
  }

  // ----- Against a registry that drops nothing -----

  datatype Event = Register(panel: MsgRef, command: MsgRef, now: int) | Take(panel: MsgRef, now: int)

  ghost predicate Step(m: Registry, e: Event, m': Registry) {
    match e
    case Register(panel, command, now) => Registered(m, panel, Entry(command, now), m')
    case Take(panel, _) => m' == m - {panel}
  }

  /** The registry can hold m after these events. */
  ghost predicate Reaches(events: seq<Event>, m: Registry)
    decreases |events|
  {
    if events == [] then m == map[]
    else
      exists before {:trigger Step(before, events[|events| - 1], m)} ::
        Reaches(events[..|events| - 1], before) && Step(before, events[|events| - 1], m)
  }

  /** What an event does to a map that drops nothing. */
  function Follow(all: Registry, e: Event): Registry {
    match e
    case Register(panel, command, now) => all[panel := Entry(command, now)]
    case Take(panel, _) => all - {panel}
  }

  function Unbounded(events: seq<Event>): Registry
    decreases |events|
  {
    if events == [] then map[]
    else Follow(Unbounded(events[..|events| - 1]), events[|events| - 1])
  }

  predicate Clocked(events: seq<Event>) {
    forall i, j :: 0 <= i < j < |events| ==> events[i].now <= events[j].now
  }

  /** Fewer panels than the registry holds are unexpired whenever one is registered. */
  predicate NeverCrowded(events: seq<Event>) {
    forall n :: 0 <= n < |events| && events[n].Register? ==>
      |Unexpired(Unbounded(events[..n]), events[n].now)| < PANEL_MAX
  }

  /** The registry has dropped only what has expired. */
  predicate DroppedOnlyExpired(m: Registry, all: Registry, now: int) {
    SubMap(m, all) && forall k {:trigger k in all} :: k in all && k !in m ==> Expired(all[k], now)
  }

  lemma {:induction false} SizeBounded(events: seq<Event>, m: Registry)
    requires Reaches(events, m)
    ensures |m| <= PANEL_MAX
    decreases |events|
  {
    if events != [] {
      var before :| Reaches(events[..|events| - 1], before) && Step(before, events[|events| - 1], m);
      SizeBounded(events[..|events| - 1], before);
      if events[|events| - 1].Take? {
        SubsetSize(m.Keys, before.Keys);
      }
    }
  }

  lemma SubsetSize(a: set<MsgRef>, b: set<MsgRef>)
    requires a <= b
    ensures |a| <= |b| && (|a| == |b| ==> a == b)
  {
    assert b == a + (b - a);
  }

  lemma PrunedKeepsLive(m: Registry, all: Registry, now: int, p: Registry)
    requires DroppedOnlyExpired(m, all, now) && |Unexpired(all, now)| < PANEL_MAX
    requires Pruned(m, now, p)
    ensures DroppedOnlyExpired(p, all, now)
  {
    assert Unexpired(m, now) == Unexpired(all, now);
    SubsetSize(p.Keys, Unexpired(m, now).Keys);
    assert p.Keys == Unexpired(all, now).Keys;
  }

  lemma StepAgrees(m: Registry, all: Registry, e: Event, m': Registry)
    requires DroppedOnlyExpired(m, all, e.now) && Step(m, e, m')
    requires e.Register? ==> |Unexpired(all, e.now)| < PANEL_MAX
    ensures DroppedOnlyExpired(m', Follow(all, e), e.now)
  {
    if e.Register? && |m| >= PANEL_MAX {
      var p :| Pruned(m, e.now, p) && m' == p[e.panel := Entry(e.command, e.now)];
      PrunedKeepsLive(m, all, e.now, p);
    }
  }

  lemma {:induction false} AgreesSoFar(events: seq<Event>, m: Registry, now: int)
    requires Reaches(events, m) && Clocked(events) && NeverCrowded(events)
    requires forall e :: e in events ==> e.now <= now
    ensures DroppedOnlyExpired(m, Unbounded(events), now)
    decreases |events|
  {
    if events != [] {
      var n := |events| - 1;
      var prior, e := events[..n], events[n];
      var before :| Reaches(prior, before) && Step(before, e, m);
      forall i | 0 <= i < n && prior[i].Register?
        ensures |Unexpired(Unbounded(prior[..i]), prior[i].now)| < PANEL_MAX
      {
        assert prior[..i] == events[..i];
      }
      AgreesSoFar(prior, before, e.now);
      StepAgrees(before, Unbounded(prior), e, m);
    }
  }

  /** While fewer than PANEL_MAX panels are unexpired, take answers as a map that drops
      nothing but remembers when each entry expires. */
  lemma TakesLikeUnbounded(events: seq<Event>, m: Registry, panel: MsgRef, now: int)
    requires Reaches(events, m) && Clocked(events) && NeverCrowded(events)
    requires forall e :: e in events ==> e.now <= now
    ensures TakeAnswer(m, panel, now) == TakeAnswer(Unbounded(events), panel, now)
  {
    AgreesSoFar(events, m, now);
  }

  /** A panel in the registry was registered and not taken since, crowded or not. */
  lemma {:induction false} NeverInvents(events: seq<Event>, m: Registry)
    requires Reaches(events, m)
    ensures SubMap(m, Unbounded(events))
    decreases |events|
  {
    if events != [] {
      var before :| Reaches(events[..|events| - 1], before) && Step(before, events[|events| - 1], m);
      NeverInvents(events[..|events| - 1], before);
    }
  }

  /** The i-th event registered the panel, and it has not been registered or taken since. */
  predicate OpenSince(events: seq<Event>, i: nat, panel: MsgRef) {
    && i < |events| && events[i].Register? && events[i].panel == panel
    && forall j :: i < j < |events| ==> events[j].panel != panel
  }

  lemma {:induction false} HeldIsOpen(events: seq<Event>, panel: MsgRef) returns (i: nat)
    requires panel in Unbounded(events)
    ensures OpenSince(events, i, panel) && Unbounded(events)[panel] == Entry(events[i].command, events[i].now)
    decreases |events|
  {
    var n := |events| - 1;
    i := n;
    if events[n].panel != panel {
      i := HeldIsOpen(events[..n], panel);
      assert forall j :: i < j < n ==> events[j] == events[..n][j];
    }
  }

  lemma {:induction false} OpenIsHeld(events: seq<Event>, i: nat, panel: MsgRef)
    requires OpenSince(events, i, panel)
    ensures panel in Unbounded(events) && Unbounded(events)[panel] == Entry(events[i].command, events[i].now)
    decreases |events|
  {
    var n := |events| - 1;
    if i < n {
      assert forall j :: i < j < n ==> events[..n][j] == events[j];
      OpenIsHeld(events[..n], i, panel);
    }
  }

  /** While the registry is not crowded, a press gets the command its panel was last registered
      for, exactly when it has not been taken since and 48 hours have not passed. */
  lemma TakeGivesWhatIsOpen(events: seq<Event>, m: Registry, panel: MsgRef, now: int, command: MsgRef)
    requires Reaches(events, m) && Clocked(events) && NeverCrowded(events)
    requires forall e :: e in events ==> e.now <= now
    ensures TakeAnswer(m, panel, now) == Some(command) <==>
              exists i: nat :: OpenSince(events, i, panel) && events[i].command == command
                               && now <= events[i].now + 48 * 3600
  {
    hide Reaches, Unbounded;
    TakesLikeUnbounded(events, m, panel, now);
    if panel in Unbounded(events) {
      var i := HeldIsOpen(events, panel);
    }
    forall i: nat | OpenSince(events, i, panel)
      ensures panel in Unbounded(events) && Unbounded(events)[panel] == Entry(events[i].command, events[i].now)
    {
      OpenIsHeld(events, i, panel);
    }
  }
}
