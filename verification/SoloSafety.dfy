/** What holds while one process runs the scheduler, so that the group lock leaves each
    group one run at a time: a day reported done is settled, recovery leaves no row
    in progress behind, and the messages a retry needs are kept.
 */
module SoloSafety {
  import opened QuoteTable
  import opened Telegram
  import opened Scheduler
  import opened QuoteSafety
  import DayWindow

  ghost predicate OneProcess(events: seq<Event>) {
    forall i :: 0 <= i < |events| && events[i].Begin? ==> events[i].process == 0
  }

  predicate HasRow(s: State, key: Key, id: nat) {
    key in s.quotes && s.quotes[key].id == id
  }

  /** Points reached only while the day has no row. */
  predicate BeforeRow(pc: Pc) {
    || pc.Counting? || pc.ClearingSmallDay? || pc.Listing? || pc.ClearingTagged?
    || pc.Evaluating? || pc.Creating?
  }

  /** Points past a successful recoverStale. */
  predicate Recovered(pc: Pc) {
    !pc.Entry? && !pc.WritingOff? && !pc.Finished?
  }

  /** A row still in progress that was last changed before cut. */
  predicate Stuck(t: Table, key: Key, group: int, cut: int) {
    key in t && key.group == group && InProgress(t[key].status) && t[key].changedAt < cut
  }

  /** Every message the run read is still stored, or past retention. */
  ghost predicate Kept(s: State, key: Key) {
    forall m :: m in Listed(s, key) ==> m in Window(s, key) || m.createdAt < s.now - MESSAGE_RETENTION
  }

  predicate Retriable(st: Status) {
    st == Publishing || st == PublishFailed
  }

  ghost predicate RowKept(s: State, key: Key) {
    key in s.quotes && Retriable(s.quotes[key].status) ==> Kept(s, key)
  }

  predicate Settled(s: State, key: Key) {
    key !in s.quotes || IsTerminal(s.quotes[key])
  }

  /** What a worker's program point says of its day's row. */
  predicate PointOK(s: State, me: Worker) {
    var key, pc := me.key, me.pc;
    && me.process == 0
    && me.cut <= s.now
    && (!pc.Entry? && !pc.Finished? ==> me.group.agreement)
    && (BeforeRow(pc) ==> key !in s.quotes)
    && (pc.Deleting? ==> HasRow(s, key, pc.id))
    && (pc.Rereading? ==> key in s.quotes && s.quotes[key].status == pc.created)
    && (pc.Sending? || (pc.Recording? && pc.outcome == PublishFailed) ==>
          key in s.quotes && s.quotes[key].status == Publishing)
    && (pc.ClearingBoring? || pc.Clearing? ==> key in s.quotes && s.quotes[key].status in {Published, SkippedBoring})
    && (pc == Finished(true) && me.group.agreement ==> Settled(s, key))
  }

  ghost predicate RecoveryOK(s: State, me: Worker) {
    && (Recovered(me.pc) ==> forall k :: !Stuck(s.quotes, k, me.key.group, me.cut))
    && (me.pc.WritingOff? ==>
          && (forall k :: Stuck(s.quotes, k, me.key.group, me.cut) ==>
                Snapshot(s.quotes[k].id, s.quotes[k].status) in me.pc.stale)
          && (forall p :: p in me.pc.stale ==> p.id in s.issued && s.issued[p.id].group == me.key.group))
  }

  ghost predicate AloneOK(s: State, w: nat) {
    w in s.workers ==>
      var me := s.workers[w];
      && PointOK(s, me)
      && RecoveryOK(s, me)
      && (me.pc.Evaluating? || me.pc.Creating? ==> Kept(s, me.key))
  }

  /** The group lock: no two workers of one group. */
  ghost predicate Exclusive(s: State) {
    forall v: nat, w: nat ::
      (v in s.workers && w in s.workers && s.workers[v].key.group == s.workers[w].key.group) ==> v == w
  }

  ghost predicate SoloSafe(s: State) {
    && Safe(s)
    && Exclusive(s)
    && (forall w: nat :: AloneOK(s, w))
    && (forall k :: RowKept(s, k))
  }

  // ----- What a run does stays within its group -----

  predicate SameAt(s: State, s': State, key: Key) {
    && (key in s.quotes <==> key in s'.quotes)
    && (key in s.quotes ==> s'.quotes[key] == s.quotes[key])
    && Window(s', key) == Window(s, key)
    && Listed(s', key) == Listed(s, key)
  }

  ghost predicate OthersUntouched(s: State, s': State, group: int) {
    && s'.now == s.now
    && (forall k: Key :: k.group != group ==> SameAt(s, s', k))
    && (forall id: nat :: id in s.issued ==> id in s'.issued && s'.issued[id] == s.issued[id])
  }

  lemma BystanderAlone(s: State, s': State, group: int, v: nat)
    requires OthersUntouched(s, s', group)
    requires v in s.workers && v in s'.workers && s'.workers[v] == s.workers[v]
    requires s.workers[v].key.group != group
    requires AloneOK(s, v)
    ensures AloneOK(s', v)
  {
    var me := s.workers[v];
    assert SameAt(s, s', me.key);
    forall k ensures Stuck(s'.quotes, k, me.key.group, me.cut) == Stuck(s.quotes, k, me.key.group, me.cut) {
      assert k.group != group ==> SameAt(s, s', k);
    }
    forall k | Stuck(s'.quotes, k, me.key.group, me.cut) ensures s'.quotes[k] == s.quotes[k] {
      assert SameAt(s, s', k);
    }
  }

  /** A step of w is fine if it stays within its group, and leaves the group's days and w
      as they should be. */
  lemma StepAlone(s: State, s': State, w: nat)
    requires SoloSafe(s) && Safe(s') && w in s.workers
    requires OthersSame(s, s', w) && (w in s'.workers ==> s'.workers[w].key == s.workers[w].key)
    requires OthersUntouched(s, s', s.workers[w].key.group)
    requires forall k: Key :: k.group == s.workers[w].key.group ==> RowKept(s', k)
    requires AloneOK(s', w)
    ensures SoloSafe(s')
  {
    var group := s.workers[w].key.group;
    forall v: nat ensures AloneOK(s', v) {
      assert AloneOK(s, v);
      if v != w && v in s.workers {
        BystanderAlone(s, s', group, v);
      }
    }
    forall k ensures RowKept(s', k) {
      assert RowKept(s, k);
      assert k.group != group ==> SameAt(s, s', k);
    }
  }

  // ----- Steps that change, of all days, at most the worker's own -----

  ghost predicate OwnDayOnly(s: State, s': State, w: nat) {
    && w in s.workers
    && OthersSame(s, s', w)
    && s'.now == s.now
    && (forall k :: k != s.workers[w].key ==> SameAt(s, s', k))
    && (forall id: nat :: id in s.issued ==> id in s'.issued && s'.issued[id] == s.issued[id])
  }

  lemma OwnDayAlone(s: State, s': State, w: nat)
    requires SoloSafe(s) && Safe(s') && OwnDayOnly(s, s', w)
    requires var key := s.workers[w].key;
             && RowKept(s', key)
             && (w in s'.workers ==>
                   var me := s'.workers[w];
                   && me.key == key && me.cut == s.workers[w].cut
                   && PointOK(s', me)
                   && !me.pc.WritingOff?
                   && (Recovered(me.pc) ==>
                         Recovered(s.workers[w].pc) && !Stuck(s'.quotes, key, key.group, me.cut))
                   && (me.pc.Evaluating? || me.pc.Creating? ==> Kept(s', key)))
    ensures SoloSafe(s')
  {
    var key := s.workers[w].key;
    assert AloneOK(s, w);
    forall k: Key | k.group == key.group ensures RowKept(s', k) {
      assert RowKept(s, k);
      assert k != key ==> SameAt(s, s', k);
    }
    if w in s'.workers && Recovered(s'.workers[w].pc) {
      forall k ensures !Stuck(s'.quotes, k, key.group, s'.workers[w].cut) {
        assert !Stuck(s.quotes, k, key.group, s.workers[w].cut);
        assert k != key ==> SameAt(s, s', k);
      }
    }
    StepAlone(s, s', w);
  }

  predicate SameData(s: State, s': State) {
    && s'.now == s.now && s'.quotes == s.quotes && s'.messages == s.messages && s'.listed == s.listed
    && s'.issued == s.issued
  }

  /** A step that leaves the table and the messages alone, and moves the worker to a point
      its day allows. */
  lemma MoveAlone(s: State, s': State, w: nat, pc: Pc)
    requires SoloSafe(s) && w in s.workers && Safe(s') && SameData(s, s')
    requires s'.workers == s.workers[w := s.workers[w].(pc := pc)]
    requires PointOK(s, s.workers[w].(pc := pc)) && !pc.WritingOff?
    requires Recovered(pc) ==> Recovered(s.workers[w].pc)
    requires pc.Evaluating? || pc.Creating? ==> Kept(s, s.workers[w].key)
    ensures SoloSafe(s')
  {
    hide Safe, Exclusive;
    var key := s.workers[w].key;
    assert AloneOK(s, w) && RowKept(s, key);
    assert !Stuck(s.quotes, key, key.group, s.workers[w].cut) || !Recovered(pc);
    OwnDayAlone(s, s', w);
  }

  lemma GotoAlone(s: State, w: nat, pc: Pc)
    requires SoloSafe(s) && w in s.workers && Safe(Goto(s, w, pc))
    requires PointOK(s, s.workers[w].(pc := pc)) && !pc.WritingOff?
    requires Recovered(pc) ==> Recovered(s.workers[w].pc)
    requires pc.Evaluating? || pc.Creating? ==> Kept(s, s.workers[w].key)
    ensures SoloSafe(Goto(s, w, pc))
  {
    MoveAlone(s, Goto(s, w, pc), w, pc);
  }

  lemma LookUpAlone(s: State, w: nat, c: Choice)
    requires SoloSafe(s) && w in s.workers && s.workers[w].pc.LookingUp?
    ensures SoloSafe(LookUp(s, w, c))
  {
    assert AloneOK(s, w);
    hide SoloSafe, Safe;
    LookUpKeeps(s, w, c);
    GotoAlone(s, w, LookUp(s, w, c).workers[w].pc);
  }

  lemma CountAlone(s: State, w: nat, c: Choice)
    requires SoloSafe(s) && w in s.workers && s.workers[w].pc.Counting?
    ensures SoloSafe(CountWindow(s, w, c))
  {
    assert AloneOK(s, w);
    hide SoloSafe, Safe;
    CountKeeps(s, w, c);
    GotoAlone(s, w, CountWindow(s, w, c).workers[w].pc);
  }

  lemma EvaluateAlone(s: State, w: nat, c: Choice)
    requires SoloSafe(s) && w in s.workers && s.workers[w].pc.Evaluating?
    ensures SoloSafe(Evaluate(s, w, c))
  {
    assert AloneOK(s, w);
    hide SoloSafe, Safe;
    EvaluateKeeps(s, w, c);
    GotoAlone(s, w, Evaluate(s, w, c).workers[w].pc);
  }

  lemma ListIs(s: State, w: nat, c: Choice)
    requires w in s.workers
    ensures var s', key := ListWindow(s, w, c), s.workers[w].key;
            && s'.now == s.now && s'.messages == s.messages && s'.issued == s.issued
            && s'.listed == (if c.acknowledged then s.listed[key := Window(s, key)] else s.listed)
            && w in s'.workers && s'.workers == s.workers[w := s.workers[w].(pc := s'.workers[w].pc)]
            && var pc := s'.workers[w].pc;
               || pc.Finished? || pc.ClearingTagged? || pc.ClearingSmallDay?
               || (pc.Evaluating? && c.acknowledged)
  {
    hide Eligible, Window;
  }

  lemma ListAlone(s: State, w: nat, c: Choice)
    requires SoloSafe(s) && w in s.workers && s.workers[w].pc.Listing?
    ensures SoloSafe(ListWindow(s, w, c))
  {
    assert AloneOK(s, w);
    ListKeeps(s, w, c);
    hide SoloSafe, Safe, Eligible, ListWindow;
    ListIs(s, w, c);
    OwnDayAlone(s, ListWindow(s, w, c), w);
  }

  lemma RereadAlone(s: State, w: nat, c: Choice)
    requires SoloSafe(s) && w in s.workers && s.workers[w].pc.Rereading?
    ensures SoloSafe(Reread(s, w, c))
  {
    assert AloneOK(s, w);
    RereadKeeps(s, w, c);
    GotoAlone(s, w, Reread(s, w, c).workers[w].pc);
  }

  /** Clearing the window of a day that needs no retry. */
  lemma ClearedAlone(s: State, s': State, w: nat, c: Choice, done: bool)
    requires SoloSafe(s) && w in s.workers && Safe(s')
    requires s' == Goto(ClearWindow(s, s.workers[w].key, c), w, Finished(done))
    requires var pc := s.workers[w].pc;
             pc.ClearingSmallDay? || pc.ClearingTagged? || pc.ClearingBoring? || pc.Clearing?
    ensures SoloSafe(s')
  {
    hide Safe, Exclusive;
    var key := s.workers[w].key;
    assert AloneOK(s, w);
    forall k | k != key ensures SameAt(s, s', k) {
      assert Window(s', k) == Window(s, k);
    }
    OwnDayAlone(s, s', w);
  }

  lemma ClearDayAlone(s: State, w: nat, c: Choice)
    requires SoloSafe(s) && w in s.workers
    requires var pc := s.workers[w].pc; pc.ClearingSmallDay? || pc.ClearingTagged? || pc.ClearingBoring?
    ensures SoloSafe(ClearDay(s, w, c))
  {
    ClearKeeps(s, w, c);
    ClearedAlone(s, ClearDay(s, w, c), w, c, c.acknowledged);
  }

  lemma ClearAlone(s: State, w: nat, c: Choice)
    requires SoloSafe(s) && w in s.workers && s.workers[w].pc.Clearing?
    ensures SoloSafe(Clear(s, w, c))
  {
    ClearKeeps(s, w, c);
    ClearedAlone(s, Clear(s, w, c), w, c, true);
  }

  lemma ReleaseAlone(s: State, w: nat)
    requires SoloSafe(s) && w in s.workers && s.workers[w].pc.Finished?
    ensures SoloSafe(Release(s, w))
  {
    ReleaseKeeps(s, w);
    assert RowKept(s, s.workers[w].key);
    OwnDayAlone(s, Release(s, w), w);
  }

  lemma SendAlone(s: State, w: nat, c: Choice)
    requires SoloSafe(s) && w in s.workers && s.workers[w].pc.Sending?
    ensures SoloSafe(Send(s, w, c))
  {
    assert AloneOK(s, w);
    SendKeeps(s, w, c);
    if Possible(c.attempt) {
      MoveAlone(s, Send(s, w, c), w, Send(s, w, c).workers[w].pc);
    }
  }

  lemma SendNoticeAlone(s: State, w: nat, c: Choice)
    requires SoloSafe(s) && w in s.workers && s.workers[w].pc.SendingNotice?
    ensures SoloSafe(SendNotice(s, w, c))
  {
    assert AloneOK(s, w);
    SendNoticeKeeps(s, w, c);
    if Possible(c.attempt) {
      MoveAlone(s, SendNotice(s, w, c), w, SendNotice(s, w, c).workers[w].pc);
    }
  }

  // ----- Steps that write -----

  /** A row is changed only by the worker of its day. */
  ghost predicate OwnRowOnly(t: Table, t': Table, key: Key) {
    forall k :: k != key ==> (k in t <==> k in t') && (k in t ==> t'[k] == t[k])
  }

  lemma WriteAlone(s: State, s': State, w: nat, pc: Pc)
    requires SoloSafe(s) && w in s.workers && Safe(s')
    requires s'.now == s.now && s'.messages == s.messages && s'.listed == s.listed
    requires forall id: nat :: id in s.issued ==> id in s'.issued && s'.issued[id] == s.issued[id]
    requires s'.workers == s.workers[w := s.workers[w].(pc := pc)]
    requires OwnRowOnly(s.quotes, s'.quotes, s.workers[w].key)
    requires PointOK(s', s.workers[w].(pc := pc)) && !pc.WritingOff? && !pc.Evaluating? && !pc.Creating?
    requires RowKept(s', s.workers[w].key)
    requires var key := s.workers[w].key;
             Recovered(pc) ==> Recovered(s.workers[w].pc) && !Stuck(s'.quotes, key, key.group, s.workers[w].cut)
    ensures SoloSafe(s')
  {
    OwnDayAlone(s, s', w);
  }

  /** The statement addresses a row by its id; the id is the worker's own. */
  lemma OwnId(s: State, w: nat, id: nat)
    requires SoloSafe(s) && w in s.workers && HasRow(s, s.workers[w].key, id)
    ensures forall k :: k in s.quotes && s.quotes[k].id == id ==> k == s.workers[w].key
  {
    forall k | k in s.quotes && s.quotes[k].id == id ensures k == s.workers[w].key {
      assert IssuedOK(s, k) && IssuedOK(s, s.workers[w].key);
    }
  }

  lemma DeleteAlone(s: State, w: nat, c: Choice)
    requires SoloSafe(s) && w in s.workers && s.workers[w].pc.Deleting?
    ensures SoloSafe(DeleteFailed(s, w, c))
  {
    assert AloneOK(s, w) && RowKept(s, s.workers[w].key);
    var id := s.workers[w].pc.id;
    DeleteKeeps(s, w, c);
    OwnId(s, w, id);
    WriteAlone(s, DeleteFailed(s, w, c), w, DeleteFailed(s, w, c).workers[w].pc);
  }

  lemma KeptSame(s: State, s': State, key: Key)
    requires s'.messages == s.messages && s'.listed == s.listed && s'.now == s.now
    ensures Kept(s', key) == Kept(s, key)
  {
  }

  lemma CreateIs(s: State, w: nat, c: Choice)
    requires w in s.workers && s.workers[w].pc.Creating?
    ensures var s', me := Create(s, w, c), s.workers[w];
            var pc := if me.key in s.quotes || !Took(c) || !c.acknowledged then Finished(false)
                      else Rereading(me.pc.status);
            && s'.workers == s.workers[w := me.(pc := pc)]
            && s'.messages == s.messages && s'.listed == s.listed && s'.now == s.now
            && s'.issued == s.issued[s.nextId := me.key]
            && s'.quotes == if me.key in s.quotes || !Took(c) then s.quotes
                            else Insert(s.quotes, me.key, s.nextId, me.pc.status, s.now)
  {
    hide Insert;
  }

  lemma CreateAlone(s: State, w: nat, c: Choice)
    requires SoloSafe(s) && w in s.workers && s.workers[w].pc.Creating?
    ensures SoloSafe(Create(s, w, c))
  {
    var s', me := Create(s, w, c), s.workers[w];
    assert AloneOK(s, w) && RowKept(s, me.key);
    CreateKeeps(s, w, c);
    hide SoloSafe, Safe, Create;
    CreateIs(s, w, c);
    KeptSame(s, s', me.key);
    WriteAlone(s, s', w, s'.workers[w].pc);
  }

  lemma MarkQuoteAlone(s: State, w: nat, c: Choice)
    requires SoloSafe(s) && w in s.workers && s.workers[w].pc.MarkingPublished?
    ensures SoloSafe(MarkQuote(s, w, c))
  {
    assert AloneOK(s, w) && WorkerOK(s, w) && RowKept(s, s.workers[w].key);
    hide SoloSafe, Safe;
    MarkPublishedKeeps(s, w, c);
    OwnId(s, w, s.workers[w].pc.id);
    WriteAlone(s, MarkQuote(s, w, c), w, MarkQuote(s, w, c).workers[w].pc);
  }

  lemma MarkNoticeAlone(s: State, w: nat, c: Choice)
    requires SoloSafe(s) && w in s.workers && s.workers[w].pc.MarkingNotified?
    ensures SoloSafe(MarkNotice(s, w, c))
  {
    assert AloneOK(s, w) && WorkerOK(s, w) && RowKept(s, s.workers[w].key);
    hide SoloSafe, Safe;
    MarkNotifiedKeeps(s, w, c);
    OwnId(s, w, s.workers[w].pc.id);
    WriteAlone(s, MarkNotice(s, w, c), w, MarkNotice(s, w, c).workers[w].pc);
  }

  lemma RecordAlone(s: State, w: nat, c: Choice)
    requires SoloSafe(s) && w in s.workers && s.workers[w].pc.Recording?
    ensures SoloSafe(Record(s, w, c))
  {
    assert AloneOK(s, w) && WorkerOK(s, w) && RowKept(s, s.workers[w].key);
    hide SoloSafe, Safe;
    RecordKeeps(s, w, c);
    OwnId(s, w, s.workers[w].pc.id);
    WriteAlone(s, Record(s, w, c), w, Finished(false));
  }

  lemma SettleAlone(s: State, w: nat, c: Choice)
    requires SoloSafe(s) && w in s.workers && s.workers[w].pc.Settling?
    ensures SoloSafe(Settle(s, w, c))
  {
    assert AloneOK(s, w) && WorkerOK(s, w) && RowKept(s, s.workers[w].key);
    hide SoloSafe, Safe;
    SettleKeeps(s, w, c);
    OwnId(s, w, s.workers[w].pc.id);
    WriteAlone(s, Settle(s, w, c), w, Settle(s, w, c).workers[w].pc);
  }

  // ----- Recovery -----

  /** The query sees every stuck row, and rows of the group only. */
  lemma StaleRowsCover(s: State, group: int, cut: int)
    requires forall k :: IssuedOK(s, k)
    ensures var stale := StaleRows(s.quotes, group, cut);
            && (forall k :: Stuck(s.quotes, k, group, cut) ==>
                  Snapshot(s.quotes[k].id, s.quotes[k].status) in stale)
            && (forall p :: p in stale ==> p.id in s.issued && s.issued[p.id].group == group)
  {
    forall p | p in StaleRows(s.quotes, group, cut)
      ensures p.id in s.issued && s.issued[p.id].group == group
    {
      var k :| k in s.quotes && k.group == group && p == Snapshot(s.quotes[k].id, s.quotes[k].status);
      assert IssuedOK(s, k);
    }
  }

  lemma EnterIs(s: State, w: nat, c: Choice)
    requires w in s.workers && s.workers[w].pc.Entry?
    ensures var s', me := Enter(s, w, c), s.workers[w];
            var cut, pc := s.now - STALE_AFTER, s'.workers[w].pc;
            && SameData(s, s') && s'.workers == s.workers[w := me.(cut := cut, pc := pc)]
            && ((pc.Finished? && (me.group.agreement ==> !pc.done))
                || (me.group.agreement && pc == WritingOff(StaleRows(s.quotes, me.key.group, cut))))
  {
    hide StaleRows;
  }

  lemma EnterAlone(s: State, w: nat, c: Choice)
    requires SoloSafe(s) && w in s.workers && s.workers[w].pc.Entry?
    ensures SoloSafe(Enter(s, w, c))
  {
    var s' := Enter(s, w, c);
    assert AloneOK(s, w);
    EnterKeeps(s, w, c);
    StaleRowsCover(s, s.workers[w].key.group, s.now - STALE_AFTER);
    hide Safe, Exclusive, StaleRows, Enter, Kept;
    EnterIs(s, w, c);
    forall k ensures RowKept(s', k) {
      assert RowKept(s, k);
      KeptSame(s, s', k);
    }
    StepAlone(s, s', w);
  }

  /** Writing off a row of the group: every row is as it was, or no longer in progress. */
  lemma WrittenOff(t: Table, t': Table, p: Snapshot, now: int, k: Key)
    requires t' == SetStatus(t, p.id, OffStatus(p), now)
    ensures k in t' <==> k in t
    ensures k in t ==> if t[k].id == p.id then t'[k].status in {PublishUnknown, BoringNoticeUnknown}
                       else t'[k] == t[k]
  {
  }

  lemma OffStaysInGroup(s: State, s': State, p: Snapshot, group: int, k: Key)
    requires p.id in s.issued && s.issued[p.id].group == group && IssuedOK(s, k)
    requires s'.quotes == SetStatus(s.quotes, p.id, OffStatus(p), s.now) || s'.quotes == s.quotes
    requires s'.messages == s.messages && s'.listed == s.listed
    ensures k.group != group ==> SameAt(s, s', k)
  {
    if s'.quotes == SetStatus(s.quotes, p.id, OffStatus(p), s.now) {
      WrittenOff(s.quotes, s'.quotes, p, s.now, k);
    }
  }

  lemma OffKeepsMessages(s: State, s': State, p: Snapshot, k: Key)
    requires s'.quotes == SetStatus(s.quotes, p.id, OffStatus(p), s.now) || s'.quotes == s.quotes
    requires s'.messages == s.messages && s'.listed == s.listed && s'.now == s.now
    requires RowKept(s, k)
    ensures RowKept(s', k)
  {
    if s'.quotes == SetStatus(s.quotes, p.id, OffStatus(p), s.now) {
      WrittenOff(s.quotes, s'.quotes, p, s.now, k);
    }
  }

  lemma OffLeavesTheRest(t: Table, p: Snapshot, now: int, k: Key, group: int, cut: int, stale: set<Snapshot>)
    requires Stuck(t, k, group, cut) ==> Snapshot(t[k].id, t[k].status) in stale
    requires Stuck(SetStatus(t, p.id, OffStatus(p), now), k, group, cut)
    ensures var t' := SetStatus(t, p.id, OffStatus(p), now);
            Snapshot(t'[k].id, t'[k].status) in stale - {p}
  {
    WrittenOff(t, SetStatus(t, p.id, OffStatus(p), now), p, now, k);
  }

  lemma OffAlone(s: State, s': State, w: nat, p: Snapshot, pc: Pc)
    requires SoloSafe(s) && w in s.workers && s.workers[w].pc.WritingOff? && p in s.workers[w].pc.stale
    requires Safe(s')
    requires s'.messages == s.messages && s'.listed == s.listed && s'.now == s.now && s'.issued == s.issued
    requires s'.workers == s.workers[w := s.workers[w].(pc := pc)]
    requires var t := SetStatus(s.quotes, p.id, OffStatus(p), s.now);
             || (pc == Finished(false) && (s'.quotes == t || s'.quotes == s.quotes))
             || (pc == WritingOff(s.workers[w].pc.stale - {p}) && s'.quotes == t)
    ensures SoloSafe(s')
  {
    hide Exclusive;
    var me := s.workers[w];
    assert AloneOK(s, w);
    forall k: Key ensures (k.group != me.key.group ==> SameAt(s, s', k)) && RowKept(s', k) {
      assert IssuedOK(s, k) && RowKept(s, k);
      OffStaysInGroup(s, s', p, me.key.group, k);
      OffKeepsMessages(s, s', p, k);
    }
    if pc.WritingOff? {
      forall k | Stuck(s'.quotes, k, me.key.group, me.cut)
        ensures Snapshot(s'.quotes[k].id, s'.quotes[k].status) in pc.stale
      {
        OffLeavesTheRest(s.quotes, p, s.now, k, me.key.group, me.cut, me.pc.stale);
      }
    }
    StepAlone(s, s', w);
  }

  lemma WriteOffOneAlone(s: State, w: nat, c: Choice)
    requires SoloSafe(s) && w in s.workers && s.workers[w].pc.WritingOff? && c.pick in s.workers[w].pc.stale
    ensures SoloSafe(WriteOff(s, w, c))
  {
    var pc := if c.acknowledged then WritingOff(s.workers[w].pc.stale - {c.pick}) else Finished(false);
    WriteOffKeeps(s, w, c);
    OffAlone(s, WriteOff(s, w, c), w, c.pick, pc);
  }

  lemma WriteOffAlone(s: State, w: nat, c: Choice)
    requires SoloSafe(s) && w in s.workers && s.workers[w].pc.WritingOff?
    ensures SoloSafe(WriteOff(s, w, c))
  {
    var me := s.workers[w];
    if me.pc.stale == {} {
      assert AloneOK(s, w);
      FreeKeeps(s, w, LookingUp);
      forall k ensures RowKept(Goto(s, w, LookingUp), k) { assert RowKept(s, k); }
      StepAlone(s, Goto(s, w, LookingUp), w);
    } else if c.pick in me.pc.stale {
      WriteOffOneAlone(s, w, c);
    }
  }

  // ----- Every event -----

  lemma SoloStep(s: State, w: nat, c: Choice)
    requires SoloSafe(s) && w in s.workers
    ensures SoloSafe(Step(s, w, c))
  {
    match s.workers[w].pc
    case Entry => EnterAlone(s, w, c);
    case WritingOff(_) => WriteOffAlone(s, w, c);
    case LookingUp => LookUpAlone(s, w, c);
    case Deleting(_) => DeleteAlone(s, w, c);
    case Counting => CountAlone(s, w, c);
    case ClearingSmallDay => ClearDayAlone(s, w, c);
    case Listing => ListAlone(s, w, c);
    case ClearingTagged => ClearDayAlone(s, w, c);
    case Evaluating => EvaluateAlone(s, w, c);
    case Creating(_) => CreateAlone(s, w, c);
    case Rereading(_) => RereadAlone(s, w, c);
    case Sending(_, _, _) => SendAlone(s, w, c);
    case MarkingPublished(_, _) => MarkQuoteAlone(s, w, c);
    case SendingNotice(_, _) => SendNoticeAlone(s, w, c);
    case MarkingNotified(_, _) => MarkNoticeAlone(s, w, c);
    case Recording(_, _) => RecordAlone(s, w, c);
    case Settling(_) => SettleAlone(s, w, c);
    case ClearingBoring => ClearDayAlone(s, w, c);
    case Clearing => ClearAlone(s, w, c);
    case Finished(_) => ReleaseAlone(s, w);
  }

  /** Messages only arrive or age. */
  lemma AmbientAlone(s: State, e: Event)
    requires SoloSafe(s) && (e.Advance? || e.Arrive? || e.Retain?)
    ensures SoloSafe(Apply(s, e))
  {
    hide Safe;
    var s' := Apply(s, e);
    EventKeeps(s, e);
    forall k ensures Kept(s, k) ==> Kept(s', k) {
    }
    forall k ensures RowKept(s', k) { assert RowKept(s, k); }
    forall w: nat ensures AloneOK(s', w) {
      assert AloneOK(s, w);
    }
  }

  lemma SameDataAlone(s: State, s': State, v: nat)
    requires SameData(s, s') && AloneOK(s, v)
    requires v in s.workers && v in s'.workers && s'.workers[v] == s.workers[v]
    ensures AloneOK(s', v)
  {
  }

  lemma CrashAlone(s: State, process: nat)
    requires SoloSafe(s)
    ensures SoloSafe(Apply(s, Crash(process)))
  {
    var s' := Apply(s, Crash(process));
    EventKeeps(s, Crash(process));
    forall k ensures RowKept(s', k) { assert RowKept(s, k); }
    forall w: nat ensures AloneOK(s', w) {
      assert AloneOK(s, w);
      if w in s'.workers { SameDataAlone(s, s', w); }
    }
  }

  lemma BeginAlone(s: State, w: nat, key: Key, group: Settings)
    requires SoloSafe(s)
    ensures SoloSafe(Apply(s, Begin(w, 0, key, group)))
  {
    if w !in s.workers && !Locked(s, 0, key.group) {
      var s' := s.(workers := s.workers[w := Worker(0, key, group, s.now, Entry)]);
      EventKeeps(s, Begin(w, 0, key, group));
      forall k ensures RowKept(s', k) { assert RowKept(s, k); }
      forall v: nat ensures AloneOK(s', v) {
        assert AloneOK(s, v);
        if v != w && v in s.workers { SameDataAlone(s, s', v); }
      }
      forall v: nat | v in s.workers ensures s.workers[v].key.group != key.group {
        assert AloneOK(s, v);
      }
    }
  }

  lemma SoloEvent(s: State, e: Event)
    requires SoloSafe(s) && (e.Begin? ==> e.process == 0)
    ensures SoloSafe(Apply(s, e))
  {
    match e
    case Begin(w, _, key, group) => BeginAlone(s, w, key, group);
    case Crash(process) => CrashAlone(s, process);
    case Act(w, c) => if w in s.workers { SoloStep(s, w, c); }
    case _ => AmbientAlone(s, e);
  }

  lemma {:induction false} AlwaysSoloSafe(now: int, events: seq<Event>)
    requires OneProcess(events)
    ensures SoloSafe(Run(Initial(now), events))
    decreases |events|
  {
    if events != [] {
      var last := |events| - 1;
      AlwaysSoloSafe(now, events[..last]);
      SoloEvent(Run(Initial(now), events[..last]), events[last]);
    }
  }

  // ----- The promises -----

  /** A run that passed the agreement gate and reports its day done leaves the day without
      a row, or with one that needs no more work. */
  lemma DoneMeansSettled(now: int, events: seq<Event>, w: nat)
    requires OneProcess(events)
    ensures var s := Run(Initial(now), events);
            w in s.workers && s.workers[w].pc == Finished(true) && s.workers[w].group.agreement ==>
              Settled(s, s.workers[w].key)
  {
    AlwaysSoloSafe(now, events);
    assert AloneOK(Run(Initial(now), events), w);
  }

  /** Past recovery, no row of the run's group has been in progress since before the cut,
      15 minutes before the run asked for such rows. */
  lemma RecoveryLeavesNothingStuck(now: int, events: seq<Event>, w: nat, key: Key)
    requires OneProcess(events)
    ensures var s := Run(Initial(now), events);
            w in s.workers && Recovered(s.workers[w].pc) ==>
              !Stuck(s.quotes, key, s.workers[w].key.group, s.workers[w].cut)
  {
    AlwaysSoloSafe(now, events);
    assert AloneOK(Run(Initial(now), events), w);
  }

  /** While a day waits for a retry, every message its last run read is still there, but
      for those retention may take. */
  lemma RetryFindsItsMessages(now: int, events: seq<Event>, key: Key, m: Message)
    requires OneProcess(events)
    ensures var s := Run(Initial(now), events);
            && key in s.quotes && s.quotes[key].status == PublishFailed
            && m in Listed(s, key) && m.createdAt >= s.now - MESSAGE_RETENTION ==>
              m in Window(s, key)
  {
    AlwaysSoloSafe(now, events);
    assert RowKept(Run(Initial(now), events), key);
  }

  /** The retention job deletes what is older than 72 hours, and nothing else. */
  lemma RetentionIsExact(s: State, key: Key)
    ensures var s' := Apply(s, Retain);
            && (forall m :: m in Window(s', key) <==> m in Window(s, key) && s.now - m.createdAt <= 72 * 3600)
            && s'.quotes == s.quotes
  {
  }

  /** The messages of a day were written within its window: [from, to). */
  ghost predicate Within(s: State, key: Key, from: int, to: int) {
    forall m :: m in Window(s, key) + Listed(s, key) ==> from <= m.createdAt < to
  }

  ghost predicate ArrivesWithin(events: seq<Event>, key: Key, from: int, to: int) {
    forall i :: 0 <= i < |events| && events[i].Arrive? && events[i].key == key ==>
      from <= events[i].message.createdAt < to
  }

  /** Nothing is stored between s and s', and only stored messages are listed. */
  predicate StoresNothing(s: State, s': State, key: Key) {
    Window(s', key) <= Window(s, key) && Listed(s', key) <= Listed(s, key) + Window(s, key)
  }

  lemma SameStores(s: State, s': State, key: Key)
    requires s'.messages == s.messages && s'.listed == s.listed
    ensures StoresNothing(s, s', key)
  {
  }

  lemma ReadsStoreNothing(s: State, w: nat, c: Choice, key: Key)
    requires w in s.workers
    ensures StoresNothing(s, Enter(s, w, c), key) && StoresNothing(s, LookUp(s, w, c), key)
    ensures StoresNothing(s, CountWindow(s, w, c), key) && StoresNothing(s, Evaluate(s, w, c), key)
    ensures StoresNothing(s, Release(s, w), key)
    ensures s.workers[w].pc.Rereading? ==> StoresNothing(s, Reread(s, w, c), key)
  {
    hide StaleRows, PlanFor, Goto, StoresNothing;
    SameStores(s, Enter(s, w, c), key);
    SameStores(s, LookUp(s, w, c), key);
    SameStores(s, CountWindow(s, w, c), key);
    SameStores(s, Evaluate(s, w, c), key);
    SameStores(s, Release(s, w), key);
    if s.workers[w].pc.Rereading? {
      SameStores(s, Reread(s, w, c), key);
    }
  }

  lemma WriteOffStoresNothing(s: State, w: nat, c: Choice, key: Key)
    requires w in s.workers && s.workers[w].pc.WritingOff?
    ensures StoresNothing(s, WriteOff(s, w, c), key)
  {
    hide SetStatus, OffStatus, Goto;
    var stale, p := s.workers[w].pc.stale, c.pick;
    if stale == {} {
      assert WriteOff(s, w, c) == Goto(s, w, LookingUp);
    } else if p in stale {
      var s1 := Write(s, SetStatus(s.quotes, p.id, OffStatus(p), s.now), c);
      assert WriteOff(s, w, c) == Goto(s1, w, if c.acknowledged then WritingOff(stale - {p}) else Finished(false));
    }
  }

  lemma DeleteStoresNothing(s: State, w: nat, c: Choice, key: Key)
    requires w in s.workers && s.workers[w].pc.Deleting?
    ensures StoresNothing(s, DeleteFailed(s, w, c), key)
  {
    hide Delete, Holds;
  }

  lemma CreateStoresNothing(s: State, w: nat, c: Choice, key: Key)
    requires w in s.workers && s.workers[w].pc.Creating?
    ensures StoresNothing(s, Create(s, w, c), key)
  {
    hide Insert;
  }

  lemma SettleStoresNothing(s: State, w: nat, c: Choice, key: Key)
    requires w in s.workers && s.workers[w].pc.Settling?
    ensures StoresNothing(s, Settle(s, w, c), key)
  {
    hide SetStatus;
  }

  lemma SendStoresNothing(s: State, w: nat, c: Choice, key: Key)
    requires w in s.workers && s.workers[w].pc.Sending?
    ensures StoresNothing(s, Send(s, w, c), key)
  {
    hide Possible, OutcomeUnknown, Again, Add;
  }

  lemma NoticeStoresNothing(s: State, w: nat, c: Choice, key: Key)
    requires w in s.workers && s.workers[w].pc.SendingNotice?
    ensures StoresNothing(s, SendNotice(s, w, c), key)
  {
    hide Possible, OutcomeUnknown, Again, Add;
  }

  lemma MarksStoreNothing(s: State, w: nat, c: Choice, key: Key)
    requires w in s.workers
    ensures s.workers[w].pc.MarkingPublished? ==> StoresNothing(s, MarkQuote(s, w, c), key)
    ensures s.workers[w].pc.MarkingNotified? ==> StoresNothing(s, MarkNotice(s, w, c), key)
  {
    hide MarkPublished, MarkNotified;
  }

  lemma RecordStoresNothing(s: State, w: nat, c: Choice, key: Key)
    requires w in s.workers && s.workers[w].pc.Recording?
    ensures StoresNothing(s, Record(s, w, c), key)
  {
    hide SetStatus;
  }

  lemma ListStoresNothing(s: State, w: nat, c: Choice, key: Key)
    requires w in s.workers
    ensures StoresNothing(s, ListWindow(s, w, c), key)
  {
    hide Eligible;
  }

  lemma ClearStoresNothing(s: State, w: nat, c: Choice, key: Key)
    requires w in s.workers
    ensures StoresNothing(s, ClearDay(s, w, c), key) && StoresNothing(s, Clear(s, w, c), key)
  {
  }

  /** A step stores no message, and lists only stored ones. */
  lemma StepStoresNothing(s: State, w: nat, c: Choice, key: Key)
    requires w in s.workers
    ensures StoresNothing(s, Step(s, w, c), key)
  {
    hide Enter, WriteOff, LookUp, DeleteFailed, CountWindow, ClearDay, ListWindow, Evaluate, Create, Reread, Send,
         SendNotice, MarkQuote, MarkNotice, Record, Settle, Clear, Release, StoresNothing;
    ReadsStoreNothing(s, w, c, key);
    ListStoresNothing(s, w, c, key);
    ClearStoresNothing(s, w, c, key);
    MarksStoreNothing(s, w, c, key);
    match s.workers[w].pc
    case WritingOff(_) => WriteOffStoresNothing(s, w, c, key);
    case Deleting(_) => DeleteStoresNothing(s, w, c, key);
    case Creating(_) => CreateStoresNothing(s, w, c, key);
    case Settling(_) => SettleStoresNothing(s, w, c, key);
    case Sending(_, _, _) => SendStoresNothing(s, w, c, key);
    case SendingNotice(_, _) => NoticeStoresNothing(s, w, c, key);
    case Recording(_, _) => RecordStoresNothing(s, w, c, key);
    case _ =>
  }

  lemma EventStaysWithin(s: State, e: Event, key: Key, from: int, to: int)
    requires Within(s, key, from, to)
    requires e.Arrive? && e.key == key ==> from <= e.message.createdAt < to
    ensures Within(Apply(s, e), key, from, to)
  {
    hide Step;
    match e
    case Act(w, c) => if w in s.workers { StepStoresNothing(s, w, c, key); }
    case Retain => assert Window(Apply(s, e), key) <= Window(s, key);
    case _ =>
  }

  lemma {:induction false} StaysWithin(now: int, events: seq<Event>, key: Key, from: int, to: int)
    requires ArrivesWithin(events, key, from, to)
    ensures Within(Run(Initial(now), events), key, from, to)
    decreases |events|
  {
    hide Apply, Within;
    if events == [] {
      NothingWithin(now, key, from, to);
    } else {
      var last := |events| - 1;
      assert ArrivesWithin(events[..last], key, from, to);
      StaysWithin(now, events[..last], key, from, to);
      EventStaysWithin(Run(Initial(now), events[..last]), events[last], key, from, to);
    }
  }

  lemma NothingWithin(now: int, key: Key, from: int, to: int)
    ensures Within(Initial(now), key, from, to)
  {
  }

  /** The window the scheduler takes at now: the due one, or the one a catch-up takes because
      today's cutoff has passed. */
  predicate Takes(day: int, now: int, zone: DayWindow.Zone, hour: int, minute: int) {
    var due, closed := DayWindow.DueAt(now, zone, hour, minute), DayWindow.LastClosed(now, zone, hour, minute);
    (due.Due? && due.window.quoteDay == day) || (closed.1 && closed.0.quoteDay == day)
  }

  /** So a retry finds every message the failed run read: a day's messages come from its
      window, and while the scheduler takes that window retention has not reached it. */
  lemma RetryFindsEveryMessage(now: int, events: seq<Event>, key: Key, zone: DayWindow.Zone, hour: int, minute: int)
    requires OneProcess(events)
    requires DayWindow.JumpsWithin(zone, DayWindow.DAY) && DayWindow.BelowADay(zone)
    requires DayWindow.ValidTime(hour, minute)
    requires var w := DayWindow.ClosedForDay(key.day, zone, hour, minute);
             ArrivesWithin(events, key, w.start, w.end)
    ensures var s := Run(Initial(now), events);
            && key in s.quotes && s.quotes[key].status == PublishFailed
            && Takes(key.day, s.now, zone, hour, minute) ==>
              Listed(s, key) <= Window(s, key)
  {
    hide DayWindow.At;
    var s, w := Run(Initial(now), events), DayWindow.ClosedForDay(key.day, zone, hour, minute);
    StaysWithin(now, events, key, w.start, w.end);
    DayWindow.ProcessableWindowIsRetained(s.now, zone, hour, minute);
    forall m | m in Listed(s, key) && key in s.quotes && s.quotes[key].status == PublishFailed
               && Takes(key.day, s.now, zone, hour, minute)
      ensures m in Window(s, key)
    {
      RetryFindsItsMessages(now, events, key, m);
    }
  }
}
