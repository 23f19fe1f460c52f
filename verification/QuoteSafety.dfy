/** At most one quote per group and day, over every interleaving of any number of
    processes, workers, crashes, failed writes and sends of unknown outcome.
 */
module QuoteSafety {
  import opened QuoteTable
  import opened Telegram
  import opened Scheduler

  // ----- What safety depends on, one day at a time -----

  datatype RowView = NoRow | Quote(id: nat, failed: bool) | BoringDay(id: nat)

  /** posting: a worker may still post the day's quote, or has yet to record its post. */
  datatype Day = Day(row: RowView, posts: nat, notices: nat, posting: bool)

  predicate PostsQuote(pc: Pc) {
    || pc == Rereading(Publishing)
    || pc.Sending?
    || pc.MarkingPublished?
    || (pc.Recording? && IsQuote(pc.outcome))
  }

  predicate PostsFor(s: State, w: nat, key: Key) {
    w in s.workers && s.workers[w].key == key && PostsQuote(s.workers[w].pc)
  }

  function RowOf(t: Table, key: Key): RowView {
    if key !in t then NoRow
    else if IsQuote(t[key].status) then Quote(t[key].id, t[key].status == PublishFailed)
    else BoringDay(t[key].id)
  }

  function View(s: State, key: Key): Day {
    Day(RowOf(s.quotes, key), Posts(s, key), Notices(s, key),
        key in s.poster && PostsFor(s, s.poster[key], key))
  }

  /** What the row of a day says about what reached the chat. */
  predicate DayOK(d: Day) {
    match d.row
    case NoRow => d.posts == 0 && d.notices == 0 && !d.posting
    case Quote(_, failed) => d.notices == 0 && d.posts <= 1 && (failed ==> d.posts == 0 && !d.posting)
    case BoringDay(_) => d.posts == 0 && !d.posting
  }

  /** A worker's program point tells the truth about its day. */
  predicate PcOK(d: Day, pc: Pc) {
    match pc
    case Deleting(id) => d.row != BoringDay(id) && (d.row.Quote? && d.row.id == id ==> d.posts == 0 && !d.posting)
    case Creating(status) => status in {PublishFailed, Publishing, NotifyingBoring, SkippedBoring}
    case Rereading(created) =>
      && (created == Publishing ==> d.row.Quote? && !d.row.failed && d.posts == 0)
      && (created == NotifyingBoring ==> d.row.BoringDay?)
    case Sending(id, _, _) => d.row == Quote(id, false) && d.posts == 0
    case MarkingPublished(id, _) => d.row == Quote(id, false)
    case Recording(id, PublishFailed) => d.row == Quote(id, false) && d.posts == 0
    case Recording(id, PublishUnknown) => d.row == Quote(id, false)
    case Recording(id, outcome) =>
      d.row == BoringDay(id) && outcome in {BoringNoticeFailed, BoringNoticeUnknown}
    case SendingNotice(id, _) => d.row == BoringDay(id)
    case MarkingNotified(id, _) => d.row == BoringDay(id)
    case Settling(id) => d.row == BoringDay(id)
    case _ => true
  }

  /** A row read as stale is, while it exists, of the kind it was. */
  predicate StaleKept(s: State, p: Snapshot) {
    && p.id in s.issued
    && InProgress(p.status)
    && var row := RowOf(s.quotes, s.issued[p.id]);
       && (row.Quote? && row.id == p.id ==> p.status == Publishing)
       && (row.BoringDay? && row.id == p.id ==> p.status == NotifyingBoring)
  }

  ghost predicate RefsOK(s: State, key: Key, pc: Pc) {
    && (pc.WritingOff? ==> forall p :: p in pc.stale ==> StaleKept(s, p))
    && (pc.Deleting? ==> pc.id in s.issued && s.issued[pc.id] == key)
  }

  ghost predicate WorkerOK(s: State, w: nat) {
    w in s.workers ==>
      var key, pc := s.workers[w].key, s.workers[w].pc;
      && PcOK(View(s, key), pc)
      && RefsOK(s, key, pc)
      && (PostsQuote(pc) ==> key in s.poster && s.poster[key] == w)
  }

  predicate IssuedOK(s: State, key: Key) {
    key in s.quotes ==> s.quotes[key].id in s.issued && s.issued[s.quotes[key].id] == key
  }

  ghost predicate Safe(s: State) {
    && (forall w: nat :: WorkerOK(s, w))
    && (forall k :: DayOK(View(s, k)))
    && (forall k :: IssuedOK(s, k))
    && (forall id: nat :: id in s.issued ==> id < s.nextId)
  }

  // ----- What a step may do to a day without disturbing the other workers -----

  predicate Quiet(d: Day) {
    d.posts == 0 && !d.posting
  }

  /** mine: the acting worker is the day's poster. */
  predicate Compatible(d: Day, d': Day, unused: nat, mine: bool) {
    && (d.row.NoRow? && !d'.row.NoRow? ==> d'.row.id >= unused)
    && (!d.row.NoRow? && !d'.row.NoRow? ==>
          d'.row.id == d.row.id && d'.row.Quote? == d.row.Quote? && (Quiet(d) ==> Quiet(d')))
    && (d.row.BoringDay? ==> d'.row == d.row)
    && (d.posting && !mine ==>
          d'.posting && d'.posts == d.posts && (d.row.Quote? && !d.row.failed ==> d'.row == d.row))
  }

  lemma PcKept(d: Day, d': Day, unused: nat, mine: bool, pc: Pc)
    requires PcOK(d, pc) && Compatible(d, d', unused, mine)
    requires PostsQuote(pc) ==> d.posting && !mine
    requires pc.Deleting? ==> pc.id < unused
    ensures PcOK(d', pc)
  {
  }

  predicate Mine(s: State, w: nat, key: Key) {
    key in s.poster && s.poster[key] == w
  }

  /** A change that shows, of all days, in one only. */
  ghost predicate OneDay(s: State, s': State, day: Key, mine: bool) {
    && (forall k :: k != day ==> View(s', k) == View(s, k))
    && (forall k :: k in s.poster && (k != day || (!mine && View(s, day).posting)) ==>
          k in s'.poster && s'.poster[k] == s.poster[k])
    && (forall id: nat :: id in s.issued ==> id in s'.issued && s'.issued[id] == s.issued[id])
    && (forall id: nat :: id in s'.issued ==> id < s'.nextId)
    && (forall k :: IssuedOK(s', k))
    && Compatible(View(s, day), View(s', day), s.nextId, mine)
    && DayOK(View(s', day))
  }

  lemma StaleStaysKept(s: State, s': State, day: Key, mine: bool, stale: set<Snapshot>)
    requires OneDay(s, s', day, mine) && (forall id: nat :: id in s.issued ==> id < s.nextId)
    requires forall p :: p in stale ==> StaleKept(s, p)
    ensures forall p :: p in stale ==> StaleKept(s', p)
  {
    forall p | p in stale ensures StaleKept(s', p) {
      var k := s.issued[p.id];
      assert StaleKept(s, p);
      assert k != day ==> View(s', k) == View(s, k);
      assert RowOf(s'.quotes, k) == View(s', k).row && RowOf(s.quotes, k) == View(s, k).row;
    }
  }

  lemma BystanderKept(s: State, s': State, day: Key, mine: bool, v: nat)
    requires Safe(s) && OneDay(s, s', day, mine)
    requires v in s.workers && v in s'.workers && s'.workers[v] == s.workers[v]
    requires mine ==> !PostsFor(s, v, day)
    ensures WorkerOK(s', v)
  {
    assert WorkerOK(s, v);
    var key, pc := s.workers[v].key, s.workers[v].pc;
    if key == day {
      PcKept(View(s, day), View(s', day), s.nextId, mine, pc);
    } else {
      assert View(s', key) == View(s, key);
    }
    if pc.WritingOff? {
      StaleStaysKept(s, s', day, mine, pc.stale);
    }
  }

  ghost predicate OthersSame(s: State, s': State, w: nat) {
    forall v: nat :: v != w ==>
      (v in s.workers <==> v in s'.workers) && (v in s.workers ==> s.workers[v] == s'.workers[v])
  }

  /** A step of w is safe if it changes one day compatibly, and w ends where its day
      allows. */
  lemma OneDayKeeps(s: State, s': State, w: nat, day: Key)
    requires Safe(s) && OneDay(s, s', day, Mine(s, w, day)) && OthersSame(s, s', w)
    requires WorkerOK(s', w)
    ensures Safe(s')
  {
    forall v: nat ensures WorkerOK(s', v) {
      if v != w && v in s.workers {
        assert WorkerOK(s, v);
        BystanderKept(s, s', day, Mine(s, w, day), v);
      }
    }
    DaysKept(s, s', day, Mine(s, w, day));
  }

  lemma DaysKept(s: State, s': State, day: Key, mine: bool)
    requires Safe(s) && OneDay(s, s', day, mine)
    ensures forall k :: DayOK(View(s', k))
  {
    forall k ensures DayOK(View(s', k)) {
      assert DayOK(View(s, k));
      assert k != day ==> View(s', k) == View(s, k);
    }
  }

  /** A change of the stored data that moves no worker. */
  lemma DataKeeps(s: State, s': State, day: Key)
    requires Safe(s) && OneDay(s, s', day, false) && s'.workers == s.workers
    ensures Safe(s')
  {
    forall v: nat ensures WorkerOK(s', v) {
      if v in s.workers { BystanderKept(s, s', day, false, v); }
    }
    DaysKept(s, s', day, false);
  }

  // ----- Steps that leave the table and the chats alone -----

  predicate Untouched(s: State, s': State) {
    && s'.quotes == s.quotes && s'.posts == s.posts && s'.notices == s.notices
    && s'.issued == s.issued && s'.poster == s.poster && s'.nextId == s.nextId
  }

  /** The view of the worker's day once the worker has moved. */
  function OwnView(s: State, s': State, w: nat, key: Key): Day {
    View(s, key).(posting := if Mine(s, w, key) then PostsFor(s', w, key) else View(s, key).posting)
  }

  /** The step moved w, or ended it, and w is now where it may be. */
  ghost predicate Moved(s: State, s': State, w: nat) {
    && w in s.workers
    && Untouched(s, s') && OthersSame(s, s', w)
    && (w in s'.workers ==>
          var key, pc := s.workers[w].key, s'.workers[w].pc;
          && s'.workers[w].key == key
          && PcOK(OwnView(s, s', w, key), pc)
          && RefsOK(s, key, pc)
          && (PostsQuote(pc) ==> PostsQuote(s.workers[w].pc)))
  }

  lemma MoveKeeps(s: State, s': State, w: nat)
    requires Safe(s) && Moved(s, s', w)
    ensures Safe(s')
  {
    var key := s.workers[w].key;
    assert WorkerOK(s, w) && DayOK(View(s, key));
    forall k ensures k != key ==> View(s', k) == View(s, k) {
      assert PostsFor(s', w, k) ==> k == key;
    }
    assert View(s', key) == OwnView(s, s', w, key);
    forall k ensures IssuedOK(s', k) { assert IssuedOK(s, k); }
    assert WorkerOK(s', w) by {
      if w in s'.workers && s'.workers[w].pc.WritingOff? {
        forall p | p in s'.workers[w].pc.stale ensures StaleKept(s', p) {
          assert StaleKept(s, p);
        }
      }
    }
    OneDayKeeps(s, s', w, key);
  }

  /** pc is a point w may go to, its day being as it is. */
  ghost predicate MayGo(s: State, w: nat, pc: Pc) {
    && w in s.workers
    && var key := s.workers[w].key;
       && PcOK(View(s, key).(posting := if Mine(s, w, key) then PostsQuote(pc) else View(s, key).posting), pc)
       && RefsOK(s, key, pc)
       && (PostsQuote(pc) ==> PostsQuote(s.workers[w].pc))
  }

  lemma GotoKeeps(s: State, w: nat, pc: Pc)
    requires Safe(s) && MayGo(s, w, pc)
    ensures Safe(Goto(s, w, pc))
  {
    MoveKeeps(s, Goto(s, w, pc), w);
  }

  lemma PlanIsOK(s: State, w: nat)
    requires w in s.workers && s.workers[w].pc.LookingUp? && s.workers[w].key in s.quotes
    requires DayOK(View(s, s.workers[w].key)) && IssuedOK(s, s.workers[w].key)
    ensures var me := s.workers[w]; MayGo(s, w, PlanFor(s.quotes[me.key], me.group, s.now))
  {
  }

  lemma LookUpKeeps(s: State, w: nat, c: Choice)
    requires Safe(s) && w in s.workers && s.workers[w].pc.LookingUp?
    ensures Safe(LookUp(s, w, c))
  {
    var me := s.workers[w];
    assert DayOK(View(s, me.key)) && IssuedOK(s, me.key);
    if !c.acknowledged {
      GotoKeeps(s, w, Finished(false));
    } else if me.key !in s.quotes {
      GotoKeeps(s, w, Counting);
    } else {
      PlanIsOK(s, w);
      GotoKeeps(s, w, PlanFor(s.quotes[me.key], me.group, s.now));
    }
  }

  lemma StaleRowsKept(s: State, group: int, cut: int)
    requires forall k :: IssuedOK(s, k)
    ensures forall p :: p in StaleRows(s.quotes, group, cut) ==> StaleKept(s, p)
  {
    forall p | p in StaleRows(s.quotes, group, cut)
      ensures StaleKept(s, p)
    {
      var k :| k in s.quotes && InProgress(s.quotes[k].status) && p == Snapshot(s.quotes[k].id, s.quotes[k].status);
      assert IssuedOK(s, k);
    }
  }

  /** Points a worker may go to whatever its day holds. */
  predicate Free(pc: Pc) {
    || pc.Finished? || pc.LookingUp? || pc.Counting? || pc.Listing? || pc.Evaluating?
    || pc.ClearingSmallDay? || pc.ClearingTagged? || pc.ClearingBoring? || pc.Clearing?
    || (pc.Creating? && pc.status in {PublishFailed, Publishing, NotifyingBoring, SkippedBoring})
  }

  lemma FreeKeeps(s: State, w: nat, pc: Pc)
    requires Safe(s) && w in s.workers && Free(pc)
    ensures Safe(Goto(s, w, pc))
  {
    MoveKeeps(s, Goto(s, w, pc), w);
  }

  /** Time and the stored messages do not matter to safety. */
  lemma MessagesIrrelevant(s: State, s': State)
    requires Safe(s) && s'.(now := s.now, messages := s.messages, listed := s.listed) == s
    ensures Safe(s')
  {
    forall k ensures View(s', k) == View(s, k) && IssuedOK(s', k) {
      assert IssuedOK(s, k);
    }
    forall k ensures DayOK(View(s', k)) { assert DayOK(View(s, k)); }
    forall w: nat ensures WorkerOK(s', w) {
      assert WorkerOK(s, w);
      if w in s.workers && s.workers[w].pc.WritingOff? {
        forall p | p in s.workers[w].pc.stale ensures StaleKept(s', p) {
          assert StaleKept(s, p);
        }
      }
    }
  }

  lemma EnterKeeps(s: State, w: nat, c: Choice)
    requires Safe(s) && w in s.workers && s.workers[w].pc.Entry?
    ensures Safe(Enter(s, w, c))
  {
    var me := s.workers[w];
    StaleRowsKept(s, me.key.group, s.now - STALE_AFTER);
    assert MayGo(s, w, Enter(s, w, c).workers[w].pc);
    MoveKeeps(s, Enter(s, w, c), w);
  }

  lemma CountKeeps(s: State, w: nat, c: Choice)
    requires Safe(s) && w in s.workers && s.workers[w].pc.Counting?
    ensures Safe(CountWindow(s, w, c))
  {
    hide Safe;
    FreeKeeps(s, w, CountWindow(s, w, c).workers[w].pc);
  }

  lemma EvaluateKeeps(s: State, w: nat, c: Choice)
    requires Safe(s) && w in s.workers && s.workers[w].pc.Evaluating?
    ensures Safe(Evaluate(s, w, c))
  {
    hide Safe;
    FreeKeeps(s, w, Evaluate(s, w, c).workers[w].pc);
  }

  lemma ListKeeps(s: State, w: nat, c: Choice)
    requires Safe(s) && w in s.workers && s.workers[w].pc.Listing?
    ensures Safe(ListWindow(s, w, c))
  {
    var key := s.workers[w].key;
    var s1 := s.(listed := if c.acknowledged then s.listed[key := Window(s, key)] else s.listed);
    MessagesIrrelevant(s, s1);
    var pc := ListWindow(s, w, c).workers[w].pc;
    FreeKeeps(s, w, pc);
    FreeKeeps(s1, w, pc);
  }

  lemma ClearKeeps(s: State, w: nat, c: Choice)
    requires Safe(s) && w in s.workers
    requires var pc := s.workers[w].pc;
             pc.ClearingSmallDay? || pc.ClearingTagged? || pc.ClearingBoring? || pc.Clearing?
    ensures Safe(Step(s, w, c))
  {
    hide Safe;
    var s1 := ClearWindow(s, s.workers[w].key, c);
    MessagesIrrelevant(s, s1);
    FreeKeeps(s1, w, if s.workers[w].pc.Clearing? then Finished(true) else Finished(c.acknowledged));
  }

  lemma ReleaseKeeps(s: State, w: nat)
    requires Safe(s) && w in s.workers && s.workers[w].pc.Finished?
    ensures Safe(Release(s, w))
  {
    MoveKeeps(s, Release(s, w), w);
  }

  lemma RereadKeeps(s: State, w: nat, c: Choice)
    requires Safe(s) && w in s.workers && s.workers[w].pc.Rereading?
    ensures Safe(Reread(s, w, c))
  {
    var me := s.workers[w];
    assert WorkerOK(s, w);
    if !c.acknowledged || me.key !in s.quotes {
      FreeKeeps(s, w, Finished(false));
    } else {
      var id := s.quotes[me.key].id;
      match me.pc.created
      case Publishing => GotoKeeps(s, w, Sending(id, if c.copies then Copy else Text, 1));
      case NotifyingBoring => GotoKeeps(s, w, SendingNotice(id, 1));
      case SkippedBoring => FreeKeeps(s, w, ClearingBoring);
      case _ => FreeKeeps(s, w, Finished(false));
    }
  }

  // ----- Steps that give a row a status -----

  /** The statement gave the row with this id, if there is one, the status st. */
  predicate Restated(t: Table, t': Table, key: Key, id: nat, st: Status) {
    && (key in t' <==> key in t)
    && (key in t ==>
          && t'[key].id == t[key].id
          && t'[key].status == if t[key].id == id then st else t[key].status)
  }

  ghost predicate RestatedAll(t: Table, t': Table, id: nat, st: Status) {
    forall k :: Restated(t, t', k, id, st)
  }

  lemma RestateKeeps(s: State, t: Table, id: nat, st: Status)
    requires Safe(s) && RestatedAll(s.quotes, t, id, st) && id in s.issued
    requires var d := View(s, s.issued[id]);
             !d.row.NoRow? && d.row.id == id ==> d.row.Quote? == IsQuote(st) && (st == PublishFailed ==> Quiet(d))
    ensures Safe(s.(quotes := t))
  {
    var s' := s.(quotes := t);
    var day := s.issued[id];
    forall k ensures IssuedOK(s', k) && (k != day ==> View(s', k) == View(s, k)) {
      assert Restated(s.quotes, t, k, id, st) && IssuedOK(s, k);
    }
    assert Restated(s.quotes, t, day, id, st) && DayOK(View(s, day));
    DataKeeps(s, s', day);
  }

  lemma WriteOffOneKeeps(s: State, w: nat, c: Choice)
    requires Safe(s) && w in s.workers && s.workers[w].pc.WritingOff? && c.pick in s.workers[w].pc.stale
    ensures var next := OffStatus(c.pick);
            Safe(Write(s, SetStatus(s.quotes, c.pick.id, next, s.now), c))
  {
    var next := OffStatus(c.pick);
    var t := SetStatus(s.quotes, c.pick.id, next, s.now);
    assert WorkerOK(s, w) && StaleKept(s, c.pick);
    assert forall k :: Restated(s.quotes, t, k, c.pick.id, next);
    RestateKeeps(s, t, c.pick.id, next);
  }

  lemma WriteOffKeeps(s: State, w: nat, c: Choice)
    requires Safe(s) && w in s.workers && s.workers[w].pc.WritingOff?
    ensures Safe(WriteOff(s, w, c))
  {
    var stale := s.workers[w].pc.stale;
    if stale == {} {
      FreeKeeps(s, w, LookingUp);
    } else if c.pick in stale {
      WriteOffOneKeeps(s, w, c);
      var next := OffStatus(c.pick);
      var s1 := Write(s, SetStatus(s.quotes, c.pick.id, next, s.now), c);
      if c.acknowledged {
        assert WorkerOK(s1, w);
        GotoKeeps(s1, w, WritingOff(stale - {c.pick}));
      } else {
        FreeKeeps(s1, w, Finished(false));
      }
    }
  }

  lemma SettleKeeps(s: State, w: nat, c: Choice)
    requires Safe(s) && w in s.workers && s.workers[w].pc.Settling?
    ensures Safe(Settle(s, w, c))
  {
    var id := s.workers[w].pc.id;
    var t := SetStatus(s.quotes, id, SkippedBoring, s.now);
    assert WorkerOK(s, w) && IssuedOK(s, s.workers[w].key);
    if c.acknowledged || c.applied {
      assert forall k :: Restated(s.quotes, t, k, id, SkippedBoring);
      RestateKeeps(s, t, id, SkippedBoring);
    }
    FreeKeeps(Write(s, t, c), w, if c.acknowledged then Clearing else Finished(false));
  }

  lemma MarkPublishedKeeps(s: State, w: nat, c: Choice)
    requires Safe(s) && w in s.workers && s.workers[w].pc.MarkingPublished?
    ensures Safe(MarkQuote(s, w, c))
  {
    var MarkingPublished(id, message) := s.workers[w].pc;
    var t := MarkPublished(s.quotes, id, message, s.now);
    assert WorkerOK(s, w) && IssuedOK(s, s.workers[w].key);
    var s1 := Write(s, t, c);
    if c.acknowledged || c.applied {
      assert forall k :: Restated(s.quotes, t, k, id, Published);
      RestateKeeps(s, t, id, Published);
    }
    assert WorkerOK(s1, w);
    if c.acknowledged {
      FreeKeeps(s1, w, Clearing);
    } else {
      GotoKeeps(s1, w, Recording(id, PublishUnknown));
    }
  }

  lemma MarkNotifiedKeeps(s: State, w: nat, c: Choice)
    requires Safe(s) && w in s.workers && s.workers[w].pc.MarkingNotified?
    ensures Safe(MarkNotice(s, w, c))
  {
    var MarkingNotified(id, message) := s.workers[w].pc;
    var t := MarkNotified(s.quotes, id, message, s.now);
    assert WorkerOK(s, w) && IssuedOK(s, s.workers[w].key);
    var s1 := Write(s, t, c);
    if c.acknowledged || c.applied {
      assert forall k :: Restated(s.quotes, t, k, id, SkippedBoring);
      RestateKeeps(s, t, id, SkippedBoring);
    }
    assert WorkerOK(s1, w);
    if c.acknowledged {
      FreeKeeps(s1, w, Clearing);
    } else {
      GotoKeeps(s1, w, Recording(id, BoringNoticeUnknown));
    }
  }

  /** The worker gives up its claim on the day before the row is called failed; the two
      changes do not depend on each other. */
  lemma RecordKeeps(s: State, w: nat, c: Choice)
    requires Safe(s) && w in s.workers && s.workers[w].pc.Recording?
    ensures Safe(Record(s, w, c))
  {
    var Recording(id, outcome) := s.workers[w].pc;
    var key := s.workers[w].key;
    var t := SetStatus(s.quotes, id, outcome, s.now);
    assert WorkerOK(s, w) && IssuedOK(s, key);
    var s1 := Goto(s, w, Finished(false));
    FreeKeeps(s, w, Finished(false));
    if c.acknowledged || c.applied {
      assert forall k :: Restated(s1.quotes, t, k, id, outcome);
      assert View(s1, key).row == View(s, key).row && View(s1, key).posts == View(s, key).posts;
      RestateKeeps(s1, t, id, outcome);
    }
    assert Record(s, w, c) == Write(s1, t, c);
  }

  lemma DeletionKeeps(s: State, w: nat)
    requires Safe(s) && w in s.workers && s.workers[w].pc.Deleting?
    ensures var s1 := s.(quotes := Delete(s.quotes, s.workers[w].pc.id));
            Safe(s1)
  {
    var id, key := s.workers[w].pc.id, s.workers[w].key;
    var s1 := s.(quotes := Delete(s.quotes, id));
    assert WorkerOK(s, w) && DayOK(View(s, key)) && IssuedOK(s, key);
    forall k ensures IssuedOK(s1, k) && (k != key ==> View(s1, k) == View(s, k)) {
      assert IssuedOK(s, k);
    }
    DataKeeps(s, s1, key);
  }

  lemma DeleteKeeps(s: State, w: nat, c: Choice)
    requires Safe(s) && w in s.workers && s.workers[w].pc.Deleting?
    ensures Safe(DeleteFailed(s, w, c))
  {
    hide Safe, Delete;
    var id := s.workers[w].pc.id;
    if Took(c) {
      DeletionKeeps(s, w);
    }
    var s1 := Write(s, Delete(s.quotes, id), c);
    FreeKeeps(s1, w, if c.acknowledged && Holds(s.quotes, id) then Counting else Finished(false));
  }

  // ----- Create -----

  lemma InsertedElsewhere(s: State, w: nat, key: Key, st: Status, pc: Pc, k: Key)
    requires w in s.workers && s.workers[w].key == key && key !in s.quotes
    requires IssuedOK(s, k) && (forall id: nat :: id in s.issued ==> id < s.nextId)
    ensures var s' := Goto(Inserted(s, w, key, st), w, pc);
            IssuedOK(s', k) && (k != key && !PostsQuote(s.workers[w].pc) ==> View(s', k) == View(s, k))
  {
    var s' := Goto(Inserted(s, w, key, st), w, pc);
    if k != key {
      assert RowOf(s'.quotes, k) == RowOf(s.quotes, k);
      assert k in s.poster ==> (PostsFor(s', s.poster[k], k) <==> PostsFor(s, s.poster[k], k));
    }
  }

  function NewRow(id: nat, st: Status): RowView {
    if IsQuote(st) then Quote(id, st == PublishFailed) else BoringDay(id)
  }

  lemma InsertedHere(s: State, w: nat, key: Key, st: Status, pc: Pc)
    requires w in s.workers && s.workers[w].key == key && key !in s.quotes && DayOK(View(s, key))
    requires st in {PublishFailed, Publishing, NotifyingBoring, SkippedBoring}
    requires pc == Finished(false) || pc == Rereading(st)
    ensures var s' := Goto(Inserted(s, w, key, st), w, pc);
            && View(s', key) == Day(NewRow(s.nextId, st), 0, 0, PostsQuote(pc))
            && WorkerOK(s', w)
  {
    assert View(s, key).row == NoRow;
  }

  /** The row is inserted under an id nobody has seen. */
  lemma InsertKeeps(s: State, w: nat, st: Status, pc: Pc)
    requires Safe(s) && w in s.workers && s.workers[w].key !in s.quotes && s.workers[w].pc.Creating?
    requires st in {PublishFailed, Publishing, NotifyingBoring, SkippedBoring}
    requires pc == Finished(false) || pc == Rereading(st)
    ensures Safe(Goto(Inserted(s, w, s.workers[w].key, st), w, pc))
  {
    var key := s.workers[w].key;
    var s' := Goto(Inserted(s, w, key, st), w, pc);
    assert DayOK(View(s, key)) && View(s, key).row == NoRow;
    InsertedHere(s, w, key, st, pc);
    forall k ensures IssuedOK(s', k) && (k != key ==> View(s', k) == View(s, k)) {
      assert IssuedOK(s, k);
      InsertedElsewhere(s, w, key, st, pc, k);
    }
    OneDayKeeps(s, s', w, key);
  }

  lemma DrawnIdKeeps(s: State, key: Key)
    requires Safe(s)
    ensures Safe(Drawn(s, key))
  {
    var s' := Drawn(s, key);
    assert DayOK(View(s, key));
    forall k ensures IssuedOK(s', k) && View(s', k) == View(s, k) {
      assert IssuedOK(s, k);
    }
    DataKeeps(s, s', key);
  }

  lemma NothingCreatedKeeps(s: State, w: nat)
    requires Safe(s) && w in s.workers
    ensures Safe(Goto(Drawn(s, s.workers[w].key), w, Finished(false)))
  {
    DrawnIdKeeps(s, s.workers[w].key);
    FreeKeeps(Drawn(s, s.workers[w].key), w, Finished(false));
  }

  lemma CreateKeeps(s: State, w: nat, c: Choice)
    requires Safe(s) && w in s.workers && s.workers[w].pc.Creating?
    ensures Safe(Create(s, w, c))
  {
    var key, st := s.workers[w].key, s.workers[w].pc.status;
    if key in s.quotes || !Took(c) {
      NothingCreatedKeeps(s, w);
    } else {
      assert WorkerOK(s, w);
      InsertKeeps(s, w, st, if c.acknowledged then Rereading(st) else Finished(false));
    }
  }

  // ----- Sends -----

  /** The worker has left the point it posts from when its one post is counted. */
  lemma PostKeeps(s: State, w: nat, key: Key)
    requires Safe(s) && w in s.workers && s.workers[w].key == key && Posts(s, key) == 0
    requires var pc := s.workers[w].pc; pc.MarkingPublished? || (pc.Recording? && pc.outcome == PublishUnknown)
    ensures Safe(s.(posts := Add(s.posts, key)))
  {
    var s' := s.(posts := Add(s.posts, key));
    assert WorkerOK(s, w) && DayOK(View(s, key));
    forall k ensures IssuedOK(s', k) && (k != key ==> View(s', k) == View(s, k)) {
      assert IssuedOK(s, k);
    }
    assert View(s', key) == View(s, key).(posts := 1);
    OneDayKeeps(s, s', w, key);
  }

  lemma SendKeeps(s: State, w: nat, c: Choice)
    requires Safe(s) && w in s.workers && s.workers[w].pc.Sending?
    ensures Safe(Send(s, w, c))
  {
    var Sending(id, via, attempt) := s.workers[w].pc;
    var key, answer := s.workers[w].key, c.attempt.answer;
    assert WorkerOK(s, w) && DayOK(View(s, key));
    hide Safe;
    if Possible(c.attempt) {
      if answer.Accepted? {
        GotoKeeps(s, w, MarkingPublished(id, answer.messageId));
        PostKeeps(Goto(s, w, MarkingPublished(id, answer.messageId)), w, key);
      } else if Again(answer, attempt, c.cancelled) {
        GotoKeeps(s, w, Sending(id, via, attempt + 1));
      } else if OutcomeUnknown(answer) {
        GotoKeeps(s, w, Recording(id, PublishUnknown));
        if c.attempt.delivered {
          PostKeeps(Goto(s, w, Recording(id, PublishUnknown)), w, key);
        }
      } else if via == Copy {
        GotoKeeps(s, w, Sending(id, Text, 1));
      } else {
        GotoKeeps(s, w, Recording(id, PublishFailed));
      }
    }
  }

  lemma NoticeKeeps(s: State, key: Key, id: nat)
    requires Safe(s) && View(s, key).row == BoringDay(id)
    ensures Safe(s.(notices := Add(s.notices, key)))
  {
    var s' := s.(notices := Add(s.notices, key));
    assert DayOK(View(s, key));
    forall k ensures IssuedOK(s', k) && (k != key ==> View(s', k) == View(s, k)) {
      assert IssuedOK(s, k);
    }
    DataKeeps(s, s', key);
  }

  lemma SendNoticeKeeps(s: State, w: nat, c: Choice)
    requires Safe(s) && w in s.workers && s.workers[w].pc.SendingNotice?
    ensures Safe(SendNotice(s, w, c))
  {
    var SendingNotice(id, attempt) := s.workers[w].pc;
    var key, answer := s.workers[w].key, c.attempt.answer;
    assert WorkerOK(s, w);
    if Possible(c.attempt) {
      var s1 := if c.attempt.delivered then s.(notices := Add(s.notices, key)) else s;
      if c.attempt.delivered { NoticeKeeps(s, key, id); }
      assert View(s1, key).row == BoringDay(id);
      if answer.Accepted? {
        GotoKeeps(s1, w, MarkingNotified(id, answer.messageId));
      } else if Again(answer, attempt, c.cancelled) {
        GotoKeeps(s1, w, SendingNotice(id, attempt + 1));
      } else if OutcomeUnknown(answer) {
        GotoKeeps(s1, w, Recording(id, BoringNoticeUnknown));
      } else {
        GotoKeeps(s1, w, Recording(id, BoringNoticeFailed));
      }
    }
  }

  // ----- Every event -----

  /** Workers may start and die at any time. */
  lemma CrashKeeps(s: State, process: nat)
    requires Safe(s)
    ensures Safe(Apply(s, Crash(process)))
  {
    var s' := Apply(s, Crash(process));
    forall k ensures IssuedOK(s', k) && DayOK(View(s', k)) {
      assert IssuedOK(s, k) && DayOK(View(s, k));
    }
    forall w: nat ensures WorkerOK(s', w) {
      assert WorkerOK(s, w);
      if w in s'.workers {
        assert s'.workers[w] == s.workers[w];
        var key, pc := s.workers[w].key, s.workers[w].pc;
        var d, d' := View(s, key), View(s', key);
        assert d' == d.(posting := d'.posting) && (d'.posting ==> d.posting);
        if pc.WritingOff? {
          forall p | p in pc.stale ensures StaleKept(s', p) { assert StaleKept(s, p); }
        }
      }
    }
  }

  lemma BeginKeeps(s: State, w: nat, process: nat, key: Key, group: Settings)
    requires Safe(s)
    ensures Safe(Apply(s, Begin(w, process, key, group)))
  {
    var s' := Apply(s, Begin(w, process, key, group));
    if w !in s.workers && !Locked(s, process, key.group) {
      forall k ensures IssuedOK(s', k) && View(s', k) == View(s, k) {
        assert IssuedOK(s, k);
      }
      assert DayOK(View(s, key));
      OneDayKeeps(s, s', w, key);
    }
  }

  lemma StepKeeps(s: State, w: nat, c: Choice)
    requires Safe(s) && w in s.workers
    ensures Safe(Step(s, w, c))
  {
    match s.workers[w].pc
    case Entry => EnterKeeps(s, w, c);
    case WritingOff(_) => WriteOffKeeps(s, w, c);
    case LookingUp => LookUpKeeps(s, w, c);
    case Deleting(_) => DeleteKeeps(s, w, c);
    case Counting => CountKeeps(s, w, c);
    case ClearingSmallDay => ClearKeeps(s, w, c);
    case Listing => ListKeeps(s, w, c);
    case ClearingTagged => ClearKeeps(s, w, c);
    case Evaluating => EvaluateKeeps(s, w, c);
    case Creating(_) => CreateKeeps(s, w, c);
    case Rereading(_) => RereadKeeps(s, w, c);
    case Sending(_, _, _) => SendKeeps(s, w, c);
    case MarkingPublished(_, _) => MarkPublishedKeeps(s, w, c);
    case SendingNotice(_, _) => SendNoticeKeeps(s, w, c);
    case MarkingNotified(_, _) => MarkNotifiedKeeps(s, w, c);
    case Recording(_, _) => RecordKeeps(s, w, c);
    case Settling(_) => SettleKeeps(s, w, c);
    case ClearingBoring => ClearKeeps(s, w, c);
    case Clearing => ClearKeeps(s, w, c);
    case Finished(_) => ReleaseKeeps(s, w);
  }

  lemma EventKeeps(s: State, e: Event)
    requires Safe(s)
    ensures Safe(Apply(s, e))
  {
    match e
    case Advance(_) => MessagesIrrelevant(s, Apply(s, e));
    case Arrive(_, _) => MessagesIrrelevant(s, Apply(s, e));
    case Retain => MessagesIrrelevant(s, Apply(s, e));
    case Begin(w, process, key, group) => BeginKeeps(s, w, process, key, group);
    case Crash(process) => CrashKeeps(s, process);
    case Act(w, c) => if w in s.workers { StepKeeps(s, w, c); }
  }

  lemma {:induction false} AlwaysSafe(now: int, events: seq<Event>)
    ensures Safe(Run(Initial(now), events))
    decreases |events|
  {
    if events != [] {
      var last := |events| - 1;
      AlwaysSafe(now, events[..last]);
      EventKeeps(Run(Initial(now), events[..last]), events[last]);
    }
  }

  // ----- The promises -----

  /** Whatever happens, at most one quote reaches a group for a day, and a day that got a
      quote gets no boring notice. */
  lemma AtMostOneQuote(now: int, events: seq<Event>, key: Key)
    ensures var s := Run(Initial(now), events);
            && Posts(s, key) <= 1
            && (Posts(s, key) == 0 || Notices(s, key) == 0)
  {
    AlwaysSafe(now, events);
    assert DayOK(View(Run(Initial(now), events), key));
  }

  /** A failed row with no message behind it is truly unsent: nothing reached the group,
      and no worker is left that could still post. */
  lemma FailedMeansUnsent(now: int, events: seq<Event>, key: Key, w: nat)
    ensures var s := Run(Initial(now), events);
            key in s.quotes && s.quotes[key].status == PublishFailed ==>
              && Posts(s, key) == 0 && Notices(s, key) == 0
              && !PostsFor(s, w, key)
  {
    AlwaysSafe(now, events);
    var s := Run(Initial(now), events);
    assert DayOK(View(s, key)) && WorkerOK(s, w);
  }

  /** Nothing was ever delivered for a day that has no row, whether it never had one or
      a retry deleted it: only rows of unsent days are deleted. */
  lemma NoRowMeansUnsent(now: int, events: seq<Event>, key: Key)
    ensures var s := Run(Initial(now), events);
            key !in s.quotes ==> Posts(s, key) == 0 && Notices(s, key) == 0
  {
    AlwaysSafe(now, events);
    assert DayOK(View(Run(Initial(now), events), key));
  }

  /** The status a day ends in tells what was sent: a quote row never hides a notice, a
      boring row never hides a quote. */
  lemma StatusTellsWhatWasSent(now: int, events: seq<Event>, key: Key)
    ensures var s := Run(Initial(now), events);
            key in s.quotes ==>
              if IsQuote(s.quotes[key].status) then Notices(s, key) == 0 else Posts(s, key) == 0
  {
    AlwaysSafe(now, events);
    assert DayOK(View(Run(Initial(now), events), key));
  }
}
