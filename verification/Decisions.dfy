/** Why a day got what it got: over every interleaving, a quote, a notice and the message ids
    on a day's row go back to what a run of that day saw, asked or was answered.
 */
module Decisions {
  import opened QuoteTable
  import opened Telegram
  import opened Scheduler
  import opened QuoteSafety
  import opened SoloSafety
  import opened Steps
  import NoticeSafety

  // ----- What happened in a run -----

  /** Enough: a run counted as many messages without the tag as its group asks for.
      Judged: the model was asked, by a run with these settings, and answered.
      PostAnswered, NoticeAnswered: Telegram gave this id to a message for the day. */
  datatype Fact =
    | Enough(key: Key)
    | Judged(key: Key, verdict: Verdict, group: Settings)
    | PostAnswered(key: Key, message: nat)
    | NoticeAnswered(key: Key, message: nat)

  function Untagged(s: State, key: Key): set<Message> {
    set m | m in Window(s, key) && !m.tagged
  }

  /** What an event adds, by the point its worker has reached and what it is answered. */
  function Learned(s: State, e: Event): set<Fact> {
    if !e.Act? || e.worker !in s.workers then {}
    else
      var me, c := s.workers[e.worker], e.choice;
      match me.pc
      case Listing =>
        if c.acknowledged && |Untagged(s, me.key)| >= me.group.minMessages && Untagged(s, me.key) != {}
        then {Enough(me.key)} else {}
      case Evaluating => if c.acknowledged then {Judged(me.key, c.verdict, me.group)} else {}
      case Sending(_, _, _) =>
        if Possible(c.attempt) && c.attempt.answer.Accepted?
        then {PostAnswered(me.key, c.attempt.answer.messageId)} else {}
      case SendingNotice(_, _) =>
        if Possible(c.attempt) && c.attempt.answer.Accepted?
        then {NoticeAnswered(me.key, c.attempt.answer.messageId)} else {}
      case _ => {}
  }

  function History(now: int, events: seq<Event>): set<Fact>
    decreases |events|
  {
    if events == [] then {}
    else
      var before := events[..|events| - 1];
      History(now, before) + Learned(Run(Initial(now), before), events[|events| - 1])
  }

  /** A fact of the history is what some event of the run added. */
  lemma {:induction false} FactHappened(now: int, events: seq<Event>, f: Fact) returns (i: nat)
    requires f in History(now, events)
    ensures i < |events| && f in Learned(Run(Initial(now), events[..i]), events[i])
    decreases |events|
  {
    hide Learned, Run;
    var last := |events| - 1;
    if f in History(now, events[..last]) {
      i := FactHappened(now, events[..last], f);
      assert events[..last][..i] == events[..i];
    } else {
      i := last;
    }
  }

  /** A run of the day, its group's agreement given, found enough to quote and was told that
      the best of it is worth posting. */
  ghost predicate FoundWorthy(h: set<Fact>, key: Key) {
    Enough(key) in h && exists g: Settings :: g.agreement && Judged(key, Worthy, g) in h
  }

  /** The same, with a day that is boring, in a group that wants to be told. */
  ghost predicate FoundBoring(h: set<Fact>, key: Key) {
    Enough(key) in h && exists g: Settings :: g.agreement && g.boringNotice && Judged(key, Boring, g) in h
  }

  // ----- What the facts must back -----

  ghost predicate PcBacked(key: Key, group: Settings, pc: Pc, h: set<Fact>) {
    && (!pc.Entry? && !pc.Finished? ==> group.agreement)
    && (match pc
        case Evaluating => Enough(key) in h
        case Creating(st) => StatusBacked(key, st, h)
        case Rereading(st) => StatusBacked(key, st, h)
        case Sending(_, _, _) => FoundWorthy(h, key)
        case MarkingPublished(_, message) => FoundWorthy(h, key) && PostAnswered(key, message) in h
        case SendingNotice(_, _) => FoundBoring(h, key)
        case MarkingNotified(_, message) => FoundBoring(h, key) && NoticeAnswered(key, message) in h
        case Recording(_, BoringNoticeFailed) => FoundBoring(h, key)
        case _ => true)
  }

  ghost predicate StatusBacked(key: Key, st: Status, h: set<Fact>) {
    match st
    case Publishing => FoundWorthy(h, key)
    case NotifyingBoring | BoringNoticeFailed => FoundBoring(h, key)
    case Published => false
    case _ => true
  }

  ghost predicate RowBacked(key: Key, r: Row, h: set<Fact>) {
    && (r.status == Published ==> PostAnswered(key, r.botMessageId) in h && FoundWorthy(h, key))
    && (r.status == BoringNoticeFailed ==> FoundBoring(h, key))
    && (r.botMessageId != 0 ==> PostAnswered(key, r.botMessageId) in h)
    && (r.noticeMessageId != 0 ==> NoticeAnswered(key, r.noticeMessageId) in h)
  }

  ghost predicate WorkerBacked(s: State, w: nat, h: set<Fact>) {
    w in s.workers ==> PcBacked(s.workers[w].key, s.workers[w].group, s.workers[w].pc, h)
  }

  ghost predicate DayBacked(s: State, key: Key, h: set<Fact>) {
    && (key in s.quotes ==> RowBacked(key, s.quotes[key], h))
    && (Posts(s, key) > 0 ==> FoundWorthy(h, key))
    && (Notices(s, key) > 0 ==> FoundBoring(h, key))
  }

  ghost predicate Backed(s: State, h: set<Fact>) {
    && (forall w: nat :: WorkerBacked(s, w, h))
    && (forall k :: DayBacked(s, k, h))
  }

  // ----- More facts back as much -----

  lemma WorthyGrows(h: set<Fact>, h': set<Fact>, key: Key)
    requires h <= h'
    ensures FoundWorthy(h, key) ==> FoundWorthy(h', key)
    ensures FoundBoring(h, key) ==> FoundBoring(h', key)
  {
    if FoundWorthy(h, key) {
      var g: Settings :| g.agreement && Judged(key, Worthy, g) in h;
      assert Judged(key, Worthy, g) in h';
    }
    if FoundBoring(h, key) {
      var g: Settings :| g.agreement && g.boringNotice && Judged(key, Boring, g) in h;
      assert Judged(key, Boring, g) in h';
    }
  }

  lemma PcGrows(h: set<Fact>, h': set<Fact>, key: Key, group: Settings, pc: Pc)
    requires h <= h' && PcBacked(key, group, pc, h)
    ensures PcBacked(key, group, pc, h')
  {
    hide FoundWorthy, FoundBoring;
    WorthyGrows(h, h', key);
  }

  lemma RowGrows(h: set<Fact>, h': set<Fact>, key: Key, r: Row)
    requires h <= h' && RowBacked(key, r, h)
    ensures RowBacked(key, r, h')
  {
    hide FoundWorthy, FoundBoring;
    WorthyGrows(h, h', key);
  }

  // ----- Where a step leads -----

  /** The step of w leads to a point that the facts back. */
  ghost predicate LedOn(s: State, s': State, w: nat, h: set<Fact>) {
    w in s.workers && (w in s'.workers ==> PcBacked(s.workers[w].key, s.workers[w].group, s'.workers[w].pc, h))
  }

  lemma EnterLeads(s: State, w: nat, c: Choice, h: set<Fact>)
    requires w in s.workers
    ensures LedOn(s, Enter(s, w, c), w, h)
  {
    hide StaleRows;
  }

  lemma LookUpLeads(s: State, w: nat, c: Choice, h: set<Fact>)
    requires w in s.workers && s.workers[w].group.agreement && DayBacked(s, s.workers[w].key, h)
    ensures LedOn(s, LookUp(s, w, c), w, h)
  {
    hide FoundWorthy, FoundBoring, RetryDue, IsTerminal;
  }

  lemma GatherLeads(s: State, w: nat, c: Choice, h: set<Fact>)
    requires w in s.workers && s.workers[w].group.agreement
    ensures LedOn(s, CountWindow(s, w, c), w, h)
    ensures s.workers[w].pc.Listing? && Learned(s, Act(w, c)) <= h ==> LedOn(s, ListWindow(s, w, c), w, h)
  {
    hide FoundWorthy, FoundBoring, Window;
    assert Eligible(Window(s, s.workers[w].key)) == Untagged(s, s.workers[w].key);
    hide Eligible, Untagged;
  }

  lemma ClearLeads(s: State, w: nat, c: Choice, h: set<Fact>)
    requires w in s.workers
    ensures LedOn(s, ClearDay(s, w, c), w, h) && LedOn(s, Clear(s, w, c), w, h) && LedOn(s, Release(s, w), w, h)
  {
  }

  lemma EvaluateLeads(s: State, w: nat, c: Choice, h: set<Fact>)
    requires w in s.workers && s.workers[w].pc.Evaluating? && s.workers[w].group.agreement
    requires Enough(s.workers[w].key) in h && Learned(s, Act(w, c)) <= h
    ensures LedOn(s, Evaluate(s, w, c), w, h)
  {
    var me := s.workers[w];
    if c.acknowledged {
      assert Judged(me.key, c.verdict, me.group) in Learned(s, Act(w, c));
    }
  }

  lemma OffLeads(s: State, w: nat, c: Choice, h: set<Fact>)
    requires w in s.workers && s.workers[w].pc.WritingOff? && s.workers[w].group.agreement
    ensures LedOn(s, WriteOff(s, w, c), w, h)
  {
    hide SetStatus, OffStatus, Goto;
    var stale, p := s.workers[w].pc.stale, c.pick;
    if stale == {} {
      assert WriteOff(s, w, c) == Goto(s, w, LookingUp);
    } else if p in stale {
      var s1 := Write(s, SetStatus(s.quotes, p.id, OffStatus(p), s.now), c);
      assert WriteOff(s, w, c) == Goto(s1, w, if c.acknowledged then WritingOff(stale - {p}) else Finished(false));
    }
  }

  lemma WriteLeads(s: State, w: nat, c: Choice, h: set<Fact>)
    requires w in s.workers && PcBacked(s.workers[w].key, s.workers[w].group, s.workers[w].pc, h)
    ensures s.workers[w].pc.Settling? ==> LedOn(s, Settle(s, w, c), w, h)
    ensures s.workers[w].pc.Recording? ==> LedOn(s, Record(s, w, c), w, h)
  {
    hide SetStatus, FoundWorthy, FoundBoring;
  }

  lemma DeleteLeads(s: State, w: nat, c: Choice, h: set<Fact>)
    requires w in s.workers && s.workers[w].pc.Deleting? && s.workers[w].group.agreement
    ensures LedOn(s, DeleteFailed(s, w, c), w, h)
  {
    hide Delete, Holds;
  }

  lemma CreateLeads(s: State, w: nat, c: Choice, h: set<Fact>)
    requires w in s.workers && PcBacked(s.workers[w].key, s.workers[w].group, s.workers[w].pc, h)
    ensures s.workers[w].pc.Creating? ==> LedOn(s, Create(s, w, c), w, h)
    ensures s.workers[w].pc.Rereading? ==> LedOn(s, Reread(s, w, c), w, h)
  {
    hide Insert, FoundWorthy, FoundBoring;
  }

  lemma MarkLeads(s: State, w: nat, c: Choice, h: set<Fact>)
    requires w in s.workers && PcBacked(s.workers[w].key, s.workers[w].group, s.workers[w].pc, h)
    ensures s.workers[w].pc.MarkingPublished? ==> LedOn(s, MarkQuote(s, w, c), w, h)
    ensures s.workers[w].pc.MarkingNotified? ==> LedOn(s, MarkNotice(s, w, c), w, h)
  {
    hide MarkPublished, MarkNotified, FoundWorthy, FoundBoring;
  }

  lemma SendLeads(s: State, w: nat, c: Choice, h: set<Fact>)
    requires w in s.workers && PcBacked(s.workers[w].key, s.workers[w].group, s.workers[w].pc, h)
    requires Learned(s, Act(w, c)) <= h && s.workers[w].pc.Sending?
    ensures LedOn(s, Step(s, w, c), w, h)
  {
    SendIs(s, w, c);
    hide Step, OutcomeUnknown, Again, Possible, FoundWorthy, FoundBoring;
    if Possible(c.attempt) && c.attempt.answer.Accepted? {
      assert PostAnswered(s.workers[w].key, c.attempt.answer.messageId) in Learned(s, Act(w, c));
    }
  }

  lemma NoticeLeads(s: State, w: nat, c: Choice, h: set<Fact>)
    requires w in s.workers && PcBacked(s.workers[w].key, s.workers[w].group, s.workers[w].pc, h)
    requires Learned(s, Act(w, c)) <= h && s.workers[w].pc.SendingNotice?
    ensures LedOn(s, Step(s, w, c), w, h)
  {
    SendNoticeIs(s, w, c);
    hide Step, OutcomeUnknown, Again, Possible, FoundWorthy, FoundBoring;
    if Possible(c.attempt) && c.attempt.answer.Accepted? {
      assert NoticeAnswered(s.workers[w].key, c.attempt.answer.messageId) in Learned(s, Act(w, c));
    }
  }

  lemma StepLeads(s: State, w: nat, c: Choice, h: set<Fact>)
    requires w in s.workers && PcBacked(s.workers[w].key, s.workers[w].group, s.workers[w].pc, h)
    requires DayBacked(s, s.workers[w].key, h) && Learned(s, Act(w, c)) <= h
    ensures LedOn(s, Step(s, w, c), w, h)
  {
    hide Enter, WriteOff, LookUp, DeleteFailed, CountWindow, ClearDay, ListWindow, Evaluate, Create, Reread, Send,
         SendNotice, MarkQuote, MarkNotice, Record, Settle, Clear, Release, LedOn, Learned, DayBacked;
    ClearLeads(s, w, c, h);
    WriteLeads(s, w, c, h);
    CreateLeads(s, w, c, h);
    MarkLeads(s, w, c, h);
    match s.workers[w].pc
    case Entry => EnterLeads(s, w, c, h);
    case WritingOff(_) => OffLeads(s, w, c, h);
    case LookingUp => LookUpLeads(s, w, c, h);
    case Deleting(_) => DeleteLeads(s, w, c, h);
    case Counting => GatherLeads(s, w, c, h);
    case Listing => GatherLeads(s, w, c, h);
    case Evaluating => EvaluateLeads(s, w, c, h);
    case Sending(_, _, _) => SendLeads(s, w, c, h);
    case SendingNotice(_, _) => NoticeLeads(s, w, c, h);
    case _ =>
  }

  // ----- What a step makes of the rows -----

  ghost predicate RowsBacked(t: Table, h: set<Fact>) {
    forall k :: k in t ==> RowBacked(k, t[k], h)
  }

  lemma StatusWritten(t: Table, id: nat, st: Status, now: int, h: set<Fact>)
    requires RowsBacked(t, h) && st != Published
    requires st == BoringNoticeFailed ==> forall k :: k in t && t[k].id == id ==> FoundBoring(h, k)
    ensures RowsBacked(SetStatus(t, id, st, now), h)
  {
    hide FoundWorthy, FoundBoring;
    forall k | k in t ensures RowBacked(k, SetStatus(t, id, st, now)[k], h) {
      assert RowBacked(k, t[k], h);
    }
  }

  lemma PostWritten(t: Table, id: nat, message: nat, now: int, h: set<Fact>, key: Key)
    requires RowsBacked(t, h) && forall k :: k in t && t[k].id == id ==> k == key
    requires PostAnswered(key, message) in h && FoundWorthy(h, key)
    ensures RowsBacked(MarkPublished(t, id, message, now), h)
  {
    hide FoundWorthy, FoundBoring;
    forall k | k in t ensures RowBacked(k, MarkPublished(t, id, message, now)[k], h) {
      assert RowBacked(k, t[k], h);
    }
  }

  lemma NoticeWritten(t: Table, id: nat, message: nat, now: int, h: set<Fact>, key: Key)
    requires RowsBacked(t, h) && forall k :: k in t && t[k].id == id ==> k == key
    requires NoticeAnswered(key, message) in h
    ensures RowsBacked(MarkNotified(t, id, message, now), h)
  {
    hide FoundWorthy, FoundBoring;
    forall k | k in t ensures RowBacked(k, MarkNotified(t, id, message, now)[k], h) {
      assert RowBacked(k, t[k], h);
    }
  }

  lemma RowInserted(t: Table, key: Key, id: nat, st: Status, now: int, h: set<Fact>)
    requires RowsBacked(t, h) && key !in t && st != Published && StatusBacked(key, st, h)
    ensures RowsBacked(Insert(t, key, id, st, now), h)
  {
    hide FoundWorthy, FoundBoring;
  }

  lemma RowsDeleted(t: Table, id: nat, h: set<Fact>)
    requires RowsBacked(t, h)
    ensures RowsBacked(Delete(t, id), h)
  {
  }

  /** The row a worker writes is that of its own day. */
  lemma OwnRow(s: State, w: nat, id: nat)
    requires Safe(s) && w in s.workers
    requires var pc := s.workers[w].pc;
             || (pc.MarkingPublished? && pc.id == id) || (pc.MarkingNotified? && pc.id == id)
             || (pc.Recording? && pc.id == id)
    ensures forall k :: k in s.quotes && s.quotes[k].id == id ==> k == s.workers[w].key
  {
    assert WorkerOK(s, w);
    forall k | k in s.quotes && s.quotes[k].id == id ensures k == s.workers[w].key {
      assert IssuedOK(s, k) && IssuedOK(s, s.workers[w].key);
    }
  }

  lemma RecordIsNoPost(s: State, w: nat)
    requires Safe(s) && w in s.workers && s.workers[w].pc.Recording?
    ensures s.workers[w].pc.outcome in {PublishFailed, PublishUnknown, BoringNoticeFailed, BoringNoticeUnknown}
  {
    assert WorkerOK(s, w);
  }

  lemma StepKeepsRows(s: State, w: nat, c: Choice, h: set<Fact>)
    requires Safe(s) && w in s.workers && RowsBacked(s.quotes, h)
    requires PcBacked(s.workers[w].key, s.workers[w].group, s.workers[w].pc, h)
    ensures RowsBacked(Step(s, w, c).quotes, h)
  {
    hide Enter, WriteOff, LookUp, DeleteFailed, CountWindow, ClearDay, ListWindow, Evaluate, Create, Reread, Send,
         SendNotice, MarkQuote, MarkNotice, Record, Settle, Clear, SetStatus, Delete, MarkPublished, MarkNotified,
         Insert, Safe, RowsBacked, FoundWorthy, FoundBoring;
    var key, pc := s.workers[w].key, s.workers[w].pc;
    match pc
    case WritingOff(stale) =>
      NoticeSafety.WriteOffShape(s, w, c);
      StatusWritten(s.quotes, c.pick.id, OffStatus(c.pick), s.now, h);
    case Deleting(id) =>
      NoticeSafety.DeleteShape(s, w, c);
      RowsDeleted(s.quotes, id, h);
    case Settling(id) =>
      NoticeSafety.SettleShape(s, w, c);
      StatusWritten(s.quotes, id, SkippedBoring, s.now, h);
    case Recording(id, outcome) =>
      NoticeSafety.RecordShape(s, w, c);
      OwnRow(s, w, id);
      RecordIsNoPost(s, w);
      StatusWritten(s.quotes, id, outcome, s.now, h);
    case MarkingPublished(id, message) =>
      NoticeSafety.MarkQuoteShape(s, w, c);
      OwnRow(s, w, id);
      PostWritten(s.quotes, id, message, s.now, h, key);
    case MarkingNotified(id, message) =>
      NoticeSafety.MarkNoticeShape(s, w, c);
      OwnRow(s, w, id);
      NoticeWritten(s.quotes, id, message, s.now, h, key);
    case Creating(st) =>
      NoticeSafety.CreateShape(s, w, c);
      if key !in s.quotes {
        RowInserted(s.quotes, key, s.nextId, st, s.now, h);
      }
    case _ =>
  }

  // ----- What a step makes of the counts -----

  /** Nothing more reached the chats. */
  predicate SameCounts(s: State, s': State) {
    s'.posts == s.posts && s'.notices == s.notices
  }

  lemma ReadsCountNothing(s: State, w: nat, c: Choice)
    requires w in s.workers
    ensures SameCounts(s, Enter(s, w, c)) && SameCounts(s, LookUp(s, w, c)) && SameCounts(s, CountWindow(s, w, c))
    ensures SameCounts(s, ListWindow(s, w, c)) && SameCounts(s, Evaluate(s, w, c)) && SameCounts(s, Release(s, w))
    ensures s.workers[w].pc.Rereading? ==> SameCounts(s, Reread(s, w, c))
    ensures SameCounts(s, ClearDay(s, w, c)) && SameCounts(s, Clear(s, w, c))
  {
    hide StaleRows, PlanFor, Window, Eligible;
  }

  lemma WritesCountNothing(s: State, w: nat, c: Choice)
    requires w in s.workers
    ensures s.workers[w].pc.Deleting? ==> SameCounts(s, DeleteFailed(s, w, c))
    ensures s.workers[w].pc.Creating? ==> SameCounts(s, Create(s, w, c))
    ensures s.workers[w].pc.Settling? ==> SameCounts(s, Settle(s, w, c))
    ensures s.workers[w].pc.Recording? ==> SameCounts(s, Record(s, w, c))
  {
    hide SetStatus, Delete, Insert, Holds;
  }

  lemma MarksCountNothing(s: State, w: nat, c: Choice)
    requires w in s.workers
    ensures s.workers[w].pc.MarkingPublished? ==> SameCounts(s, MarkQuote(s, w, c))
    ensures s.workers[w].pc.MarkingNotified? ==> SameCounts(s, MarkNotice(s, w, c))
  {
    hide MarkPublished, MarkNotified;
  }

  lemma OffCountsNothing(s: State, w: nat, c: Choice)
    requires w in s.workers && s.workers[w].pc.WritingOff?
    ensures SameCounts(s, WriteOff(s, w, c))
  {
    hide SetStatus, OffStatus;
  }

  lemma SendCounts(s: State, w: nat, c: Choice, key: Key)
    requires w in s.workers
    ensures s.workers[w].pc.Sending? ==>
              var s' := Send(s, w, c);
              (key != s.workers[w].key ==> Posts(s', key) == Posts(s, key)) && Notices(s', key) == Notices(s, key)
    ensures s.workers[w].pc.SendingNotice? ==>
              var s' := SendNotice(s, w, c);
              (key != s.workers[w].key ==> Notices(s', key) == Notices(s, key)) && Posts(s', key) == Posts(s, key)
  {
    hide Possible, OutcomeUnknown, Again;
  }

  /** Only a post counts as a post, for its own day, and a notice as a notice. */
  lemma CountedSends(s: State, w: nat, c: Choice, key: Key)
    requires w in s.workers
    ensures var s', me := Step(s, w, c), s.workers[w];
            && (Posts(s', key) != Posts(s, key) ==> me.pc.Sending? && me.key == key)
            && (Notices(s', key) != Notices(s, key) ==> me.pc.SendingNotice? && me.key == key)
  {
    hide Enter, WriteOff, LookUp, DeleteFailed, CountWindow, ClearDay, ListWindow, Evaluate, Create, Reread, Send,
         SendNotice, MarkQuote, MarkNotice, Record, Settle, Clear, Release;
    SendCounts(s, w, c, key);
    ReadsCountNothing(s, w, c);
    WritesCountNothing(s, w, c);
    MarksCountNothing(s, w, c);
    match s.workers[w].pc
    case WritingOff(_) => OffCountsNothing(s, w, c);
    case _ =>
  }

  // ----- Every event -----

  lemma StepBacks(s: State, w: nat, c: Choice, h: set<Fact>)
    requires Safe(s) && Backed(s, h) && w in s.workers
    ensures Backed(Step(s, w, c), h + Learned(s, Act(w, c)))
  {
    hide Safe, Step, Learned, PcBacked, RowBacked, FoundWorthy, FoundBoring;
    var s', h', me := Step(s, w, c), h + Learned(s, Act(w, c)), s.workers[w];
    BackedGrows(s, h, h');
    SendersFound(s, w, h');
    StepLeads(s, w, c, h');
    StepKeepsRows(s, w, c, h');
    StepMoves(s, w, c);
    forall k ensures DayBacked(s', k, h') {
      assert DayBacked(s, k, h');
      CountedSends(s, w, c, k);
    }
    forall v: nat ensures WorkerBacked(s', v, h') {
      assert WorkerBacked(s, v, h');
    }
  }

  lemma SendersFound(s: State, w: nat, h: set<Fact>)
    requires Backed(s, h) && w in s.workers
    ensures PcBacked(s.workers[w].key, s.workers[w].group, s.workers[w].pc, h)
    ensures DayBacked(s, s.workers[w].key, h) && RowsBacked(s.quotes, h)
    ensures s.workers[w].pc.Sending? ==> FoundWorthy(h, s.workers[w].key)
    ensures s.workers[w].pc.SendingNotice? ==> FoundBoring(h, s.workers[w].key)
  {
    hide FoundWorthy, FoundBoring, RowBacked;
    assert WorkerBacked(s, w, h);
    forall k | k in s.quotes ensures RowBacked(k, s.quotes[k], h) {
      assert DayBacked(s, k, h);
    }
  }

  lemma BackedGrows(s: State, h: set<Fact>, h': set<Fact>)
    requires h <= h' && Backed(s, h)
    ensures Backed(s, h')
  {
    hide PcBacked, RowBacked, FoundWorthy, FoundBoring;
    forall w: nat ensures WorkerBacked(s, w, h') {
      assert WorkerBacked(s, w, h);
      if w in s.workers {
        PcGrows(h, h', s.workers[w].key, s.workers[w].group, s.workers[w].pc);
      }
    }
    forall k ensures DayBacked(s, k, h') {
      assert DayBacked(s, k, h);
      WorthyGrows(h, h', k);
      if k in s.quotes {
        RowGrows(h, h', k, s.quotes[k]);
      }
    }
  }

  lemma EventBacks(s: State, e: Event, h: set<Fact>)
    requires Safe(s) && Backed(s, h)
    ensures Backed(Apply(s, e), h + Learned(s, e))
  {
    hide Safe, Backed, Apply, Learned;
    if e.Act? && e.worker in s.workers {
      ActIsStep(s, e.worker, e.choice);
      StepBacks(s, e.worker, e.choice, h);
    } else {
      OthersAreAmbient(s, e);
      NothingLearned(s, e);
      assert h + Learned(s, e) == h;
      AmbientBacks(s, Apply(s, e), h);
    }
  }

  lemma ActIsStep(s: State, w: nat, c: Choice)
    requires w in s.workers
    ensures Apply(s, Act(w, c)) == Step(s, w, c)
  {
  }

  /** Nothing of the rows and counts changes, and workers only begin or go. */
  predicate Ambient(s: State, s': State) {
    && s'.quotes == s.quotes && SameCounts(s, s') && s'.now >= s.now
    && forall w: nat :: w in s'.workers ==>
         s'.workers[w].pc.Entry? || (w in s.workers && s'.workers[w] == s.workers[w])
  }

  lemma MessagesAreAmbient(s: State, e: Event)
    requires e.Advance? || e.Arrive? || e.Retain?
    ensures Ambient(s, Apply(s, e))
  {
    hide Window, Retained;
  }

  lemma BeginIsAmbient(s: State, e: Event)
    requires e.Begin?
    ensures Ambient(s, Apply(s, e))
  {
    hide Locked;
  }

  lemma CrashIsAmbient(s: State, e: Event)
    requires e.Crash?
    ensures Ambient(s, Apply(s, e))
  {
  }

  lemma OthersAreAmbient(s: State, e: Event)
    requires !(e.Act? && e.worker in s.workers)
    ensures Ambient(s, Apply(s, e))
  {
    hide Step, Ambient;
    match e
    case Act(_, _) => NothingIsAmbient(s);
    case Begin(_, _, _, _) => BeginIsAmbient(s, e);
    case Crash(_) => CrashIsAmbient(s, e);
    case _ => MessagesAreAmbient(s, e);
  }

  lemma NothingIsAmbient(s: State)
    ensures Ambient(s, s)
  {
  }

  lemma NothingLearned(s: State, e: Event)
    requires !(e.Act? && e.worker in s.workers)
    ensures Learned(s, e) == {}
  {
  }

  lemma AmbientBacks(s: State, s': State, h: set<Fact>)
    requires Backed(s, h) && Ambient(s, s')
    ensures Backed(s', h)
  {
    hide RowBacked, FoundWorthy, FoundBoring;
    forall w: nat ensures WorkerBacked(s', w, h) {
      assert WorkerBacked(s, w, h);
    }
    forall k ensures DayBacked(s', k, h) {
      assert DayBacked(s, k, h);
    }
  }

  lemma {:induction false} AlwaysBacked(now: int, events: seq<Event>)
    ensures Backed(Run(Initial(now), events), History(now, events))
    decreases |events|
  {
    hide Safe, Apply, Learned, PcBacked, RowBacked, FoundWorthy, FoundBoring;
    if events == [] {
    } else {
      var last := |events| - 1;
      AlwaysBacked(now, events[..last]);
      AlwaysSafe(now, events[..last]);
      EventBacks(Run(Initial(now), events[..last]), events[last], History(now, events[..last]));
    }
  }

  // ----- The promises -----

  /** Nobody is quoted by accident: a day has a quote only if a run of it, with the group's
      agreement, counted enough messages and the model found one worth posting. */
  lemma OnlyWorthyDaysAreQuoted(now: int, events: seq<Event>, key: Key)
    ensures Posts(Run(Initial(now), events), key) > 0 ==> FoundWorthy(History(now, events), key)
  {
    AlwaysBacked(now, events);
    assert DayBacked(Run(Initial(now), events), key, History(now, events));
  }

  /** A day has a notice only if one counted enough, the model found it boring, and the
      group wants to be told. */
  lemma OnlyBoringDaysGetNotices(now: int, events: seq<Event>, key: Key)
    ensures Notices(Run(Initial(now), events), key) > 0 ==> FoundBoring(History(now, events), key)
  {
    AlwaysBacked(now, events);
    assert DayBacked(Run(Initial(now), events), key, History(now, events));
  }

  /** A row never names a message that Telegram did not give the day, and a published one
      names the quote. */
  lemma RowsNameWhatWasSent(now: int, events: seq<Event>, key: Key)
    ensures var s, h := Run(Initial(now), events), History(now, events);
            key in s.quotes ==>
              var row := s.quotes[key];
              && (row.status == Published || row.botMessageId != 0 ==> PostAnswered(key, row.botMessageId) in h)
              && (row.noticeMessageId != 0 ==> NoticeAnswered(key, row.noticeMessageId) in h)
  {
    AlwaysBacked(now, events);
    assert DayBacked(Run(Initial(now), events), key, History(now, events));
  }

  // ----- A failure rests before it is tried again -----

  /** The day's row says that a send failed, less than 15 minutes ago. */
  predicate JustFailed(s: State, key: Key) {
    && key in s.quotes && s.quotes[key].status in {PublishFailed, BoringNoticeFailed}
    && s.quotes[key].changedAt != 0 && s.now < s.quotes[key].changedAt + 900
  }

  /** Points from which a failed row is deleted, settled or its notice sent. */
  predicate ActsOnFailure(pc: Pc) {
    pc.Deleting? || pc.SendingNotice? || pc.Settling?
  }

  predicate Rests(s: State, w: nat) {
    w in s.workers && ActsOnFailure(s.workers[w].pc) ==> !JustFailed(s, s.workers[w].key)
  }

  ghost predicate RestSafe(s: State) {
    SoloSafe(s) && forall w: nat :: Rests(s, w)
  }

  /** w is at no such point, or the failure has rested. */
  predicate RestsAt(s: State, s': State, w: nat) {
    w in s.workers && w in s'.workers && ActsOnFailure(s'.workers[w].pc) ==> !JustFailed(s, s.workers[w].key)
  }

  predicate ActsNot(s': State, w: nat) {
    w in s'.workers ==> !ActsOnFailure(s'.workers[w].pc)
  }

  lemma GathersActOnNothing(s: State, w: nat, c: Choice)
    requires w in s.workers
    ensures ActsNot(Enter(s, w, c), w) && ActsNot(CountWindow(s, w, c), w) && ActsNot(ListWindow(s, w, c), w)
    ensures ActsNot(Evaluate(s, w, c), w) && ActsNot(ClearDay(s, w, c), w) && ActsNot(Clear(s, w, c), w)
    ensures ActsNot(Release(s, w), w)
  {
    hide StaleRows, Window, Eligible;
  }

  lemma LookUpRests(s: State, w: nat, c: Choice)
    requires w in s.workers
    ensures RestsAt(s, LookUp(s, w, c), w)
  {
  }

  lemma RereadRests(s: State, w: nat, c: Choice)
    requires w in s.workers && s.workers[w].pc.Rereading? && PointOK(s, s.workers[w])
    ensures RestsAt(s, Reread(s, w, c), w)
  {
  }

  lemma CreateActsOnNothing(s: State, w: nat, c: Choice)
    requires w in s.workers
    ensures s.workers[w].pc.Creating? ==> ActsNot(Create(s, w, c), w)
    ensures s.workers[w].pc.Settling? ==> ActsNot(Settle(s, w, c), w)
  {
    hide SetStatus, Insert;
  }

  lemma DeleteActsOnNothing(s: State, w: nat, c: Choice)
    requires w in s.workers && s.workers[w].pc.Deleting?
    ensures ActsNot(DeleteFailed(s, w, c), w)
  {
    hide Delete, Holds;
  }

  lemma MarksActOnNothing(s: State, w: nat, c: Choice)
    requires w in s.workers
    ensures s.workers[w].pc.MarkingPublished? ==> ActsNot(MarkQuote(s, w, c), w)
    ensures s.workers[w].pc.MarkingNotified? ==> ActsNot(MarkNotice(s, w, c), w)
  {
    hide MarkPublished, MarkNotified;
  }

  lemma OffActsOnNothing(s: State, w: nat, c: Choice)
    requires w in s.workers && s.workers[w].pc.WritingOff?
    ensures ActsNot(WriteOff(s, w, c), w)
  {
    NoticeSafety.WriteOffShape(s, w, c);
  }

  /** Where a step may lead to such a point, it leaves the table alone, and finds no fresh
      failure or stands at one already. */
  lemma ActsOnlyWhenRested(s: State, w: nat, c: Choice)
    requires w in s.workers && PointOK(s, s.workers[w])
    ensures ActsOnFailure(s.workers[w].pc) || RestsAt(s, Step(s, w, c), w)
    ensures ActsNot(Step(s, w, c), w) || Step(s, w, c).quotes == s.quotes
  {
    hide Enter, WriteOff, LookUp, DeleteFailed, CountWindow, ClearDay, ListWindow, Evaluate, Create, Reread, Send,
         SendNotice, MarkQuote, MarkNotice, Record, Settle, Clear, Release, JustFailed, PointOK;
    GathersActOnNothing(s, w, c);
    CreateActsOnNothing(s, w, c);
    MarksActOnNothing(s, w, c);
    match s.workers[w].pc
    case WritingOff(_) => OffActsOnNothing(s, w, c);
    case LookingUp => LookUpRests(s, w, c);
    case Rereading(_) => RereadRests(s, w, c);
    case Deleting(_) => DeleteActsOnNothing(s, w, c);
    case Recording(_, _) => NoticeSafety.RecordShape(s, w, c);
    case Sending(_, _, _) => SendIs(s, w, c);
    case _ =>
  }

  lemma OwnIdInGroup(s: State, w: nat, id: nat, k: Key)
    requires SoloSafe(s) && w in s.workers && k in s.quotes && s.quotes[k].id == id
    requires var pc := s.workers[w].pc;
             || (pc.WritingOff? && exists p :: p in pc.stale && p.id == id)
             || ((pc.Deleting? || pc.Settling? || pc.Recording? || pc.MarkingPublished? || pc.MarkingNotified?)
                 && pc.id == id)
    ensures k.group == s.workers[w].key.group
  {
    var me := s.workers[w];
    assert AloneOK(s, w) && WorkerOK(s, w) && IssuedOK(s, k) && IssuedOK(s, me.key);
  }

  lemma StatusElsewhere(s: State, w: nat, id: nat, st: Status, k: Key)
    requires SoloSafe(s) && w in s.workers && k.group != s.workers[w].key.group
    requires var pc := s.workers[w].pc;
             || (pc.WritingOff? && exists p :: p in pc.stale && p.id == id)
             || ((pc.Settling? || pc.Recording?) && pc.id == id)
    ensures var t := SetStatus(s.quotes, id, st, s.now);
            (k in t <==> k in s.quotes) && (k in t ==> t[k] == s.quotes[k])
  {
    if k in s.quotes && s.quotes[k].id == id {
      OwnIdInGroup(s, w, id, k);
    }
  }

  /** A run writes no row of another group. */
  lemma OtherGroupsKept(s: State, w: nat, c: Choice, k: Key)
    requires SoloSafe(s) && w in s.workers && k.group != s.workers[w].key.group
    ensures var t := Step(s, w, c).quotes; (k in t <==> k in s.quotes) && (k in t ==> t[k] == s.quotes[k])
  {
    hide Enter, WriteOff, LookUp, DeleteFailed, CountWindow, ClearDay, ListWindow, Evaluate, Create, Reread, Send,
         SendNotice, MarkQuote, MarkNotice, Record, Settle, Clear, SetStatus, SoloSafe;
    var pc := s.workers[w].pc;
    match pc
    case WritingOff(stale) =>
      NoticeSafety.WriteOffShape(s, w, c);
      if c.pick in stale {
        StatusElsewhere(s, w, c.pick.id, OffStatus(c.pick), k);
      }
    case Deleting(id) =>
      NoticeSafety.DeleteShape(s, w, c);
      if k in s.quotes && s.quotes[k].id == id {
        OwnIdInGroup(s, w, id, k);
      }
    case Settling(id) =>
      NoticeSafety.SettleShape(s, w, c);
      StatusElsewhere(s, w, id, SkippedBoring, k);
    case Recording(id, outcome) =>
      NoticeSafety.RecordShape(s, w, c);
      StatusElsewhere(s, w, id, outcome, k);
    case MarkingPublished(id, _) =>
      NoticeSafety.MarkQuoteShape(s, w, c);
      if k in s.quotes && s.quotes[k].id == id {
        OwnIdInGroup(s, w, id, k);
      }
    case MarkingNotified(id, _) =>
      NoticeSafety.MarkNoticeShape(s, w, c);
      if k in s.quotes && s.quotes[k].id == id {
        OwnIdInGroup(s, w, id, k);
      }
    case Creating(_) => NoticeSafety.CreateShape(s, w, c);
    case _ =>
  }

  lemma RestStep(s: State, w: nat, c: Choice)
    requires RestSafe(s) && w in s.workers
    ensures RestSafe(Step(s, w, c))
  {
    hide Step, SoloSafe;
    SoloStep(s, w, c);
    SoloIsAlone(s, w);
    ActsOnlyWhenRested(s, w, c);
    StepMoves(s, w, c);
    var s' := Step(s, w, c);
    forall v: nat ensures Rests(s', v) {
      assert Rests(s, v);
      if v != w && v in s.workers {
        OtherGroup(s, v, w);
        OtherGroupsKept(s, w, c, s.workers[v].key);
      }
    }
  }

  lemma OtherGroup(s: State, v: nat, w: nat)
    requires SoloSafe(s) && v in s.workers && w in s.workers && v != w
    ensures s.workers[v].key.group != s.workers[w].key.group
  {
  }

  lemma SoloIsAlone(s: State, w: nat)
    requires SoloSafe(s)
    ensures w in s.workers ==> PointOK(s, s.workers[w])
  {
    assert AloneOK(s, w);
  }

  lemma RestEvent(s: State, e: Event)
    requires RestSafe(s) && (e.Begin? ==> e.process == 0)
    ensures RestSafe(Apply(s, e))
  {
    hide SoloSafe, Apply, Step;
    SoloEvent(s, e);
    if e.Act? && e.worker in s.workers {
      ActIsStep(s, e.worker, e.choice);
      RestStep(s, e.worker, e.choice);
    } else {
      OthersAreAmbient(s, e);
      forall v: nat ensures Rests(Apply(s, e), v) {
        assert Rests(s, v);
      }
    }
  }

  lemma {:induction false} AlwaysRestSafe(now: int, events: seq<Event>)
    requires OneProcess(events)
    ensures RestSafe(Run(Initial(now), events))
    decreases |events|
  {
    hide SoloSafe, Apply;
    AlwaysSoloSafe(now, events);
    if events != [] {
      var last := |events| - 1;
      AlwaysRestSafe(now, events[..last]);
      RestEvent(Run(Initial(now), events[..last]), events[last]);
    }
  }

  /** With one process, for 15 minutes after a failed send nothing is done about the day: its
      row is not deleted or settled, its quote not computed again, nothing of it sent. */
  lemma FailuresRest(now: int, events: seq<Event>, w: nat)
    requires OneProcess(events)
    ensures var s := Run(Initial(now), events);
            w in s.workers && JustFailed(s, s.workers[w].key) ==>
              var pc := s.workers[w].pc;
              !ActsOnFailure(pc) && !BeforeRow(pc) && !pc.Sending?
  {
    AlwaysRestSafe(now, events);
    var s := Run(Initial(now), events);
    assert Rests(s, w);
    SoloIsAlone(s, w);
  }
}
