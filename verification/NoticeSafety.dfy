/** When a day can get a second boring notice. The retry of a failed notice sends straight
    from boring_notice_failed, so the promise of one notice needs the record of a retried
    notice not to be lost.
 */
module NoticeSafety {
  import opened QuoteTable
  import opened Telegram
  import opened Scheduler
  import opened QuoteSafety
  import opened SoloSafety
  import opened Steps

  predicate NoticeFailed(s: State, key: Key) {
    key in s.quotes && s.quotes[key].status == BoringNoticeFailed
  }

  /** The worker has sent a notice that may be out, and has yet to record it. */
  predicate RecordsNotice(s: State, w: nat, key: Key) {
    && w in s.workers && s.workers[w].key == key
    && var pc := s.workers[w].pc;
       pc.MarkingNotified? || (pc.Recording? && pc.outcome == BoringNoticeUnknown)
  }

  /** A notice that reached the group is on no record but a worker's, whose row still says the
      notice failed. */
  predicate OnlyWorkerKnows(s: State, w: nat) {
    && w in s.workers && RecordsNotice(s, w, s.workers[w].key) && NoticeFailed(s, s.workers[w].key)
    && Notices(s, s.workers[w].key) > 0
  }

  /** The event loses the record of a retried notice: its worker dies, or the last write
      that would have recorded it has no effect. */
  ghost predicate Loses(s: State, e: Event) {
    match e
    case Crash(process) =>
      exists w: nat :: OnlyWorkerKnows(s, w) && s.workers[w].process == process
    case Act(w, c) =>
      OnlyWorkerKnows(s, w) && s.workers[w].pc.Recording? && !Took(c)
    case _ => false
  }

  /** No event loses a record when they run from s. */
  ghost predicate Lossless(s: State, events: seq<Event>) {
    forall i :: 0 <= i < |events| ==> !Loses(Run(s, events[..i]), events[i])
  }

  ghost predicate NothingLost(now: int, events: seq<Event>) {
    Lossless(Initial(now), events)
  }

  ghost predicate HasRecorder(s: State, key: Key) {
    exists w: nat :: RecordsNotice(s, w, key)
  }

  ghost predicate NoticeDayOK(s: State, key: Key) {
    && Notices(s, key) <= 1
    && (NoticeFailed(s, key) && Notices(s, key) != 0 ==> HasRecorder(s, key))
  }

  predicate NoticeWorkerOK(s: State, w: nat) {
    w in s.workers ==>
      var pc := s.workers[w].pc;
      pc.SendingNotice? || pc == Rereading(NotifyingBoring)
      || (pc.Recording? && pc.outcome == BoringNoticeFailed) ==>
        Notices(s, s.workers[w].key) == 0
  }

  ghost predicate NoticeSafe(s: State) {
    && SoloSafe(s)
    && (forall k :: NoticeDayOK(s, k))
    && (forall w: nat :: NoticeWorkerOK(s, w))
  }

  lemma NoticeStep(s: State, s': State, w: nat)
    requires NoticeSafe(s) && SoloSafe(s') && w in s.workers
    requires OthersSame(s, s', w) && (w in s'.workers ==> s'.workers[w].key == s.workers[w].key)
    requires forall k :: k != s.workers[w].key ==>
               Notices(s', k) == Notices(s, k) && (NoticeFailed(s', k) ==> NoticeFailed(s, k))
    requires var key := s.workers[w].key;
             && Notices(s', key) <= 1
             && (NoticeFailed(s', key) && Notices(s', key) != 0 ==> RecordsNotice(s', w, key))
    requires NoticeWorkerOK(s', w)
    ensures NoticeSafe(s')
  {
    var key := s.workers[w].key;
    forall k ensures NoticeDayOK(s', k) {
      assert NoticeDayOK(s, k);
      if k != key && NoticeFailed(s', k) && Notices(s', k) != 0 {
        var v: nat :| RecordsNotice(s, v, k);
        assert RecordsNotice(s', v, k);
      }
    }
    forall v: nat ensures NoticeWorkerOK(s', v) {
      assert NoticeWorkerOK(s, v);
      if v != w && v in s.workers {
        assert s.workers[v].key != key;
      }
    }
  }

  /** The recorder of the worker's own day can only be the worker. */
  lemma OnlyRecorder(s: State, w: nat)
    requires NoticeSafe(s) && w in s.workers
    requires NoticeFailed(s, s.workers[w].key) && Notices(s, s.workers[w].key) != 0
    ensures RecordsNotice(s, w, s.workers[w].key)
  {
    var key := s.workers[w].key;
    assert NoticeDayOK(s, key);
    var v: nat :| RecordsNotice(s, v, key);
    assert v == w;
  }

  /** A step that neither sends a notice nor gives a row the status of a failed one. */
  lemma QuietStep(s: State, s': State, w: nat)
    requires NoticeSafe(s) && SoloSafe(s') && w in s.workers && !RecordsNotice(s, w, s.workers[w].key)
    requires OthersSame(s, s', w) && (w in s'.workers ==> s'.workers[w].key == s.workers[w].key)
    requires s'.notices == s.notices
    requires forall k :: NoticeFailed(s', k) ==> NoticeFailed(s, k)
    requires w in s'.workers ==>
               var pc := s'.workers[w].pc;
               && (pc.SendingNotice? ==>
                     NoticeFailed(s, s.workers[w].key) || s.workers[w].pc == Rereading(NotifyingBoring))
               && pc != Rereading(NotifyingBoring) && !(pc.Recording? && pc.outcome == BoringNoticeFailed)
    ensures NoticeSafe(s')
  {
    var key := s.workers[w].key;
    assert NoticeDayOK(s, key) && NoticeWorkerOK(s, w);
    if NoticeFailed(s, key) && Notices(s, key) != 0 {
      OnlyRecorder(s, w);
    }
    NoticeStep(s, s', w);
  }

  // ----- Each kind of step -----

  lemma EnterStep(s: State, w: nat, c: Choice)
    requires NoticeSafe(s) && w in s.workers && s.workers[w].pc.Entry? && SoloSafe(Enter(s, w, c))
    ensures NoticeSafe(Enter(s, w, c))
  {
    QuietStep(s, Enter(s, w, c), w);
  }

  lemma ReadStep(s: State, w: nat, c: Choice)
    requires NoticeSafe(s) && w in s.workers && SoloSafe(Step(s, w, c))
    requires var pc := s.workers[w].pc; pc.Counting? || pc.Listing? || pc.Evaluating?
    ensures NoticeSafe(Step(s, w, c))
  {
    hide SoloSafe, NoticeSafe, Window, Eligible;
    match s.workers[w].pc
    case Counting => QuietStep(s, CountWindow(s, w, c), w);
    case Listing => QuietStep(s, ListWindow(s, w, c), w);
    case Evaluating => QuietStep(s, Evaluate(s, w, c), w);
  }

  lemma RereadStep(s: State, w: nat, c: Choice)
    requires NoticeSafe(s) && w in s.workers && s.workers[w].pc.Rereading? && SoloSafe(Reread(s, w, c))
    ensures NoticeSafe(Reread(s, w, c))
  {
    QuietStep(s, Reread(s, w, c), w);
  }

  lemma LookUpStep(s: State, w: nat, c: Choice)
    requires NoticeSafe(s) && w in s.workers && s.workers[w].pc.LookingUp? && SoloSafe(LookUp(s, w, c))
    ensures NoticeSafe(LookUp(s, w, c))
  {
    PlanSendsAfterFailure(s, w);
    QuietStep(s, LookUp(s, w, c), w);
  }

  lemma PlanSendsAfterFailure(s: State, w: nat)
    requires w in s.workers
    ensures var me := s.workers[w];
            me.key in s.quotes ==>
              var pc := PlanFor(s.quotes[me.key], me.group, s.now);
              (pc.SendingNotice? ==> NoticeFailed(s, me.key)) && !pc.Rereading? && !pc.Recording?
  {
  }

  lemma ClearStep(s: State, w: nat, c: Choice)
    requires NoticeSafe(s) && w in s.workers && SoloSafe(Step(s, w, c))
    requires var pc := s.workers[w].pc;
             pc.ClearingSmallDay? || pc.ClearingTagged? || pc.ClearingBoring? || pc.Clearing? || pc.Finished?
    ensures NoticeSafe(Step(s, w, c))
  {
    hide SoloSafe, NoticeSafe;
    if s.workers[w].pc.Clearing? {
      QuietStep(s, Clear(s, w, c), w);
    } else if s.workers[w].pc.Finished? {
      QuietStep(s, Release(s, w), w);
    } else {
      QuietStep(s, ClearDay(s, w, c), w);
    }
  }

  lemma WriteOffIsStep(s: State, w: nat, c: Choice)
    requires w in s.workers && s.workers[w].pc.WritingOff?
    ensures Step(s, w, c) == WriteOff(s, w, c)
  {
  }

  lemma OffQuiet(s: State, s': State, w: nat, p: Snapshot)
    requires NoticeSafe(s) && SoloSafe(s') && w in s.workers && s.workers[w].pc.WritingOff?
    requires OthersSame(s, s', w) && w in s'.workers && s'.workers[w].key == s.workers[w].key
    requires s'.workers[w].pc.WritingOff? || s'.workers[w].pc.Finished? || s'.workers[w].pc.LookingUp?
    requires s'.notices == s.notices
    requires s'.quotes == s.quotes || s'.quotes == SetStatus(s.quotes, p.id, OffStatus(p), s.now)
    ensures NoticeSafe(s')
  {
    forall k ensures NoticeFailed(s', k) ==> NoticeFailed(s, k) {
      if s'.quotes != s.quotes { WrittenOff(s.quotes, s'.quotes, p, s.now, k); }
    }
    QuietStep(s, s', w);
  }

  lemma WriteOffStep(s: State, w: nat, c: Choice)
    requires NoticeSafe(s) && w in s.workers && s.workers[w].pc.WritingOff? && SoloSafe(WriteOff(s, w, c))
    ensures NoticeSafe(WriteOff(s, w, c))
  {
    hide WriteOff, Step, SoloSafe, NoticeSafe;
    WriteOffShape(s, w, c);
    StepLeavesOthers(s, w, c);
    WriteOffIsStep(s, w, c);
    OffQuiet(s, WriteOff(s, w, c), w, c.pick);
  }

  lemma DeleteStep(s: State, w: nat, c: Choice)
    requires NoticeSafe(s) && w in s.workers && s.workers[w].pc.Deleting? && SoloSafe(DeleteFailed(s, w, c))
    ensures NoticeSafe(DeleteFailed(s, w, c))
  {
    QuietStep(s, DeleteFailed(s, w, c), w);
  }

  lemma MarkQuoteStep(s: State, w: nat, c: Choice)
    requires NoticeSafe(s) && w in s.workers && s.workers[w].pc.MarkingPublished? && SoloSafe(MarkQuote(s, w, c))
    ensures NoticeSafe(MarkQuote(s, w, c))
  {
    QuietStep(s, MarkQuote(s, w, c), w);
  }

  lemma SettleStep(s: State, w: nat, c: Choice)
    requires NoticeSafe(s) && w in s.workers && s.workers[w].pc.Settling? && SoloSafe(Settle(s, w, c))
    ensures NoticeSafe(Settle(s, w, c))
  {
    QuietStep(s, Settle(s, w, c), w);
  }

  lemma SendQuoteStep(s: State, w: nat, c: Choice)
    requires NoticeSafe(s) && w in s.workers && s.workers[w].pc.Sending? && SoloSafe(Send(s, w, c))
    ensures NoticeSafe(Send(s, w, c))
  {
    if Possible(c.attempt) {
      QuietStep(s, Send(s, w, c), w);
    }
  }

  lemma CreateStep(s: State, w: nat, c: Choice)
    requires NoticeSafe(s) && w in s.workers && s.workers[w].pc.Creating? && SoloSafe(Create(s, w, c))
    ensures NoticeSafe(Create(s, w, c))
  {
    var key := s.workers[w].key;
    assert AloneOK(s, w) && WorkerOK(s, w) && DayOK(View(s, key));
    assert Notices(s, key) == 0;
    NoticeStep(s, Create(s, w, c), w);
  }

  lemma SendNoticeStep(s: State, w: nat, c: Choice)
    requires NoticeSafe(s) && w in s.workers && s.workers[w].pc.SendingNotice? && SoloSafe(SendNotice(s, w, c))
    ensures NoticeSafe(SendNotice(s, w, c))
  {
    assert NoticeWorkerOK(s, w);
    if Possible(c.attempt) {
      NoticeStep(s, SendNotice(s, w, c), w);
    }
  }

  lemma MarkNoticeStep(s: State, w: nat, c: Choice)
    requires NoticeSafe(s) && w in s.workers && s.workers[w].pc.MarkingNotified? && SoloSafe(MarkNotice(s, w, c))
    ensures NoticeSafe(MarkNotice(s, w, c))
  {
    var key := s.workers[w].key;
    assert WorkerOK(s, w) && NoticeDayOK(s, key);
    NoticeStep(s, MarkNotice(s, w, c), w);
  }

  lemma RecordStep(s: State, w: nat, c: Choice)
    requires NoticeSafe(s) && w in s.workers && s.workers[w].pc.Recording? && SoloSafe(Record(s, w, c))
    requires !Loses(s, Act(w, c))
    ensures NoticeSafe(Record(s, w, c))
  {
    var key, id := s.workers[w].key, s.workers[w].pc.id;
    assert WorkerOK(s, w) && NoticeDayOK(s, key) && NoticeWorkerOK(s, w);
    OwnId(s, w, id);
    if NoticeFailed(s, key) && Notices(s, key) != 0 {
      OnlyRecorder(s, w);
    }
    NoticeStep(s, Record(s, w, c), w);
  }

  lemma ActStep(s: State, w: nat, c: Choice)
    requires NoticeSafe(s) && w in s.workers && !Loses(s, Act(w, c))
    ensures NoticeSafe(Step(s, w, c))
  {
    SoloStep(s, w, c);
    match s.workers[w].pc
    case Entry => EnterStep(s, w, c);
    case LookingUp => LookUpStep(s, w, c);
    case Counting => ReadStep(s, w, c);
    case Listing => ReadStep(s, w, c);
    case Evaluating => ReadStep(s, w, c);
    case Rereading(_) => RereadStep(s, w, c);
    case WritingOff(_) => WriteOffStep(s, w, c);
    case Deleting(_) => DeleteStep(s, w, c);
    case MarkingPublished(_, _) => MarkQuoteStep(s, w, c);
    case Settling(_) => SettleStep(s, w, c);
    case Creating(_) => CreateStep(s, w, c);
    case Sending(_, _, _) => SendQuoteStep(s, w, c);
    case SendingNotice(_, _) => SendNoticeStep(s, w, c);
    case MarkingNotified(_, _) => MarkNoticeStep(s, w, c);
    case Recording(_, _) => RecordStep(s, w, c);
    case _ => ClearStep(s, w, c);
  }

  /** Nothing about notices changes, and their recorders live on. */
  lemma AmbientStep(s: State, s': State)
    requires NoticeSafe(s) && SoloSafe(s')
    requires s'.quotes == s.quotes && s'.notices == s.notices
    requires forall w: nat :: w in s.workers && w in s'.workers ==> s'.workers[w] == s.workers[w]
    requires forall w: nat :: w in s'.workers && w !in s.workers ==> s'.workers[w].pc.Entry?
    requires forall w: nat :: w in s.workers && w !in s'.workers ==> !OnlyWorkerKnows(s, w)
    ensures NoticeSafe(s')
  {
    forall k ensures NoticeDayOK(s', k) {
      assert NoticeDayOK(s, k);
      if NoticeFailed(s, k) && Notices(s, k) != 0 {
        var v: nat :| RecordsNotice(s, v, k);
        assert RecordsNotice(s', v, k);
      }
    }
    forall w: nat ensures NoticeWorkerOK(s', w) { assert NoticeWorkerOK(s, w); }
  }

  lemma CrashStep(s: State, process: nat)
    requires NoticeSafe(s) && SoloSafe(Apply(s, Crash(process))) && !Loses(s, Crash(process))
    ensures NoticeSafe(Apply(s, Crash(process)))
  {
    var s' := Apply(s, Crash(process));
    forall w: nat | w in s.workers && w !in s'.workers
      ensures !OnlyWorkerKnows(s, w)
    {
      assert s.workers[w].process == process;
    }
    AmbientStep(s, s');
  }

  lemma BeginStep(s: State, w: nat, process: nat, key: Key, group: Settings)
    requires NoticeSafe(s) && SoloSafe(Apply(s, Begin(w, process, key, group)))
    ensures NoticeSafe(Apply(s, Begin(w, process, key, group)))
  {
    if w !in s.workers && !Locked(s, process, key.group) {
      AmbientStep(s, s.(workers := s.workers[w := Worker(process, key, group, s.now, Entry)]));
    }
  }

  lemma IdleStep(s: State, e: Event)
    requires NoticeSafe(s) && (e.Advance? || e.Arrive? || e.Retain?) && SoloSafe(Apply(s, e))
    ensures NoticeSafe(Apply(s, e))
  {
    AmbientStep(s, Apply(s, e));
  }

  lemma NoticeEvent(s: State, e: Event)
    requires NoticeSafe(s) && (e.Begin? ==> e.process == 0) && !Loses(s, e)
    ensures NoticeSafe(Apply(s, e))
  {
    SoloEvent(s, e);
    match e
    case Act(w, c) => if w in s.workers { ActStep(s, w, c); }
    case Crash(process) => CrashStep(s, process);
    case Begin(w, process, key, group) => BeginStep(s, w, process, key, group);
    case _ => IdleStep(s, e);
  }

  lemma {:induction false} NoticesWhileNothingLost(now: int, events: seq<Event>)
    requires OneProcess(events) && NothingLost(now, events)
    ensures NoticeSafe(Run(Initial(now), events))
    decreases |events|
  {
    hide Apply, SoloSafe, Loses;
    if events == [] {
      BeginsNoticeSafe(now);
    } else {
      var last := |events| - 1;
      var before := events[..last];
      forall i | 0 <= i < |before| ensures !Loses(Run(Initial(now), before[..i]), before[i]) {
        assert before[..i] == events[..i];
      }
      NoticesWhileNothingLost(now, before);
      NoticeEvent(Run(Initial(now), before), events[last]);
    }
  }

  lemma BeginsNoticeSafe(now: int)
    ensures NoticeSafe(Run(Initial(now), []))
  {
    AlwaysSoloSafe(now, []);
  }

  /** With one process, a day gets at most one boring notice as long as no record of a
      retried notice is lost. */
  lemma AtMostOneNotice(now: int, events: seq<Event>, key: Key)
    requires OneProcess(events) && NothingLost(now, events)
    ensures Notices(Run(Initial(now), events), key) <= 1
  {
    NoticesWhileNothingLost(now, events);
    assert NoticeDayOK(Run(Initial(now), events), key);
  }

  // ----- A lost record does cost a second notice -----

  function Fine(answer: Answer, pick: Snapshot): Choice {
    Choice(true, true, Attempt(answer, true), false, true, false, Interrupted, pick)
  }

  lemma OffKeepsOther(s: State, w: nat, pick: Snapshot, id: nat)
    requires w in s.workers && s.workers[w].pc.WritingOff? && pick in s.workers[w].pc.stale && pick.id != id
    requires HasRow(s, s.workers[w].key, id)
    ensures var s' := WriteOff(s, w, Fine(NoAnswer, pick));
            var key := s.workers[w].key;
            && w in s'.workers && s'.workers[w] == s.workers[w].(pc := WritingOff(s.workers[w].pc.stale - {pick}))
            && key in s'.quotes && s'.quotes[key] == s.quotes[key]
            && s'.notices == s.notices && s'.now == s.now
  {
  }

  lemma OffLosesNothing(s: State, w: nat, c: Choice)
    requires w in s.workers && s.workers[w].pc.WritingOff?
    ensures Apply(s, Act(w, c)) == WriteOff(s, w, c) && !Loses(s, Act(w, c))
  {
    WriteOffIsStep(s, w, c);
  }

  lemma LosslessOne(s: State, e: Event)
    requires !Loses(s, e)
    ensures Lossless(s, [e])
  {
    hide Loses;
    assert [e][..0] == [];
  }

  lemma LosslessJoined(s: State, first: seq<Event>, second: seq<Event>)
    ensures Lossless(s, first + second) <==> Lossless(s, first) && Lossless(Run(s, first), second)
  {
    hide Loses, Apply;
    var all := first + second;
    forall i | 0 <= i < |first| ensures all[..i] == first[..i] && all[i] == first[i] {
    }
    forall i | 0 <= i < |second|
      ensures Run(s, all[..|first| + i]) == Run(Run(s, first), second[..i]) && all[|first| + i] == second[i]
    {
      assert all[..|first| + i] == first + second[..i];
      RunJoined(s, first, second[..i]);
    }
    if Lossless(s, all) {
      forall i | 0 <= i < |second| ensures !Loses(Run(Run(s, first), second[..i]), second[i]) {
        assert !Loses(Run(s, all[..|first| + i]), all[|first| + i]);
      }
      forall i | 0 <= i < |first| ensures !Loses(Run(s, first[..i]), first[i]) {
        assert !Loses(Run(s, all[..i]), all[i]);
      }
    }
    if Lossless(s, first) && Lossless(Run(s, first), second) {
      forall i | 0 <= i < |all| ensures !Loses(Run(s, all[..i]), all[i]) {
        if i >= |first| {
          var j := i - |first|;
          assert all[..|first| + j] == all[..i] && !Loses(Run(Run(s, first), second[..j]), second[j]);
        } else {
          assert !Loses(Run(s, first[..i]), first[i]);
        }
      }
    }
  }

  /** The worker writes its stale rows off, one by one; a row of another id stays. */
  lemma {:induction false} WritesOffAll(s: State, w: nat, id: nat) returns (events: seq<Event>)
    requires w in s.workers && s.workers[w].pc.WritingOff?
    requires HasRow(s, s.workers[w].key, id)
    requires forall p :: p in s.workers[w].pc.stale ==> p.id != id
    ensures OneProcess(events) && Lossless(s, events)
    ensures var s', key := Run(s, events), s.workers[w].key;
            && w in s'.workers && s'.workers[w] == s.workers[w].(pc := LookingUp)
            && key in s'.quotes && s'.quotes[key] == s.quotes[key]
            && s'.notices == s.notices && s'.now == s.now
    decreases |s.workers[w].pc.stale|
  {
    var stale := s.workers[w].pc.stale;
    if stale == {} {
      var e := Act(w, Fine(NoAnswer, Snapshot(0, Publishing)));
      events := [e];
      OneEvent(s, e);
      LosslessOne(s, e);
      assert Apply(s, e) == Goto(s, w, LookingUp);
    } else {
      hide Run, Apply, Loses, Lossless, WriteOff;
      var pick :| pick in stale;
      var e := Act(w, Fine(NoAnswer, pick));
      OffLosesNothing(s, w, e.choice);
      OffKeepsOther(s, w, pick, id);
      var rest := WritesOffAll(Apply(s, e), w, id);
      RunFirst(s, e, rest);
      OneEvent(s, e);
      LosslessOne(s, e);
      LosslessJoined(s, [e], rest);
      events := [e] + rest;
    }
  }

  /** A run that looks its day up, the failed notice being due, sends it. */
  lemma LookedUpSends(s: State, w: nat, id: nat) returns (events: seq<Event>)
    requires w in s.workers && s.workers[w].pc.LookingUp? && s.workers[w].group.boringNotice
    requires HasRow(s, s.workers[w].key, id) && NoticeFailed(s, s.workers[w].key)
    requires var row := s.quotes[s.workers[w].key]; row.noticeMessageId == 0 && RetryDue(row, s.now)
    ensures OneProcess(events) && Lossless(s, events)
    ensures var key, s' := s.workers[w].key, Run(s, events);
            && Notices(s', key) == Notices(s, key) + 1
            && s'.quotes == s.quotes && w in s'.workers
            && s'.workers[w] == s.workers[w].(pc := MarkingNotified(id, 1))
  {
    var look := Act(w, Fine(NoAnswer, Snapshot(0, Publishing)));
    var send := Act(w, Fine(Accepted(1), Snapshot(0, Publishing)));
    events := [look] + [send];
    var s1 := LookUp(s, w, look.choice);
    assert s1 == Goto(s, w, SendingNotice(id, 1));
    OneEvent(s, look);
    OneEvent(s1, send);
    RunJoined(s, [look], [send]);
    LosslessOne(s, look);
    LosslessOne(s1, send);
    LosslessJoined(s, [look], [send]);
    assert Apply(s1, send) == SendNotice(s1, w, send.choice);
  }

  lemma StartsThree(s: State, advance: Event, begin: Event, enter: Event)
    requires advance.Advance? && begin.Begin?
    requires var s2 := Apply(Apply(s, advance), begin);
             enter.Act? && enter.worker in s2.workers && s2.workers[enter.worker].pc == Entry
    ensures var events := [advance] + ([begin] + [enter]);
            && Run(s, events) == Apply(Apply(Apply(s, advance), begin), enter)
            && Lossless(s, events)
  {
    hide Apply, Run;
    var s1 := Apply(s, advance);
    var s2 := Apply(s1, begin);
    OneEvent(s, advance);
    OneEvent(s1, begin);
    OneEvent(s2, enter);
    RunJoined(s, [advance], [begin] + [enter]);
    RunJoined(s1, [begin], [enter]);
    LosslessOne(s, advance);
    LosslessOne(s1, begin);
    LosslessOne(s2, enter);
    LosslessJoined(s1, [begin], [enter]);
    LosslessJoined(s, [advance], [begin] + [enter]);
  }

  lemma FailedIsNotStale(s: State, key: Key, cut: int)
    requires SoloSafe(s) && NoticeFailed(s, key)
    ensures forall p :: p in StaleRows(s.quotes, key.group, cut) ==> p.id != s.quotes[key].id
  {
    assert IssuedOK(s, key);
    forall p | p in StaleRows(s.quotes, key.group, cut) ensures p.id != s.quotes[key].id {
      var k :| k in s.quotes && InProgress(s.quotes[k].status) && p == Snapshot(s.quotes[k].id, s.quotes[k].status);
      assert IssuedOK(s, k);
    }
  }

  lemma BeginsFresh(s: State, w: nat, key: Key, wait: nat)
    requires w !in s.workers && !Locked(s, 0, key.group)
    ensures Apply(Apply(s, Advance(wait)), Begin(w, 0, key, GROUP)) ==
              s.(now := s.now + wait, workers := s.workers[w := Worker(0, key, GROUP, s.now + wait, Entry)])
  {
    assert !Locked(Apply(s, Advance(wait)), 0, key.group);
  }

  lemma EntersRecovery(s: State, w: nat, c: Choice)
    requires w in s.workers && s.workers[w].pc == Entry && s.workers[w].group == GROUP && c.acknowledged
    ensures var s', me := Apply(s, Act(w, c)), s.workers[w];
            && w in s'.workers && s'.quotes == s.quotes && s'.notices == s.notices && s'.now == s.now
            && s'.workers[w] == me.(cut := s.now - STALE_AFTER,
                                    pc := WritingOff(StaleRows(s.quotes, me.key.group, s.now - STALE_AFTER)))
  {
    hide StaleRows;
    assert Apply(s, Act(w, c)) == Enter(s, w, c);
  }

  /** A fresh run gets past the gate and asks for stale rows; its own is not one. */
  lemma StartsRecovery(s: State, w: nat, key: Key, wait: nat) returns (events: seq<Event>)
    requires SoloSafe(s) && w !in s.workers && !Locked(s, 0, key.group) && NoticeFailed(s, key)
    ensures OneProcess(events) && Lossless(s, events)
    ensures var s' := Run(s, events);
            && w in s'.workers && s'.workers[w].key == key && s'.workers[w].process == 0
            && s'.workers[w].pc.WritingOff?
            && s'.workers[w].group.boringNotice
            && s'.quotes == s.quotes && s'.notices == s.notices && s'.now == s.now + wait
            && (forall p :: p in s'.workers[w].pc.stale ==> p.id != s.quotes[key].id)
  {
    hide SoloSafe, StaleRows, Run, Lossless, Apply, Locked;
    var advance, begin := Advance(wait), Begin(w, 0, key, GROUP);
    var enter := Act(w, Fine(NoAnswer, Snapshot(0, Publishing)));
    events := [advance] + ([begin] + [enter]);
    BeginsFresh(s, w, key, wait);
    StartsThree(s, advance, begin, enter);
    var s2 := Apply(Apply(s, advance), begin);
    EntersRecovery(s2, w, enter.choice);
    FailedIsNotStale(s, key, s2.now - STALE_AFTER);
  }

  /** From any state that leaves a day's notice recorded as failed, with no run of the
      group alive, one more run delivers one more notice: nothing in the row tells it that
      the earlier notice went out. */
  lemma FailedNoticeIsSentAgain(s: State, w: nat, key: Key) returns (events: seq<Event>)
    requires SoloSafe(s) && w !in s.workers && !Locked(s, 0, key.group)
    requires NoticeFailed(s, key) && s.quotes[key].noticeMessageId == 0
    ensures OneProcess(events) && Lossless(s, events)
    ensures var s' := Run(s, events);
            && Notices(s', key) == Notices(s, key) + 1
            && OnlyWorkerKnows(s', w) && s'.workers[w].key == key && s'.workers[w].process == 0
  {
    hide SoloSafe, Run, Lossless, Locked, RetryDue;
    var id := s.quotes[key].id;
    var start := StartsRecovery(s, w, key, DueTime(s.quotes[key], s.now));
    var s1 := Run(s, start);
    var recover := WritesOffAll(s1, w, id);
    var s2 := Run(s1, recover);
    var resend := LookedUpSends(s2, w, id);
    events := start + (recover + resend);
    RunJoined(s, start, recover + resend);
    RunJoined(s1, recover, resend);
    LosslessJoined(s1, recover, resend);
    LosslessJoined(s, start, recover + resend);
  }

  /** How long to wait until the row may be retried. */
  function DueTime(row: Row, now: int): (wait: nat)
    ensures RetryDue(row, now + wait)
  {
    var changed := if row.changedAt == 0 then row.createdAt else row.changedAt;
    if changed + RETRY_AFTER > now then changed + RETRY_AFTER - now else 0
  }

  // ----- A failed notice has no message on record -----

  /** The day's row names the message of a notice. */
  predicate Named(s: State, key: Key) {
    key in s.quotes && s.quotes[key].noticeMessageId != 0
  }

  predicate Closed(st: Status) {
    st == SkippedBoring || st == BoringNoticeUnknown
  }

  /** Points from which a notice may yet be called failed. */
  predicate MayFail(pc: Pc) {
    || pc.SendingNotice? || pc.MarkingNotified? || pc == Rereading(NotifyingBoring)
    || (pc.Recording? && pc.outcome == BoringNoticeFailed)
  }

  predicate FailsUnnamed(s: State, w: nat) {
    w in s.workers && MayFail(s.workers[w].pc) ==> !Named(s, s.workers[w].key)
  }

  predicate NamedClosed(s: State, key: Key) {
    Named(s, key) ==> Closed(s.quotes[key].status)
  }

  ghost predicate NameSafe(s: State) {
    && SoloSafe(s)
    && (forall k :: NamedClosed(s, k))
    && (forall w: nat :: FailsUnnamed(s, w))
  }

  lemma NameStep(s: State, s': State, w: nat)
    requires NameSafe(s) && SoloSafe(s') && w in s.workers && OthersSame(s, s', w)
    requires w in s'.workers ==> s'.workers[w].key == s.workers[w].key
    requires forall k :: NamedClosed(s', k) && (k != s.workers[w].key && Named(s', k) ==> Named(s, k))
    requires FailsUnnamed(s', w)
    ensures NameSafe(s')
  {
    hide SoloSafe;
    forall v: nat ensures FailsUnnamed(s', v) {
      assert FailsUnnamed(s, v);
      if v != w && v in s.workers {
        GroupsDiffer(s, v, w);
      }
    }
  }

  lemma GroupsDiffer(s: State, v: nat, w: nat)
    requires SoloSafe(s) && v in s.workers && w in s.workers && v != w
    ensures s.workers[v].key != s.workers[w].key
  {
  }

  lemma StepLeavesOthers(s: State, w: nat, c: Choice)
    requires w in s.workers
    ensures OthersSame(s, Step(s, w, c), w)
    ensures w in Step(s, w, c).workers ==> Step(s, w, c).workers[w].key == s.workers[w].key
  {
    hide Step;
    StepMoves(s, w, c);
  }

  /** A step that leaves the table alone. */
  lemma NameKept(s: State, w: nat, c: Choice)
    requires NameSafe(s) && w in s.workers && SoloSafe(Step(s, w, c)) && Step(s, w, c).quotes == s.quotes
    requires var s' := Step(s, w, c);
             w in s'.workers && MayFail(s'.workers[w].pc) ==>
               MayFail(s.workers[w].pc) || !Named(s, s.workers[w].key)
    ensures NameSafe(Step(s, w, c))
  {
    hide Step, SoloSafe;
    StepLeavesOthers(s, w, c);
    var s' := Step(s, w, c);
    assert FailsUnnamed(s, w);
    forall k ensures NamedClosed(s', k) { assert NamedClosed(s, k); }
    NameStep(s, s', w);
  }

  predicate ReadsOnly(pc: Pc) {
    !pc.WritingOff? && !pc.Deleting? && !pc.Creating? && !pc.MarkingPublished? && !pc.MarkingNotified?
    && !pc.Recording? && !pc.Settling?
  }

  lemma GathersNeverFail(s: State, w: nat, c: Choice)
    requires w in s.workers
    ensures !MayFail(Enter(s, w, c).workers[w].pc) && !MayFail(CountWindow(s, w, c).workers[w].pc)
    ensures !MayFail(ListWindow(s, w, c).workers[w].pc) && !MayFail(Evaluate(s, w, c).workers[w].pc)
    ensures !MayFail(ClearDay(s, w, c).workers[w].pc) && !MayFail(Clear(s, w, c).workers[w].pc)
  {
    hide StaleRows, Window, Eligible;
  }

  lemma LooksUpUnnamed(s: State, w: nat, c: Choice)
    requires w in s.workers
    ensures MayFail(LookUp(s, w, c).workers[w].pc) ==> !Named(s, s.workers[w].key)
    ensures s.workers[w].pc.Rereading? && MayFail(Reread(s, w, c).workers[w].pc) ==>
              MayFail(s.workers[w].pc)
  {
    hide IsTerminal, RetryDue;
  }

  lemma ReadOnlyStep(s: State, w: nat, c: Choice)
    requires w in s.workers && ReadsOnly(s.workers[w].pc)
    ensures var s' := Step(s, w, c);
            && s'.quotes == s.quotes
            && (w in s'.workers && MayFail(s'.workers[w].pc) ==>
                  MayFail(s.workers[w].pc) || !Named(s, s.workers[w].key))
  {
    hide Enter, WriteOff, LookUp, DeleteFailed, CountWindow, ClearDay, ListWindow, Evaluate, Create, Reread, Send,
         SendNotice, MarkQuote, MarkNotice, Record, Settle, Clear;
    GathersNeverFail(s, w, c);
    LooksUpUnnamed(s, w, c);
    match s.workers[w].pc
    case Sending(_, _, _) => SendIs(s, w, c);
    case _ =>
  }

  /** A step that gives no row a message id, and no named row another status. */
  lemma NameWrite(s: State, w: nat, c: Choice)
    requires NameSafe(s) && w in s.workers && SoloSafe(Step(s, w, c))
    requires var s' := Step(s, w, c);
             && (forall k :: Named(s', k) ==> Named(s, k) && Closed(s'.quotes[k].status))
             && (w in s'.workers ==> !MayFail(s'.workers[w].pc))
    ensures NameSafe(Step(s, w, c))
  {
    hide Step, SoloSafe;
    StepLeavesOthers(s, w, c);
    NameStep(s, Step(s, w, c), w);
  }

  ghost predicate NamesClosed(t: Table) {
    forall k :: k in t && t[k].noticeMessageId != 0 ==> Closed(t[k].status)
  }

  /** No row of the new table is named that was not, and named rows are closed. */
  ghost predicate KeepsNames(t: Table, t': Table) {
    forall k :: k in t' && t'[k].noticeMessageId != 0 ==>
      k in t && t[k].noticeMessageId != 0 && Closed(t'[k].status)
  }

  lemma StatusKeepsNames(t: Table, id: nat, st: Status, now: int)
    requires NamesClosed(t)
    requires Closed(st) || forall k :: k in t && t[k].id == id ==> t[k].noticeMessageId == 0
    ensures KeepsNames(t, SetStatus(t, id, st, now))
  {
  }

  lemma PublishedKeepsNames(t: Table, id: nat, message: nat, now: int)
    requires NamesClosed(t) && forall k :: k in t && t[k].id == id ==> t[k].noticeMessageId == 0
    ensures KeepsNames(t, MarkPublished(t, id, message, now))
  {
  }

  lemma DeleteKeepsNames(t: Table, id: nat)
    requires NamesClosed(t)
    ensures KeepsNames(t, Delete(t, id)) && KeepsNames(t, t)
  {
  }

  /** A row read as in progress and since named is of a boring day, and is written off so. */
  lemma OffKeepsNames(s: State, w: nat, p: Snapshot)
    requires Safe(s) && w in s.workers && s.workers[w].pc.WritingOff? && p in s.workers[w].pc.stale
    requires NamesClosed(s.quotes)
    ensures KeepsNames(s.quotes, SetStatus(s.quotes, p.id, OffStatus(p), s.now))
  {
    assert WorkerOK(s, w) && StaleKept(s, p);
    forall k | k in s.quotes && s.quotes[k].id == p.id && s.quotes[k].noticeMessageId != 0
      ensures Closed(OffStatus(p))
    {
      assert IssuedOK(s, k);
      assert RowOf(s.quotes, k) == BoringDay(p.id);
    }
    StatusKeepsNames(s.quotes, p.id, OffStatus(p), s.now);
  }

  // What the writing steps make of the table, and where they leave the worker.

  lemma WriteOffShape(s: State, w: nat, c: Choice)
    requires w in s.workers && s.workers[w].pc.WritingOff?
    ensures var s', p := WriteOff(s, w, c), c.pick;
            && (s'.quotes == s.quotes
                || (p in s.workers[w].pc.stale && s'.quotes == SetStatus(s.quotes, p.id, OffStatus(p), s.now)))
            && s'.notices == s.notices && w in s'.workers
            && var pc := s'.workers[w].pc; pc.WritingOff? || pc.Finished? || pc.LookingUp?
  {
    hide SetStatus, OffStatus, Goto;
    var stale, p := s.workers[w].pc.stale, c.pick;
    if stale == {} {
      assert WriteOff(s, w, c) == Goto(s, w, LookingUp);
    } else if p in stale {
      var s1 := Write(s, SetStatus(s.quotes, p.id, OffStatus(p), s.now), c);
      var pc := if c.acknowledged then WritingOff(stale - {p}) else Finished(false);
      assert WriteOff(s, w, c) == Goto(s1, w, pc);
    }
  }

  lemma DeleteShape(s: State, w: nat, c: Choice)
    requires w in s.workers && s.workers[w].pc.Deleting?
    ensures var s' := DeleteFailed(s, w, c);
            && (s'.quotes == s.quotes || s'.quotes == Delete(s.quotes, s.workers[w].pc.id))
            && w in s'.workers && !MayFail(s'.workers[w].pc)
  {
    hide Delete, Holds;
  }

  lemma SettleShape(s: State, w: nat, c: Choice)
    requires w in s.workers && s.workers[w].pc.Settling?
    ensures var s' := Settle(s, w, c);
            && (s'.quotes == s.quotes
                || s'.quotes == SetStatus(s.quotes, s.workers[w].pc.id, SkippedBoring, s.now))
            && w in s'.workers && !MayFail(s'.workers[w].pc)
  {
    hide SetStatus;
  }

  lemma RecordShape(s: State, w: nat, c: Choice)
    requires w in s.workers && s.workers[w].pc.Recording?
    ensures var s', pc := Record(s, w, c), s.workers[w].pc;
            && s'.quotes == (if Took(c) then SetStatus(s.quotes, pc.id, pc.outcome, s.now) else s.quotes)
            && s'.notices == s.notices && s'.messages == s.messages && s'.now == s.now
            && s'.workers == s.workers[w := s.workers[w].(pc := Finished(false))]
  {
    hide SetStatus;
  }

  lemma MarkQuoteShape(s: State, w: nat, c: Choice)
    requires w in s.workers && s.workers[w].pc.MarkingPublished?
    ensures var s', pc := MarkQuote(s, w, c), s.workers[w].pc;
            && (s'.quotes == s.quotes || s'.quotes == MarkPublished(s.quotes, pc.id, pc.message, s.now))
            && w in s'.workers && !MayFail(s'.workers[w].pc)
  {
    hide MarkPublished;
  }

  lemma MarkNoticeShape(s: State, w: nat, c: Choice)
    requires w in s.workers && s.workers[w].pc.MarkingNotified?
    ensures var s', pc := Step(s, w, c), s.workers[w].pc;
            && (s'.quotes == s.quotes || s'.quotes == MarkNotified(s.quotes, pc.id, pc.message, s.now))
            && w in s'.workers && !MayFail(s'.workers[w].pc)
  {
    hide MarkNotified;
    assert Step(s, w, c) == MarkNotice(s, w, c);
  }

  lemma CreateShape(s: State, w: nat, c: Choice)
    requires w in s.workers && s.workers[w].pc.Creating?
    ensures var s', key := Step(s, w, c), s.workers[w].key;
            && (s'.quotes == s.quotes
                || (key !in s.quotes && s'.quotes == Insert(s.quotes, key, s.nextId, s.workers[w].pc.status, s.now)))
            && w in s'.workers
            && (MayFail(s'.workers[w].pc) ==> s'.quotes != s.quotes)
  {
    assert Step(s, w, c) == Create(s, w, c);
  }

  lemma WritingStep(s: State, w: nat, c: Choice)
    requires NameSafe(s) && w in s.workers && SoloSafe(Step(s, w, c))
    requires !ReadsOnly(s.workers[w].pc) && !s.workers[w].pc.MarkingNotified? && !s.workers[w].pc.Creating?
    ensures NameSafe(Step(s, w, c))
  {
    hide Enter, WriteOff, LookUp, DeleteFailed, CountWindow, ClearDay, ListWindow, Evaluate, Create, Reread, Send,
         SendNotice, MarkQuote, MarkNotice, Record, Settle, Clear, SetStatus, Delete, MarkPublished, SoloSafe, Safe;
    NamesAreClosed(s);
    DeleteKeepsNames(s.quotes, 0);
    SoloIsSafe(s);
    assert FailsUnnamed(s, w);
    var pc := s.workers[w].pc;
    match pc
    case WritingOff(stale) =>
      WriteOffShape(s, w, c);
      if c.pick in stale {
        OffKeepsNames(s, w, c.pick);
      }
      NameWrite(s, w, c);
    case Deleting(id) =>
      DeleteShape(s, w, c);
      DeleteKeepsNames(s.quotes, id);
      NameWrite(s, w, c);
    case Settling(id) =>
      SettleShape(s, w, c);
      StatusKeepsNames(s.quotes, id, SkippedBoring, s.now);
      NameWrite(s, w, c);
    case MarkingPublished(id, message) =>
      MarkQuoteShape(s, w, c);
      OwnQuoteUnnamed(s, w, id);
      PublishedKeepsNames(s.quotes, id, message, s.now);
      NameWrite(s, w, c);
    case Recording(id, outcome) =>
      RecordShape(s, w, c);
      if outcome != BoringNoticeUnknown {
        OutcomeUnnamed(s, w, id, outcome);
      }
      StatusKeepsNames(s.quotes, id, outcome, s.now);
      NameWrite(s, w, c);
  }

  lemma NamesAreClosed(s: State)
    requires NameSafe(s)
    ensures NamesClosed(s.quotes)
  {
    hide SoloSafe;
    forall k | k in s.quotes && s.quotes[k].noticeMessageId != 0 ensures Closed(s.quotes[k].status) {
      assert NamedClosed(s, k);
    }
  }

  lemma SoloIsSafe(s: State)
    requires SoloSafe(s)
    ensures Safe(s)
  {
  }

  lemma OwnQuoteUnnamed(s: State, w: nat, id: nat)
    requires NameSafe(s) && w in s.workers && s.workers[w].pc.MarkingPublished? && s.workers[w].pc.id == id
    ensures forall k :: k in s.quotes && s.quotes[k].id == id ==> s.quotes[k].noticeMessageId == 0
  {
    assert WorkerOK(s, w) && NamedClosed(s, s.workers[w].key);
    OwnId(s, w, id);
  }

  lemma OutcomeUnnamed(s: State, w: nat, id: nat, outcome: Status)
    requires NameSafe(s) && w in s.workers && s.workers[w].pc == Recording(id, outcome)
    requires outcome != BoringNoticeUnknown
    ensures forall k :: k in s.quotes && s.quotes[k].id == id ==> s.quotes[k].noticeMessageId == 0
  {
    assert WorkerOK(s, w) && NamedClosed(s, s.workers[w].key) && FailsUnnamed(s, w);
    OwnId(s, w, id);
  }

  lemma MarkNoticeNames(s: State, w: nat, c: Choice)
    requires NameSafe(s) && w in s.workers && s.workers[w].pc.MarkingNotified? && SoloSafe(Step(s, w, c))
    ensures NameSafe(Step(s, w, c))
  {
    hide Step, SoloSafe, Safe;
    var s', key, pc := Step(s, w, c), s.workers[w].key, s.workers[w].pc;
    StepLeavesOthers(s, w, c);
    MarkNoticeShape(s, w, c);
    OwnNoticeRow(s, w);
    NamesAreClosed(s);
    NameStep(s, s', w);
  }

  lemma CreateNames(s: State, w: nat, c: Choice)
    requires NameSafe(s) && w in s.workers && s.workers[w].pc.Creating? && SoloSafe(Step(s, w, c))
    ensures NameSafe(Step(s, w, c))
  {
    hide Step, SoloSafe, Safe;
    var s', key := Step(s, w, c), s.workers[w].key;
    StepLeavesOthers(s, w, c);
    CreateShape(s, w, c);
    NamesAreClosed(s);
    NameStep(s, s', w);
  }

  lemma OwnNoticeRow(s: State, w: nat)
    requires NameSafe(s) && w in s.workers && s.workers[w].pc.MarkingNotified?
    ensures forall k :: k in s.quotes && s.quotes[k].id == s.workers[w].pc.id ==> k == s.workers[w].key
  {
    assert WorkerOK(s, w);
    OwnId(s, w, s.workers[w].pc.id);
  }

  lemma NameAct(s: State, w: nat, c: Choice)
    requires NameSafe(s) && w in s.workers
    ensures NameSafe(Step(s, w, c))
  {
    hide Step, SoloSafe;
    SoloStep(s, w, c);
    if ReadsOnly(s.workers[w].pc) {
      ReadOnlyStep(s, w, c);
      NameKept(s, w, c);
    } else if s.workers[w].pc.MarkingNotified? {
      MarkNoticeNames(s, w, c);
    } else if s.workers[w].pc.Creating? {
      CreateNames(s, w, c);
    } else {
      WritingStep(s, w, c);
    }
  }

  /** The table stays as it is, and no worker moves that stays. */
  lemma NameAmbient(s: State, s': State)
    requires NameSafe(s) && SoloSafe(s') && s'.quotes == s.quotes
    requires forall w: nat :: w in s'.workers ==>
               s'.workers[w].pc.Entry? || (w in s.workers && s'.workers[w] == s.workers[w])
    ensures NameSafe(s')
  {
    hide SoloSafe;
    forall k ensures NamedClosed(s', k) { assert NamedClosed(s, k); }
    forall w: nat ensures FailsUnnamed(s', w) { assert FailsUnnamed(s, w); }
  }

  lemma NamesAreSolo(s: State)
    requires NameSafe(s)
    ensures SoloSafe(s)
  {
  }

  lemma NameEvent(s: State, e: Event)
    requires NameSafe(s) && (e.Begin? ==> e.process == 0)
    ensures NameSafe(Apply(s, e))
  {
    hide NameSafe, SoloSafe, Step, Window, Retained;
    NamesAreSolo(s);
    SoloEvent(s, e);
    match e
    case Act(w, c) => if w in s.workers { NameAct(s, w, c); }
    case Begin(_, _, _, _) => NameAmbient(s, Apply(s, e));
    case Crash(_) => NameAmbient(s, Apply(s, e));
    case _ => NameAmbient(s, Apply(s, e));
  }

  lemma {:induction false} AlwaysNameSafe(now: int, events: seq<Event>)
    requires OneProcess(events)
    ensures NameSafe(Run(Initial(now), events))
    decreases |events|
  {
    hide SoloSafe, Apply;
    AlwaysSoloSafe(now, events);
    if events != [] {
      var last := |events| - 1;
      AlwaysNameSafe(now, events[..last]);
      NameEvent(Run(Initial(now), events[..last]), events[last]);
    }
  }

  /** With one process, a row whose notice failed never names a notice that went out, whatever
      was lost before. */
  lemma FailedNoticeIsUnnamed(now: int, events: seq<Event>, key: Key)
    requires OneProcess(events)
    ensures var s := Run(Initial(now), events);
            NoticeFailed(s, key) ==> s.quotes[key].noticeMessageId == 0
  {
    AlwaysNameSafe(now, events);
    assert NamedClosed(Run(Initial(now), events), key);
  }

  // ----- Every lost record can cost a second notice -----

  /** The event that loses the record leaves the day's row as it was, a failed notice, though
      one went out. The worker is gone, or about to stop. */
  lemma LosingLeavesFailed(s: State, e: Event) returns (w: nat)
    requires SoloSafe(s) && Loses(s, e)
    ensures w in s.workers
    ensures var key, s' := s.workers[w].key, Apply(s, e);
            && NoticeFailed(s', key) && s'.quotes == s.quotes && Notices(s', key) == Notices(s, key) > 0
            && (w in s'.workers ==> s'.workers == s.workers[w := s.workers[w].(pc := Finished(false))])
            && (w !in s'.workers ==> forall v :: v in s'.workers ==> s'.workers[v].process != s.workers[w].process)
  {
    match e
    case Crash(process) =>
      w :| OnlyWorkerKnows(s, w) && s.workers[w].process == process;
    case Act(v, c) =>
      w := v;
      RecordShape(s, w, c);
      assert Step(s, w, c) == Record(s, w, c);
  }

  /** A worker at its end leaves; then no run of its group is alive. */
  lemma LeavingFrees(s: State, s1: State, w: nat, c: Choice)
    requires SoloSafe(s) && w in s.workers
    requires s1.workers == s.workers[w := s.workers[w].(pc := Finished(false))]
    ensures Lossless(s1, [Act(w, c)])
    ensures var s' := Run(s1, [Act(w, c)]);
            && w !in s'.workers && !Locked(s', 0, s.workers[w].key.group)
            && s'.quotes == s1.quotes && s'.notices == s1.notices
  {
    OneEvent(s1, Act(w, c));
    LosslessOne(s1, Act(w, c));
    var s' := Release(s1, w);
    assert Step(s1, w, c) == s';
    forall v: nat | v in s'.workers ensures s'.workers[v].key.group != s.workers[w].key.group {
      assert v in s.workers && v != w;
    }
  }

  /** So it is when the process has died. */
  lemma DyingFrees(s: State, s1: State, w: nat)
    requires SoloSafe(s) && w in s.workers && w !in s1.workers
    requires forall v :: v in s1.workers ==> s1.workers[v].process != s.workers[w].process
    ensures !Locked(s1, 0, s.workers[w].key.group)
  {
    assert AloneOK(s, w);
  }

  /** Having lost the record, the worker leaves or is gone, and the next run of its group can
      start. */
  lemma LosingFrees(s: State, e: Event) returns (w: nat, release: seq<Event>)
    requires SoloSafe(s) && Loses(s, e)
    ensures w in s.workers && OneProcess(release) && Lossless(Apply(s, e), release)
    ensures var key, s' := s.workers[w].key, Run(Apply(s, e), release);
            w !in s'.workers && !Locked(s', 0, key.group) && NoticeFailed(s', key) && Notices(s', key) > 0
  {
    hide Apply, Step, Loses, SoloSafe;
    w := LosingLeavesFailed(s, e);
    var c := Fine(NoAnswer, Snapshot(0, Publishing));
    release := [];
    if w in Apply(s, e).workers {
      release := [Act(w, c)];
      LeavingFrees(s, Apply(s, e), w, c);
    } else {
      DyingFrees(s, Apply(s, e), w);
    }
  }

  /** After any run of one process that ends by losing the record of a notice, however it got
      there, some continuation that loses nothing more gives that day another one. */
  lemma LostRecordCostsASecond(now: int, events: seq<Event>, e: Event) returns (key: Key, more: seq<Event>)
    requires OneProcess(events + [e]) && Loses(Run(Initial(now), events), e)
    ensures OneProcess(more) && Lossless(Run(Initial(now), events + [e]), more)
    ensures Notices(Run(Initial(now), events + [e] + more), key) >= 2
  {
    hide Apply, Step, Run, Lossless, Loses, Locked, SoloSafe;
    var start, s, lost := Initial(now), Run(Initial(now), events), events + [e];
    assert OneProcess(events) by { assert forall i :: 0 <= i < |events| ==> lost[i] == events[i]; }
    AlwaysSoloSafe(now, events);
    RunJoined(start, events, [e]);
    OneEvent(s, e);
    var w, release := LosingFrees(s, e);
    key := s.workers[w].key;
    RunJoined(start, lost, release);
    assert OneProcess(lost + release);
    AlwaysSoloSafe(now, lost + release);
    FailedNoticeIsUnnamed(now, lost + release, key);
    var again := FailedNoticeIsSentAgain(Run(start, lost + release), w, key);
    more := release + again;
    RunJoined(start, lost + release, again);
    LosslessJoined(Run(start, lost), release, again);
    assert lost + release + again == lost + more;
  }

  /** The exact condition for a second notice. While no record has been lost, the next event
      makes one possible, without losing anything more, if and only if it loses a record. */
  lemma SecondNoticeExactly(now: int, events: seq<Event>, e: Event)
    requires OneProcess(events + [e]) && NothingLost(now, events)
    ensures Loses(Run(Initial(now), events), e) <==>
              exists key, more :: GivesSecond(Run(Initial(now), events + [e]), key, more)
  {
    hide Loses, Lossless, Apply, Run;
    var start, done := Initial(now), events + [e];
    var s := Run(start, events);
    if Loses(s, e) {
      var key, more := LostRecordCostsASecond(now, events, e);
      RunJoined(start, done, more);
      assert GivesSecond(Run(start, done), key, more);
    } else {
      LosslessOne(s, e);
      LosslessJoined(start, events, [e]);
      forall key, more | OneProcess(more) && Lossless(Run(start, done), more)
        ensures Notices(Run(Run(start, done), more), key) <= 1
      {
        LosslessJoined(start, done, more);
        RunJoined(start, done, more);
        AtMostOneNotice(now, done + more, key);
      }
    }
  }

  ghost predicate GivesSecond(s: State, key: Key, more: seq<Event>) {
    OneProcess(more) && Lossless(s, more) && Notices(Run(s, more), key) >= 2
  }

  // ----- A run with two notices -----

  const GROUP := Settings(true, true, 1)

  /** A run of a day with one message has got to its lookup, and nothing else has happened. */
  predicate Alone(s: State, key: Key, pc: Pc) {
    && s.quotes == map[] && s.notices == map[] && Window(s, key) == {Message(1, s.now, false)}
    && 1 in s.workers && s.workers == map[1 := s.workers[1]]
    && s.workers[1] == Worker(0, key, GROUP, s.workers[1].cut, pc)
  }

  function Nothing(): Choice {
    Fine(NoAnswer, Snapshot(0, Publishing))
  }

  lemma RunsTwo(s: State, a: Event, b: Event)
    ensures Run(s, [a, b]) == Apply(Apply(s, a), b)
  {
    hide Apply;
    OneEvent(s, a);
    assert [a, b][..1] == [a];
  }

  lemma BeginsAlone(now: int, key: Key) returns (events: seq<Event>)
    ensures OneProcess(events) && Alone(Run(Initial(now), events), key, Entry)
  {
    var arrive, begin := Arrive(key, Message(1, now, false)), Begin(1, 0, key, GROUP);
    events := [arrive, begin];
    RunsTwo(Initial(now), arrive, begin);
  }

  lemma GetsToLookUp(s: State, key: Key) returns (events: seq<Event>)
    requires Alone(s, key, Entry)
    ensures OneProcess(events) && Alone(Run(s, events), key, LookingUp)
  {
    var e := Act(1, Nothing());
    events := [e, e];
    RunsTwo(s, e, e);
    var s1 := Apply(s, e);
    assert s1 == Enter(s, 1, Nothing());
    assert StaleRows(s.quotes, key.group, s.now - STALE_AFTER) == {};
    assert Apply(s1, e) == WriteOff(s1, 1, Nothing());
  }

  lemma GetsToList(s: State, key: Key) returns (events: seq<Event>)
    requires Alone(s, key, LookingUp)
    ensures OneProcess(events) && Alone(Run(s, events), key, Listing)
  {
    var e := Act(1, Nothing());
    events := [e, e];
    RunsTwo(s, e, e);
    var s1 := Apply(s, e);
    assert s1 == LookUp(s, 1, Nothing());
    assert Apply(s1, e) == CountWindow(s1, 1, Nothing());
  }

  lemma FindsItBoring(s: State, key: Key) returns (events: seq<Event>)
    requires Alone(s, key, Listing)
    ensures OneProcess(events) && Alone(Run(s, events), key, Creating(NotifyingBoring))
  {
    var e, f := Act(1, Nothing()), Act(1, Nothing().(verdict := Boring));
    events := [e, f];
    RunsTwo(s, e, f);
    var s1 := Apply(s, e);
    assert Eligible(Window(s, key)) == Window(s, key);
    assert s1 == ListWindow(s, 1, Nothing());
    assert Apply(s1, f) == Evaluate(s1, 1, f.choice);
  }

  /** The day's row stands and its run is at pc; no notice has gone out. */
  predicate Noticing(s: State, key: Key, st: Status, pc: Pc) {
    && key in s.quotes && s.quotes[key].status == st && s.notices == map[]
    && 1 in s.workers && s.workers == map[1 := s.workers[1]]
    && s.workers[1] == Worker(0, key, GROUP, s.workers[1].cut, pc)
  }

  lemma GetsToSend(s: State, key: Key) returns (events: seq<Event>)
    requires Alone(s, key, Creating(NotifyingBoring))
    ensures OneProcess(events)
    ensures var s' := Run(s, events);
            Noticing(s', key, NotifyingBoring, SendingNotice(s.nextId, 1)) && s'.quotes[key].id == s.nextId
  {
    var e := Act(1, Nothing());
    events := [e, e];
    RunsTwo(s, e, e);
    var s1 := Apply(s, e);
    assert s1 == Create(s, 1, Nothing());
    assert Apply(s1, e) == Reread(s1, 1, Nothing());
  }

  /** Telegram refuses it, and the run ends. */
  lemma IsRefused(s: State, key: Key, id: nat) returns (events: seq<Event>)
    requires Noticing(s, key, NotifyingBoring, SendingNotice(id, 1)) && s.quotes[key].id == id
    ensures OneProcess(events)
    ensures var s' := Run(s, events);
            && Noticing(s', key, BoringNoticeFailed, Finished(false))
  {
    var refused := Nothing().(attempt := Attempt(Refusal(400, 400, 0), false));
    var e, f := Act(1, refused), Act(1, Nothing());
    events := [e, f];
    RunsTwo(s, e, f);
    var s1 := Apply(s, e);
    SendNoticeIs(s, 1, refused);
    assert s1 == SendNotice(s, 1, refused);
    RecordShape(s1, 1, Nothing());
    assert Apply(s1, f) == Record(s1, 1, Nothing());
  }

  /** A boring day whose notice Telegram refused. */
  lemma RefusedNotice(now: int, key: Key) returns (events: seq<Event>)
    ensures OneProcess(events)
    ensures var s := Run(Initial(now), events);
            NoticeFailed(s, key) && Notices(s, key) == 0 && s.workers == map[]
  {
    hide Apply, Run, Alone, Noticing;
    var s := Initial(now);
    events := BeginsAlone(now, key);
    var s0 := Run(s, events);
    var next := GetsToLookUp(s0, key);
    RunJoined(s, events, next);
    events := events + next;
    var s1 := Run(s, events);
    next := GetsToList(s1, key);
    RunJoined(s, events, next);
    events := events + next;
    var s2 := Run(s, events);
    next := FindsItBoring(s2, key);
    RunJoined(s, events, next);
    events := events + next;
    var s3 := Run(s, events);
    next := GetsToSend(s3, key);
    RunJoined(s, events, next);
    events := events + next;
    var s4 := Run(s, events);
    next := IsRefused(s4, key, s3.nextId);
    RunJoined(s, events, next);
    events := events + next;
    var s5 := Run(s, events);
    RunJoined(s, events, [Act(1, Nothing())]);
    LeavesNothing(s5, key);
    events := events + [Act(1, Nothing())];
  }

  lemma LeavesNothing(s: State, key: Key)
    requires Noticing(s, key, BoringNoticeFailed, Finished(false))
    ensures var s' := Run(s, [Act(1, Nothing())]);
            NoticeFailed(s', key) && Notices(s', key) == 0 && s'.workers == map[]
  {
    OneEvent(s, Act(1, Nothing()));
    assert Step(s, 1, Nothing()) == Release(s, 1);
  }

  /** Some run does give a day two notices: refused once, delivered by the retry, the process
      stopped before that was recorded, and retried again. */
  lemma SecondNoticeHappens(now: int, key: Key) returns (before: seq<Event>, after: seq<Event>)
    ensures OneProcess(before + [Crash(0)] + after) && Loses(Run(Initial(now), before), Crash(0))
    ensures Notices(Run(Initial(now), before), key) == 1
    ensures Notices(Run(Initial(now), before + [Crash(0)] + after), key) == 2
  {
    hide Apply, Run, SoloSafe;
    var start := Initial(now);
    var refused := RefusedNotice(now, key);
    var s1 := Run(start, refused);
    AlwaysSoloSafe(now, refused);
    FailedNoticeIsUnnamed(now, refused, key);
    var retried := FailedNoticeIsSentAgain(s1, 1, key);
    before := refused + retried;
    RunJoined(start, refused, retried);
    var s2 := Run(start, before);
    AlwaysSoloSafe(now, before);
    var crashed := before + [Crash(0)];
    RunJoined(start, before, [Crash(0)]);
    OneEvent(s2, Crash(0));
    var s3 := Run(start, crashed);
    CrashForgets(s2, 1, key);
    AlwaysSoloSafe(now, crashed);
    FailedNoticeIsUnnamed(now, crashed, key);
    after := FailedNoticeIsSentAgain(s3, 1, key);
    RunJoined(start, crashed, after);
  }

  lemma CrashForgets(s: State, w: nat, key: Key)
    requires SoloSafe(s) && OnlyWorkerKnows(s, w) && s.workers[w].key == key && s.workers[w].process == 0
    ensures Loses(s, Crash(0))
    ensures var s' := Apply(s, Crash(0));
            && w !in s'.workers && !Locked(s', 0, key.group)
            && NoticeFailed(s', key) && Notices(s', key) == Notices(s, key)
  {
    hide SoloSafe;
    DyingFrees(s, Apply(s, Crash(0)), w);
  }
}
