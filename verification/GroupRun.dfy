/** One run of a group's day as the source writes it (internal/scheduler/process.go and
    publish.go), calls and branches in its order. Every call to a store or to Telegram is
    one step of the machine of Scheduler, with whatever the other workers did before it;
    so what is proved of the machine holds of this code.
 */
module GroupRun {
  import opened QuoteTable
  import QuoteSafety
  import opened Scheduler
  import opened Steps
  import opened Telegram
  import opened Wrappers

  /** What happens before the run's next call, and what the call answers. */
  datatype Turn = Turn(others: seq<Event>, choice: Choice)

  /** The event neither acts for the worker nor ends its process. */
  predicate Spares(e: Event, w: nat, process: nat) {
    match e
    case Crash(p) => p != process
    case Act(v, _) => v != w
    case _ => true
  }

  predicate Fair(t: Turn, w: nat, process: nat) {
    Possible(t.choice.attempt) && forall e :: e in t.others ==> Spares(e, w, process)
  }

  lemma {:induction false} OthersSpare(s: State, events: seq<Event>, w: nat)
    requires w in s.workers && forall e :: e in events ==> Spares(e, w, s.workers[w].process)
    ensures var s' := Run(s, events); w in s'.workers && s'.workers[w] == s.workers[w]
    decreases |events|
  {
    if events != [] {
      var before, e := Run(s, events[..|events| - 1]), events[|events| - 1];
      OthersSpare(s, events[..|events| - 1], w);
      assert Spares(e, w, s.workers[w].process);
      if e.Act? && e.worker in before.workers {
        StepMoves(before, e.worker, e.choice);
      }
    }
  }

  /** What a statement writes to a row; None leaves a message id as it is. */
  datatype Change = Change(status: Status, now: int, post: Option<nat>, notice: Option<nat>)

  predicate Made(r: Row, r': Row, c: Change) {
    && r'.id == r.id && r'.createdAt == r.createdAt
    && r'.status == c.status && r'.changedAt == c.now
    && r'.botMessageId == (if c.post.Some? then c.post.value else r.botMessageId)
    && r'.noticeMessageId == (if c.notice.Some? then c.notice.value else r.noticeMessageId)
  }

  /** The rows with this id change so, surely or perhaps not at all; no other row does. */
  ghost predicate Becomes(t: Table, t': Table, id: nat, c: Change, surely: bool) {
    || (!surely && t' == t)
    || (&& t'.Keys == t.Keys
        && forall k :: k in t ==> if t[k].id == id then Made(t[k], t'[k], c) else t'[k] == t[k])
  }

  /** The day's messages are gone, surely or perhaps; every other day's are as they were. */
  ghost predicate Cleared(s: State, s': State, key: Key, surely: bool) {
    && (Window(s', key) == {} || (!surely && Window(s', key) == Window(s, key)))
    && (forall k :: k != key ==> Window(s', k) == Window(s, k))
    && s'.quotes == s.quotes
  }

  /** From each of its four points, the step that clears a window does, and no more. */
  lemma ClearingStep(s: State, w: nat, c: Choice)
    requires w in s.workers
    requires var pc := s.workers[w].pc;
             pc.ClearingSmallDay? || pc.ClearingTagged? || pc.ClearingBoring? || pc.Clearing?
    ensures Cleared(s, Step(s, w, c), s.workers[w].key, c.acknowledged)
    ensures var me := s.workers[w];
            Step(s, w, c).workers == s.workers[w := me.(pc := Finished(me.pc.Clearing? || c.acknowledged))]
  {
  }

  /** What an answer says of the number of messages that reached the chat. */
  predicate CountsAs(answer: Answer, before: nat, after: nat) {
    && (answer.Accepted? ==> after == before + 1)
    && (!answer.Accepted? && !OutcomeUnknown(answer) ==> after == before)
  }

  lemma PostCounts(s: State, w: nat, c: Choice)
    requires w in s.workers && s.workers[w].pc.Sending? && Possible(c.attempt)
    ensures var key := s.workers[w].key; CountsAs(c.attempt.answer, Posts(s, key), Posts(Step(s, w, c), key))
  {
    hide Again;
    assert Step(s, w, c) == Send(s, w, c);
  }

  lemma NoticeCounts(s: State, w: nat, c: Choice)
    requires w in s.workers && s.workers[w].pc.SendingNotice? && Possible(c.attempt)
    ensures var key := s.workers[w].key; CountsAs(c.attempt.answer, Notices(s, key), Notices(Step(s, w, c), key))
  {
    hide Again;
    assert Step(s, w, c) == SendNotice(s, w, c);
  }

  /** A failed row has waited the 15 minutes. */
  predicate Waited(r: Row, now: int) {
    var since := if r.changedAt != 0 then r.changedAt else r.createdAt;
    since == 0 || now >= since + 900
  }

  class GroupRun {
    const w: nat
    const process: nat
    const key: Key
    const group: Settings
    const world: nat -> Turn
    ghost const start: State
    ghost var trace: seq<Event>
    var s: State
    var turn: nat

    /** The state the latest call met. */
    var before: State

    /** What the run read of the day's row, was told by the model, recorded as sent, and
        whether deleting the window was acknowledged. */
    ghost var found: Option<Row>
    ghost var verdict: Option<Verdict>
    ghost var recorded: Option<nat>
    ghost var deleted: Option<bool>

    predicate Mine(s: State) {
      w in s.workers && var me := s.workers[w]; me.process == process && me.key == key && me.group == group
    }

    /** The state is what the machine reaches from the start, and the worker is still there. */
    ghost predicate Valid()
      reads this
    {
      s == Run(start, trace) && Mine(s) && forall n :: Fair(world(n), w, process)
    }

    predicate At(pc: Pc)
      reads this
    {
      w in s.workers && s.workers[w].pc == pc
    }

    /** The window was deleted after all this run did, if at all. */
    ghost predicate Emptied()
      reads this
    {
      deleted.Some? && deleted.value ==> Window(s, key) == {}
    }

    constructor (s: State, w: nat, world: nat -> Turn)
      requires w in s.workers && s.workers[w].pc == Entry
      requires forall n :: Fair(world(n), w, s.workers[w].process)
      ensures Valid() && At(Entry) && start == s && trace == []
      ensures found == None && verdict == None && recorded == None && deleted == None
    {
      this.w, this.process, this.key := w, s.workers[w].process, s.workers[w].key;
      this.group, this.world := s.workers[w].group, world;
      this.start, this.trace := s, [];
      this.s, this.turn, this.before := s, 0, s;
      this.found, this.verdict, this.recorded, this.deleted := None, None, None, None;
    }

    /** The run's next call: others act, then it is answered. */
    method Next(pick: Snapshot) returns (c: Choice)
      requires Valid() && !s.workers[w].pc.Finished?
      modifies `s, `before, `turn, `trace
      ensures Valid()
      ensures Mine(before) && before.workers[w] == old(s.workers[w])
      ensures Possible(c.attempt) && c.pick == pick && s == Step(before, w, c)
    {
      hide Run, Step, Spares;
      var t := world(turn);
      turn := turn + 1;
      assert Fair(t, w, process);
      OthersSpare(s, t.others, w);
      RunJoined(start, trace, t.others);
      var met := Run(s, t.others);
      before := met;
      c := t.choice.(pick := pick);
      StepMoves(met, w, c);
      RunJoined(start, trace + t.others, [Act(w, c)]);
      OneEvent(met, Act(w, c));
      s := Step(met, w, c);
      trace := trace + t.others + [Act(w, c)];
    }

    // ----- The calls -----

    /** The agreement gate and its reminder, or the list of stale rows. */
    method Enter() returns (c: Choice, stale: set<Snapshot>)
      requires Valid() && At(Entry)
      modifies `s, `before, `turn, `trace
      ensures Valid()
      ensures if !group.agreement then At(Finished(c.reminded))
              else if !c.acknowledged then At(Finished(false))
              else At(WritingOff(stale))
      ensures forall p :: p in stale <==>
                exists k :: k in before.quotes && k.group == key.group && before.now - before.quotes[k].changedAt > 900
                            && before.quotes[k].status in {Publishing, NotifyingBoring}
                            && p == Snapshot(before.quotes[k].id, before.quotes[k].status)
    {
      c := Next(Snapshot(0, Publishing));
      stale := StaleRows(before.quotes, key.group, before.now - STALE_AFTER);
    }

    method SetStale(stale: set<Snapshot>, q: Snapshot) returns (failed: bool)
      requires Valid() && At(WritingOff(stale)) && q in stale
      modifies `s, `before, `turn, `trace
      ensures Valid() && At(if failed then Finished(false) else WritingOff(stale - {q}))
      ensures var off := if q.status == Publishing then PublishUnknown else BoringNoticeUnknown;
              Becomes(before.quotes, s.quotes, q.id, Change(off, before.now, None, None), !failed)
    {
      var c := Next(q);
      failed := !c.acknowledged;
    }

    method ForDay() returns (existing: Option<Row>, now: int, failed: bool)
      requires Valid() && At(LookingUp)
      modifies `s, `before, `turn, `trace, `found
      ensures Valid()
      ensures failed ==> At(Finished(false))
      ensures !failed ==> At(if existing.None? then Counting else PlanFor(existing.value, group, now))
      ensures now == before.now && existing == (if key in before.quotes then Some(before.quotes[key]) else None)
      ensures found == existing
    {
      var c := Next(Snapshot(0, Publishing));
      failed, now := !c.acknowledged, before.now;
      existing := if key in before.quotes then Some(before.quotes[key]) else None;
      found := existing;
    }

    method DeleteRow(id: nat) returns (deleted: bool, failed: bool)
      requires Valid() && At(Deleting(id))
      modifies `s, `before, `turn, `trace
      ensures Valid() && At(if !failed && deleted then Counting else Finished(false))
      ensures !failed ==>
                forall k :: if k in before.quotes && before.quotes[k].id != id
                            then k in s.quotes && s.quotes[k] == before.quotes[k] else k !in s.quotes
    {
      var c := Next(Snapshot(0, Publishing));
      failed, deleted := !c.acknowledged, Holds(before.quotes, id);
    }

    method CountMessages() returns (count: nat, failed: bool)
      requires Valid() && At(Counting)
      modifies `s, `before, `turn, `trace
      ensures Valid() && count == |Window(s, key)|
      ensures At(if failed then Finished(false) else if count == 0 then Finished(true)
                 else if count < group.minMessages then ClearingSmallDay else Listing)
    {
      var c := Next(Snapshot(0, Publishing));
      failed, count := !c.acknowledged, |Window(before, key)|;
    }

    method ListMessages() returns (count: nat, eligible: nat, failed: bool)
      requires Valid() && At(Listing)
      modifies `s, `before, `turn, `trace
      ensures Valid() && count == |Window(s, key)| && eligible == |set m | m in Window(s, key) && !m.tagged|
      ensures At(if failed then Finished(false)
                 else if eligible == 0 then (if count > 0 then ClearingTagged else Finished(true))
                 else if eligible < group.minMessages then ClearingSmallDay else Evaluating)
    {
      var c := Next(Snapshot(0, Publishing));
      failed, count, eligible := !c.acknowledged, |Window(before, key)|, |Eligible(Window(before, key))|;
    }

    /** DeleteWindow of a day that ends with it. */
    method DeleteWindow() returns (failed: bool)
      requires Valid() && (At(ClearingSmallDay) || At(ClearingTagged) || At(ClearingBoring))
      modifies `s, `before, `turn, `trace, `deleted
      ensures Valid() && At(Finished(!failed))
      ensures Cleared(before, s, key, !failed) && deleted == Some(!failed) && Emptied()
    {
      hide Step;
      var c := Next(Snapshot(0, Publishing));
      ClearingStep(before, w, c);
      failed := !c.acknowledged;
      deleted := Some(!failed);
    }

    /** The authors' names and the model's verdict. */
    method Evaluate() returns (answer: Verdict, failed: bool)
      requires Valid() && At(Evaluating)
      modifies `s, `before, `turn, `trace, `verdict
      ensures Valid()
      ensures verdict == if failed then None else Some(answer)
      ensures At(if failed || answer == Interrupted then Finished(false)
                 else match answer
                      case NoPick => Finished(true)
                      case Unusable => Creating(PublishFailed)
                      case Worthy => Creating(Publishing)
                      case _ => Creating(if group.boringNotice then NotifyingBoring else SkippedBoring))
    {
      var c := Next(Snapshot(0, Publishing));
      failed, answer := !c.acknowledged, c.verdict;
      verdict := if failed then None else Some(answer);
    }

    /** Create's insert; a day that has a row stays as it is. */
    method InsertRow(status: Status) returns (created: bool, failed: bool)
      requires Valid() && At(Creating(status))
      modifies `s, `before, `turn, `trace
      ensures Valid() && At(if created && !failed then Rereading(status) else Finished(false))
      ensures !failed ==> created == (key !in before.quotes)
      ensures !failed ==>
                s.quotes == if created
                            then before.quotes[key := Row(before.nextId, status, before.now, before.now, 0, 0)]
                            else before.quotes
    {
      var c := Next(Snapshot(0, Publishing));
      created := key !in before.quotes;
      failed := created && !c.acknowledged;
    }

    /** Create's second statement reads the row back. */
    method ReadBack(status: Status) returns (id: nat, copies: bool, failed: bool)
      requires Valid() && At(Rereading(status))
      modifies `s, `before, `turn, `trace
      ensures Valid() && s.quotes == before.quotes
      ensures failed ==> At(Finished(false))
      ensures !failed ==> key in s.quotes && s.quotes[key].id == id
      ensures !failed ==>
                At(match status
                   case Publishing => Sending(id, if copies then Copy else Text, 1)
                   case NotifyingBoring => SendingNotice(id, 1)
                   case SkippedBoring => ClearingBoring
                   case _ => Finished(false))
    {
      var c := Next(Snapshot(0, Publishing));
      failed := !c.acknowledged || key !in before.quotes;
      id, copies := if key in before.quotes then before.quotes[key].id else 0, c.copies;
    }

    method CreateRow(status: Status) returns (id: nat, created: bool, copies: bool, failed: bool)
      requires Valid() && At(Creating(status))
      modifies `s, `before, `turn, `trace
      ensures Valid()
      ensures failed || !created ==> At(Finished(false))
      ensures !failed && created ==> key in s.quotes && s.quotes[key].id == id
      ensures !failed && created ==>
                At(match status
                   case Publishing => Sending(id, if copies then Copy else Text, 1)
                   case NotifyingBoring => SendingNotice(id, 1)
                   case SkippedBoring => ClearingBoring
                   case _ => Finished(false))
    {
      id, copies := 0, false;
      created, failed := InsertRow(status);
      if created && !failed {
        id, copies, failed := ReadBack(status);
      }
    }

    /** One attempt at a post, and one at a notice. */
    method TryPost(id: nat, via: Via, attempt: nat) returns (c: Choice)
      requires Valid() && At(Sending(id, via, attempt))
      modifies `s, `before, `turn, `trace
      ensures Valid() && At(AfterPost(id, via, attempt, c))
      ensures CountsAs(c.attempt.answer, Posts(before, key), Posts(s, key))
    {
      hide Step, Possible, AfterPost, CountsAs, Posts, Run;
      c := Next(Snapshot(0, Publishing));
      SendIs(before, w, c);
      PostCounts(before, w, c);
    }

    method TryNotice(id: nat, attempt: nat) returns (c: Choice)
      requires Valid() && At(SendingNotice(id, attempt))
      modifies `s, `before, `turn, `trace
      ensures Valid() && At(AfterNotice(id, attempt, c))
      ensures CountsAs(c.attempt.answer, Notices(before, key), Notices(s, key))
    {
      hide Step, Possible, AfterNotice, CountsAs, Notices, Run;
      c := Next(Snapshot(0, Publishing));
      SendNoticeIs(before, w, c);
      NoticeCounts(before, w, c);
    }

    /** A post, by either way, with its flood retries. */
    method Post(id: nat, via: Via) returns (answer: Answer)
      requires Valid() && At(Sending(id, via, 1))
      modifies `s, `before, `turn, `trace
      ensures Valid()
      ensures At(if answer.Accepted? then MarkingPublished(id, answer.messageId)
                 else if OutcomeUnknown(answer) then Recording(id, PublishUnknown)
                 else if via == Copy then Sending(id, Text, 1)
                 else Recording(id, PublishFailed))
      ensures answer.Accepted? ==> Posts(s, key) == Posts(before, key) + 1
      ensures !answer.Accepted? && !OutcomeUnknown(answer) ==> Posts(s, key) == Posts(before, key)
    {
      hide Valid, At, Posts;
      var attempt := 1;
      var c := TryPost(id, via, attempt);
      while !c.attempt.answer.Accepted? && Again(c.attempt.answer, attempt, c.cancelled)
        invariant Valid() && 1 <= attempt <= FLOOD_ATTEMPTS
        invariant At(AfterPost(id, via, attempt, c))
        invariant CountsAs(c.attempt.answer, Posts(before, key), Posts(s, key))
        decreases FLOOD_ATTEMPTS - attempt
      {
        attempt := attempt + 1;
        c := TryPost(id, via, attempt);
      }
      answer := c.attempt.answer;
    }

    method PostNotice(id: nat) returns (answer: Answer)
      requires Valid() && At(SendingNotice(id, 1))
      modifies `s, `before, `turn, `trace
      ensures Valid()
      ensures At(if answer.Accepted? then MarkingNotified(id, answer.messageId)
                 else Recording(id, if OutcomeUnknown(answer) then BoringNoticeUnknown else BoringNoticeFailed))
      ensures answer.Accepted? ==> Notices(s, key) == Notices(before, key) + 1
      ensures !answer.Accepted? && !OutcomeUnknown(answer) ==> Notices(s, key) == Notices(before, key)
    {
      hide Valid, At, Notices;
      var attempt := 1;
      var c := TryNotice(id, attempt);
      while !c.attempt.answer.Accepted? && Again(c.attempt.answer, attempt, c.cancelled)
        invariant Valid() && 1 <= attempt <= FLOOD_ATTEMPTS
        invariant At(AfterNotice(id, attempt, c))
        invariant CountsAs(c.attempt.answer, Notices(before, key), Notices(s, key))
        decreases FLOOD_ATTEMPTS - attempt
      {
        attempt := attempt + 1;
        c := TryNotice(id, attempt);
      }
      answer := c.attempt.answer;
    }

    method MarkPublished(id: nat, message: nat) returns (failed: bool)
      requires Valid() && At(MarkingPublished(id, message))
      modifies `s, `before, `turn, `trace, `recorded
      ensures Valid() && At(if failed then Recording(id, PublishUnknown) else Clearing)
      ensures Becomes(before.quotes, s.quotes, id, Change(Published, before.now, Some(message), None), !failed)
      ensures recorded == if failed then old(recorded) else Some(message)
    {
      var c := Next(Snapshot(0, Publishing));
      failed := !c.acknowledged;
      recorded := if failed then recorded else Some(message);
    }

    method MarkNotified(id: nat, message: nat) returns (failed: bool)
      requires Valid() && At(MarkingNotified(id, message))
      modifies `s, `before, `turn, `trace, `recorded
      ensures Valid() && At(if failed then Recording(id, BoringNoticeUnknown) else Clearing)
      ensures Becomes(before.quotes, s.quotes, id, Change(SkippedBoring, before.now, None, Some(message)), !failed)
      ensures recorded == if failed then old(recorded) else Some(message)
    {
      var c := Next(Snapshot(0, Publishing));
      failed := !c.acknowledged;
      recorded := if failed then recorded else Some(message);
    }

    /** SetStatus after a send; its own failure is only reported. */
    method SetStatus(id: nat, status: Status) returns (failed: bool)
      requires Valid() && At(Recording(id, status))
      modifies `s, `before, `turn, `trace
      ensures Valid() && At(Finished(false))
      ensures Becomes(before.quotes, s.quotes, id, Change(status, before.now, None, None), !failed)
    {
      var c := Next(Snapshot(0, Publishing));
      failed := !c.acknowledged;
    }

    method SettleRow(id: nat) returns (failed: bool)
      requires Valid() && At(Settling(id))
      modifies `s, `before, `turn, `trace
      ensures Valid() && At(if failed then Finished(false) else Clearing)
      ensures Becomes(before.quotes, s.quotes, id, Change(SkippedBoring, before.now, None, None), !failed)
    {
      var c := Next(Snapshot(0, Publishing));
      failed := !c.acknowledged;
    }

    /** clearWindow: what fails is noted and not an error. */
    method ClearWindow()
      requires Valid() && At(Clearing)
      modifies `s, `before, `turn, `trace, `deleted
      ensures Valid() && At(Finished(true))
      ensures deleted.Some? && Cleared(before, s, key, deleted.value) && Emptied()
    {
      hide Step;
      var c := Next(Snapshot(0, Publishing));
      ClearingStep(before, w, c);
      deleted := Some(c.acknowledged);
    }

    // ----- The run -----

    /** recoverStale */
    method RecoverStale(rows: set<Snapshot>) returns (failed: bool)
      requires Valid() && At(WritingOff(rows))
      modifies `s, `before, `turn, `trace
      ensures Valid() && At(if failed then Finished(false) else LookingUp)
    {
      hide Run, Becomes, Cleared, Window, Posts, Notices;
      var stale := rows;
      while stale != {}
        invariant Valid() && At(WritingOff(stale))
        decreases |stale|
      {
        var q :| q in stale;
        failed := SetStale(stale, q);
        if failed {
          return;
        }
        stale := stale - {q};
      }
      var _ := Next(Snapshot(0, Publishing));
      failed := false;
    }

    /** sendBoringNotice */
    method SendBoringNotice(id: nat) returns (sent: bool, failed: bool)
      requires Valid() && At(SendingNotice(id, 1)) && deleted == None
      modifies `s, `before, `turn, `trace, `recorded, `deleted
      ensures Valid() && At(Finished(sent)) && (failed ==> !sent)
      ensures Emptied() && (if sent then recorded.Some? && deleted.Some? else deleted == None)
    {
      hide Valid, At, Run, Step, Becomes, Cleared, Window, Posts, Notices, OutcomeUnknown;
      var answer := PostNotice(id);
      if !answer.Accepted? {
        var status := BoringNoticeFailed;
        if OutcomeUnknown(answer) {
          status := BoringNoticeUnknown;
        }
        failed := SetStatus(id, status);
        return false, failed;
      }
      failed := MarkNotified(id, answer.messageId);
      if failed {
        failed := SetStatus(id, BoringNoticeUnknown);
        return false, failed;
      }
      ClearWindow();
      return true, false;
    }

    /** publishQuote */
    method PublishQuote(id: nat, copies: bool) returns (sent: bool, failed: bool)
      requires Valid() && At(Sending(id, if copies then Copy else Text, 1)) && deleted == None
      modifies `s, `before, `turn, `trace, `recorded, `deleted
      ensures Valid() && At(Finished(sent)) && (failed ==> !sent)
      ensures Emptied() && (if sent then recorded.Some? && deleted.Some? else deleted == None)
    {
      hide Valid, At, Run, Step, Becomes, Cleared, Window, Posts, Notices, OutcomeUnknown;
      var answer;
      if copies {
        answer := Post(id, Copy);
        if !answer.Accepted? {
          if OutcomeUnknown(answer) {
            failed := SetStatus(id, PublishUnknown);
            return false, failed;
          }
          answer := Post(id, Text);
        }
      } else {
        answer := Post(id, Text);
      }
      if !answer.Accepted? {
        var status := PublishFailed;
        if OutcomeUnknown(answer) {
          status := PublishUnknown;
        }
        failed := SetStatus(id, status);
        return false, failed;
      }
      failed := MarkPublished(id, answer.messageId);
      if failed {
        failed := SetStatus(id, PublishUnknown);
        return false, failed;
      }
      ClearWindow();
      return true, false;
    }

    /** retryExisting. A quote is computed again, and a notice sent again or settled, only for
        a failed row with no message, once it has waited. */
    method RetryExisting(q: Row, now: int) returns (recompute: bool, done: bool, failed: bool)
      requires Valid() && At(PlanFor(q, group, now)) && deleted == None
      modifies `s, `before, `turn, `trace, `recorded, `deleted
      ensures Valid() && !(recompute && done)
      ensures At(if failed then Finished(false) else if recompute then Counting else Finished(done || IsTerminal(q)))
      ensures recompute ==> q.status == PublishFailed && q.botMessageId == 0 && Waited(q, now)
      ensures done ==> q.status == BoringNoticeFailed && q.noticeMessageId == 0 && Waited(q, now)
      ensures Emptied() && (if done && !failed then deleted.Some? else deleted == None)
    {
      hide Valid, At, Run, Step, Becomes, Cleared, Window, Posts, Notices;
      if q.status != PublishFailed && q.status != BoringNoticeFailed {
        return false, false, false;
      }
      if !RetryDue(q, now) {
        return false, false, false;
      }
      if q.status == PublishFailed {
        if q.botMessageId != 0 {
          return false, false, false;
        }
        var gone;
        gone, failed := DeleteRow(q.id);
        return !failed && gone, false, failed;
      }
      if q.noticeMessageId != 0 {
        return false, false, false;
      }
      if group.boringNotice {
        var sent;
        sent, failed := SendBoringNotice(q.id);
        return false, sent && !failed, failed;
      }
      failed := SettleRow(q.id);
      if failed {
        return false, false, true;
      }
      ClearWindow();
      return false, true, false;
    }

    /** The day needed nothing when the run read its row. */
    ghost predicate HandledBefore()
      reads this
    {
      found.Some?
      && match found.value.status
         case Published | SkippedBoring | PublishUnknown | BoringNoticeUnknown => true
         case PublishFailed => found.value.botMessageId != 0
         case BoringNoticeFailed => found.value.noticeMessageId != 0
         case _ => false
    }

    /** Why a run may call its day done: no message of it is left; or only their deletion
        failed, after what the day came to was recorded; or it was done before; or nothing
        in it could be quoted. A quote the model found worthy has then been recorded. */
    ghost predicate DoneRightly()
      reads this
    {
      && (Window(s, key) == {} || (deleted.Some? && !deleted.value && (recorded.Some? || found.Some?))
          || HandledBefore() || verdict == Some(NoPick))
      && (verdict == Some(Worthy) ==> recorded.Some?)
    }

    /** processGroup: when it returns, the worker of the machine has finished with the same
        answer. */
    method ProcessGroup() returns (done: bool, failed: bool)
      requires Valid() && At(Entry) && verdict == None && recorded == None && deleted == None
      modifies this
      ensures Valid() && At(Finished(done && !failed))
      ensures Emptied() && (done && !failed && group.agreement ==> DoneRightly())
    {
      hide Valid, At, Run, Step, Becomes, Cleared, Window, Posts, Notices;
      var c, stale := Enter();
      if !group.agreement {
        return c.reminded, false;
      }
      if !c.acknowledged {
        return false, true;
      }
      failed := RecoverStale(stale);
      if failed {
        return false, true;
      }
      var existing, now;
      existing, now, failed := ForDay();
      if failed {
        return false, true;
      }
      if existing.Some? {
        var recompute, retried;
        recompute, retried, failed := RetryExisting(existing.value, now);
        if failed {
          return false, true;
        }
        if !recompute {
          assert retried || IsTerminal(existing.value) ==> DoneRightly();
          return retried || IsTerminal(existing.value), false;
        }
      }
      done, failed := ComputeDay();
    }

    /** processGroup, from the count of the window on. */
    method ComputeDay() returns (done: bool, failed: bool)
      requires Valid() && At(Counting) && verdict == None && deleted == None
      modifies `s, `before, `turn, `trace, `verdict, `recorded, `deleted
      ensures Valid() && At(Finished(done && !failed))
      ensures Emptied() && (done && !failed ==> DoneRightly())
    {
      hide Valid, At, Run, Step, Becomes, Cleared, Window, Posts, Notices;
      var count;
      count, failed := CountMessages();
      if failed {
        return false, true;
      }
      if count == 0 {
        return true, false;
      }
      if count < group.minMessages {
        failed := DeleteWindow();
        return true, failed;
      }
      var eligible;
      count, eligible, failed := ListMessages();
      if failed {
        return false, true;
      }
      if eligible == 0 {
        if count > 0 {
          failed := DeleteWindow();
          return !failed, failed;
        }
        return true, false;
      }
      if eligible < group.minMessages {
        failed := DeleteWindow();
        return true, failed;
      }
      done, failed := DecideDay();
    }

    /** processGroup, from the question to the model on. */
    method DecideDay() returns (done: bool, failed: bool)
      requires Valid() && At(Evaluating) && verdict == None && deleted == None
      modifies `s, `before, `turn, `trace, `verdict, `recorded, `deleted
      ensures Valid() && At(Finished(done && !failed))
      ensures Emptied() && (done && !failed ==> DoneRightly())
    {
      hide Valid, At, Run, Step, Becomes, Cleared, Window, Posts, Notices;
      var answer, id, created, copies;
      answer, failed := Evaluate();
      if failed || answer == Interrupted {
        return false, true;
      }
      if answer == NoPick {
        return true, false;
      }
      if answer == Unusable {
        id, created, copies, failed := CreateRow(PublishFailed);
        return false, failed;
      }
      var status := Publishing;
      if answer != Worthy {
        status := SkippedBoring;
        if group.boringNotice {
          status := NotifyingBoring;
        }
      }
      id, created, copies, failed := CreateRow(status);
      if failed || !created {
        return false, failed;
      }
      if answer == Worthy {
        done, failed := PublishQuote(id, copies);
        assert done ==> DoneRightly();
        return;
      }
      if !group.boringNotice {
        failed := DeleteWindow();
        return !failed, failed;
      }
      done, failed := SendBoringNotice(id);
    }
  }

  /** However this run and all others are interleaved, it leaves no day with two quotes, or
      with a quote and a notice. */
  method RunDay(now: int, prior: seq<Event>, w: nat, world: nat -> Turn)
    returns (run: GroupRun, done: bool, failed: bool)
    requires var s := Run(Initial(now), prior);
             && w in s.workers && s.workers[w].pc == Entry
             && forall n :: Fair(world(n), w, s.workers[w].process)
    ensures fresh(run) && run.At(Finished(done && !failed)) && run.Emptied()
    ensures done && !failed && run.group.agreement ==> run.DoneRightly()
    ensures forall key :: Posts(run.s, key) <= 1 && (Posts(run.s, key) == 0 || Notices(run.s, key) == 0)
  {
    hide Run;
    run := new GroupRun(Run(Initial(now), prior), w, world);
    done, failed := run.ProcessGroup();
    RunJoined(Initial(now), prior, run.trace);
    forall key ensures Posts(run.s, key) <= 1 && (Posts(run.s, key) == 0 || Notices(run.s, key) == 0) {
      QuoteSafety.AtMostOneQuote(now, prior + run.trace, key);
    }
  }
}
