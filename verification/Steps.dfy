/** How a step moves the workers, and how runs join. */
module Steps {
  import opened QuoteTable
  import opened Scheduler
  import opened Telegram

  /** Where a post stands after an attempt answered. */
  function AfterPost(id: nat, via: Via, attempt: nat, c: Choice): Pc {
    var answer := c.attempt.answer;
    if answer.Accepted? then MarkingPublished(id, answer.messageId)
    else if Again(answer, attempt, c.cancelled) then Sending(id, via, attempt + 1)
    else if OutcomeUnknown(answer) then Recording(id, PublishUnknown)
    else if via == Copy then Sending(id, Text, 1)
    else Recording(id, PublishFailed)
  }

  function AfterNotice(id: nat, attempt: nat, c: Choice): Pc {
    var answer := c.attempt.answer;
    if answer.Accepted? then MarkingNotified(id, answer.messageId)
    else if Again(answer, attempt, c.cancelled) then SendingNotice(id, attempt + 1)
    else if OutcomeUnknown(answer) then Recording(id, BoringNoticeUnknown)
    else Recording(id, BoringNoticeFailed)
  }

  /** The step moved w alone, and kept what its run is about. */
  predicate MovesOnly(s: State, s': State, w: nat) {
    && w in s.workers && w in s'.workers && s'.now == s.now
    && s'.workers == s.workers[w := s'.workers[w]]
    && s'.workers[w] == s.workers[w].(cut := s'.workers[w].cut, pc := s'.workers[w].pc)
  }

  lemma ReadsMove(s: State, w: nat, c: Choice)
    requires w in s.workers
    ensures MovesOnly(s, Enter(s, w, c), w) && MovesOnly(s, LookUp(s, w, c), w)
    ensures MovesOnly(s, CountWindow(s, w, c), w) && MovesOnly(s, ListWindow(s, w, c), w)
    ensures MovesOnly(s, Evaluate(s, w, c), w)
    ensures MovesOnly(s, ClearDay(s, w, c), w) && MovesOnly(s, Clear(s, w, c), w)
    ensures s.workers[w].pc.Rereading? ==> MovesOnly(s, Reread(s, w, c), w)
  {
    hide PlanFor, StaleRows, Window, Eligible;
  }

  lemma WritesMove(s: State, w: nat, c: Choice)
    requires w in s.workers
    ensures s.workers[w].pc.WritingOff? ==> MovesOnly(s, WriteOff(s, w, c), w)
    ensures s.workers[w].pc.Deleting? ==> MovesOnly(s, DeleteFailed(s, w, c), w)
  {
    hide SetStatus, Delete, Holds;
  }

  lemma OutcomesMove(s: State, w: nat, c: Choice)
    requires w in s.workers
    ensures s.workers[w].pc.Creating? ==> MovesOnly(s, Create(s, w, c), w)
    ensures s.workers[w].pc.Settling? ==> MovesOnly(s, Settle(s, w, c), w)
  {
    hide SetStatus, Insert;
  }

  lemma MarksMove(s: State, w: nat, c: Choice)
    requires w in s.workers
    ensures s.workers[w].pc.MarkingPublished? ==> MovesOnly(s, MarkQuote(s, w, c), w)
    ensures s.workers[w].pc.MarkingNotified? ==> MovesOnly(s, MarkNotice(s, w, c), w)
  {
    hide MarkPublished, MarkNotified;
  }

  lemma RecordMoves(s: State, w: nat, c: Choice)
    requires w in s.workers && s.workers[w].pc.Recording?
    ensures MovesOnly(s, Record(s, w, c), w)
  {
    hide SetStatus;
  }

  /** So does every step but the last, which takes the worker away. */
  lemma StepMoves(s: State, w: nat, c: Choice)
    requires w in s.workers
    ensures if s.workers[w].pc.Finished? then Step(s, w, c) == s.(workers := s.workers - {w})
            else MovesOnly(s, Step(s, w, c), w)
  {
    hide Enter, WriteOff, LookUp, DeleteFailed, CountWindow, ClearDay, ListWindow, Evaluate, Create, Reread, Send,
         SendNotice, MarkQuote, MarkNotice, Record, Settle, Clear;
    ReadsMove(s, w, c);
    WritesMove(s, w, c);
    OutcomesMove(s, w, c);
    MarksMove(s, w, c);
    if s.workers[w].pc.Recording? {
      RecordMoves(s, w, c);
    } else if s.workers[w].pc.Sending? {
      SendIs(s, w, c);
    } else if s.workers[w].pc.SendingNotice? {
      SendNoticeIs(s, w, c);
    }
  }

  lemma SendIs(s: State, w: nat, c: Choice)
    requires w in s.workers && s.workers[w].pc.Sending?
    ensures var Sending(id, via, attempt) := s.workers[w].pc;
            Step(s, w, c).workers ==
              if Possible(c.attempt) then s.workers[w := s.workers[w].(pc := AfterPost(id, via, attempt, c))]
              else s.workers
    ensures Step(s, w, c).now == s.now
  {
    hide Possible, OutcomeUnknown, Again;
    assert Step(s, w, c) == Send(s, w, c);
  }

  lemma SendNoticeIs(s: State, w: nat, c: Choice)
    requires w in s.workers && s.workers[w].pc.SendingNotice?
    ensures var SendingNotice(id, attempt) := s.workers[w].pc;
            Step(s, w, c).workers ==
              if Possible(c.attempt) then s.workers[w := s.workers[w].(pc := AfterNotice(id, attempt, c))]
              else s.workers
    ensures Step(s, w, c).now == s.now
  {
    hide Possible, OutcomeUnknown, Again;
    assert Step(s, w, c) == SendNotice(s, w, c);
  }

  // ----- Runs -----

  lemma {:induction false} RunJoined(s: State, first: seq<Event>, second: seq<Event>)
    ensures Run(s, first + second) == Run(Run(s, first), second)
    decreases |second|
  {
    hide Apply;
    if second == [] {
      assert first + second == first;
    } else {
      var all, n := first + second, |second| - 1;
      assert all[..|all| - 1] == first + second[..n];
      RunJoined(s, first, second[..n]);
    }
  }

  lemma {:induction false} RunFirst(s: State, e: Event, events: seq<Event>)
    ensures Run(s, [e] + events) == Run(Apply(s, e), events)
    decreases |events|
  {
    var all := [e] + events;
    if events == [] {
      assert all == [e] && all[..0] == [];
      assert Run(s, all) == Apply(Run(s, all[..0]), e);
    } else {
      var last := |events| - 1;
      assert all[..|all| - 1] == [e] + events[..last];
      RunFirst(s, e, events[..last]);
    }
  }

  lemma OneEvent(s: State, e: Event)
    ensures Run(s, [e]) == Apply(s, e)
  {
    assert [e][..0] == [];
  }
}
