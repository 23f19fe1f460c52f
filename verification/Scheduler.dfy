/** The daily quote protocol (internal/scheduler) as a machine of atomic steps.

    Any number of processes run any number of workers, one worker a run of
    processGroup. Each step is one database statement, one request to Telegram or one
    decision between them. An event list is an arbitrary interleaving: whatever
    the database, Telegram and the model do is chosen by the event, and an event
    that cannot happen changes nothing.
 */
module Scheduler {
  import opened QuoteTable
  import opened Telegram

  const STALE_AFTER := 900
  const RETRY_AFTER := 900
  const MESSAGE_RETENTION := 72 * 3600

  /** A stored chat message; tagged says it carries the #quoto tag. */
  datatype Message = Message(id: nat, createdAt: int, tagged: bool)

  /** What a run reads of the group's settings, once, when it starts. */
  datatype Settings = Settings(agreement: bool, boringNotice: bool, minMessages: nat)

  datatype Via = Copy | Text

  /** Where a worker stands in its run. */
  datatype Pc =
    | Entry
    | WritingOff(stale: set<Snapshot>)
    | LookingUp
    | Deleting(id: nat)
    | Counting
    | ClearingSmallDay
    | Listing
    | ClearingTagged
    | Evaluating
    | Creating(status: Status)
    | Rereading(created: Status)
    | Sending(id: nat, via: Via, attempt: nat)
    | MarkingPublished(id: nat, message: nat)
    | SendingNotice(id: nat, attempt: nat)
    | MarkingNotified(id: nat, message: nat)
    | Recording(id: nat, outcome: Status)
    | Settling(id: nat)
    | ClearingBoring
    | Clearing
    | Finished(done: bool)

  /** cut is the time before which recoverStale writes rows off, once it has run. */
  datatype Worker = Worker(process: nat, key: Key, group: Settings, cut: int, pc: Pc)

  /** The last five fields are history, read by no step. posts and notices count what
      reached the chats. listed is what the latest run of a day read of its window.
      issued is the day each row id was drawn for, and poster the last worker to insert
      a row for a day. */
  datatype State = State(
    now: int,
    nextId: nat,
    quotes: Table,
    messages: map<Key, set<Message>>,
    workers: map<nat, Worker>,
    posts: map<Key, nat>,
    notices: map<Key, nat>,
    listed: map<Key, set<Message>>,
    issued: map<nat, Key>,
    poster: map<Key, nat>)

  datatype Verdict = Interrupted | NoPick | Unusable | Worthy | Boring

  /** What the world does at one step. A statement is acknowledged, or fails; one that
      fails may have been applied all the same. */
  datatype Choice = Choice(
    acknowledged: bool,
    applied: bool,
    attempt: Attempt,
    cancelled: bool,
    reminded: bool,
    copies: bool,
    verdict: Verdict,
    pick: Snapshot)

  datatype Event =
    | Advance(seconds: nat)
    | Arrive(key: Key, message: Message)
    | Retain
    | Begin(worker: nat, process: nat, key: Key, group: Settings)
    | Crash(process: nat)
    | Act(worker: nat, choice: Choice)

  function Initial(now: int): State {
    State(now, 1, map[], map[], map[], map[], map[], map[], map[], map[])
  }

  function Window(s: State, key: Key): set<Message> {
    if key in s.messages then s.messages[key] else {}
  }

  function Listed(s: State, key: Key): set<Message> {
    if key in s.listed then s.listed[key] else {}
  }

  function Count(m: map<Key, nat>, key: Key): nat {
    if key in m then m[key] else 0
  }

  function Add(m: map<Key, nat>, key: Key): map<Key, nat> {
    m[key := Count(m, key) + 1]
  }

  function Posts(s: State, key: Key): nat {
    Count(s.posts, key)
  }

  function Notices(s: State, key: Key): nat {
    Count(s.notices, key)
  }

  function Eligible(ms: set<Message>): set<Message> {
    set m | m in ms && !m.tagged
  }

  /** retryDue: the failed row is old enough to be tried again. */
  predicate RetryDue(r: Row, now: int) {
    var changed := if r.changedAt == 0 then r.createdAt else r.changedAt;
    changed == 0 || now - changed >= RETRY_AFTER
  }

  /** retryExisting and what processGroup makes of its answer, for a day with a row. */
  function PlanFor(r: Row, g: Settings, now: int): Pc {
    if r.status != PublishFailed && r.status != BoringNoticeFailed then Finished(IsTerminal(r))
    else if !RetryDue(r, now) then Finished(IsTerminal(r))
    else if r.status == PublishFailed then
      if r.botMessageId != 0 then Finished(IsTerminal(r)) else Deleting(r.id)
    else if r.noticeMessageId != 0 then Finished(IsTerminal(r))
    else if g.boringNotice then SendingNotice(r.id, 1)
    else Settling(r.id)
  }

  // ----- The parts of a state a step changes -----

  function Goto(s: State, w: nat, pc: Pc): (s': State)
    requires w in s.workers
    ensures s'.workers == s.workers[w := s.workers[w].(pc := pc)]
    ensures s'.now == s.now && s'.quotes == s.quotes && s'.messages == s.messages
    ensures s'.posts == s.posts && s'.notices == s.notices && s'.listed == s.listed
    ensures s'.nextId == s.nextId && s'.issued == s.issued && s'.poster == s.poster
  {
    s.(workers := s.workers[w := s.workers[w].(pc := pc)])
  }

  predicate Took(c: Choice) {
    c.acknowledged || c.applied
  }

  function Write(s: State, t: Table, c: Choice): State {
    s.(quotes := if Took(c) then t else s.quotes)
  }

  function ClearWindow(s: State, key: Key, c: Choice): State {
    s.(messages := if Took(c) then s.messages[key := {}] else s.messages)
  }

  /** The lock of a group admits one run per process. */
  predicate Locked(s: State, process: nat, group: int) {
    exists w: nat :: w in s.workers && s.workers[w].process == process && s.workers[w].key.group == group
  }

  // ----- One step of a worker -----

  /** The agreement gate, then the query for stale rows. */
  function Enter(s: State, w: nat, c: Choice): (s': State)
    requires w in s.workers
    ensures s'.quotes == s.quotes
  {
    var me := s.workers[w];
    var cut := s.now - STALE_AFTER;
    var pc := if !me.group.agreement then Finished(c.reminded)
              else if !c.acknowledged then Finished(false)
              else WritingOff(StaleRows(s.quotes, me.key.group, cut));
    s.(workers := s.workers[w := me.(cut := cut, pc := pc)])
  }

  /** What a stale row is written off as. */
  function OffStatus(p: Snapshot): Status {
    if p.status == Publishing then PublishUnknown else BoringNoticeUnknown
  }

  function WriteOff(s: State, w: nat, c: Choice): State
    requires w in s.workers && s.workers[w].pc.WritingOff?
  {
    var stale := s.workers[w].pc.stale;
    if stale == {} then Goto(s, w, LookingUp)
    else if c.pick !in stale then s
    else
      Goto(Write(s, SetStatus(s.quotes, c.pick.id, OffStatus(c.pick), s.now), c), w,
           if c.acknowledged then WritingOff(stale - {c.pick}) else Finished(false))
  }

  function LookUp(s: State, w: nat, c: Choice): (s': State)
    requires w in s.workers
    ensures s'.quotes == s.quotes
  {
    var me := s.workers[w];
    Goto(s, w, if !c.acknowledged then Finished(false)
               else if me.key !in s.quotes then Counting
               else PlanFor(s.quotes[me.key], me.group, s.now))
  }

  function DeleteFailed(s: State, w: nat, c: Choice): State
    requires w in s.workers && s.workers[w].pc.Deleting?
  {
    var id := s.workers[w].pc.id;
    Goto(Write(s, Delete(s.quotes, id), c), w,
         if c.acknowledged && Holds(s.quotes, id) then Counting else Finished(false))
  }

  function CountWindow(s: State, w: nat, c: Choice): (s': State)
    requires w in s.workers
    ensures s'.quotes == s.quotes
  {
    var me := s.workers[w];
    var count := |Window(s, me.key)|;
    Goto(s, w, if !c.acknowledged then Finished(false)
               else if count == 0 then Finished(true)
               else if count < me.group.minMessages then ClearingSmallDay
               else Listing)
  }

  function ListWindow(s: State, w: nat, c: Choice): (s': State)
    requires w in s.workers
    ensures s'.quotes == s.quotes
  {
    var me := s.workers[w];
    var source := Window(s, me.key);
    var eligible := |Eligible(source)|;
    Goto(s.(listed := if c.acknowledged then s.listed[me.key := source] else s.listed), w,
         if !c.acknowledged then Finished(false)
         else if eligible == 0 then (if |source| > 0 then ClearingTagged else Finished(true))
         else if eligible < me.group.minMessages then ClearingSmallDay
         else Evaluating)
  }

  /** Clearing the window of a day that gets no post: it is finished if that worked. */
  function ClearDay(s: State, w: nat, c: Choice): (s': State)
    requires w in s.workers
    ensures s'.quotes == s.quotes
  {
    Goto(ClearWindow(s, s.workers[w].key, c), w, Finished(c.acknowledged))
  }

  /** The authors' names are read, then the model is asked. */
  function Evaluate(s: State, w: nat, c: Choice): (s': State)
    requires w in s.workers
    ensures s'.quotes == s.quotes
  {
    Goto(s, w, if !c.acknowledged then Finished(false)
               else match c.verdict
                    case Interrupted => Finished(false)
                    case NoPick => Finished(true)
                    case Unusable => Creating(PublishFailed)
                    case Worthy => Creating(Publishing)
                    case Boring =>
                      Creating(if s.workers[w].group.boringNotice then NotifyingBoring else SkippedBoring))
  }

  /** An insert draws an id whether or not a row results. */
  function Drawn(s: State, key: Key): State {
    s.(nextId := s.nextId + 1, issued := s.issued[s.nextId := key])
  }

  function Inserted(s: State, w: nat, key: Key, st: Status): State {
    s.(quotes := Insert(s.quotes, key, s.nextId, st, s.now), nextId := s.nextId + 1,
       issued := s.issued[s.nextId := key], poster := s.poster[key := w])
  }

  /** Insert if absent. */
  function Create(s: State, w: nat, c: Choice): State
    requires w in s.workers && s.workers[w].pc.Creating?
  {
    var me := s.workers[w];
    if me.key in s.quotes || !Took(c) then Goto(Drawn(s, me.key), w, Finished(false))
    else Goto(Inserted(s, w, me.key, me.pc.status), w,
              if c.acknowledged then Rereading(me.pc.status) else Finished(false))
  }

  /** The second statement of Create reads the row back. */
  function Reread(s: State, w: nat, c: Choice): (s': State)
    requires w in s.workers && s.workers[w].pc.Rereading?
    ensures s'.quotes == s.quotes
  {
    var me := s.workers[w];
    Goto(s, w, if !c.acknowledged || me.key !in s.quotes then Finished(false)
               else
                 var id := s.quotes[me.key].id;
                 match me.pc.created
                 case Publishing => Sending(id, if c.copies then Copy else Text, 1)
                 case NotifyingBoring => SendingNotice(id, 1)
                 case SkippedBoring => ClearingBoring
                 case _ => Finished(false))
  }

  function Send(s: State, w: nat, c: Choice): (s': State)
    requires w in s.workers && s.workers[w].pc.Sending?
    ensures s'.quotes == s.quotes
  {
    var me := s.workers[w];
    var Sending(id, via, attempt) := me.pc;
    var answer := c.attempt.answer;
    if !Possible(c.attempt) then s
    else
      Goto(s.(posts := if c.attempt.delivered then Add(s.posts, me.key) else s.posts), w,
           if answer.Accepted? then MarkingPublished(id, answer.messageId)
           else if Again(answer, attempt, c.cancelled) then Sending(id, via, attempt + 1)
           else if OutcomeUnknown(answer) then Recording(id, PublishUnknown)
           else if via == Copy then Sending(id, Text, 1)
           else Recording(id, PublishFailed))
  }

  function SendNotice(s: State, w: nat, c: Choice): (s': State)
    requires w in s.workers && s.workers[w].pc.SendingNotice?
    ensures s'.quotes == s.quotes
  {
    var me := s.workers[w];
    var SendingNotice(id, attempt) := me.pc;
    var answer := c.attempt.answer;
    if !Possible(c.attempt) then s
    else
      Goto(s.(notices := if c.attempt.delivered then Add(s.notices, me.key) else s.notices), w,
           if answer.Accepted? then MarkingNotified(id, answer.messageId)
           else if Again(answer, attempt, c.cancelled) then SendingNotice(id, attempt + 1)
           else if OutcomeUnknown(answer) then Recording(id, BoringNoticeUnknown)
           else Recording(id, BoringNoticeFailed))
  }

  function MarkQuote(s: State, w: nat, c: Choice): State
    requires w in s.workers && s.workers[w].pc.MarkingPublished?
  {
    var MarkingPublished(id, message) := s.workers[w].pc;
    Goto(Write(s, MarkPublished(s.quotes, id, message, s.now), c), w,
         if c.acknowledged then Clearing else Recording(id, PublishUnknown))
  }

  function MarkNotice(s: State, w: nat, c: Choice): State
    requires w in s.workers && s.workers[w].pc.MarkingNotified?
  {
    var MarkingNotified(id, message) := s.workers[w].pc;
    Goto(Write(s, MarkNotified(s.quotes, id, message, s.now), c), w,
         if c.acknowledged then Clearing else Recording(id, BoringNoticeUnknown))
  }

  function Record(s: State, w: nat, c: Choice): State
    requires w in s.workers && s.workers[w].pc.Recording?
  {
    var Recording(id, outcome) := s.workers[w].pc;
    Goto(Write(s, SetStatus(s.quotes, id, outcome, s.now), c), w, Finished(false))
  }

  function Settle(s: State, w: nat, c: Choice): State
    requires w in s.workers && s.workers[w].pc.Settling?
  {
    Goto(Write(s, SetStatus(s.quotes, s.workers[w].pc.id, SkippedBoring, s.now), c), w,
         if c.acknowledged then Clearing else Finished(false))
  }

  /** After a post or a notice the window is cleared; failing to is not an error. */
  function Clear(s: State, w: nat, c: Choice): (s': State)
    requires w in s.workers
    ensures s'.quotes == s.quotes
  {
    Goto(ClearWindow(s, s.workers[w].key, c), w, Finished(true))
  }

  function Release(s: State, w: nat): State {
    s.(workers := s.workers - {w})
  }

  function Step(s: State, w: nat, c: Choice): State
    requires w in s.workers
  {
    match s.workers[w].pc
    case Entry => Enter(s, w, c)
    case WritingOff(_) => WriteOff(s, w, c)
    case LookingUp => LookUp(s, w, c)
    case Deleting(_) => DeleteFailed(s, w, c)
    case Counting => CountWindow(s, w, c)
    case ClearingSmallDay => ClearDay(s, w, c)
    case Listing => ListWindow(s, w, c)
    case ClearingTagged => ClearDay(s, w, c)
    case Evaluating => Evaluate(s, w, c)
    case Creating(_) => Create(s, w, c)
    case Rereading(_) => Reread(s, w, c)
    case Sending(_, _, _) => Send(s, w, c)
    case MarkingPublished(_, _) => MarkQuote(s, w, c)
    case SendingNotice(_, _) => SendNotice(s, w, c)
    case MarkingNotified(_, _) => MarkNotice(s, w, c)
    case Recording(_, _) => Record(s, w, c)
    case Settling(_) => Settle(s, w, c)
    case ClearingBoring => ClearDay(s, w, c)
    case Clearing => Clear(s, w, c)
    case Finished(_) => Release(s, w)
  }

  function Retained(s: State): map<Key, set<Message>> {
    map k | k in s.messages :: set m | m in s.messages[k] && m.createdAt >= s.now - MESSAGE_RETENTION
  }

  function Apply(s: State, e: Event): State {
    match e
    case Advance(seconds) => s.(now := s.now + seconds)
    case Arrive(key, m) => s.(messages := s.messages[key := Window(s, key) + {m}])
    case Retain => s.(messages := Retained(s))
    case Begin(w, process, key, group) =>
      if w in s.workers || Locked(s, process, key.group) then s
      else s.(workers := s.workers[w := Worker(process, key, group, s.now, Entry)])
    case Crash(process) =>
      s.(workers := map w | w in s.workers && s.workers[w].process != process :: s.workers[w])
    case Act(w, c) => if w in s.workers then Step(s, w, c) else s
  }

  /** The state after a list of events. */
  function Run(s: State, events: seq<Event>): State
    decreases |events|
  {
    if events == [] then s
    else Apply(Run(s, events[..|events| - 1]), events[|events| - 1])
  }
}
