/** The queues and workers of the media pipeline (internal/media/pipeline.go): ids are
    reserved, handed from place to place by goroutines that run at the same time, and
    released. Each event is one atomic action of one goroutine. The machine allows any
    number of submitters, routers and recovery passes.
 */
module MediaQueue {
  import opened Wrappers

  type Id = int

  const QUEUE_SIZE := 256
  const MAX_CONCURRENT := 2
  const MAX_VIDEOS := 1

  /** One message's row on its way to a worker. Whether it is a video is not known until the
      row has been read. */
  datatype Job = Job(id: Id, isVideo: bool)

  /** What a goroutine is about to do with the job it holds outside the channels: put it in
      the inbox, read its row, put it in the channel of its class, or release it. */
  datatype Errand = Submitting | Routing | Enqueuing | Releasing

  datatype Hand = Hand(job: Job, errand: Errand)

  /** A worker takes a job, waits for a slot, runs it, gives the slot back, releases the id. */
  datatype Worker = Free | Waiting(job: Job) | Running(job: Job) | Leaving(job: Job)

  /** The first MAX_CONCURRENT workers take from light, the MAX_VIDEOS after them from video. */
  datatype State = State(
    queued: set<Id>,
    inbox: seq<Job>,
    light: seq<Job>,
    video: seq<Job>,
    hands: seq<Hand>,
    workers: seq<Worker>)

  function Begin(): State {
    State({}, [], [], [], [], seq(MAX_CONCURRENT + MAX_VIDEOS, _ => Free))
  }

  predicate VideoWorker(w: nat) {
    w >= MAX_CONCURRENT
  }

  function CountRunning(ws: seq<Worker>): (n: nat)
    ensures n <= |ws|
  {
    if ws == [] then 0 else (if ws[0].Running? then 1 else 0) + CountRunning(ws[1..])
  }

  // ----- Events -----

  /** Submit and Recover: reserve the id; a recovery pass has read the row already.
      Move: hand k does its errand. routed is what the router read: None if no row.
      Take, Start, End, Leave: a worker's steps. Cancel: it stops waiting at shutdown.
      Receive: the router takes the oldest id of the inbox. */
  datatype Event =
    | Submit(id: Id)
    | Recover(id: Id, isVideo: bool)
    | Receive
    | Move(hand: nat, found: bool, isVideo: bool)
    | Take(worker: nat)
    | Start(worker: nat)
    | Cancel(worker: nat)
    | End(worker: nat)
    | Leave(worker: nat)

  function Without<T>(s: seq<T>, k: nat): seq<T>
    requires k < |s|
  {
    s[..k] + s[k + 1..]
  }

  /** reserve: an id that is queued already is dropped. */
  function Reserve(s: State, job: Job, errand: Errand): State {
    if job.id in s.queued then s
    else s.(queued := s.queued + {job.id}, hands := s.hands + [Hand(job, errand)])
  }

  /** The hand does its errand; a full channel turns it into a release. */
  function Do(s: State, k: nat, found: bool, isVideo: bool): State
    requires k < |s.hands|
  {
    var job := s.hands[k].job;
    match s.hands[k].errand
    case Submitting =>
      if |s.inbox| < QUEUE_SIZE then s.(inbox := s.inbox + [job], hands := Without(s.hands, k))
      else s.(hands := s.hands[k := Hand(job, Releasing)])
    case Routing =>
      s.(hands := s.hands[k := if found then Hand(Job(job.id, isVideo), Enqueuing) else Hand(job, Releasing)])
    case Enqueuing =>
      if job.isVideo && |s.video| < QUEUE_SIZE then s.(video := s.video + [job], hands := Without(s.hands, k))
      else if !job.isVideo && |s.light| < QUEUE_SIZE then s.(light := s.light + [job], hands := Without(s.hands, k))
      else s.(hands := s.hands[k := Hand(job, Releasing)])
    case Releasing =>
      s.(queued := s.queued - {job.id}, hands := Without(s.hands, k))
  }

  function TakeJob(s: State, w: nat): State
    requires w < |s.workers|
  {
    if s.workers[w] != Free then s
    else if VideoWorker(w) then
      if s.video == [] then s
      else s.(video := s.video[1..], workers := s.workers[w := Waiting(s.video[0])])
    else
      if s.light == [] then s
      else s.(light := s.light[1..], workers := s.workers[w := Waiting(s.light[0])])
  }

  function Apply(s: State, e: Event): State {
    match e
    case Submit(id) => Reserve(s, Job(id, false), Submitting)
    case Recover(id, v) => Reserve(s, Job(id, v), Enqueuing)
    case Receive =>
      if s.inbox == [] then s
      else s.(inbox := s.inbox[1..], hands := s.hands + [Hand(s.inbox[0], Routing)])
    case Move(k, found, v) => if k < |s.hands| then Do(s, k, found, v) else s
    case Take(w) => if w < |s.workers| then TakeJob(s, w) else s
    case Start(w) =>
      if w < |s.workers| && s.workers[w].Waiting? && CountRunning(s.workers) < MAX_CONCURRENT then
        s.(workers := s.workers[w := Running(s.workers[w].job)])
      else s
    case Cancel(w) =>
      if w < |s.workers| && s.workers[w].Waiting? then s.(workers := s.workers[w := Leaving(s.workers[w].job)]) else s
    case End(w) =>
      if w < |s.workers| && s.workers[w].Running? then s.(workers := s.workers[w := Leaving(s.workers[w].job)]) else s
    case Leave(w) =>
      if w < |s.workers| && s.workers[w].Leaving? then
        s.(queued := s.queued - {s.workers[w].job.id}, workers := s.workers[w := Free])
      else s
  }

  function Run(s: State, events: seq<Event>): State
    decreases |events|
  {
    if events == [] then s else Apply(Run(s, events[..|events| - 1]), events[|events| - 1])
  }

  // ----- Who holds an id -----

  function Times(jobs: seq<Job>, id: Id): nat {
    if jobs == [] then 0 else (if jobs[0].id == id then 1 else 0) + Times(jobs[1..], id)
  }

  function HandTimes(hands: seq<Hand>, id: Id): nat {
    if hands == [] then 0 else (if hands[0].job.id == id then 1 else 0) + HandTimes(hands[1..], id)
  }

  predicate Works(w: Worker, id: Id) {
    w != Free && w.job.id == id
  }

  function WorkerTimes(ws: seq<Worker>, id: Id): nat {
    if ws == [] then 0 else (if Works(ws[0], id) then 1 else 0) + WorkerTimes(ws[1..], id)
  }

  /** In how many places the id is, over the channels, the hands and the workers. */
  function Places(s: State, id: Id): nat {
    Times(s.inbox, id) + Times(s.light, id) + Times(s.video, id) + HandTimes(s.hands, id) + WorkerTimes(s.workers, id)
  }

  /** The reserved ids are exactly those held somewhere, each in one place. */
  ghost predicate OnePlaceEach(s: State) {
    forall id: Id :: Places(s, id) == if id in s.queued then 1 else 0
  }

  predicate Bounded(s: State) {
    && |s.inbox| <= QUEUE_SIZE && |s.light| <= QUEUE_SIZE && |s.video| <= QUEUE_SIZE
    && |s.workers| == MAX_CONCURRENT + MAX_VIDEOS
    && CountRunning(s.workers) <= MAX_CONCURRENT
  }

  // ----- Counting through an update -----

  lemma {:induction false} TimesSnoc(jobs: seq<Job>, job: Job, id: Id)
    ensures Times(jobs + [job], id) == Times(jobs, id) + if job.id == id then 1 else 0
    decreases |jobs|
  {
    if jobs == [] {
      assert jobs + [job] == [job];
    } else {
      assert (jobs + [job])[1..] == jobs[1..] + [job];
      TimesSnoc(jobs[1..], job, id);
    }
  }

  lemma {:induction false} HandSnoc(hands: seq<Hand>, h: Hand, id: Id)
    ensures HandTimes(hands + [h], id) == HandTimes(hands, id) + if h.job.id == id then 1 else 0
    decreases |hands|
  {
    if hands == [] {
      assert hands + [h] == [h];
    } else {
      assert (hands + [h])[1..] == hands[1..] + [h];
      HandSnoc(hands[1..], h, id);
    }
  }

  lemma {:induction false} HandGone(hands: seq<Hand>, k: nat, id: Id)
    requires k < |hands|
    ensures HandTimes(Without(hands, k), id) == HandTimes(hands, id) - if hands[k].job.id == id then 1 else 0
    decreases |hands|
  {
    if k == 0 {
      assert Without(hands, 0) == hands[1..];
    } else {
      HandGone(hands[1..], k - 1, id);
      assert Without(hands, k)[1..] == Without(hands[1..], k - 1);
    }
  }

  lemma {:induction false} HandKept(hands: seq<Hand>, k: nat, h: Hand, id: Id)
    requires k < |hands| && h.job.id == hands[k].job.id
    ensures HandTimes(hands[k := h], id) == HandTimes(hands, id)
    decreases |hands|
  {
    if k > 0 {
      HandKept(hands[1..], k - 1, h, id);
      assert hands[k := h][1..] == hands[1..][k - 1 := h];
    } else {
      assert hands[0 := h][1..] == hands[1..];
    }
  }

  lemma {:induction false} WorkerChanged(ws: seq<Worker>, k: nat, w: Worker, id: Id)
    requires k < |ws|
    ensures WorkerTimes(ws[k := w], id) ==
              WorkerTimes(ws, id) - (if Works(ws[k], id) then 1 else 0) + (if Works(w, id) then 1 else 0)
    decreases |ws|
  {
    if k > 0 {
      WorkerChanged(ws[1..], k - 1, w, id);
      assert ws[k := w][1..] == ws[1..][k - 1 := w];
    } else {
      assert ws[0 := w][1..] == ws[1..];
    }
  }

  lemma {:induction false} RunningChanged(ws: seq<Worker>, k: nat, w: Worker)
    requires k < |ws|
    ensures CountRunning(ws[k := w]) ==
              CountRunning(ws) - (if ws[k].Running? then 1 else 0) + (if w.Running? then 1 else 0)
    decreases |ws|
  {
    if k > 0 {
      RunningChanged(ws[1..], k - 1, w);
      assert ws[k := w][1..] == ws[1..][k - 1 := w];
    } else {
      assert ws[0 := w][1..] == ws[1..];
    }
  }

  lemma {:induction false} WorkerIn(ws: seq<Worker>, k: nat, id: Id)
    requires k < |ws| && Works(ws[k], id)
    ensures WorkerTimes(ws, id) >= 1
    decreases |ws|
  {
    if k > 0 {
      WorkerIn(ws[1..], k - 1, id);
    }
  }

  lemma {:induction false} WorkersTwice(ws: seq<Worker>, j: nat, k: nat, id: Id)
    requires j < k < |ws| && Works(ws[j], id) && Works(ws[k], id)
    ensures WorkerTimes(ws, id) >= 2
    decreases |ws|
  {
    if j == 0 {
      WorkerIn(ws[1..], k - 1, id);
    } else {
      WorkersTwice(ws[1..], j - 1, k - 1, id);
    }
  }

  // ----- What every event keeps -----

  predicate Released(h: Hand, id: Id) {
    h.errand == Releasing && h.job.id == id
  }

  predicate Left(w: Worker, id: Id) {
    w.Leaving? && w.job.id == id
  }

  /** How an event moves one id: its places change as its reservation does. */
  lemma PlacesFollow(s: State, e: Event, id: Id)
    ensures var s' := Apply(s, e);
            Places(s', id) - Places(s, id) ==
              (if id in s'.queued && id !in s.queued then 1 else 0)
              - (if e.Move? && e.hand < |s.hands| && Released(s.hands[e.hand], id) then 1 else 0)
              - (if e.Leave? && e.worker < |s.workers| && Left(s.workers[e.worker], id) then 1 else 0)
  {
    hide Times, HandTimes, WorkerTimes;
    match e
    case Submit(x) => HandSnoc(s.hands, Hand(Job(x, false), Submitting), id);
    case Recover(x, v) => HandSnoc(s.hands, Hand(Job(x, v), Enqueuing), id);
    case Receive =>
      if s.inbox != [] {
        HandSnoc(s.hands, Hand(s.inbox[0], Routing), id);
        FirstTaken(s.inbox, id);
      }
    case Move(k, found, v) =>
      if k < |s.hands| {
        MoveFollows(s, k, found, v, id);
      }
    case Take(w) =>
      if w < |s.workers| && s.workers[w] == Free {
        var from := if VideoWorker(w) then s.video else s.light;
        if from != [] {
          WorkerChanged(s.workers, w, Waiting(from[0]), id);
          FirstTaken(from, id);
        }
      }
    case Start(w) =>
      if w < |s.workers| && s.workers[w].Waiting? {
        WorkerChanged(s.workers, w, Running(s.workers[w].job), id);
      }
    case Cancel(w) =>
      if w < |s.workers| && s.workers[w].Waiting? {
        WorkerChanged(s.workers, w, Leaving(s.workers[w].job), id);
      }
    case End(w) =>
      if w < |s.workers| && s.workers[w].Running? {
        WorkerChanged(s.workers, w, Leaving(s.workers[w].job), id);
      }
    case Leave(w) =>
      if w < |s.workers| && s.workers[w].Leaving? {
        WorkerChanged(s.workers, w, Free, id);
      }
  }

  lemma FirstTaken(jobs: seq<Job>, id: Id)
    requires jobs != []
    ensures Times(jobs[1..], id) == Times(jobs, id) - if jobs[0].id == id then 1 else 0
  {
  }

  lemma MoveFollows(s: State, k: nat, found: bool, isVideo: bool, id: Id)
    requires k < |s.hands|
    ensures Places(Do(s, k, found, isVideo), id) - Places(s, id) ==
              - if Released(s.hands[k], id) then 1 else 0
  {
    hide Times, HandTimes, WorkerTimes;
    var job := s.hands[k].job;
    HandGone(s.hands, k, id);
    TimesSnoc(s.inbox, job, id);
    TimesSnoc(s.light, job, id);
    TimesSnoc(s.video, job, id);
    HandKept(s.hands, k, Hand(job, Releasing), id);
    HandKept(s.hands, k, Hand(Job(job.id, isVideo), Enqueuing), id);
  }

  lemma {:induction false} HandIn(hands: seq<Hand>, k: nat)
    requires k < |hands|
    ensures HandTimes(hands, hands[k].job.id) >= 1
    decreases |hands|
  {
    if k > 0 {
      HandIn(hands[1..], k - 1);
    }
  }

  lemma EventKeepsPlaces(s: State, e: Event)
    requires OnePlaceEach(s)
    ensures OnePlaceEach(Apply(s, e))
  {
    var s' := Apply(s, e);
    forall id: Id ensures Places(s', id) == if id in s'.queued then 1 else 0 {
      hide Places;
      assert Places(s, id) == if id in s.queued then 1 else 0;
      PlacesFollow(s, e, id);
      ReleasedOnlyIfHeld(s, e, id);
    }
  }

  /** An id leaves the reserved set only with the hand or the worker that releases it. */
  lemma ReleasedOnlyIfHeld(s: State, e: Event, id: Id)
    requires OnePlaceEach(s)
    ensures var s' := Apply(s, e);
            var released := (e.Move? && e.hand < |s.hands| && Released(s.hands[e.hand], id))
                            || (e.Leave? && e.worker < |s.workers| && Left(s.workers[e.worker], id));
            (released ==> id in s.queued && id !in s'.queued) && (id in s.queued && id !in s'.queued ==> released)
  {
    assert Places(s, id) == if id in s.queued then 1 else 0;
    if e.Move? && e.hand < |s.hands| {
      HandIn(s.hands, e.hand);
    } else if e.Leave? && e.worker < |s.workers| && Left(s.workers[e.worker], id) {
      WorkerIn(s.workers, e.worker, id);
    }
  }

  lemma EventKeepsBounds(s: State, e: Event)
    requires Bounded(s)
    ensures Bounded(Apply(s, e))
  {
    hide CountRunning;
    match e
    case Take(w) =>
      if w < |s.workers| && s.workers[w] == Free {
        var from := if VideoWorker(w) then s.video else s.light;
        if from != [] {
          RunningChanged(s.workers, w, Waiting(from[0]));
        }
      }
    case Start(w) =>
      if w < |s.workers| && s.workers[w].Waiting? {
        RunningChanged(s.workers, w, Running(s.workers[w].job));
      }
    case Cancel(w) =>
      if w < |s.workers| && s.workers[w].Waiting? {
        RunningChanged(s.workers, w, Leaving(s.workers[w].job));
      }
    case End(w) =>
      if w < |s.workers| && s.workers[w].Running? {
        RunningChanged(s.workers, w, Leaving(s.workers[w].job));
      }
    case Leave(w) =>
      if w < |s.workers| {
        RunningChanged(s.workers, w, Free);
      }
    case _ =>
  }

  /** Every job is in the channel of its class or with a worker of it. */
  predicate InClass(s: State) {
    && (forall i :: 0 <= i < |s.light| ==> !s.light[i].isVideo)
    && (forall i :: 0 <= i < |s.video| ==> s.video[i].isVideo)
    && (forall w: nat :: w < |s.workers| && s.workers[w] != Free ==> s.workers[w].job.isVideo == VideoWorker(w))
  }

  lemma EventKeepsClass(s: State, e: Event)
    requires InClass(s)
    ensures InClass(Apply(s, e))
  {
  }

  lemma {:induction false} NobodyWorks(ws: seq<Worker>, id: Id)
    requires forall w :: 0 <= w < |ws| ==> ws[w] == Free
    ensures WorkerTimes(ws, id) == 0 && CountRunning(ws) == 0
    decreases |ws|
  {
    if ws != [] {
      NobodyWorks(ws[1..], id);
    }
  }

  lemma BeginHolds()
    ensures OnePlaceEach(Begin()) && Bounded(Begin()) && InClass(Begin())
  {
    forall id: Id ensures Places(Begin(), id) == 0 {
      NobodyWorks(Begin().workers, id);
    }
    NobodyWorks(Begin().workers, 0);
  }

  /** After any run, an id is reserved exactly when it is in one channel, hand or worker,
      and then in only one; every channel keeps to its size, two jobs at most run, and each
      is with a worker of its class. */
  lemma {:induction false} AlwaysOnePlace(events: seq<Event>)
    ensures var s := Run(Begin(), events);
            OnePlaceEach(s) && Bounded(s) && InClass(s)
    decreases |events|
  {
    hide OnePlaceEach, Bounded, InClass, Begin, Apply;
    if events == [] {
      BeginHolds();
    } else {
      var before := Run(Begin(), events[..|events| - 1]);
      AlwaysOnePlace(events[..|events| - 1]);
      EventKeepsPlaces(before, events[|events| - 1]);
      EventKeepsBounds(before, events[|events| - 1]);
      EventKeepsClass(before, events[|events| - 1]);
    }
  }

  /** No message is worked on by two workers at once, and no two videos run at once. */
  lemma NeverTwiceAtOnce(events: seq<Event>, j: nat, k: nat)
    ensures var ws := Run(Begin(), events).workers;
            j < k < |ws| && ws[j] != Free && ws[k] != Free ==>
              ws[j].job.id != ws[k].job.id && !(ws[j].job.isVideo && ws[k].job.isVideo)
  {
    hide Run, Begin;
    var s := Run(Begin(), events);
    AlwaysOnePlace(events);
    if j < k < |s.workers| && s.workers[j] != Free && s.workers[k] != Free {
      var id := s.workers[j].job.id;
      assert Places(s, id) <= 1;
      if id == s.workers[k].job.id {
        WorkersTwice(s.workers, j, k, id);
      }
    }
  }

  // ----- Jobs are of the class their rows were read to be -----

  /** What the event reads of a row: the router reads the one it routes, a recovery pass has
      read each it reserves. */
  function Reading(s: State, e: Event): Option<Job> {
    match e
    case Move(k, found, isVideo) =>
      if k < |s.hands| && s.hands[k].errand == Routing && found then Some(Job(s.hands[k].job.id, isVideo)) else None
    case Recover(id, isVideo) => if id in s.queued then None else Some(Job(id, isVideo))
    case _ => None
  }

  function Learned(read: map<Id, bool>, r: Option<Job>): map<Id, bool> {
    if r.Some? then read[r.value.id := r.value.isVideo] else read
  }

  /** By id, what the last reading of its row in a run said. */
  function Readings(events: seq<Event>): map<Id, bool>
    decreases |events|
  {
    if events == [] then map[]
    else
      var before := events[..|events| - 1];
      Learned(Readings(before), Reading(Run(Begin(), before), events[|events| - 1]))
  }

  predicate AsRead(job: Job, read: map<Id, bool>) {
    job.id in read && read[job.id] == job.isVideo
  }

  /** The jobs in the channels of a class, on their way to one, and with workers. */
  predicate AllAsRead(s: State, read: map<Id, bool>) {
    && (forall i :: 0 <= i < |s.light| ==> AsRead(s.light[i], read))
    && (forall i :: 0 <= i < |s.video| ==> AsRead(s.video[i], read))
    && (forall i :: 0 <= i < |s.hands| && s.hands[i].errand == Enqueuing ==> AsRead(s.hands[i].job, read))
    && (forall w :: 0 <= w < |s.workers| && s.workers[w] != Free ==> AsRead(s.workers[w].job, read))
  }

  lemma {:induction false} NotAmong(jobs: seq<Job>, id: Id)
    requires Times(jobs, id) == 0
    ensures forall i :: 0 <= i < |jobs| ==> jobs[i].id != id
    decreases |jobs|
  {
    if jobs != [] {
      NotAmong(jobs[1..], id);
    }
  }

  lemma {:induction false} NotInHand(hands: seq<Hand>, id: Id)
    requires HandTimes(hands, id) == 0
    ensures forall i :: 0 <= i < |hands| ==> hands[i].job.id != id
    decreases |hands|
  {
    if hands != [] {
      NotInHand(hands[1..], id);
    }
  }

  lemma {:induction false} NotAtWork(ws: seq<Worker>, id: Id)
    requires WorkerTimes(ws, id) == 0
    ensures forall i :: 0 <= i < |ws| ==> !Works(ws[i], id)
    decreases |ws|
  {
    if ws != [] {
      NotAtWork(ws[1..], id);
    }
  }

  /** An id is nowhere but in hand k, if in any. */
  predicate NowhereBut(s: State, id: Id, k: int) {
    && (forall i :: 0 <= i < |s.light| ==> s.light[i].id != id)
    && (forall i :: 0 <= i < |s.video| ==> s.video[i].id != id)
    && (forall i :: 0 <= i < |s.hands| && i != k ==> s.hands[i].job.id != id)
    && (forall w :: 0 <= w < |s.workers| ==> !Works(s.workers[w], id))
  }

  lemma OnlyInHand(s: State, k: nat)
    requires OnePlaceEach(s) && k < |s.hands|
    ensures NowhereBut(s, s.hands[k].job.id, k)
  {
    hide Times, HandTimes, WorkerTimes;
    var id, others := s.hands[k].job.id, Without(s.hands, k);
    HandIn(s.hands, k);
    HandGone(s.hands, k, id);
    assert Places(s, id) <= 1;
    NotAmong(s.light, id);
    NotAmong(s.video, id);
    NotInHand(others, id);
    NotAtWork(s.workers, id);
    forall i | 0 <= i < |s.hands| && i != k ensures s.hands[i].job.id != id {
      assert others[if i < k then i else i - 1] == s.hands[i];
    }
  }

  lemma FreeIsNowhere(s: State, id: Id)
    requires OnePlaceEach(s) && id !in s.queued
    ensures NowhereBut(s, id, -1)
  {
    hide Times, HandTimes, WorkerTimes;
    assert Places(s, id) == 0;
    NotAmong(s.light, id);
    NotAmong(s.video, id);
    NotInHand(s.hands, id);
    NotAtWork(s.workers, id);
  }

  lemma EventKeepsReadings(s: State, e: Event, read: map<Id, bool>)
    requires OnePlaceEach(s) && AllAsRead(s, read)
    ensures AllAsRead(Apply(s, e), Learned(read, Reading(s, e)))
  {
    hide OnePlaceEach, CountRunning;
    match e
    case Move(k, found, isVideo) =>
      if k < |s.hands| {
        OnlyInHand(s, k);
        MoveKeepsReadings(s, k, found, isVideo, read);
      }
    case Recover(id, isVideo) =>
      if id !in s.queued {
        FreeIsNowhere(s, id);
      }
    case _ =>
  }

  lemma MoveKeepsReadings(s: State, k: nat, found: bool, isVideo: bool, read: map<Id, bool>)
    requires k < |s.hands| && NowhereBut(s, s.hands[k].job.id, k) && AllAsRead(s, read)
    ensures AllAsRead(Do(s, k, found, isVideo), Learned(read, Reading(s, Move(k, found, isVideo))))
  {
  }

  lemma {:induction false} AlwaysAsRead(events: seq<Event>)
    ensures AllAsRead(Run(Begin(), events), Readings(events))
    decreases |events|
  {
    hide OnePlaceEach, Bounded, InClass, Apply, AllAsRead;
    if events == [] {
      NothingToRead();
    } else {
      var last := |events| - 1;
      AlwaysAsRead(events[..last]);
      AlwaysOnePlace(events[..last]);
      EventKeepsReadings(Run(Begin(), events[..last]), events[last], Readings(events[..last]));
    }
  }

  lemma NothingToRead()
    ensures AllAsRead(Begin(), map[])
  {
  }

  /** After any run, what is in the video channel or with its worker was last read to be a
      video, and what is in the light channel or with a light worker was not. */
  lemma ChannelsMatchReadings(events: seq<Event>)
    ensures var s, read := Run(Begin(), events), Readings(events);
            && (forall i :: 0 <= i < |s.light| ==> s.light[i].id in read && !read[s.light[i].id])
            && (forall i :: 0 <= i < |s.video| ==> s.video[i].id in read && read[s.video[i].id])
            && (forall w: nat :: w < |s.workers| && s.workers[w] != Free ==>
                  s.workers[w].job.id in read && read[s.workers[w].job.id] == VideoWorker(w))
  {
    hide OnePlaceEach, Bounded, Run, Begin, Readings;
    AlwaysAsRead(events);
    AlwaysOnePlace(events);
  }

  /** So no two messages whose rows were read to be videos are worked on at once. */
  lemma NeverTwoVideos(events: seq<Event>, j: nat, k: nat)
    ensures var ws, read := Run(Begin(), events).workers, Readings(events);
            j < k < |ws| && ws[j] != Free && ws[k] != Free ==>
              ws[j].job.id in read && ws[k].job.id in read && !(read[ws[j].job.id] && read[ws[k].job.id])
  {
    hide OnePlaceEach, InClass, Run, Begin, Readings;
    ChannelsMatchReadings(events);
    AlwaysOnePlace(events);
  }

  // ----- Submit, enqueue and the recovery pass as they run -----

  /** At most one hand beyond the first n, and it is not about to read its row. */
  predicate Simple(s: State, n: nat) {
    n <= |s.hands| <= n + 1 && (|s.hands| == n + 1 ==> s.hands[n].errand != Routing)
  }

  /** What that hand does when nothing else runs in between. */
  function Settle(s: State, n: nat): (r: State)
    requires Simple(s, n)
    ensures r.hands == s.hands[..n] && r.workers == s.workers
    decreases |s.hands|, if |s.hands| > n && s.hands[n].errand != Releasing then 1 else 0
  {
    if |s.hands| == n then s else Settle(Do(s, n, false, false), n)
  }

  /** The recovery pass: each row in turn, reserved and put in the channel of its class. */
  function RecoverAll(s: State, items: seq<Job>): (r: State)
    ensures r.hands == s.hands && r.workers == s.workers
    decreases |items|
  {
    if items == [] then s
    else Settle(Reserve(RecoverAll(s, items[..|items| - 1]), items[|items| - 1], Enqueuing), |s.hands|)
  }

  /** Work done without interruption is a run like any other. */
  lemma {:induction false} SettleIsARun(s: State, n: nat) returns (moves: seq<Event>)
    requires Simple(s, n)
    ensures Run(s, moves) == Settle(s, n)
    decreases |s.hands|, if |s.hands| > n && s.hands[n].errand != Releasing then 1 else 0
  {
    if |s.hands| == n {
      moves := [];
    } else {
      var move := Move(n, false, false);
      var more := SettleIsARun(Do(s, n, false, false), n);
      moves := [move] + more;
      OneEvent(s, move);
      RunJoined(s, [move], more);
    }
  }

  /** So is a whole submission, and a whole recovery pass. */
  lemma SubmitIsARun(s: State, id: Id) returns (events: seq<Event>)
    ensures Run(s, events) == Settle(Apply(s, Submit(id)), |s.hands|)
  {
    var e := Submit(id);
    var moves := SettleIsARun(Apply(s, e), |s.hands|);
    events := [e] + moves;
    OneEvent(s, e);
    RunJoined(s, [e], moves);
  }

  lemma OneRecoveryIsARun(s: State, job: Job) returns (events: seq<Event>)
    ensures Run(s, events) == Settle(Reserve(s, job, Enqueuing), |s.hands|)
  {
    hide Run, Settle;
    var e := Recover(job.id, job.isVideo);
    var moves := SettleIsARun(Apply(s, e), |s.hands|);
    events := [e] + moves;
    OneEvent(s, e);
    RunJoined(s, [e], moves);
  }

  lemma {:induction false} RecoverIsARun(s: State, items: seq<Job>) returns (events: seq<Event>)
    ensures Run(s, events) == RecoverAll(s, items)
    decreases |items|
  {
    if items == [] {
      events := [];
    } else {
      hide Run, Settle, Reserve;
      var last := |items| - 1;
      var first := RecoverIsARun(s, items[..last]);
      var next := OneRecoveryIsARun(RecoverAll(s, items[..last]), items[last]);
      events := first + next;
      RunJoined(s, first, next);
    }
  }

  /** So whatever ran before, a recovery pass leaves every reserved id in one place, and
      every other in none. */
  lemma RecoveryKeepsOnePlace(events: seq<Event>, items: seq<Job>)
    ensures var s := RecoverAll(Run(Begin(), events), items);
            OnePlaceEach(s) && Bounded(s) && InClass(s)
  {
    hide OnePlaceEach, Bounded, InClass, Begin, Apply, Run, RecoverAll;
    var more := RecoverIsARun(Run(Begin(), events), items);
    RunJoined(Begin(), events, more);
    AlwaysOnePlace(events + more);
  }

  lemma OneEvent(s: State, e: Event)
    ensures Run(s, [e]) == Apply(s, e)
  {
    hide Apply;
    assert [e][..0] == [];
    assert Run(s, []) == s;
  }

  lemma {:induction false} RunJoined(s: State, first: seq<Event>, second: seq<Event>)
    ensures Run(s, first + second) == Run(Run(s, first), second)
    decreases |second|
  {
    hide Apply;
    var all := first + second;
    if second == [] {
      assert all == first;
    } else {
      var last := |second| - 1;
      RunJoined(s, first, second[..last]);
      assert all[..|all| - 1] == first + second[..last];
    }
  }

  /** A job that finds its channel full is released. */
  lemma FullIsReleased(s: State, job: Job, errand: Errand)
    requires (errand == Submitting && |s.inbox| >= QUEUE_SIZE)
             || (errand == Enqueuing && |if job.isVideo then s.video else s.light| >= QUEUE_SIZE)
    ensures Settle(s.(hands := s.hands + [Hand(job, errand)]), |s.hands|) == s.(queued := s.queued - {job.id})
  {
    var n, held := |s.hands|, s.(hands := s.hands + [Hand(job, errand)]);
    var s1 := Do(held, n, false, false);
    assert s1 == s.(hands := s.hands + [Hand(job, Releasing)]);
    var s2 := Do(s1, n, false, false);
    assert s2.hands == s.hands;
    assert Settle(held, n) == Settle(s1, n);
    assert Settle(s1, n) == Settle(s2, n);
  }

  /** One that finds room goes in. */
  lemma RoomIsTaken(s: State, job: Job, errand: Errand)
    requires errand == Submitting || errand == Enqueuing
    requires errand == Submitting ==> |s.inbox| < QUEUE_SIZE
    requires errand == Enqueuing ==> |if job.isVideo then s.video else s.light| < QUEUE_SIZE
    ensures Settle(s.(hands := s.hands + [Hand(job, errand)]), |s.hands|) ==
              if errand == Submitting then s.(inbox := s.inbox + [job])
              else if job.isVideo then s.(video := s.video + [job])
              else s.(light := s.light + [job])
  {
    var n, held := |s.hands|, s.(hands := s.hands + [Hand(job, errand)]);
    var s1 := Do(held, n, false, false);
    assert s1.hands == s.hands;
    assert Settle(held, n) == Settle(s1, n);
  }

  /** hands and workers are what the goroutines hold while the calls below run. */
  class Pipeline {
    var queued: set<Id>
    var inbox: seq<Job>
    var light: seq<Job>
    var video: seq<Job>
    ghost var hands: seq<Hand>
    ghost var workers: seq<Worker>

    ghost function View(): State
      reads this
    {
      State(queued, inbox, light, video, hands, workers)
    }

    constructor ()
      ensures View() == Begin()
    {
      queued, inbox, light, video, hands, workers := {}, [], [], [], [], Begin().workers;
    }

    /** Marks the id as queued; false means it already is. */
    method ReserveId(id: Id) returns (ok: bool)
      modifies this`queued
      ensures ok == (id !in old(queued)) && queued == old(queued) + {id}
    {
      if id in queued {
        return false;
      }
      queued := queued + {id};
      return true;
    }

    method ReleaseId(id: Id)
      modifies this`queued
      ensures queued == old(queued) - {id}
    {
      queued := queued - {id};
    }

    method SubmitId(id: Id)
      modifies this`queued, this`inbox
      ensures View() == Settle(Apply(old(View()), Submit(id)), |hands|)
    {
      var ok := ReserveId(id);
      if !ok {
        return;
      }
      if |inbox| < QUEUE_SIZE {
        RoomIsTaken(View(), Job(id, false), Submitting);
        inbox := inbox + [Job(id, false)];
      } else {
        FullIsReleased(View(), Job(id, false), Submitting);
        ReleaseId(id);
      }
    }

    /** Puts a job, already reserved, in the channel of its class. */
    method Enqueue(job: Job)
      modifies this`queued, this`light, this`video
      ensures View() == Settle(old(View()).(hands := hands + [Hand(job, Enqueuing)]), |hands|)
    {
      if job.isVideo {
        if |video| < QUEUE_SIZE {
          RoomIsTaken(View(), job, Enqueuing);
          video := video + [job];
          return;
        }
      } else if |light| < QUEUE_SIZE {
        RoomIsTaken(View(), job, Enqueuing);
        light := light + [job];
        return;
      }
      FullIsReleased(View(), job, Enqueuing);
      ReleaseId(job.id);
    }

    method RecoverPending(items: seq<Job>)
      modifies this`queued, this`light, this`video
      ensures View() == RecoverAll(old(View()), items)
    {
      var i := 0;
      while i < |items|
        invariant 0 <= i <= |items|
        invariant View() == RecoverAll(old(View()), items[..i])
      {
        ghost var before := View();
        assert items[..i + 1][..i] == items[..i];
        var ok := ReserveId(items[i].id);
        if ok {
          assert View().(hands := hands + [Hand(items[i], Enqueuing)]) == Reserve(before, items[i], Enqueuing);
          Enqueue(items[i]);
        } else {
          assert View() == before;
        }
        i := i + 1;
      }
      assert items[..i] == items;
    }
  }
}
