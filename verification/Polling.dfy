/** Long polling and the offset (internal/bot/bot.go, poll and confirm), against a server
    that keeps each update until a request carries a higher offset.
 */
module Polling {

  /** The ids of all updates, in ascending order, and how many of them the server has dropped. */
  datatype Server = Server(log: seq<int>, confirmed: nat)

  predicate Ascending(log: seq<int>) {
    && (forall i :: 0 <= i < |log| ==> log[i] >= 0)
    && (forall i, j :: 0 <= i < j < |log| ==> log[i] < log[j])
  }

  predicate ValidServer(s: Server) {
    Ascending(s.log) && s.confirmed <= |s.log|
  }

  /** How many ids are below the offset. */
  function Below(log: seq<int>, offset: int): (n: nat)
    ensures n <= |log|
    ensures forall i :: 0 <= i < n ==> log[i] < offset
    ensures n < |log| ==> log[n] >= offset
  {
    if log == [] || log[0] >= offset then 0 else Below(log[1..], offset) + 1
  }

  /** A request drops what its offset is past. */
  function Confirm(s: Server, offset: int): (s': Server)
    ensures ValidServer(s) ==> ValidServer(s')
  {
    s.(confirmed := if Below(s.log, offset) > s.confirmed then Below(s.log, offset) else s.confirmed)
  }

  /** The updates a request returns: the oldest kept, no more than have arrived or it asks for. */
  function Updates(s: Server, arrived: nat, size: nat): (batch: seq<int>)
    requires ValidServer(s)
    ensures s.confirmed + |batch| <= |s.log| && batch == s.log[s.confirmed..s.confirmed + |batch|]
  {
    var last := if arrived < s.confirmed + size then arrived else s.confirmed + size;
    var end := if last > |s.log| then |s.log| else last;
    if end <= s.confirmed then [] else s.log[s.confirmed..end]
  }

  /** One request. Failed: no answer came; the server may have seen it all the same.
      Batch: an answer, of which only the first slots updates find a free worker before
      polling is cancelled. */
  datatype Turn = Failed(seen: bool) | Batch(arrived: nat, size: nat, slots: nat)

  /** The bot while it polls: the offset it will send, and every update it has accepted. */
  datatype Poller = Poller(offset: int, accepted: seq<int>)

  datatype State = State(server: Server, bot: Poller)

  function Accept(bot: Poller, updates: seq<int>): Poller {
    if updates == [] then bot
    else Poller(updates[|updates| - 1] + 1, bot.accepted + updates)
  }

  function Min(a: nat, b: nat): nat {
    if a <= b then a else b
  }

  function Request(s: State, t: Turn): (s': State)
    requires ValidServer(s.server)
    ensures ValidServer(s'.server)
  {
    match t
    case Failed(seen) => if seen then s.(server := Confirm(s.server, s.bot.offset)) else s
    case Batch(arrived, size, slots) =>
      var server := Confirm(s.server, s.bot.offset);
      var batch := Updates(server, arrived, size);
      State(server, Accept(s.bot, batch[..Min(slots, |batch|)]))
  }

  /** Not every update of the answer could be accepted: polling ends. */
  predicate Cancelled(s: State, t: Turn)
    requires ValidServer(s.server)
  {
    t.Batch? && t.slots < |Updates(Confirm(s.server, s.bot.offset), t.arrived, t.size)|
  }

  function PollAll(s: State, turns: seq<Turn>): (s': State)
    requires ValidServer(s.server)
    ensures ValidServer(s'.server)
    decreases |turns|
  {
    if turns == [] then s
    else if Cancelled(s, turns[0]) then Request(s, turns[0])
    else PollAll(Request(s, turns[0]), turns[1..])
  }

  // ----- Polling as it runs -----

  /** The offset only moves past an update once a worker has it. */
  method Poll(server: Server, accepted: seq<int>, turns: seq<Turn>)
    returns (server': Server, offset: int, accepted': seq<int>)
    requires ValidServer(server)
    ensures State(server', Poller(offset, accepted')) == PollAll(State(server, Poller(0, accepted)), turns)
  {
    hide PollAll, Request, Cancelled, Confirm, Updates, Accept;
    server', offset, accepted' := server, 0, accepted;
    assert turns[0..] == turns;
    var i := 0;
    while i < |turns|
      invariant 0 <= i <= |turns| && ValidServer(server')
      invariant PollAll(State(server', Poller(offset, accepted')), turns[i..]) ==
                  PollAll(State(server, Poller(0, accepted)), turns)
    {
      ghost var s := State(server', Poller(offset, accepted'));
      NextTurn(s, turns, i);
      match turns[i] {
        case Failed(seen) =>
          FailedRequest(s, seen);
          if seen {
            server' := Confirm(server', offset);
          }
        case Batch(arrived, size, slots) =>
          server' := Confirm(server', offset);
          var updates := Updates(server', arrived, size);
          ghost var before := Poller(offset, accepted');
          NoneAccepted(before, updates);
          var k := 0;
          while k < |updates|
            invariant 0 <= k <= |updates| && k <= slots
            invariant Poller(offset, accepted') == Accept(before, updates[..k])
          {
            if k == slots {
              BatchTaken(s, turns[i], server', updates, k);
              return;
            }
            OneAccepted(before, updates, k);
            accepted' := accepted' + [updates[k]];
            offset := updates[k] + 1;
            k := k + 1;
          }
          BatchTaken(s, turns[i], server', updates, k);
      }
      i := i + 1;
    }
    AllTurned(State(server', Poller(offset, accepted')), turns, i);
  }

  lemma NextTurn(s: State, turns: seq<Turn>, i: nat)
    requires ValidServer(s.server) && i < |turns|
    ensures PollAll(s, turns[i..]) ==
              if Cancelled(s, turns[i]) then Request(s, turns[i]) else PollAll(Request(s, turns[i]), turns[i + 1..])
  {
    assert turns[i..][1..] == turns[i + 1..];
  }

  lemma AllTurned(s: State, turns: seq<Turn>, i: nat)
    requires ValidServer(s.server) && i == |turns|
    ensures PollAll(s, turns[i..]) == s
  {
  }

  lemma FailedRequest(s: State, seen: bool)
    requires ValidServer(s.server)
    ensures !Cancelled(s, Failed(seen))
    ensures Request(s, Failed(seen)) == if seen then State(Confirm(s.server, s.bot.offset), s.bot) else s
  {
  }

  lemma NoneAccepted(bot: Poller, updates: seq<int>)
    ensures Accept(bot, updates[..0]) == bot
  {
  }

  lemma OneAccepted(bot: Poller, updates: seq<int>, k: nat)
    requires k < |updates|
    ensures Accept(bot, updates[..k + 1]) ==
              Poller(updates[k] + 1, Accept(bot, updates[..k]).accepted + [updates[k]])
  {
    assert updates[..k + 1] == updates[..k] + [updates[k]];
    if k == 0 {
      assert updates[..1] == [updates[0]];
    } else {
      assert bot.accepted + updates[..k + 1] == bot.accepted + updates[..k] + [updates[k]];
    }
  }

  /** The updates accepted are the answer's first, as many as found a worker. */
  lemma BatchTaken(s: State, t: Turn, server: Server, updates: seq<int>, k: nat)
    requires ValidServer(s.server) && t.Batch? && k <= |updates|
    requires server == Confirm(s.server, s.bot.offset) && updates == Updates(server, t.arrived, t.size)
    requires k == t.slots || (k == |updates| && k <= t.slots)
    ensures Cancelled(s, t) <==> t.slots < |updates|
    ensures Request(s, t) == State(server, Accept(s.bot, updates[..k]))
  {
    assert k == Min(t.slots, |updates|);
  }

  /** confirm: a request that only says what has been accepted. */
  method ConfirmLast(server: Server, offset: int) returns (server': Server)
    requires ValidServer(server) && offset >= 0
    ensures server' == Confirm(server, offset)
  {
    if offset == 0 {
      NothingBelowZero(server.log);
      return server;
    }
    return Confirm(server, offset);
  }

  lemma NothingBelowZero(log: seq<int>)
    requires Ascending(log)
    ensures Below(log, 0) == 0
  {
  }

  // ----- Across restarts -----

  /** Turn: one request of the running process. Restart: it stops in order, its last request
      heard, and starts again. Crash: it starts again without that request. */
  datatype Event = Turn(turn: Turn) | Restart | Crash

  function Apply(s: State, e: Event): (s': State)
    requires ValidServer(s.server)
    ensures ValidServer(s'.server)
  {
    match e
    case Turn(t) => Request(s, t)
    case Restart => State(Confirm(s.server, s.bot.offset), s.bot.(offset := 0))
    case Crash => s.(bot := s.bot.(offset := 0))
  }

  function Run(log: seq<int>, events: seq<Event>): (s: State)
    requires Ascending(log)
    ensures ValidServer(s.server)
    decreases |events|
  {
    if events == [] then State(Server(log, 0), Poller(0, []))
    else Apply(Run(log, events[..|events| - 1]), events[|events| - 1])
  }

  /** Where the bot is in the log: past what it accepted since it started, or, before that,
      where the server is. */
  function Position(s: State): (n: nat)
    requires ValidServer(s.server)
    ensures s.server.confirmed <= n <= |s.server.log|
  {
    Confirm(s.server, s.bot.offset).confirmed
  }

  /** The offset is one past an update of the log, or none was accepted since the start. */
  predicate OffsetFits(s: State)
    requires ValidServer(s.server)
  {
    s.bot.offset == 0 || (0 < Position(s) && s.bot.offset == s.server.log[Position(s) - 1] + 1)
  }

  lemma {:induction false} BelowCounts(log: seq<int>, offset: int, n: nat)
    requires n <= |log|
    requires forall j :: 0 <= j < n ==> log[j] < offset
    requires forall j :: n <= j < |log| ==> log[j] >= offset
    ensures Below(log, offset) == n
    decreases |log|
  {
    if n > 0 {
      BelowCounts(log[1..], offset, n - 1);
    }
  }

  lemma BelowNext(log: seq<int>, i: nat)
    requires Ascending(log) && i < |log|
    ensures Below(log, log[i] + 1) == i + 1
  {
    BelowCounts(log, log[i] + 1, i + 1);
  }

  lemma ConfirmTwice(s: Server, offset: int)
    ensures Confirm(Confirm(s, offset), offset) == Confirm(s, offset)
  {
    hide Below;
  }

  /** Accepting the next m updates of the log moves the position by m. */
  lemma AcceptMoves(server: Server, bot: Poller, m: nat)
    requires ValidServer(server) && 0 < m && server.confirmed + m <= |server.log|
    ensures var n := server.confirmed;
            var s' := State(server, Accept(bot, server.log[n..n + m]));
            && Position(s') == n + m && OffsetFits(s')
            && s'.bot.accepted == bot.accepted + server.log[n..n + m]
  {
    hide Below, Ascending;
    BelowNext(server.log, server.confirmed + m - 1);
  }

  lemma ConfirmOnly(s: State)
    requires ValidServer(s.server) && OffsetFits(s)
    ensures var s' := State(Confirm(s.server, s.bot.offset), s.bot);
            && Position(s') == Position(s) && OffsetFits(s') && s'.server.log == s.server.log
            && s'.server.confirmed == Position(s)
  {
    hide Below, Ascending;
    ConfirmTwice(s.server, s.bot.offset);
  }

  /** What a request comes to: the server may drop what was accepted, and the bot accepts the
      next m updates. */
  lemma RequestIs(s: State, t: Turn) returns (m: nat)
    requires ValidServer(s.server)
    ensures var server := Confirm(s.server, s.bot.offset);
            && server.confirmed + m <= |server.log|
            && (m == 0 ==> Request(s, t) == s || Request(s, t) == State(server, s.bot))
            && (m > 0 ==>
                  var taken := server.log[server.confirmed..server.confirmed + m];
                  Request(s, t) == State(server, Accept(s.bot, taken)))
  {
    hide Confirm, Updates, Ascending;
    m := 0;
    if t.Batch? {
      var server := Confirm(s.server, s.bot.offset);
      var batch := Updates(server, t.arrived, t.size);
      m := Min(t.slots, |batch|);
      assert batch[..m] == server.log[server.confirmed..server.confirmed + m];
    }
  }

  /** A request takes the bot forward over exactly the updates it accepts. */
  lemma RequestAdvances(s: State, t: Turn)
    requires ValidServer(s.server) && OffsetFits(s)
    ensures var s' := Request(s, t);
            && s'.server.log == s.server.log && OffsetFits(s')
            && Position(s) <= Position(s')
            && s'.bot.accepted == s.bot.accepted + s.server.log[Position(s)..Position(s')]
            && s'.server.confirmed <= Position(s)
  {
    hide Request, OffsetFits, Position, Accept, Ascending;
    ConfirmOnly(s);
    ConfirmKeepsLog(s.server, s.bot.offset);
    var m := RequestIs(s, t);
    var n := Position(s);
    if m == 0 {
      assert s.server.log[n..n] == [];
    } else {
      AcceptMoves(Confirm(s.server, s.bot.offset), s.bot, m);
    }
  }

  lemma ConfirmKeepsLog(s: Server, offset: int)
    ensures Confirm(s, offset).log == s.log
  {
  }

  /** Stopping in order leaves the next process where this one was. */
  lemma RestartStays(s: State)
    requires ValidServer(s.server)
    ensures var s' := Apply(s, Restart);
            && s'.server.log == s.server.log && OffsetFits(s') && s'.bot.accepted == s.bot.accepted
            && s'.bot.offset == 0 && Position(s') == Position(s) && s'.server.confirmed == Position(s)
  {
    NothingBelowZero(s.server.log);
  }

  lemma CrashGoesBack(s: State)
    requires ValidServer(s.server)
    ensures var s' := Apply(s, Crash);
            && s'.server == s.server && OffsetFits(s') && s'.bot.accepted == s.bot.accepted
            && Position(s') == s.server.confirmed && s.server.confirmed <= Position(s)
  {
    NothingBelowZero(s.server.log);
  }

  lemma BeginsAtStart(log: seq<int>)
    requires Ascending(log)
    ensures var s := Run(log, []);
            s == State(Server(log, 0), Poller(0, [])) && OffsetFits(s) && Position(s) == 0
  {
    NothingBelowZero(log);
  }

  predicate NoCrash(events: seq<Event>) {
    forall i :: 0 <= i < |events| ==> events[i] != Crash
  }

  /** Through any batches, failures and orderly restarts, cancelled anywhere, the updates
      accepted are the log up to the bot's position, each once and in order, and the server
      has dropped none of the others. */
  lemma {:induction false} ExactlyOnce(log: seq<int>, events: seq<Event>)
    requires Ascending(log) && NoCrash(events)
    ensures var s := Run(log, events);
            && s.server.log == log && OffsetFits(s)
            && s.bot.accepted == log[..Position(s)]
            && s.server.confirmed <= Position(s)
    decreases |events|
  {
    hide Request, Confirm, Position, OffsetFits, Ascending;
    if events == [] {
      BeginsAtStart(log);
    } else {
      var n := |events| - 1;
      ExactlyOnce(log, events[..n]);
      var s := Run(log, events[..n]);
      match events[n]
      case Turn(t) =>
        RequestAdvances(s, t);
        var s' := Request(s, t);
        assert log[..Position(s)] + log[Position(s)..Position(s')] == log[..Position(s')];
      case Restart => RestartStays(s);
    }
  }

  /** The bot's own position is reached, no more, when it stops in order: the next process
      begins with the first update not accepted. */
  lemma RestartConfirmsAccepted(log: seq<int>, events: seq<Event>)
    requires Ascending(log) && NoCrash(events)
    ensures var s := Apply(Run(log, events), Restart);
            s.server.log == log && s.bot.offset == 0 && s.bot.accepted == log[..s.server.confirmed]
  {
    hide Run, Confirm;
    ExactlyOnce(log, events);
    RestartStays(Run(log, events));
  }

  /** Crashes included, nothing the server has dropped was never accepted. */
  lemma {:induction false} NeverLost(log: seq<int>, events: seq<Event>)
    requires Ascending(log)
    ensures var s := Run(log, events);
            && s.server.log == log && OffsetFits(s)
            && forall i :: 0 <= i < Position(s) ==> log[i] in s.bot.accepted
    decreases |events|
  {
    hide Request, Confirm, Position, OffsetFits, Ascending;
    if events == [] {
      BeginsAtStart(log);
    } else {
      var n := |events| - 1;
      NeverLost(log, events[..n]);
      var s := Run(log, events[..n]);
      match events[n]
      case Turn(t) =>
        RequestAdvances(s, t);
        var s' := Request(s, t);
        forall i | Position(s) <= i < Position(s') ensures log[i] in s'.bot.accepted {
          assert s'.bot.accepted[|s.bot.accepted| + i - Position(s)] == log[i];
        }
      case Restart => RestartStays(s);
      case Crash => CrashGoesBack(s);
    }
  }
}
