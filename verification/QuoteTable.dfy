/** The quotes table (internal/db/quotes.go), one row per group and day. Every statement is
    one atomic change of the table. Rows are addressed by their id, which is never
    used again.
 */
module QuoteTable {

  datatype Key = Key(group: int, day: int)

  datatype Status =
    | Publishing | Published | PublishFailed | PublishUnknown
    | NotifyingBoring | SkippedBoring | BoringNoticeFailed | BoringNoticeUnknown

  /** A time of 0 and a message id of 0 stand for a column without a value. */
  datatype Row = Row(id: nat, status: Status, changedAt: int, createdAt: int,
                     botMessageId: nat, noticeMessageId: nat)

  type Table = map<Key, Row>

  predicate InProgress(st: Status) {
    st == Publishing || st == NotifyingBoring
  }

  /** The row was created to post a quote; the others say the day was boring. */
  predicate IsQuote(st: Status) {
    st == Publishing || st == Published || st == PublishFailed || st == PublishUnknown
  }

  function Insert(t: Table, key: Key, id: nat, st: Status, now: int): Table {
    if key in t then t else t[key := Row(id, st, now, now, 0, 0)]
  }

  function SetStatus(t: Table, id: nat, st: Status, now: int): Table {
    map k | k in t :: if t[k].id == id then t[k].(status := st, changedAt := now) else t[k]
  }

  function MarkPublished(t: Table, id: nat, message: nat, now: int): Table {
    map k | k in t ::
      if t[k].id == id then t[k].(status := Published, changedAt := now, botMessageId := message) else t[k]
  }

  function MarkNotified(t: Table, id: nat, message: nat, now: int): Table {
    map k | k in t ::
      if t[k].id == id then t[k].(status := SkippedBoring, changedAt := now, noticeMessageId := message) else t[k]
  }

  function Delete(t: Table, id: nat): Table {
    map k | k in t && t[k].id != id :: t[k]
  }

  predicate Holds(t: Table, id: nat) {
    exists k :: k in t && t[k].id == id
  }

  /** What a query read of a row. */
  datatype Snapshot = Snapshot(id: nat, status: Status)

  function StaleRows(t: Table, group: int, olderThan: int): set<Snapshot> {
    set k | k in t && k.group == group && InProgress(t[k].status) && t[k].changedAt < olderThan
      :: Snapshot(t[k].id, t[k].status)
  }

  /** The day's row needs no more work. */
  predicate IsTerminal(r: Row) {
    match r.status
    case Published | SkippedBoring | PublishUnknown | BoringNoticeUnknown => true
    case PublishFailed => r.botMessageId != 0
    case BoringNoticeFailed => r.noticeMessageId != 0
    case Publishing | NotifyingBoring => false
  }
}
