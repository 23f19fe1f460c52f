/** Reaction counts of one message: the change an update means (internal/bot/events.go) and
    the count rows it is applied to (internal/db/reactions.go). One call is one transaction.
 */
module Reactions {
  datatype Reaction = Emoji(emoji: string) | CustomEmoji(id: string) | Paid

  type Rows = map<string, int>

  /** The key a reaction is stored under; "" is not counted. */
  function ReactionKey(r: Reaction): string {
    match r
    case Emoji(emoji) => emoji
    case CustomEmoji(id) => if id != "" then "custom:" + id else ""
    case Paid => ""
  }

  /** A plain emoji that reads as the key of a custom one; Telegram sends none. */
  predicate Alias(a: Reaction, b: Reaction) {
    a.Emoji? && b.CustomEmoji? && a.emoji == "custom:" + b.id
  }

  /** A reaction is counted unless it is paid or names no emoji, and counted ones share a key
      exactly when they are the same. */
  lemma KeysTellApart(a: Reaction, b: Reaction)
    ensures ReactionKey(a) != "" <==> a !in {Paid, Emoji(""), CustomEmoji("")}
    ensures ReactionKey(a) != "" && ReactionKey(b) != "" ==>
              (ReactionKey(a) == ReactionKey(b) <==> a == b || Alias(a, b) || Alias(b, a))
  {
    if a.CustomEmoji? && b.CustomEmoji? && a.id != "" && b.id != "" {
      assert ReactionKey(a)[7..] == a.id && ReactionKey(b)[7..] == b.id;
    }
  }

  /** How often the key stands in the list. */
  function Tally(list: seq<Reaction>, key: string): nat
    decreases |list|
  {
    if list == [] then 0
    else
      var n := |list| - 1;
      Tally(list[..n], key) + if ReactionKey(list[n]) == key then 1 else 0
  }

  function Get(m: Rows, key: string): int {
    if key in m then m[key] else 0
  }

  // ----- The change -----

  /** Each key's count in the new list minus its count in the old one, where they differ. */
  ghost predicate IsChange(deltas: Rows, before: seq<Reaction>, after: seq<Reaction>) {
    && "" !in deltas
    && (forall k :: k in deltas ==> deltas[k] != 0)
    && (forall k: string {:trigger Get(deltas, k)} :: k != "" ==> Get(deltas, k) == Tally(after, k) - Tally(before, k))
  }

  function Signed(up: bool, n: int): int {
    if up then n else -n
  }

  method Add(deltas: Rows, list: seq<Reaction>, up: bool) returns (r: Rows)
    requires "" !in deltas
    ensures "" !in r
    ensures forall k: string {:trigger Get(r, k)} :: k != "" ==>
              Get(r, k) == Get(deltas, k) + Signed(up, Tally(list, k))
  {
    r := deltas;
    var i := 0;
    assert forall k: string :: Signed(up, Tally(list[..i], k)) == 0;
    assert forall k: string :: Get(r, k) == Get(deltas, k);
    while i < |list|
      invariant 0 <= i <= |list| && "" !in r
      invariant forall k: string {:trigger Get(r, k)} :: k != "" ==>
                  Get(r, k) == Get(deltas, k) + Signed(up, Tally(list[..i], k))
    {
      assert list[..i + 1][..i] == list[..i];
      var key := ReactionKey(list[i]);
      ghost var before := r;
      if key != "" {
        r := r[key := Get(r, key) + Signed(up, 1)];
      }
      forall k: string | k != "" ensures Get(r, k) == Get(deltas, k) + Signed(up, Tally(list[..i + 1], k)) {
        assert Get(before, k) == Get(deltas, k) + Signed(up, Tally(list[..i], k));
        assert Tally(list[..i + 1], k) == Tally(list[..i], k) + if key == k then 1 else 0;
      }
      i := i + 1;
    }
    assert list[..i] == list;
  }

  /** onReaction: the deltas it hands to the store; none when nothing changed. */
  method OnReaction(before: seq<Reaction>, after: seq<Reaction>) returns (deltas: Rows)
    ensures IsChange(deltas, before, after)
  {
    var taken := Add(map[], before, false);
    var all := Add(taken, after, true);
    deltas := all;
    var keys := all.Keys;
    while keys != {}
      invariant keys <= all.Keys && "" !in deltas
      invariant forall k :: k in deltas ==> k in all && deltas[k] == all[k]
      invariant forall k :: k in all && (k in keys || all[k] != 0) ==> k in deltas
      invariant forall k :: k in deltas && k !in keys ==> deltas[k] != 0
      decreases |keys|
    {
      var key :| key in keys;
      if deltas[key] == 0 {
        deltas := deltas - {key};
      }
      keys := keys - {key};
    }
    forall k: string | k != "" ensures Get(deltas, k) == Tally(after, k) - Tally(before, k) {
      assert Get(deltas, k) == Get(all, k);
      assert Get(taken, k) == 0 - Tally(before, k);
    }
  }

  // ----- The rows -----

  predicate OnlyPositive(rows: Rows) {
    forall k :: k in rows ==> rows[k] > 0
  }

  /** Each key's count moved by its delta; taking away what was never seen does nothing, and a
      row never stays at zero or below. */
  ghost predicate Moved(rows: Rows, deltas: Rows, rows': Rows) {
    forall k: string {:trigger Get(rows', k)} ::
      var count := Get(rows, k) + Get(deltas, k);
      Get(rows', k) == if count > 0 then count else 0
  }

  class ReactionStore {
    var stored: bool
    var rows: Rows

    constructor (stored: bool)
      ensures this.stored == stored && rows == map[]
    {
      this.stored, rows := stored, map[];
    }

    method ApplyDelta(deltas: Rows)
      requires OnlyPositive(rows)
      modifies this`rows
      ensures OnlyPositive(rows)
      ensures if stored then Moved(old(rows), deltas, rows) else rows == old(rows)
    {
      if deltas == map[] || !stored {
        return;
      }
      var keys := deltas.Keys;
      while keys != {}
        invariant keys <= deltas.Keys && OnlyPositive(rows)
        invariant forall k: string {:trigger Get(rows, k)} ::
                    Get(rows, k) == if k in keys then Get(old(rows), k) else
                                    var count := Get(old(rows), k) + Get(deltas, k);
                                    if count > 0 then count else 0
        decreases |keys|
      {
        var key :| key in keys;
        var delta := deltas[key];
        ghost var before := rows;
        if delta > 0 || (delta < 0 && key in rows) {
          var count := Get(rows, key) + delta;
          rows := rows[key := count];
          if count <= 0 {
            rows := rows - {key};
          }
        }
        keys := keys - {key};
        forall k: string
          ensures Get(rows, k) == if k in keys then Get(old(rows), k) else
                                  var count := Get(old(rows), k) + Get(deltas, k);
                                  if count > 0 then count else 0
        {
          assert Get(before, k) == if k in keys || k == key then Get(old(rows), k) else
                                   var count := Get(old(rows), k) + Get(deltas, k);
                                   if count > 0 then count else 0;
        }
      }
    }

    /** The rows become the positive totals given, whatever they were. */
    method SyncAbsolute(counts: Rows)
      modifies this`rows
      ensures rows == if stored then map k | k in counts && counts[k] > 0 :: counts[k] else old(rows)
    {
      if !stored {
        return;
      }
      var existing := rows;
      var gone := existing.Keys;
      while gone != {}
        invariant gone <= existing.Keys
        invariant forall k :: k in rows <==> k in existing && (k in gone || Get(counts, k) > 0)
        invariant forall k :: k in rows ==> rows[k] == existing[k]
        decreases |gone|
      {
        var key :| key in gone;
        if Get(counts, key) <= 0 {
          rows := rows - {key};
        }
        gone := gone - {key};
      }
      var keys := counts.Keys;
      while keys != {}
        invariant keys <= counts.Keys
        invariant forall k :: k in rows ==> k in counts && counts[k] > 0
        invariant forall k :: k in rows && k !in keys ==> rows[k] == counts[k]
        invariant forall k :: k in rows && k in keys ==> k in existing && rows[k] == existing[k]
        invariant forall k :: k in counts && k !in keys && counts[k] > 0 ==> k in rows
        invariant forall k :: k in existing && k in counts && counts[k] > 0 ==> k in rows
        decreases |keys|
      {
        var key :| key in keys;
        var count := counts[key];
        if !(count <= 0 || (key in existing && existing[key] == count)) {
          rows := rows[key := count];
        }
        keys := keys - {key};
      }
      assert rows == map k | k in counts && counts[k] > 0 :: counts[k];
    }
  }

  // ----- Counts are sums over people -----

  datatype Person = Person(id: int)

  /** Everybody's current list. */
  type Lists = map<Person, seq<Reaction>>

  function ListOf(lists: Lists, p: Person): seq<Reaction> {
    if p in lists then lists[p] else []
  }

  ghost function Somebody(lists: Lists): (p: Person)
    requires |lists| > 0
    ensures p in lists
  {
    assert exists p: Person :: p in lists;
    var p :| p in lists;
    p
  }

  ghost function Total(lists: Lists, key: string): nat
    decreases |lists|
  {
    if lists == map[] then 0
    else
      assert |lists| > 0;
      var p := Somebody(lists);
      Smaller(lists, p);
      Tally(lists[p], key) + Total(lists - {p}, key)
  }

  lemma Smaller(lists: Lists, p: Person)
    requires p in lists
    ensures |lists - {p}| == |lists| - 1
  {
    assert (lists - {p}).Keys == lists.Keys - {p};
  }

  /** Any person may be counted first. */
  lemma {:induction false} TotalWith(lists: Lists, p: Person, key: string)
    requires p in lists
    ensures Total(lists, key) == Tally(lists[p], key) + Total(lists - {p}, key)
    decreases |lists|
  {
    var q := Somebody(lists);
    if q != p {
      Smaller(lists, q);
      Smaller(lists, p);
      TotalWith(lists - {q}, p, key);
      TotalWith(lists - {p}, q, key);
      assert lists - {q} - {p} == lists - {p} - {q};
    }
  }

  lemma TotalChanged(lists: Lists, p: Person, list: seq<Reaction>, key: string)
    ensures Total(lists[p := list], key) == Total(lists, key) - Tally(ListOf(lists, p), key) + Tally(list, key)
  {
    var lists' := lists[p := list];
    TotalWith(lists', p, key);
    if p in lists {
      TotalWith(lists, p, key);
      assert lists' - {p} == lists - {p};
    } else {
      assert lists' - {p} == lists;
    }
  }

  /** One person's list changes from before to after. */
  datatype Update = Update(person: Person, before: seq<Reaction>, after: seq<Reaction>)

  function Everybody(updates: seq<Update>): Lists
    decreases |updates|
  {
    if updates == [] then map[]
    else Everybody(updates[..|updates| - 1])[updates[|updates| - 1].person := updates[|updates| - 1].after]
  }

  /** Each person's old list is their previous new one. */
  predicate InOrder(updates: seq<Update>) {
    forall n :: 0 <= n < |updates| ==>
      updates[n].before == ListOf(Everybody(updates[..n]), updates[n].person)
  }

  /** The rows a stored message has after the updates, each applied as above. */
  ghost predicate Reaches(updates: seq<Update>, rows: Rows)
    decreases |updates|
  {
    if updates == [] then rows == map[]
    else
      var n := |updates| - 1;
      exists before, deltas {:trigger Moved(before, deltas, rows)} ::
        Reaches(updates[..n], before) && IsChange(deltas, updates[n].before, updates[n].after)
        && OnlyPositive(rows) && Moved(before, deltas, rows)
  }

  lemma ReachesOneMore(updates: seq<Update>, u: Update, before: Rows, deltas: Rows, rows: Rows)
    requires Reaches(updates, before) && IsChange(deltas, u.before, u.after)
    requires OnlyPositive(rows) && Moved(before, deltas, rows)
    ensures Reaches(updates + [u], rows)
  {
    assert (updates + [u])[..|updates|] == updates;
  }

  lemma {:induction false} OnlyPositiveReached(updates: seq<Update>, rows: Rows)
    requires Reaches(updates, rows)
    ensures OnlyPositive(rows) && "" !in rows
    decreases |updates|
  {
    if updates != [] {
      var n := |updates| - 1;
      var before, deltas :| Reaches(updates[..n], before) && IsChange(deltas, updates[n].before, updates[n].after)
                            && OnlyPositive(rows) && Moved(before, deltas, rows);
      OnlyPositiveReached(updates[..n], before);
      assert Get(rows, "") == 0;
    }
  }

  // ----- Counts after updates in any order -----

  function Change(u: Update, key: string): int {
    Tally(u.after, key) - Tally(u.before, key)
  }

  /** What the updates change a count by, were it never held at zero. */
  function Net(updates: seq<Update>, key: string): int
    decreases |updates|
  {
    if updates == [] then 0
    else Net(updates[..|updates| - 1], key) + Change(updates[|updates| - 1], key)
  }

  /** The least that sum comes to on the way, from zero on. */
  function Least(updates: seq<Update>, key: string): (low: int)
    ensures low <= 0 && low <= Net(updates, key)
    decreases |updates|
  {
    if updates == [] then 0
    else
      var low := Least(updates[..|updates| - 1], key);
      if Net(updates, key) < low then Net(updates, key) else low
  }

  /** A count is too high by as much as the sum ever went below zero. */
  lemma {:induction false} CountIsNetAboveLeast(updates: seq<Update>, rows: Rows, key: string)
    requires Reaches(updates, rows) && key != ""
    ensures Get(rows, key) == Net(updates, key) - Least(updates, key)
    decreases |updates|
  {
    hide Tally;
    if updates != [] {
      var n := |updates| - 1;
      var u := updates[n];
      var before, deltas :| Reaches(updates[..n], before) && IsChange(deltas, u.before, u.after)
                            && OnlyPositive(rows) && Moved(before, deltas, rows);
      CountIsNetAboveLeast(updates[..n], before, key);
      assert Get(deltas, key) == Change(u, key);
      assert Get(rows, key) == var count := Get(before, key) + Get(deltas, key); if count > 0 then count else 0;
    }
  }

  ghost predicate NeverBelowZero(updates: seq<Update>, key: string) {
    forall n :: 0 <= n <= |updates| ==> Net(updates[..n], key) >= 0
  }

  lemma {:induction false} LeastIsZero(updates: seq<Update>, key: string)
    ensures Least(updates, key) == 0 <==> NeverBelowZero(updates, key)
    decreases |updates|
  {
    hide Change;
    assert updates[..|updates|] == updates;
    if updates != [] {
      var last := |updates| - 1;
      var before := updates[..last];
      LeastIsZero(before, key);
      forall n | 0 <= n <= last ensures before[..n] == updates[..n] {
      }
      if NeverBelowZero(before, key) && Net(updates, key) >= 0 {
        forall n | 0 <= n <= |updates| ensures Net(updates[..n], key) >= 0 {
          if n <= last {
            assert Net(before[..n], key) >= 0;
          }
        }
      }
      if NeverBelowZero(updates, key) {
        forall n | 0 <= n <= last ensures Net(before[..n], key) >= 0 {
          assert Net(updates[..n], key) >= 0;
        }
      }
    }
  }

  lemma {:induction false} NetJoined(first: seq<Update>, second: seq<Update>, key: string)
    ensures Net(first + second, key) == Net(first, key) + Net(second, key)
    decreases |second|
  {
    hide Change;
    if second == [] {
      assert first + second == first;
    } else {
      var last := |second| - 1;
      assert (first + second)[..|first| + last] == first + second[..last];
      NetJoined(first, second[..last], key);
    }
  }

  lemma OneApart(updates: seq<Update>, i: nat, key: string)
    requires i < |updates|
    ensures var rest := updates[..i] + updates[i + 1..];
            && multiset(updates) == multiset(rest) + multiset{updates[i]}
            && Net(updates, key) == Net(rest, key) + Change(updates[i], key)
  {
    hide Change;
    var u, tail := updates[i], updates[i + 1..];
    assert updates == updates[..i] + ([u] + tail);
    NetJoined(updates[..i], tail, key);
    NetJoined(updates[..i], [u] + tail, key);
    NetJoined([u], tail, key);
    assert [u][..0] == [];
  }

  /** The sum does not depend on the order. */
  lemma {:induction false} NetOfReordering(updates: seq<Update>, others: seq<Update>, key: string)
    requires multiset(updates) == multiset(others)
    ensures Net(updates, key) == Net(others, key)
    decreases |updates|
  {
    hide Change, Net;
    if updates == [] {
      assert |others| == |multiset(others)| == 0;
    } else {
      var last := |updates| - 1;
      assert updates[last] in multiset(others);
      var i :| 0 <= i < |others| && others[i] == updates[last];
      OneApart(updates, last, key);
      OneApart(others, i, key);
      var rest := others[..i] + others[i + 1..];
      assert updates[..last] + updates[last + 1..] == updates[..last];
      var u := updates[last];
      assert multiset(updates[..last]) == multiset(updates) - multiset{u};
      assert multiset(rest) == multiset(others) - multiset{u};
      NetOfReordering(updates[..last], rest, key);
    }
  }

  lemma {:induction false} NetIsTotal(updates: seq<Update>, key: string)
    requires InOrder(updates)
    ensures Net(updates, key) == Total(Everybody(updates), key)
    decreases |updates|
  {
    hide Tally;
    if updates != [] {
      var n := |updates| - 1;
      InOrderPrefix(updates, n);
      NetIsTotal(updates[..n], key);
      TotalChanged(Everybody(updates[..n]), updates[n].person, updates[n].after, key);
    }
  }

  lemma InOrderPrefix(updates: seq<Update>, n: nat)
    requires InOrder(updates) && n <= |updates|
    ensures InOrder(updates[..n])
  {
    forall i | 0 <= i < n
      ensures updates[..n][i].before == ListOf(Everybody(updates[..n][..i]), updates[..n][i].person)
    {
      assert updates[..n][..i] == updates[..i];
    }
  }

  /** In whatever order the updates of a message are applied, a count ends as the sum over
      people exactly when no part of them, taken in that order, takes away more than it
      adds; otherwise it is too high. */
  lemma RightInAnyOrder(updates: seq<Update>, applied: seq<Update>, rows: Rows, key: string)
    requires InOrder(updates) && multiset(applied) == multiset(updates) && Reaches(applied, rows) && key != ""
    ensures Get(rows, key) >= Total(Everybody(updates), key)
    ensures Get(rows, key) == Total(Everybody(updates), key) <==> NeverBelowZero(applied, key)
  {
    hide NeverBelowZero, Net, Least, Total, Get;
    CountIsNetAboveLeast(applied, rows, key);
    LeastIsZero(applied, key);
    NetOfReordering(applied, updates, key);
    NetIsTotal(updates, key);
  }

  /** After updates in order, the count of every key is the sum over people of how often it
      stands in their current lists, and only positive rows exist. */
  lemma CountsAreTotals(updates: seq<Update>, rows: Rows)
    requires InOrder(updates) && Reaches(updates, rows)
    ensures OnlyPositive(rows) && "" !in rows
    ensures forall k: string :: k != "" ==> Get(rows, k) == Total(Everybody(updates), k)
  {
    OnlyPositiveReached(updates, rows);
    forall k: string | k != "" ensures Get(rows, k) == Total(Everybody(updates), k) {
      forall n | 0 <= n <= |updates| ensures Net(updates[..n], k) >= 0 {
        InOrderPrefix(updates, n);
        NetIsTotal(updates[..n], k);
      }
      RightInAnyOrder(updates, updates, rows, k);
    }
  }

  /** One person reacts and takes it back; applied the other way round, the removal finds
      nothing and the reaction stays. */
  lemma OutOfOrderOvercounts(p: Person)
    ensures var plus := [Emoji("+")];
            var up, down := Update(p, [], plus), Update(p, plus, []);
            && InOrder([up, down]) && Total(Everybody([up, down]), "+") == 0
            && Reaches([down, up], map["+" := 1]) && !NeverBelowZero([down, up], "+")
  {
    var plus := [Emoji("+")];
    var up, down := Update(p, [], plus), Update(p, plus, []);
    assert plus[..0] == [] && Tally(plus, "+") == 1;
    assert [up, down][..1] == [up] && [up, down][..0] == [] && [up][..0] == [];
    assert Everybody([up]) == map[p := plus];
    NetIsTotal([up, down], "+");
    assert Net([up], "+") == 1;
    TakenBackFirst(p, plus);
    assert [down, up][..1] == [down] && [down][..0] == [];
    assert Net([down, up][..1], "+") == -1;
  }

  lemma TakenBackFirst(p: Person, plus: seq<Reaction>)
    requires plus == [Emoji("+")]
    ensures Reaches([Update(p, plus, []), Update(p, [], plus)], map["+" := 1])
  {
    var up, down := Update(p, [], plus), Update(p, plus, []);
    var gone, come := map["+" := -1], map["+" := 1];
    assert plus[..0] == [];
    ReachesOneMore([], down, map[], gone, map[]);
    ReachesOneMore([down], up, map[], come, map["+" := 1]);
    assert [] + [down] == [down] && [down] + [up] == [down, up];
  }
}
