/** What the model's answer makes of the day: the quote and its context
    (internal/scoring/scoring.go, Pick and what it calls).
 */
module Picking {
  import opened Scores
  import opened Wrappers

  const MAX_CONTEXT := 5
  const NEUTRAL_SCORE := 0.5
  const CONTENT_STICKER := "sticker"

  /** A message of the day; an empty type means text. */
  datatype Message = Message(id: int, contentType: string, text: string, reactions: int)

  /** The model's own pick; a primaryId of 0 is none. */
  datatype QuoteChoice = QuoteChoice(primaryId: int, contextIds: seq<int>, contextNeeded: bool)

  /** best: the quote. ai: its score. runnerUp: the fallback when it is another message. */
  datatype Picked = Picked(best: Message, ai: real, runnerUp: Option<Message>, context: seq<Message>)

  predicate Eligible(m: Message) {
    m.contentType != CONTENT_STICKER
  }

  /** The first message with the id. */
  function Find(ms: seq<Message>, id: int): (m: Option<Message>)
    ensures m.Some? ==> m.value.id == id && m.value in ms
    ensures m.None? <==> forall i :: 0 <= i < |ms| ==> ms[i].id != id
  {
    if ms == [] then None else if ms[0].id == id then Some(ms[0]) else Find(ms[1..], id)
  }

  /** The message can be the quote. */
  predicate CanBeQuote(ms: seq<Message>, id: int) {
    var m := Find(ms, id);
    m.Some? && Eligible(m.value)
  }

  method FindMessage(ms: seq<Message>, id: int) returns (m: Option<Message>)
    ensures m == Find(ms, id)
  {
    var i := 0;
    while i < |ms|
      invariant 0 <= i <= |ms|
      invariant Find(ms, id) == Find(ms[i..], id)
    {
      if ms[i].id == id {
        return Some(ms[i]);
      }
      assert ms[i..][1..] == ms[i + 1..];
      i := i + 1;
    }
    return None;
  }

  // ----- The fallback -----

  /** The id is the first listed of those that can be the quote and score highest. */
  ghost predicate FirstListedBest(ms: seq<Message>, order: seq<int>, table: map<int, real>, id: int)
    requires forall i :: i in order ==> i in table
  {
    && CanBeQuote(ms, id)
    && exists k :: 0 <= k < |order| && order[k] == id
         && (forall j :: 0 <= j < |order| && CanBeQuote(ms, order[j]) ==> table[order[j]] <= table[order[k]])
         && (forall j :: 0 <= j < k && CanBeQuote(ms, order[j]) ==> table[order[j]] < table[order[k]])
  }

  method Fallback(ms: seq<Message>, order: seq<int>, table: map<int, real>) returns (best: Option<Message>)
    requires forall i :: i in order ==> i in table
    ensures best.None? <==> forall j :: 0 <= j < |order| ==> !CanBeQuote(ms, order[j])
    ensures best.Some? ==> best == Find(ms, best.value.id) && FirstListedBest(ms, order, table, best.value.id)
  {
    hide Find;
    best := None;
    var bestId := 0;
    ghost var at := 0;
    var i := 0;
    while i < |order|
      invariant 0 <= i <= |order|
      invariant best.None? ==> forall j :: 0 <= j < i ==> !CanBeQuote(ms, order[j])
      invariant best.Some? ==>
                  && at < i && order[at] == bestId && best == Find(ms, bestId) && CanBeQuote(ms, bestId)
                  && (forall j :: 0 <= j < i && CanBeQuote(ms, order[j]) ==> table[order[j]] <= table[bestId])
                  && (forall j :: 0 <= j < at && CanBeQuote(ms, order[j]) ==> table[order[j]] < table[bestId])
    {
      var id := order[i];
      var m := FindMessage(ms, id);
      if m.Some? && Eligible(m.value) {
        if best.None? || table[id] > table[bestId] {
          best, bestId, at := m, id, i;
        }
      }
      i := i + 1;
    }
  }

  method ValidPrimary(choice: Option<QuoteChoice>, ms: seq<Message>) returns (m: Option<Message>)
    ensures m.Some? <==> choice.Some? && choice.value.primaryId != 0 && CanBeQuote(ms, choice.value.primaryId)
    ensures m.Some? ==> m == Find(ms, choice.value.primaryId)
  {
    hide Find;
    if choice.None? || choice.value.primaryId == 0 {
      return None;
    }
    m := FindMessage(ms, choice.value.primaryId);
    if m.None? || !Eligible(m.value) {
      return None;
    }
  }

  // ----- The context -----

  predicate Distinct(ids: seq<int>) {
    forall j, k :: 0 <= j < k < |ids| ==> ids[j] != ids[k]
  }

  /** The ids without repeats, each where it first stands. */
  function Firsts(ids: seq<int>): seq<int>
    decreases |ids|
  {
    if ids == [] then []
    else
      var n := |ids| - 1;
      Firsts(ids[..n]) + if ids[n] in ids[..n] then [] else [ids[n]]
  }

  method Dedupe(ids: seq<int>) returns (out: seq<int>)
    ensures out == Firsts(ids)
  {
    var seen: set<int> := {};
    out := [];
    var i := 0;
    while i < |ids|
      invariant 0 <= i <= |ids|
      invariant seen == set x | x in ids[..i]
      invariant out == Firsts(ids[..i])
    {
      assert ids[..i + 1][..i] == ids[..i];
      if ids[i] !in seen {
        seen := seen + {ids[i]};
        out := out + [ids[i]];
      }
      assert ids[..i + 1] == ids[..i] + [ids[i]];
      i := i + 1;
    }
    assert ids[..i] == ids;
  }

  lemma {:induction false} FirstsDistinct(ids: seq<int>)
    ensures Distinct(Firsts(ids))
    ensures forall x :: x in Firsts(ids) <==> x in ids
    decreases |ids|
  {
    if ids != [] {
      var n := |ids| - 1;
      FirstsDistinct(ids[..n]);
      assert ids == ids[..n] + [ids[n]];
    }
  }

  /** The messages of the day among the ids, in their order. */
  function Known(ms: seq<Message>, ids: seq<int>): seq<Message>
    decreases |ids|
  {
    if ids == [] then []
    else
      var n := |ids| - 1;
      var m := Find(ms, ids[n]);
      Known(ms, ids[..n]) + if m.Some? then [m.value] else []
  }

  predicate HasId(ms: seq<Message>, id: int) {
    exists i :: 0 <= i < |ms| && ms[i].id == id
  }

  lemma HasIdSnoc(ms: seq<Message>, m: Message, id: int)
    ensures HasId(ms + [m], id) <==> HasId(ms, id) || m.id == id
  {
    assert (ms + [m])[|ms|] == m;
    if HasId(ms, id) {
      var i :| 0 <= i < |ms| && ms[i].id == id;
      assert (ms + [m])[i].id == id;
    }
  }

  /** What the model selected, and the primary message at the end if it left it out. */
  function Selected(ms: seq<Message>, ids: seq<int>, primary: Message): seq<Message> {
    var known := Known(ms, Firsts(ids));
    if HasId(known, primary.id) then known else known + [primary]
  }

  predicate DistinctMessages(ms: seq<Message>) {
    forall j, k :: 0 <= j < k < |ms| ==> ms[j].id != ms[k].id
  }

  lemma {:induction false} KnownDistinct(ms: seq<Message>, ids: seq<int>)
    requires Distinct(ids)
    ensures DistinctMessages(Known(ms, ids))
    ensures forall m :: m in Known(ms, ids) ==> m.id in ids && Find(ms, m.id) == Some(m)
    decreases |ids|
  {
    hide Find;
    if ids != [] {
      var n := |ids| - 1;
      KnownDistinct(ms, ids[..n]);
      assert ids == ids[..n] + [ids[n]];
      assert forall x :: x in ids[..n] ==> x != ids[n];
    }
  }

  lemma SelectedDistinct(ms: seq<Message>, ids: seq<int>, primary: Message)
    requires Find(ms, primary.id) == Some(primary)
    ensures DistinctMessages(Selected(ms, ids, primary))
    ensures primary in Selected(ms, ids, primary)
    ensures forall m :: m in Selected(ms, ids, primary) ==> Find(ms, m.id) == Some(m)
  {
    hide Find, Known, Firsts;
    FirstsDistinct(ids);
    KnownDistinct(ms, Firsts(ids));
    var known := Known(ms, Firsts(ids));
    if HasId(known, primary.id) {
      var i :| 0 <= i < |known| && known[i].id == primary.id;
      assert known[i] in known;
    }
  }

  /** The first place of the id among the ids, or their number. */
  function PlaceOf(ids: seq<int>, id: int): (i: nat)
    ensures i <= |ids| && (i < |ids| ==> ids[i] == id)
    ensures forall j :: 0 <= j < i ==> ids[j] != id
  {
    if ids == [] || ids[0] == id then 0 else PlaceOf(ids[1..], id) + 1
  }

  /** The messages stand in the order in which the ids first name them. */
  predicate InOrderOf(ms: seq<Message>, ids: seq<int>) {
    forall j, k :: 0 <= j < k < |ms| ==> PlaceOf(ids, ms[j].id) < PlaceOf(ids, ms[k].id)
  }

  lemma PlaceSnoc(ids: seq<int>, x: int, id: int)
    ensures PlaceOf(ids + [x], id) ==
              if id in ids then PlaceOf(ids, id) else if x == id then |ids| else |ids| + 1
  {
    hide PlaceOf;
    var all := ids + [x];
    var i, n := PlaceOf(all, id), PlaceOf(ids, id);
    if id in ids {
      var k :| 0 <= k < |ids| && ids[k] == id;
      assert all[n] == id;
      assert i < |ids| ==> ids[i] == all[i];
    } else {
      assert forall j :: 0 <= j < |ids| ==> all[j] == ids[j];
      assert all[|ids|] == x;
    }
  }

  /** The distinct ids keep the order of their first places. */
  lemma {:induction false} FirstsInOrder(ids: seq<int>)
    ensures forall j, k :: 0 <= j < k < |Firsts(ids)| ==> PlaceOf(ids, Firsts(ids)[j]) < PlaceOf(ids, Firsts(ids)[k])
    decreases |ids|
  {
    hide PlaceOf;
    if ids != [] {
      var n := |ids| - 1;
      var before, fs := Firsts(ids[..n]), Firsts(ids);
      FirstsInOrder(ids[..n]);
      FirstsDistinct(ids[..n]);
      assert ids[..n] + [ids[n]] == ids;
      forall j | 0 <= j < |fs| ensures PlaceOf(ids, fs[j]) == if j < |before| then PlaceOf(ids[..n], before[j]) else n {
        PlaceSnoc(ids[..n], ids[n], fs[j]);
        assert j < |before| ==> fs[j] in before;
      }
    }
  }

  /** Every id of a message of the day brings that message, in the order of the ids. */
  lemma {:induction false} KnownInOrder(ms: seq<Message>, ids: seq<int>, fs: seq<int>)
    requires forall j, k :: 0 <= j < k < |fs| ==> PlaceOf(ids, fs[j]) < PlaceOf(ids, fs[k])
    ensures InOrderOf(Known(ms, fs), ids)
    ensures forall m :: m in Known(ms, fs) <==> m.id in fs && Find(ms, m.id) == Some(m)
    decreases |fs|
  {
    hide Find, PlaceOf;
    if fs != [] {
      var n := |fs| - 1;
      var before, all := Known(ms, fs[..n]), Known(ms, fs);
      KnownInOrder(ms, ids, fs[..n]);
      assert fs[..n] + [fs[n]] == fs;
      forall j | 0 <= j < |before| ensures PlaceOf(ids, before[j].id) < PlaceOf(ids, fs[n]) {
        assert before[j] in before;
        var i :| 0 <= i < n && fs[i] == before[j].id;
      }
    }
  }

  /** The selection is every message of the day that the model named, in the order it first
      named them, and the primary at the end if it did not. */
  lemma SelectedAsNamed(ms: seq<Message>, ids: seq<int>, primary: Message)
    requires Find(ms, primary.id) == Some(primary)
    ensures forall m :: m in Selected(ms, ids, primary) <==> (m.id in ids && Find(ms, m.id) == Some(m)) || m == primary
    ensures InOrderOf(Selected(ms, ids, primary), ids)
  {
    hide Find, Known, Firsts, PlaceOf;
    FirstsDistinct(ids);
    FirstsInOrder(ids);
    KnownInOrder(ms, ids, Firsts(ids));
    var known := Known(ms, Firsts(ids));
    if HasId(known, primary.id) {
      var i :| 0 <= i < |known| && known[i].id == primary.id;
      assert known[i] in known;
    } else {
      NotNamed(ms, ids, primary, known);
    }
  }

  lemma NotNamed(ms: seq<Message>, ids: seq<int>, primary: Message, known: seq<Message>)
    requires Find(ms, primary.id) == Some(primary) && !HasId(known, primary.id) && InOrderOf(known, ids)
    requires forall m :: m in known <==> m.id in ids && Find(ms, m.id) == Some(m)
    ensures InOrderOf(known + [primary], ids)
  {
    hide Find, PlaceOf;
    assert primary !in known;
    assert primary.id !in ids;
    assert PlaceOf(ids, primary.id) == |ids|;
    forall j | 0 <= j < |known| ensures PlaceOf(ids, known[j].id) < |ids| {
      assert known[j] in known;
      var i :| 0 <= i < |ids| && ids[i] == known[j].id;
    }
  }

  function IndexOfId(ms: seq<Message>, id: int): (i: nat)
    ensures i <= |ms| && (i < |ms| ==> ms[i].id == id)
    ensures forall j :: 0 <= j < i ==> ms[j].id != id
  {
    if ms == [] || ms[0].id == id then 0 else IndexOfId(ms[1..], id) + 1
  }

  /** w is the stretch of ms that begins at a. */
  predicate IsWindow(w: seq<Message>, ms: seq<Message>, a: nat) {
    a + |w| <= |ms| && w == ms[a..a + |w|]
  }

  /** How far idx is from the middle of the window that begins at a. */
  function FromMiddle(a: nat, idx: nat, limit: nat): nat {
    var middle := a + limit / 2;
    if middle < idx then idx - middle else middle - idx
  }

  /** Of the windows of this length, none has its middle nearer to idx. */
  ghost predicate Nearest(a: nat, n: nat, idx: nat, limit: nat) {
    a + limit <= n
    && forall b: nat :: b + limit <= n ==> FromMiddle(a, idx, limit) <= FromMiddle(b, idx, limit)
  }

  function WindowStart(n: nat, idx: nat, limit: nat): (a: nat)
    requires limit <= n
    ensures Nearest(a, n, idx, limit)
  {
    if idx < limit / 2 then 0 else if idx - limit / 2 > n - limit then n - limit else idx - limit / 2
  }

  /** The window has the primary in the middle, or slides to stay in range. */
  method LimitContext(selected: seq<Message>, primaryId: int, limit: nat) returns (window: seq<Message>)
    ensures |selected| <= limit ==> window == selected
    ensures |selected| > limit ==>
              var idx := IndexOfId(selected, primaryId);
              && |window| == limit
              && IsWindow(window, selected, if idx < |selected| then WindowStart(|selected|, idx, limit) else 0)
  {
    hide IndexOfId;
    if |selected| <= limit {
      return selected;
    }
    var idx := -1;
    var i := 0;
    while i < |selected|
      invariant 0 <= i <= |selected| && idx == -1
      invariant forall j :: 0 <= j < i ==> selected[j].id != primaryId
    {
      if selected[i].id == primaryId {
        idx := i;
        break;
      }
      i := i + 1;
    }
    if idx < 0 {
      return selected[..limit];
    }
    assert IndexOfId(selected, primaryId) == idx;
    var start := idx - limit / 2;
    var end := start + limit;
    if start < 0 {
      start, end := 0, limit;
    }
    if end > |selected| {
      end := |selected|;
      start := if end - limit > 0 then end - limit else 0;
    }
    return selected[start..end];
  }

  /** The context is all that was selected, or the window of five on it whose middle is
      nearest to the primary. The primary is in it, and in the middle where two come before
      it and two after. */
  ghost predicate WindowAround(context: seq<Message>, selected: seq<Message>, primary: Message) {
    var idx := IndexOfId(selected, primary.id);
    && primary in context
    && (|selected| <= MAX_CONTEXT ==> context == selected)
    && (|selected| > MAX_CONTEXT ==>
          && |context| == MAX_CONTEXT
          && (exists a :: IsWindow(context, selected, a) && Nearest(a, |selected|, idx, MAX_CONTEXT))
          && (2 <= idx < |selected| - 2 ==> context[2] == primary))
  }

  /** There is only one such window. */
  lemma OneNearest(a: nat, b: nat, n: nat, idx: nat, limit: nat)
    requires idx < n && Nearest(a, n, idx, limit) && Nearest(b, n, idx, limit)
    ensures a == b
  {
    assert FromMiddle(a, idx, limit) == FromMiddle(b, idx, limit);
    var start := WindowStart(n, idx, limit);
    assert FromMiddle(a, idx, limit) == FromMiddle(start, idx, limit);
  }

  predicate NoContext(choice: Option<QuoteChoice>) {
    choice.None? || (choice.value.contextIds == [] && !choice.value.contextNeeded)
  }

  method ValidContext(choice: Option<QuoteChoice>, ms: seq<Message>, primary: Message) returns (context: seq<Message>)
    requires Find(ms, primary.id) == Some(primary)
    ensures NoContext(choice) ==> context == []
    ensures !NoContext(choice) ==>
              && WindowAround(context, Selected(ms, choice.value.contextIds, primary), primary)
              && DistinctMessages(context)
  {
    hide Find, Firsts, Known, HasId, IndexOfId, WindowAround, DistinctMessages, IsWindow;
    if choice.None? {
      return [];
    }
    var given := choice.value.contextIds;
    var ids := Dedupe(given);
    FirstsDistinct(given);
    NoFirsts(given);
    if |ids| == 0 && !choice.value.contextNeeded {
      return [];
    }
    var selected: seq<Message> := [];
    var hasPrimary := false;
    NoneKnown(ms, primary.id);
    var i := 0;
    while i < |ids|
      invariant 0 <= i <= |ids|
      invariant selected == Known(ms, ids[..i])
      invariant hasPrimary <==> HasId(selected, primary.id)
    {
      KnownSnoc(ms, ids, i);
      var m := FindMessage(ms, ids[i]);
      if m.Some? {
        HasIdSnoc(selected, m.value, primary.id);
        selected := selected + [m.value];
        hasPrimary := hasPrimary || m.value.id == primary.id;
      }
      i := i + 1;
    }
    assert ids[..i] == ids;
    if !hasPrimary {
      selected := selected + [primary];
    }
    SelectedDistinct(ms, given, primary);
    context := LimitContext(selected, primary.id, MAX_CONTEXT);
    PrimaryInWindow(selected, primary, context);
  }

  lemma NoFirsts(ids: seq<int>)
    ensures Firsts(ids) == [] <==> ids == []
  {
    FirstsDistinct(ids);
    if ids != [] {
      assert ids[0] in ids;
    }
  }

  lemma NoneKnown(ms: seq<Message>, id: int)
    ensures Known(ms, []) == [] && !HasId([], id)
  {
  }

  lemma KnownSnoc(ms: seq<Message>, ids: seq<int>, i: nat)
    requires i < |ids|
    ensures var m := Find(ms, ids[i]);
            var before := Known(ms, ids[..i]);
            Known(ms, ids[..i + 1]) == if m.Some? then before + [m.value] else before
  {
    assert ids[..i + 1][..i] == ids[..i];
  }

  lemma PrimaryInWindow(selected: seq<Message>, primary: Message, context: seq<Message>)
    requires DistinctMessages(selected) && primary in selected
    requires |selected| <= MAX_CONTEXT ==> context == selected
    requires |selected| > MAX_CONTEXT ==>
               var idx := IndexOfId(selected, primary.id);
               && |context| == MAX_CONTEXT
               && (idx < |selected| ==> IsWindow(context, selected, WindowStart(|selected|, idx, MAX_CONTEXT)))
    ensures WindowAround(context, selected, primary) && DistinctMessages(context)
  {
    hide IndexOfId, DistinctMessages, IsWindow;
    var idx := IndexOfId(selected, primary.id);
    AtItsIndex(selected, primary);
    if |selected| > MAX_CONTEXT {
      var a := WindowStart(|selected|, idx, MAX_CONTEXT);
      InWindow(context, selected, a, idx);
    } else {
      InWindow(context, selected, 0, idx);
    }
  }

  lemma AtItsIndex(ms: seq<Message>, m: Message)
    requires DistinctMessages(ms) && m in ms
    ensures IndexOfId(ms, m.id) < |ms| && ms[IndexOfId(ms, m.id)] == m
  {
    hide IndexOfId;
    var k :| 0 <= k < |ms| && ms[k] == m;
    assert IndexOfId(ms, m.id) == k;
  }

  lemma InWindow(w: seq<Message>, ms: seq<Message>, a: nat, idx: nat)
    requires IsWindow(w, ms, a) || (w == ms && a == 0)
    requires DistinctMessages(ms) && a <= idx < a + |w|
    ensures IsWindow(w, ms, a) && ms[idx] in w && w[idx - a] == ms[idx] && DistinctMessages(w)
  {
    assert ms[0..|ms|] == ms;
    assert forall i :: 0 <= i < |w| ==> w[i] == ms[a + i];
  }

  // ----- The pick -----

  /** The model's own primary when it can be the quote, else the fallback. */
  ghost predicate RightPick(ms: seq<Message>, scores: seq<Score>, choice: Option<QuoteChoice>, best: Message)
  {
    if choice.Some? && choice.value.primaryId != 0 && CanBeQuote(ms, choice.value.primaryId) then
      Some(best) == Find(ms, choice.value.primaryId)
    else
      Some(best) == Find(ms, best.id) && IsFallback(ms, scores, best.id)
  }

  /** The id is the first listed in the reply of those with the highest last score. */
  ghost predicate IsFallback(ms: seq<Message>, scores: seq<Score>, id: int) {
    && CanBeQuote(ms, id) && LastValue(scores, id).Some?
    && forall other :: CanBeQuote(ms, other) && LastValue(scores, other).Some? ==>
         var (v, w) := (LastValue(scores, id).value, LastValue(scores, other).value);
         w < v || (w == v && FirstAt(scores, id) <= FirstAt(scores, other))
  }

  lemma TableListed(scores: seq<Score>, order: seq<int>)
    requires InFirstOrder(order, scores)
    ensures forall id :: id in order <==> LastValue(scores, id).Some?
  {
    hide InFirstOrder, LastValue;
    forall id: int ensures id in order <==> LastValue(scores, id).Some? {
      InListed(order, scores, id);
    }
  }

  lemma FallbackIs(ms: seq<Message>, scores: seq<Score>, order: seq<int>, table: map<int, real>, id: int)
    requires InFirstOrder(order, scores)
    requires forall i :: i in order <==> i in table
    requires forall i :: i in table ==> LastValue(scores, i) == Some(table[i])
    requires FirstListedBest(ms, order, table, id)
    ensures IsFallback(ms, scores, id)
  {
    hide CanBeQuote, LastValue, FirstAt, InFirstOrder;
    TableListed(scores, order);
    var k :| 0 <= k < |order| && order[k] == id
             && (forall j :: 0 <= j < |order| && CanBeQuote(ms, order[j]) ==> table[order[j]] <= table[order[k]])
             && (forall j :: 0 <= j < k && CanBeQuote(ms, order[j]) ==> table[order[j]] < table[order[k]]);
    forall other | CanBeQuote(ms, other) && LastValue(scores, other).Some?
      ensures var (v, w) := (LastValue(scores, id).value, LastValue(scores, other).value);
              w < v || (w == v && FirstAt(scores, id) <= FirstAt(scores, other))
    {
      assert other in order;
      var j :| 0 <= j < |order| && order[j] == other;
      if j < k {
        assert table[order[j]] < table[order[k]];
      } else {
        LaterIsAfter(scores, order, k, j);
      }
    }
  }

  lemma LaterIsAfter(scores: seq<Score>, order: seq<int>, k: nat, j: nat)
    requires InFirstOrder(order, scores) && k <= j < |order|
    ensures FirstAt(scores, order[k]) <= FirstAt(scores, order[j])
  {
    hide FirstAt;
  }

  /** The scores that reach the pick are those collected from the reply, and nothing is lost:
      what the pick comes to may be read off the reply itself. */
  lemma PickOfReply(ms: seq<Message>, out: seq<Score>, taken: seq<Score>, choice: Option<QuoteChoice>, best: Message)
    requires Collects(out, taken)
    ensures LastValue(out, best.id) == LastValue(taken, best.id)
    ensures IsFallback(ms, out, best.id) <==> IsFallback(ms, taken, best.id)
    ensures RightPick(ms, out, choice, best) <==> RightPick(ms, taken, choice, best)
  {
    hide Collects, LastValue, FirstAt, CanBeQuote;
    forall id: int ensures LastValue(out, id) == LastValue(taken, id) {
      CollectedReadsSame(out, taken, id);
    }
    CollectedReadsSame(out, taken, best.id);
  }

  lemma QuoteIsEligible(ms: seq<Message>, m: Message)
    requires Find(ms, m.id) == Some(m) && CanBeQuote(ms, m.id)
    ensures Eligible(m)
  {
  }

  method Pick(ms: seq<Message>, scores: seq<Score>, choice: Option<QuoteChoice>) returns (p: Option<Picked>)
    ensures p.None? <==>
              && (choice.None? || choice.value.primaryId == 0 || !CanBeQuote(ms, choice.value.primaryId))
              && (forall id :: LastValue(scores, id).Some? ==> !CanBeQuote(ms, id))
    ensures p.Some? ==>
              && RightPick(ms, scores, choice, p.value.best)
              && p.value.best in ms && p.value.best.contentType != CONTENT_STICKER
              && p.value.ai == (match LastValue(scores, p.value.best.id) case Some(v) => v case None => NEUTRAL_SCORE)
    ensures p.Some? && p.value.runnerUp.Some? ==>
              p.value.runnerUp.value.id != p.value.best.id && IsFallback(ms, scores, p.value.runnerUp.value.id)
    ensures p.Some? && p.value.runnerUp.None? ==>
              IsFallback(ms, scores, p.value.best.id)
              || (forall id :: LastValue(scores, id).Some? ==> !CanBeQuote(ms, id))
    ensures p.Some? ==>
              && (NoContext(choice) ==> p.value.context == [])
              && (!NoContext(choice) ==>
                    WindowAround(p.value.context, Selected(ms, choice.value.contextIds, p.value.best), p.value.best)
                    && DistinctMessages(p.value.context))
  {
    hide Find, LastValue, FirstAt, Selected, WindowAround, CanBeQuote;
    var table, order := ScoreTable(scores);
    var fallback := Fallback(ms, order, table);
    TableListed(scores, order);
    if fallback.Some? {
      FallbackIs(ms, scores, order, table, fallback.value.id);
    }
    var best := ValidPrimary(choice, ms);
    if best.None? {
      best := fallback;
    }
    if best.None? {
      return None;
    }
    var b := best.value;
    QuoteIsEligible(ms, b);
    var ai := if b.id in table then table[b.id] else NEUTRAL_SCORE;
    var runnerUp := if fallback.Some? && fallback.value.id != b.id then fallback else None;
    var context := ValidContext(choice, ms, b);
    return Some(Picked(b, ai, runnerUp, context));
  }
}
