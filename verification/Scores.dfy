/** The scores of a model's reply: normalizeScores (internal/ai/parse.go) and scoreTable
    (internal/scoring/scoring.go). Both behave as a dictionary that remembers the order of
    insertion: a repeated id keeps its first position and takes its last value. Scores are
    real numbers, or infinite; the JSON of an entry is given as what was read from it.
 */
module Scores {
  import opened Wrappers

  datatype Score = Score(id: int, value: real)

  // ----- Insertion-ordered dictionaries -----

  /** The first position of the id, or the length. */
  function FirstAt(ss: seq<Score>, id: int): (i: nat)
    ensures i <= |ss| && (i < |ss| ==> ss[i].id == id)
    ensures forall j :: 0 <= j < i ==> ss[j].id != id
  {
    if ss == [] || ss[0].id == id then 0 else FirstAt(ss[1..], id) + 1
  }

  function LastValue(ss: seq<Score>, id: int): Option<real>
    decreases |ss|
  {
    if ss == [] then None
    else if ss[|ss| - 1].id == id then Some(ss[|ss| - 1].value)
    else LastValue(ss[..|ss| - 1], id)
  }

  /** The ids of ss, each once, in the order of their first positions. */
  ghost predicate InFirstOrder(ids: seq<int>, ss: seq<Score>) {
    && (forall k :: 0 <= k < |ids| ==> FirstAt(ss, ids[k]) < |ss|)
    && (forall j, k :: 0 <= j < k < |ids| ==> FirstAt(ss, ids[j]) < FirstAt(ss, ids[k]))
    && (forall i :: 0 <= i < |ss| ==> ss[i].id in ids)
  }

  lemma FirstAtSnoc(ss: seq<Score>, s: Score, id: int)
    ensures FirstAt(ss + [s], id) ==
              if FirstAt(ss, id) < |ss| then FirstAt(ss, id) else if s.id == id then |ss| else |ss| + 1
  {
    hide FirstAt;
    var all := ss + [s];
    var i, n := FirstAt(all, id), FirstAt(ss, id);
    if n < |ss| {
      assert all[n].id == id;
      assert i < |ss| ==> ss[i] == all[i];
    } else {
      assert forall j :: 0 <= j < |ss| ==> all[j] == ss[j];
      assert all[|ss|] == s;
    }
  }

  lemma FirstOrderSnoc(ids: seq<int>, ss: seq<Score>, s: Score)
    requires InFirstOrder(ids, ss)
    ensures InFirstOrder(if s.id in ids then ids else ids + [s.id], ss + [s])
  {
    hide FirstAt;
    var ids' := if s.id in ids then ids else ids + [s.id];
    forall k | 0 <= k < |ids'|
      ensures FirstAt(ss + [s], ids'[k]) == if k < |ids| then FirstAt(ss, ids[k]) else |ss|
    {
      FirstAtSnoc(ss, s, ids'[k]);
      if k == |ids| {
        forall i | 0 <= i < |ss| ensures ss[i].id != s.id {
          assert ss[i].id in ids;
        }
        assert FirstAt(ss, s.id) == |ss|;
      }
    }
    forall i | 0 <= i < |ss + [s]| ensures (ss + [s])[i].id in ids' {
      if i < |ss| {
        assert ss[i].id in ids;
      }
    }
  }

  lemma InListed(ids: seq<int>, ss: seq<Score>, id: int)
    requires InFirstOrder(ids, ss)
    ensures id in ids <==> LastValue(ss, id).Some?
  {
    ValueIfListed(ss, id);
  }

  lemma {:induction false} ValueIfListed(ss: seq<Score>, id: int)
    ensures LastValue(ss, id).Some? <==> FirstAt(ss, id) < |ss|
    ensures LastValue(ss, id).Some? <==> exists i :: 0 <= i < |ss| && ss[i].id == id
    decreases |ss|
  {
    if ss != [] {
      var n := |ss| - 1;
      ValueIfListed(ss[..n], id);
      FirstAtSnoc(ss[..n], ss[n], id);
      assert ss[..n] + [ss[n]] == ss;
      if LastValue(ss[..n], id).Some? {
        var i :| 0 <= i < n && ss[..n][i].id == id;
        assert ss[i].id == id;
      }
      if exists i :: 0 <= i < |ss| && ss[i].id == id {
        assert ss[FirstAt(ss, id)].id == id;
      }
    }
  }

  lemma Nothing()
    ensures InFirstOrder([], []) && Collects([], [])
  {
  }

  /** The values by id, and the ids in the order the model first gave them. */
  method ScoreTable(scores: seq<Score>) returns (table: map<int, real>, order: seq<int>)
    ensures InFirstOrder(order, scores)
    ensures forall id :: id in table <==> id in order
    ensures forall id :: id in table ==> LastValue(scores, id) == Some(table[id])
  {
    hide InFirstOrder;
    Nothing();
    table, order := map[], [];
    var i := 0;
    while i < |scores|
      invariant 0 <= i <= |scores|
      invariant InFirstOrder(order, scores[..i])
      invariant forall id :: id in table <==> id in order
      invariant forall id :: id in table ==> LastValue(scores[..i], id) == Some(table[id])
    {
      var s := scores[i];
      FirstOrderSnoc(order, scores[..i], s);
      assert scores[..i] + [s] == scores[..i + 1] && scores[..i + 1][..i] == scores[..i];
      if s.id !in table {
        order := order + [s.id];
      }
      table := table[s.id := s.value];
      i := i + 1;
    }
    assert scores[..i] == scores;
  }

  // ----- Reading the entries -----

  datatype Id = NoId | NotInteger | OutOfRange | Id(id: int)

  datatype Value = NoScore | NotNumber | Finite(r: real) | PlusInfinity | MinusInfinity {
    predicate Number() {
      Finite? || PlusInfinity? || MinusInfinity?
    }
  }

  datatype Entry = NotObject | Entry(id: Id, score: Value)

  datatype Problem = IsNotObject | HasNoId | IdNotInteger | HasNoScore | ScoreNotNumber

  /** What an entry adds: nothing if its id is not one the request had. */
  datatype Verdict = Bad(problem: Problem) | Skip | Take(score: Score)

  function Clamp(v: Value): (r: real)
    requires v.Finite? || v.PlusInfinity? || v.MinusInfinity?
    ensures 0.0 <= r <= 1.0
    ensures v.Finite? && 0.0 <= v.r <= 10.0 ==> 10.0 * r == v.r
    ensures (v.Finite? && v.r > 10.0) || v.PlusInfinity? ==> r == 1.0
    ensures (v.Finite? && v.r < 0.0) || v.MinusInfinity? ==> r == 0.0
  {
    match v
    case PlusInfinity => 1.0
    case MinusInfinity => 0.0
    case Finite(r) => (if r < 0.0 then 0.0 else if r > 10.0 then 10.0 else r) / 10.0
  }

  /** The faults are looked for in this order; the score of an unknown id is not looked at. */
  function Judge(e: Entry, known: set<int>): (v: Verdict)
    ensures v.Take? ==> v.score.id in known && 0.0 <= v.score.value <= 1.0
  {
    match e
    case NotObject => Bad(IsNotObject)
    case Entry(NoId, _) => Bad(HasNoId)
    case Entry(NotInteger, _) => Bad(IdNotInteger)
    case Entry(OutOfRange, _) => Skip
    case Entry(Id(id), score) =>
      if id !in known then Skip
      else
        match score
        case NoScore => Bad(HasNoScore)
        case NotNumber => Bad(ScoreNotNumber)
        case _ => Take(Score(id, Clamp(score)))
  }

  function Taken(entries: seq<Entry>, known: set<int>): seq<Score>
    decreases |entries|
  {
    if entries == [] then []
    else
      var n := |entries| - 1;
      var v := Judge(entries[n], known);
      Taken(entries[..n], known) + if v.Take? then [v.score] else []
  }

  lemma TakenSnoc(entries: seq<Entry>, i: nat, known: set<int>)
    requires i < |entries|
    ensures var v := Judge(entries[i], known);
            var before := Taken(entries[..i], known);
            Taken(entries[..i + 1], known) == if v.Take? then before + [v.score] else before
  {
    assert entries[..i + 1][..i] == entries[..i];
  }

  lemma NoneTaken(known: set<int>)
    ensures Taken([], known) == []
  {
  }

  datatype Result = Ok(scores: seq<Score>) | Failed(at: nat, problem: Problem)

  function Ids(ss: seq<Score>): (ids: seq<int>)
    ensures |ids| == |ss| && forall i :: 0 <= i < |ss| ==> ids[i] == ss[i].id
  {
    seq(|ss|, i requires 0 <= i < |ss| => ss[i].id)
  }

  /** The scores hold each taken id once, in first order, with its last value. */
  ghost predicate Collects(out: seq<Score>, taken: seq<Score>) {
    && InFirstOrder(Ids(out), taken)
    && forall k :: 0 <= k < |out| ==> LastValue(taken, out[k].id) == Some(out[k].value)
  }

  method NormalizeScores(known: set<int>, entries: seq<Entry>) returns (r: Result)
    ensures r.Failed? ==>
              && r.at < |entries|
              && Judge(entries[r.at], known) == Bad(r.problem)
              && forall i :: 0 <= i < r.at ==> !Judge(entries[i], known).Bad?
    ensures r.Ok? ==> forall i :: 0 <= i < |entries| ==> !Judge(entries[i], known).Bad?
    ensures r.Ok? ==> Collects(r.scores, Taken(entries, known))
    ensures r.Ok? ==> forall s :: s in r.scores ==> s.id in known && 0.0 <= s.value <= 1.0
    ensures r.Failed? ==> Faulty(entries[r.at], known, r.problem)
    ensures r.Ok? ==> forall id :: HasScore(r.scores, id) <==> id in known && Named(entries, id)
    ensures r.Ok? ==> forall i, k :: 0 <= i < |entries| && 0 <= k < |r.scores| && IsLast(entries, i, r.scores[k].id) ==>
              entries[i].score.Number() && r.scores[k].value == Clamp(entries[i].score)
  {
    hide Collects, Taken, Clamp, IsLast;
    Nothing();
    NoneTaken(known);
    var out: seq<Score> := [];
    var at: map<int, nat> := map[];
    var i := 0;
    while i < |entries|
      invariant 0 <= i <= |entries|
      invariant forall j :: 0 <= j < i ==> !Judge(entries[j], known).Bad?
      invariant Collects(out, Taken(entries[..i], known))
      invariant forall k :: 0 <= k < |out| ==> out[k].id in at && at[out[k].id] == k
      invariant forall id :: id in at ==> at[id] < |out| && out[at[id]].id == id
      invariant forall s :: s in out ==> s.id in known && 0.0 <= s.value <= 1.0
      decreases |entries| - i
    {
      var e := entries[i];
      TakenSnoc(entries, i, known);
      if e.NotObject? {
        return Failed(i, IsNotObject);
      }
      match e.id {
      case NoId => return Failed(i, HasNoId);
      case NotInteger => return Failed(i, IdNotInteger);
      case OutOfRange =>
      case Id(id) =>
        if id in known {
          if e.score.NoScore? {
            return Failed(i, HasNoScore);
          }
          if e.score.NotNumber? {
            return Failed(i, ScoreNotNumber);
          }
          var value := Clamp(e.score);
          assert Judge(e, known) == Take(Score(id, value));
          CollectsOneMore(out, Taken(entries[..i], known), Score(id, value));
          if id in at {
            assert Collects(out[at[id] := Score(id, value)], Taken(entries[..i + 1], known));
            out := out[at[id] := Score(id, value)];
          } else {
            at := at[id := |out|];
            out := out + [Score(id, value)];
          }
        }
      }
      i := i + 1;
    }
    assert entries[..i] == entries;
    CollectedAre(entries, known, out);
    return Ok(out);
  }

  /** What is wrong with an entry: an object without an id, or with one that is no integer,
      or, when the id is one the request had, without a score or with one that is no number. */
  predicate Faulty(e: Entry, known: set<int>, problem: Problem) {
    match problem
    case IsNotObject => e.NotObject?
    case HasNoId => e.Entry? && e.id.NoId?
    case IdNotInteger => e.Entry? && e.id.NotInteger?
    case HasNoScore => e.Entry? && e.id.Id? && e.id.id in known && e.score.NoScore?
    case ScoreNotNumber => e.Entry? && e.id.Id? && e.id.id in known && e.score.NotNumber?
  }

  predicate Names(e: Entry, id: int) {
    e.Entry? && e.id == Id(id)
  }

  ghost predicate Named(entries: seq<Entry>, id: int) {
    exists i :: 0 <= i < |entries| && Names(entries[i], id)
  }

  ghost predicate HasScore(ss: seq<Score>, id: int) {
    exists k :: 0 <= k < |ss| && ss[k].id == id
  }

  /** The i-th entry is the last one of the id. */
  predicate IsLast(entries: seq<Entry>, i: nat, id: int) {
    i < |entries| && Names(entries[i], id) && forall j :: i < j < |entries| ==> !Names(entries[j], id)
  }

  lemma JudgedRight(e: Entry, known: set<int>, id: int)
    requires !Judge(e, known).Bad?
    ensures (Judge(e, known).Take? && Judge(e, known).score.id == id) <==> id in known && Names(e, id)
    ensures id in known && Names(e, id) ==> e.score.Number() && Judge(e, known).score == Score(id, Clamp(e.score))
  {
  }

  predicate AllRight(entries: seq<Entry>, known: set<int>) {
    forall i :: 0 <= i < |entries| ==> !Judge(entries[i], known).Bad?
  }

  /** The last entry of a known id gives it its value. */
  lemma {:induction false} TakenLast(entries: seq<Entry>, known: set<int>, id: int, i: nat)
    requires AllRight(entries, known) && id in known && IsLast(entries, i, id)
    ensures entries[i].score.Number() && LastValue(Taken(entries, known), id) == Some(Clamp(entries[i].score))
    decreases |entries|
  {
    hide Clamp, Judge, LastValue, Taken;
    var n := |entries| - 1;
    JudgedRight(entries[n], known, id);
    OneMoreValue(entries, known, id);
    if i < n {
      assert entries[..n][i] == entries[i];
      TakenLast(entries[..n], known, id, i);
    }
  }

  /** An id that is not known, or named by no entry, has none. */
  lemma {:induction false} TakenNever(entries: seq<Entry>, known: set<int>, id: int)
    requires AllRight(entries, known)
    requires id !in known || !Named(entries, id)
    ensures LastValue(Taken(entries, known), id) == None
    decreases |entries|
  {
    hide Clamp, Judge, LastValue;
    if entries == [] {
      NoValue(id);
    } else {
      var n := |entries| - 1;
      JudgedRight(entries[n], known, id);
      OneMoreValue(entries, known, id);
      assert forall i :: 0 <= i < n ==> entries[..n][i] == entries[i];
      TakenNever(entries[..n], known, id);
    }
  }

  lemma {:induction false} LastOf(entries: seq<Entry>, id: int, k: nat) returns (i: nat)
    requires k < |entries| && Names(entries[k], id)
    ensures IsLast(entries, i, id)
    decreases |entries|
  {
    hide Names;
    var n := |entries| - 1;
    if Names(entries[n], id) {
      i := n;
    } else {
      i := LastOf(entries[..n], id, k);
      assert forall j :: i < j < n ==> entries[..n][j] == entries[j];
    }
  }

  lemma NoValue(id: int)
    ensures LastValue([], id) == None
  {
  }

  lemma OneMoreValue(entries: seq<Entry>, known: set<int>, id: int)
    requires entries != []
    ensures var n := |entries| - 1;
            var v := Judge(entries[n], known);
            LastValue(Taken(entries, known), id) ==
              if v.Take? && v.score.id == id then Some(v.score.value) else LastValue(Taken(entries[..n], known), id)
  {
    hide Judge;
    var before, v := Taken(entries[..|entries| - 1], known), Judge(entries[|entries| - 1], known);
    if v.Take? {
      assert (before + [v.score])[..|before|] == before;
    } else {
      assert before + [] == before;
    }
  }

  lemma CollectedAre(entries: seq<Entry>, known: set<int>, out: seq<Score>)
    requires AllRight(entries, known) && Collects(out, Taken(entries, known))
    ensures forall id :: HasScore(out, id) <==> id in known && Named(entries, id)
    ensures forall i, k :: 0 <= i < |entries| && 0 <= k < |out| && IsLast(entries, i, out[k].id) ==>
              entries[i].score.Number() && out[k].value == Clamp(entries[i].score)
  {
    hide Clamp, Judge, Taken, InFirstOrder, LastValue, AllRight, Named;
    var taken := Taken(entries, known);
    forall id: int ensures HasScore(out, id) <==> id in known && Named(entries, id) {
      NamedIsScored(entries, known, out, id);
    }
    forall i: nat, k | 0 <= i < |entries| && 0 <= k < |out| && IsLast(entries, i, out[k].id)
      ensures entries[i].score.Number() && out[k].value == Clamp(entries[i].score)
    {
      assert HasScore(out, out[k].id);
      TakenLast(entries, known, out[k].id, i);
      OnlyValue(out, taken, k);
    }
  }

  lemma NamedIsScored(entries: seq<Entry>, known: set<int>, out: seq<Score>, id: int)
    requires AllRight(entries, known) && Collects(out, Taken(entries, known))
    ensures HasScore(out, id) <==> id in known && Named(entries, id)
  {
    hide Clamp, Judge, Taken, InFirstOrder, LastValue, AllRight, Collects;
    CollectedReadsSame(out, Taken(entries, known), id);
    ValueIfListed(out, id);
    if id in known && Named(entries, id) {
      var k :| 0 <= k < |entries| && Names(entries[k], id);
      var i := LastOf(entries, id, k);
      TakenLast(entries, known, id, i);
    } else {
      TakenNever(entries, known, id);
    }
  }

  lemma OnlyValue(out: seq<Score>, taken: seq<Score>, k: nat)
    requires Collects(out, taken) && k < |out|
    ensures LastValue(taken, out[k].id) == Some(out[k].value)
  {
  }

  lemma CollectsOneMore(out: seq<Score>, taken: seq<Score>, s: Score)
    requires Collects(out, taken)
    ensures forall k :: 0 <= k < |out| && out[k].id == s.id ==> Collects(out[k := s], taken + [s])
    ensures (forall k :: 0 <= k < |out| ==> out[k].id != s.id) ==> Collects(out + [s], taken + [s])
  {
    hide InFirstOrder, FirstAt;
    FirstOrderSnoc(Ids(out), taken, s);
    assert (taken + [s])[..|taken|] == taken;
    forall k | 0 <= k < |out| && out[k].id == s.id ensures Collects(out[k := s], taken + [s]) {
      assert Ids(out)[k] == s.id && Ids(out[k := s]) == Ids(out);
      forall j | 0 <= j < |out| && j != k ensures out[j].id != s.id {
        DistinctIds(Ids(out), taken, j, k);
      }
    }
    assert Ids(out + [s]) == Ids(out) + [s.id];
  }

  lemma DistinctIds(ids: seq<int>, ss: seq<Score>, j: nat, k: nat)
    requires InFirstOrder(ids, ss) && j < |ids| && k < |ids| && j != k
    ensures ids[j] != ids[k]
  {
  }

  /** With each id once, its only entry is its first and its last. */
  lemma {:induction false} OnlyEntry(ss: seq<Score>, k: nat)
    requires k < |ss| && forall i, j :: 0 <= i < j < |ss| ==> ss[i].id != ss[j].id
    ensures LastValue(ss, ss[k].id) == Some(ss[k].value) && FirstAt(ss, ss[k].id) == k
    decreases |ss|
  {
    hide FirstAt;
    if k < |ss| - 1 {
      OnlyEntry(ss[..|ss| - 1], k);
    }
  }

  /** What a reader learns of an id, its value and how it is ordered among others, is the
      same in the collected scores as in all that were taken. */
  lemma CollectedReadsSame(out: seq<Score>, taken: seq<Score>, id: int)
    requires Collects(out, taken)
    ensures LastValue(out, id) == LastValue(taken, id)
    ensures forall other :: LastValue(taken, id).Some? && LastValue(taken, other).Some? ==>
              (FirstAt(out, id) <= FirstAt(out, other) <==> FirstAt(taken, id) <= FirstAt(taken, other))
  {
    hide FirstAt, LastValue, Collects;
    CollectedOnce(out, taken, id);
    forall other | LastValue(taken, id).Some? && LastValue(taken, other).Some?
      ensures FirstAt(out, id) <= FirstAt(out, other) <==> FirstAt(taken, id) <= FirstAt(taken, other)
    {
      CollectedOnce(out, taken, other);
      CollectedInOrder(out, taken, FirstAt(out, id), FirstAt(out, other));
    }
  }

  lemma CollectedInOrder(out: seq<Score>, taken: seq<Score>, j: nat, k: nat)
    requires Collects(out, taken) && j < |out| && k < |out|
    ensures j <= k <==> FirstAt(taken, out[j].id) <= FirstAt(taken, out[k].id)
  {
    hide FirstAt;
    var ids := Ids(out);
    assert ids[j] == out[j].id && ids[k] == out[k].id;
  }

  lemma CollectedDistinct(out: seq<Score>, taken: seq<Score>)
    requires Collects(out, taken)
    ensures forall i, j :: 0 <= i < j < |out| ==> out[i].id != out[j].id
  {
    hide FirstAt, InFirstOrder;
    forall i, j | 0 <= i < j < |out| ensures out[i].id != out[j].id {
      DistinctIds(Ids(out), taken, i, j);
    }
  }

  lemma CollectedOnce(out: seq<Score>, taken: seq<Score>, id: int)
    requires Collects(out, taken)
    ensures LastValue(out, id) == LastValue(taken, id)
    ensures LastValue(taken, id).Some? ==> FirstAt(out, id) < |out|
  {
    hide FirstAt, LastValue, InFirstOrder;
    CollectedDistinct(out, taken);
    InListed(Ids(out), taken, id);
    ValueIfListed(out, id);
    if id in Ids(out) {
      var k :| 0 <= k < |out| && Ids(out)[k] == id;
      OnlyEntry(out, k);
    } else {
      assert forall i :: 0 <= i < |out| ==> Ids(out)[i] == out[i].id;
    }
  }
}
