/** The user turn sent to the model: a JSON array of compact message objects
    (internal/ai/payload.go). Strings are sequences of Unicode scalar values.
 */
module Payload {
  import opened Wrappers
  import opened Json

  datatype Reaction = Reaction(emoji: string, count: int)

  /** One message as the caller gives it. "" and 0 stand for absent. */
  datatype EvalMessage = EvalMessage(
    id: int,
    author: string,
    text: string,
    caption: string,
    kind: string,
    desc: string,
    replyTo: int,
    reactions: seq<Reaction>)

  const MAX_TEXT := 2000
  const MAX_AUTHOR := 128
  const MAX_DESC := 1500

  const CONTENT_TEXT := "text"

  // ----- What the model is meant to learn -----

  /** A message cut to what may be sent: strings clipped, fields with nothing to say gone. */
  datatype Sent = Sent(
    id: int,
    author: string,
    text: Option<string>,
    caption: Option<string>,
    kind: Option<string>,
    desc: Option<string>,
    replyTo: Option<int>,
    reactions: seq<Reaction>)

  function FirstRunes(s: string, n: nat): (r: string)
    ensures r <= s && (r == "" <==> s == "" || n == 0)
  {
    if |s| <= n then s else s[..n]
  }

  function NonEmpty(s: string): Option<string> {
    if s == "" then None else Some(s)
  }

  function Positive(rs: seq<Reaction>): seq<Reaction> {
    if rs == [] then []
    else (if rs[0].count > 0 then [rs[0]] else []) + Positive(rs[1..])
  }

  function Project(m: EvalMessage): Sent {
    Sent(
      m.id,
      FirstRunes(m.author, MAX_AUTHOR),
      NonEmpty(FirstRunes(m.text, MAX_TEXT)),
      NonEmpty(FirstRunes(m.caption, MAX_TEXT)),
      if m.kind == CONTENT_TEXT then None else NonEmpty(m.kind),
      NonEmpty(FirstRunes(m.desc, MAX_DESC)),
      if m.replyTo == 0 then None else Some(m.replyTo),
      Positive(m.reactions))
  }

  function ProjectAll(ms: seq<EvalMessage>): (r: seq<Sent>)
    ensures |r| == |ms| && forall i :: 0 <= i < |ms| ==> r[i] == Project(ms[i])
  {
    seq(|ms|, i requires 0 <= i < |ms| => Project(ms[i]))
  }

  // ----- The layout -----

  function OptionalText(name: string, s: Option<string>): seq<(string, Json)> {
    if s.Some? then [(name, Str(s.value))] else []
  }

  function OptionalNumber(name: string, n: Option<int>): seq<(string, Json)> {
    if n.Some? then [(name, Num(n.value))] else []
  }

  function Counts(rs: seq<Reaction>): (r: seq<(string, Json)>)
    ensures |r| == |rs| && forall i :: 0 <= i < |rs| ==> r[i] == (rs[i].emoji, Num(rs[i].count))
  {
    seq(|rs|, i requires 0 <= i < |rs| => (rs[i].emoji, Num(rs[i].count)))
  }

  function ReactionMember(rs: seq<Reaction>): seq<(string, Json)> {
    if rs == [] then [] else [("re", Obj(Counts(rs)))]
  }

  /** The members of a message's object, in their fixed order. */
  function Members(m: Sent): seq<(string, Json)> {
    [("i", Num(m.id)), ("a", Str(m.author))]
    + OptionalText("t", m.text)
    + OptionalText("caption", m.caption)
    + OptionalText("kind", m.kind)
    + OptionalText("desc", m.desc)
    + OptionalNumber("rp", m.replyTo)
    + ReactionMember(m.reactions)
  }

  function Encode(ms: seq<Sent>): Json {
    Arr(seq(|ms|, i requires 0 <= i < |ms| => Obj(Members(ms[i]))))
  }

  // ----- A decoder of the layout -----

  /** The first member if it has this name, and the members after it. */
  function TakeMember(ms: seq<(string, Json)>, name: string): (Option<Json>, seq<(string, Json)>) {
    if ms != [] && ms[0].0 == name then (Some(ms[0].1), ms[1..]) else (None, ms)
  }

  function AsText(v: Option<Json>): Option<string> {
    if v.Some? && v.value.Str? then Some(v.value.text) else None
  }

  function AsNumber(v: Option<Json>): Option<int> {
    if v.Some? && v.value.Num? then Some(v.value.value) else None
  }

  function AsCounts(ms: seq<(string, Json)>): seq<Reaction> {
    seq(|ms|, i requires 0 <= i < |ms| =>
      Reaction(ms[i].0, if ms[i].1.Num? then ms[i].1.value else 0))
  }

  function AsReactions(v: Option<Json>): seq<Reaction> {
    if v.Some? && v.value.Obj? then AsCounts(v.value.members) else []
  }

  function DecodeMembers(ms: seq<(string, Json)>): Option<Sent> {
    var (i, ms1) := TakeMember(ms, "i");
    var (a, ms2) := TakeMember(ms1, "a");
    var (t, ms3) := TakeMember(ms2, "t");
    var (caption, ms4) := TakeMember(ms3, "caption");
    var (kind, ms5) := TakeMember(ms4, "kind");
    var (desc, ms6) := TakeMember(ms5, "desc");
    var (rp, ms7) := TakeMember(ms6, "rp");
    var (re, ms8) := TakeMember(ms7, "re");
    if AsNumber(i).None? || AsText(a).None? || ms8 != [] then None
    else
      Some(Sent(AsNumber(i).value, AsText(a).value, AsText(t), AsText(caption), AsText(kind),
                AsText(desc), AsNumber(rp), AsReactions(re)))
  }

  function DecodeItems(items: seq<Json>): Option<seq<Sent>> {
    if items == [] then Some([])
    else if !items[0].Obj? then None
    else
      match (DecodeMembers(items[0].members), DecodeItems(items[1..]))
      case (Some(m), Some(ms)) => Some([m] + ms)
      case _ => None
  }

  function Decode(text: string): Option<seq<Sent>> {
    match Parse(text)
    case Got(v, _) => if v.Arr? then DecodeItems(v.items) else None
    case Bad => None
  }

  // ----- The printer as it runs -----

  /** Bytes of the rune in UTF-8. */
  function RuneLength(c: char): (n: nat)
    ensures 1 <= n <= 4
  {
    if c as int < 0x80 then 1 else if c as int < 0x800 then 2 else if c as int < 0x1_0000 then 3 else 4
  }

  function ByteLength(s: string): (n: nat)
    ensures |s| <= n
  {
    if s == "" then 0 else RuneLength(s[0]) + ByteLength(s[1..])
  }

  /** clip: a string of few enough bytes is not looked at, another is cut after n runes. */
  method Clip(s: string, n: nat) returns (r: string)
    ensures r == FirstRunes(s, n)
  {
    if ByteLength(s) <= n {
      return s;
    }
    var count, i := 0, 0;
    while i < |s|
      invariant count == i <= |s| && count <= n
    {
      if count == n {
        return s[..i];
      }
      count := count + 1;
      i := i + 1;
    }
    return s;
  }

  method AppendString(b: string, s: string) returns (r: string)
    ensures r == b + Quoted(s)
  {
    hide Escaped;
    r := b + "\"";
    var i := 0;
    while i < |s|
      invariant 0 <= i <= |s|
      invariant r + Escaped(s[i..]) == b + "\"" + Escaped(s)
    {
      var c := s[i];
      ghost var before := r;
      if c == '\"' {
        r := r + "\\\"";
      } else if c == '\\' {
        r := r + "\\\\";
      } else if c == '\n' {
        r := r + "\\n";
      } else if c == '\r' {
        r := r + "\\r";
      } else if c == '\t' {
        r := r + "\\t";
      } else if c == '\U{8}' {
        r := r + "\\b";
      } else if c == '\U{c}' {
        r := r + "\\f";
      } else if c < ' ' {
        r := r + "\\u00" + [HEX[c as int / 16], HEX[c as int % 16]];
      } else {
        r := r + [c];
      }
      assert r == before + Escape(c);
      StringStepped(before, s, i, b + "\"" + Escaped(s));
      i := i + 1;
    }
    NothingLeft(r, s);
    r := r + "\"";
  }

  lemma StringStepped(r: string, s: string, i: nat, all: string)
    requires i < |s| && r + Escaped(s[i..]) == all
    ensures r + Escape(s[i]) + Escaped(s[i + 1..]) == all
  {
    hide Escape;
    assert s[i..][1..] == s[i + 1..];
  }

  lemma NothingLeft(r: string, s: string)
    ensures r + Escaped(s[|s|..]) == r
  {
  }

  /** The reactions with a positive count; the list itself when there are no others. */
  method PositiveReactions(rs: seq<Reaction>) returns (r: seq<Reaction>)
    ensures r == Positive(rs)
  {
    hide Positive;
    var i := 0;
    while i < |rs|
      invariant 0 <= i <= |rs|
      invariant forall k :: 0 <= k < i ==> rs[k].count > 0
    {
      if rs[i].count <= 0 {
        r := [];
        var k := 0;
        assert rs[0..] == rs;
        while k < |rs|
          invariant 0 <= k <= |rs|
          invariant r + Positive(rs[k..]) == Positive(rs)
        {
          PositiveStep(rs, k);
          if rs[k].count > 0 {
            r := r + [rs[k]];
          }
          k := k + 1;
        }
        NonePositive(rs[k..]);
        return;
      }
      i := i + 1;
    }
    AllPositive(rs);
    return rs;
  }

  lemma PositiveStep(rs: seq<Reaction>, k: nat)
    requires k < |rs|
    ensures Positive(rs[k..]) == (if rs[k].count > 0 then [rs[k]] else []) + Positive(rs[k + 1..])
  {
    assert rs[k..][1..] == rs[k + 1..];
  }

  lemma NonePositive(rs: seq<Reaction>)
    ensures rs == [] ==> Positive(rs) == []
  {
  }

  lemma {:induction false} AllPositive(rs: seq<Reaction>)
    requires forall k :: 0 <= k < |rs| ==> rs[k].count > 0
    ensures Positive(rs) == rs
    decreases |rs|
  {
    if rs != [] {
      AllPositive(rs[1..]);
    }
  }

  method AppendCounts(b: string, rs: seq<Reaction>) returns (r: string)
    ensures r == b + PrintMembers(Counts(rs))
  {
    hide PrintMembers, Counts, Quoted, Decimal;
    NoCounts();
    r := b;
    var i := 0;
    while i < |rs|
      invariant 0 <= i <= |rs|
      invariant r == b + PrintMembers(Counts(rs[..i]))
    {
      ghost var before := r;
      if i > 0 {
        r := r + ", ";
      }
      r := AppendString(r, rs[i].emoji);
      r := r + ": ";
      r := r + Decimal(rs[i].count);
      CountsStep(b, before, rs, i, r);
      i := i + 1;
    }
    assert rs[..|rs|] == rs;
  }

  lemma NoCounts()
    ensures PrintMembers(Counts([])) == ""
  {
  }

  lemma CountsStep(b: string, r: string, rs: seq<Reaction>, i: nat, r': string)
    requires i < |rs| && r == b + PrintMembers(Counts(rs[..i]))
    requires r' == (if i > 0 then r + ", " else r) + Quoted(rs[i].emoji) + ": " + Decimal(rs[i].count)
    ensures r' == b + PrintMembers(Counts(rs[..i + 1]))
  {
    hide PrintMembers, Quoted, Decimal;
    var one := (rs[i].emoji, Num(rs[i].count));
    MembersSnoc(Counts(rs[..i]), one);
    assert Counts(rs[..i + 1]) == Counts(rs[..i]) + [one];
  }

  /** The object so far, without its closing brace. */
  predicate HasMembers(b: string, r: string, members: seq<(string, Json)>) {
    members != [] && r == b + ("{" + PrintMembers(members))
  }

  /** The names of the fields need no escapes. */
  lemma {:induction false} PlainName(s: string)
    requires forall i :: 0 <= i < |s| ==> 'a' <= s[i] <= 'z'
    ensures Escaped(s) == s
    decreases |s|
  {
    if s != "" {
      PlainName(s[1..]);
    }
  }

  /** What separates a field from the one before it, and its name. */
  function Label(name: string): string {
    ", \"" + name + "\": "
  }

  lemma OneMore(b: string, r: string, members: seq<(string, Json)>, name: string, v: Json)
    requires HasMembers(b, r, members) && forall i :: 0 <= i < |name| ==> 'a' <= name[i] <= 'z'
    ensures HasMembers(b, r + Label(name) + Print(v), members + [(name, v)])
  {
    hide Print, PrintMembers;
    PlainName(name);
    MembersSnoc(members, (name, v));
    Regrouped(b, PrintMembers(members), name, Print(v));
  }

  lemma Regrouped(b: string, members: string, name: string, value: string)
    ensures b + ("{" + members) + (", \"" + name + "\": ") + value ==
              b + ("{" + (members + ", " + ("\"" + name + "\"" + ": " + value)))
  {
  }

  lemma TextAdded(b: string, r: string, members: seq<(string, Json)>, name: string, s: Option<string>, r': string)
    requires HasMembers(b, r, members) && forall i :: 0 <= i < |name| ==> 'a' <= name[i] <= 'z'
    requires r' == if s.Some? then r + Label(name) + Quoted(s.value) else r
    ensures HasMembers(b, r', members + OptionalText(name, s))
  {
    hide HasMembers, PrintMembers, Quoted;
    if s.Some? {
      OneMore(b, r, members, name, Str(s.value));
      assert members + OptionalText(name, s) == members + [(name, Str(s.value))];
    } else {
      assert members + OptionalText(name, s) == members;
    }
  }

  lemma NumberAdded(b: string, r: string, members: seq<(string, Json)>, name: string, n: Option<int>, r': string)
    requires HasMembers(b, r, members) && forall i :: 0 <= i < |name| ==> 'a' <= name[i] <= 'z'
    requires r' == if n.Some? then r + Label(name) + Decimal(n.value) else r
    ensures HasMembers(b, r', members + OptionalNumber(name, n))
  {
    hide HasMembers, PrintMembers, Decimal;
    if n.Some? {
      OneMore(b, r, members, name, Num(n.value));
      assert members + OptionalNumber(name, n) == members + [(name, Num(n.value))];
    } else {
      assert members + OptionalNumber(name, n) == members;
    }
  }

  lemma CountsAdded(b: string, r: string, members: seq<(string, Json)>, rs: seq<Reaction>, r': string)
    requires HasMembers(b, r, members)
    requires r' == if rs == [] then r else r + Label("re") + "{" + PrintMembers(Counts(rs)) + "}"
    ensures HasMembers(b, r', members + ReactionMember(rs))
  {
    hide HasMembers, PrintMembers;
    if rs != [] {
      OneMore(b, r, members, "re", Obj(Counts(rs)));
      assert r' == r + Label("re") + Print(Obj(Counts(rs)));
      assert members + ReactionMember(rs) == members + [("re", Obj(Counts(rs)))];
    } else {
      assert members + ReactionMember(rs) == members;
    }
  }

  lemma FirstMember(b: string, id: int, r: string)
    requires r == b + "{\"i\": " + Decimal(id)
    ensures HasMembers(b, r, [("i", Num(id))])
  {
    hide Decimal;
    PlainName("i");
    assert "{\"i\": " == "{" + (Quoted("i") + ": ");
    var first := ("i", Num(id));
    MembersSnoc([], first);
    assert [] + [first] == [first];
    assert PrintMember(first) == Quoted("i") + ": " + Decimal(id);
    assert PrintMembers([first]) == PrintMember(first);
    assert r == b + ("{" + (Quoted("i") + ": " + Decimal(id)));
  }

  method AppendMessage(b: string, m: EvalMessage) returns (r: string)
    ensures r == b + Print(Obj(Members(Project(m))))
    ensures Says(Project(m), m) && Shows(Members(Project(m)), Project(m))
  {
    hide Says, Shows, PrintMembers, Print, Quoted, Decimal, Positive, HasMembers, Label, FirstRunes, Members;
    ghost var p := Project(m);
    r := b + "{\"i\": ";
    r := r + Decimal(m.id);
    FirstMember(b, m.id, r);
    ghost var done, before := [("i", Num(m.id))], r;

    r := r + Label("a");
    var author := Clip(m.author, MAX_AUTHOR);
    r := AppendString(r, author);
    TextAdded(b, before, done, "a", Some(p.author), r);
    done, before := done + OptionalText("a", Some(p.author)), r;

    if m.text != "" {
      r := r + Label("t");
      var text := Clip(m.text, MAX_TEXT);
      r := AppendString(r, text);
    }
    TextAdded(b, before, done, "t", p.text, r);
    done, before := done + OptionalText("t", p.text), r;

    if m.caption != "" {
      r := r + Label("caption");
      var caption := Clip(m.caption, MAX_TEXT);
      r := AppendString(r, caption);
    }
    TextAdded(b, before, done, "caption", p.caption, r);
    done, before := done + OptionalText("caption", p.caption), r;

    if m.kind != "" && m.kind != CONTENT_TEXT {
      r := r + Label("kind");
      r := AppendString(r, m.kind);
    }
    TextAdded(b, before, done, "kind", p.kind, r);
    done, before := done + OptionalText("kind", p.kind), r;

    if m.desc != "" {
      r := r + Label("desc");
      var desc := Clip(m.desc, MAX_DESC);
      r := AppendString(r, desc);
    }
    TextAdded(b, before, done, "desc", p.desc, r);
    done, before := done + OptionalText("desc", p.desc), r;

    if m.replyTo != 0 {
      r := r + Label("rp");
      r := r + Decimal(m.replyTo);
    }
    NumberAdded(b, before, done, "rp", p.replyTo, r);
    done, before := done + OptionalNumber("rp", p.replyTo), r;

    var re := PositiveReactions(m.reactions);
    if |re| > 0 {
      r := r + Label("re") + "{";
      r := AppendCounts(r, re);
      r := r + "}";
    }
    CountsAdded(b, before, done, re, r);
    done, before := done + ReactionMember(re), r;

    AllMembers(p, done);
    ProjectSays(m);
    MembersShow(p);
    ObjectClosed(b, r, done);
    r := r + "}";
  }

  lemma AllMembers(m: Sent, done: seq<(string, Json)>)
    requires done == [("i", Num(m.id))] + OptionalText("a", Some(m.author)) + OptionalText("t", m.text)
                     + OptionalText("caption", m.caption) + OptionalText("kind", m.kind) + OptionalText("desc", m.desc)
                     + OptionalNumber("rp", m.replyTo) + ReactionMember(m.reactions)
    ensures done == Members(m)
  {
    assert [("i", Num(m.id))] + OptionalText("a", Some(m.author)) == [("i", Num(m.id)), ("a", Str(m.author))];
  }

  lemma ObjectClosed(b: string, r: string, members: seq<(string, Json)>)
    requires HasMembers(b, r, members)
    ensures r + "}" == b + Print(Obj(members))
  {
    hide Print, PrintMembers;
    ObjectPrinted(members);
    assert b + ("{" + PrintMembers(members)) + "}" == b + ("{" + PrintMembers(members) + "}");
  }

  lemma ObjectPrinted(members: seq<(string, Json)>)
    ensures Print(Obj(members)) == "{" + PrintMembers(members) + "}"
  {
  }

  lemma ArrayPrinted(items: seq<Json>)
    ensures Print(Arr(items)) == "[" + PrintItems(items) + "]"
  {
  }

  // ----- What the text says of a message -----

  /** All of s, or its first n characters. */
  predicate IsCut(r: string, s: string, n: nat) {
    r <= s && |r| == if |s| <= n then |s| else n
  }

  /** Absent when there is nothing to say. */
  predicate SaysText(r: Option<string>, s: string, n: nat) {
    (r.Some? <==> s != "") && (r.Some? ==> IsCut(r.value, s, n))
  }

  /** out are the positive reactions of rs, at the positions at, in order. */
  predicate Picks(out: seq<Reaction>, rs: seq<Reaction>, at: seq<nat>) {
    && |out| == |at|
    && (forall j, k :: 0 <= j < k < |at| ==> at[j] < at[k])
    && (forall k :: 0 <= k < |at| ==> at[k] < |rs| && rs[at[k]].count > 0 && out[k] == rs[at[k]])
    && (forall i :: 0 <= i < |rs| && rs[i].count > 0 ==> i in at)
  }

  ghost predicate SaysReactions(out: seq<Reaction>, rs: seq<Reaction>) {
    exists at: seq<nat> :: Picks(out, rs, at)
  }

  /** Each field says what it is for, of the message as given. */
  ghost predicate Says(d: Sent, m: EvalMessage) {
    && d.id == m.id
    && IsCut(d.author, m.author, 128)
    && SaysText(d.text, m.text, 2000)
    && SaysText(d.caption, m.caption, 2000)
    && d.kind == (if m.kind == "" || m.kind == "text" then None else Some(m.kind))
    && SaysText(d.desc, m.desc, 1500)
    && d.replyTo == (if m.replyTo == 0 then None else Some(m.replyTo))
    && SaysReactions(d.reactions, m.reactions)
  }

  lemma {:induction false} PositiveSnoc(rs: seq<Reaction>, r: Reaction)
    ensures Positive(rs + [r]) == Positive(rs) + if r.count > 0 then [r] else []
    decreases |rs|
  {
    var all := rs + [r];
    if rs == [] {
      assert all == [r] && all[1..] == [];
    } else {
      assert all[1..] == rs[1..] + [r] && all[0] == rs[0];
      PositiveSnoc(rs[1..], r);
    }
  }

  lemma PicksSnoc(out: seq<Reaction>, rs: seq<Reaction>, at: seq<nat>, r: Reaction)
    requires Picks(out, rs, at)
    ensures if r.count > 0 then Picks(out + [r], rs + [r], at + [|rs|]) else Picks(out, rs + [r], at)
  {
    var all := rs + [r];
    assert forall i :: 0 <= i < |rs| ==> all[i] == rs[i];
    forall i | 0 <= i < |all| && all[i].count > 0 ensures i in at + [|rs|] && (i in at || i == |rs|) {
      if i < |rs| {
        assert i in at;
      } else {
        assert (at + [|rs|])[|at|] == i;
      }
    }
  }

  lemma {:induction false} PositiveArePicked(rs: seq<Reaction>) returns (at: seq<nat>)
    ensures Picks(Positive(rs), rs, at)
    decreases |rs|
  {
    at := [];
    if rs != [] {
      hide Picks;
      var n := |rs| - 1;
      at := PositiveArePicked(rs[..n]);
      PositiveSnoc(rs[..n], rs[n]);
      PicksSnoc(Positive(rs[..n]), rs[..n], at, rs[n]);
      assert rs[..n] + [rs[n]] == rs;
      if rs[n].count > 0 {
        at := at + [n];
      } else {
        assert Positive(rs[..n]) + [] == Positive(rs[..n]);
      }
    }
  }

  lemma ProjectSays(m: EvalMessage)
    ensures Says(Project(m), m)
  {
    var at := PositiveArePicked(m.reactions);
  }

  /** The first member of that name. */
  function Field(ms: seq<(string, Json)>, name: string): Option<Json> {
    if ms == [] then None else if ms[0].0 == name then Some(ms[0].1) else Field(ms[1..], name)
  }

  /** The object has the fields of d, each under its own name. */
  predicate Shows(ms: seq<(string, Json)>, d: Sent) {
    && Field(ms, "i") == Some(Num(d.id))
    && Field(ms, "a") == Some(Str(d.author))
    && Field(ms, "t") == (if d.text.Some? then Some(Str(d.text.value)) else None)
    && Field(ms, "caption") == (if d.caption.Some? then Some(Str(d.caption.value)) else None)
    && Field(ms, "kind") == (if d.kind.Some? then Some(Str(d.kind.value)) else None)
    && Field(ms, "desc") == (if d.desc.Some? then Some(Str(d.desc.value)) else None)
    && Field(ms, "rp") == (if d.replyTo.Some? then Some(Num(d.replyTo.value)) else None)
    && Field(ms, "re") == (if d.reactions != [] then Some(Obj(Counts(d.reactions))) else None)
  }

  lemma {:induction false} FieldJoined(a: seq<(string, Json)>, b: seq<(string, Json)>, name: string)
    ensures Field(a + b, name) == if Field(a, name).Some? then Field(a, name) else Field(b, name)
    decreases |a|
  {
    if a == [] {
      assert a + b == b;
    } else {
      assert (a + b)[1..] == a[1..] + b;
      FieldJoined(a[1..], b, name);
    }
  }

  function Or(a: Option<Json>, b: Option<Json>): Option<Json> {
    if a.Some? then a else b
  }

  lemma FieldOfMembers(m: Sent, name: string)
    ensures Field(Members(m), name) ==
              Or(Field([("i", Num(m.id)), ("a", Str(m.author))], name),
                 Or(Field(OptionalText("t", m.text), name),
                    Or(Field(OptionalText("caption", m.caption), name),
                       Or(Field(OptionalText("kind", m.kind), name),
                          Or(Field(OptionalText("desc", m.desc), name),
                             Or(Field(OptionalNumber("rp", m.replyTo), name),
                                Field(ReactionMember(m.reactions), name)))))))
  {
    hide Field, OptionalText, OptionalNumber, ReactionMember;
    var all := [("i", Num(m.id)), ("a", Str(m.author))];
    FieldJoined(all, OptionalText("t", m.text), name);
    all := all + OptionalText("t", m.text);
    FieldJoined(all, OptionalText("caption", m.caption), name);
    all := all + OptionalText("caption", m.caption);
    FieldJoined(all, OptionalText("kind", m.kind), name);
    all := all + OptionalText("kind", m.kind);
    FieldJoined(all, OptionalText("desc", m.desc), name);
    all := all + OptionalText("desc", m.desc);
    FieldJoined(all, OptionalNumber("rp", m.replyTo), name);
    all := all + OptionalNumber("rp", m.replyTo);
    FieldJoined(all, ReactionMember(m.reactions), name);
  }

  lemma OptionalField(name: string, other: string, s: Option<string>, n: Option<int>)
    ensures Field(OptionalText(name, s), other) ==
              if name == other && s.Some? then Some(Str(s.value)) else None
    ensures Field(OptionalNumber(name, n), other) ==
              if name == other && n.Some? then Some(Num(n.value)) else None
  {
  }

  /** What a name finds among the optional fields, and among the first two. */
  lemma NamedField(m: Sent, name: string)
    ensures Field(Members(m), name) ==
              if name == "i" then Some(Num(m.id))
              else if name == "a" then Some(Str(m.author))
              else if name == "t" && m.text.Some? then Some(Str(m.text.value))
              else if name == "caption" && m.caption.Some? then Some(Str(m.caption.value))
              else if name == "kind" && m.kind.Some? then Some(Str(m.kind.value))
              else if name == "desc" && m.desc.Some? then Some(Str(m.desc.value))
              else if name == "rp" && m.replyTo.Some? then Some(Num(m.replyTo.value))
              else if name == "re" && m.reactions != [] then Some(Obj(Counts(m.reactions)))
              else None
  {
    hide Members, OptionalText, OptionalNumber;
    FieldOfMembers(m, name);
    OptionalField("t", name, m.text, None);
    OptionalField("caption", name, m.caption, None);
    OptionalField("kind", name, m.kind, None);
    OptionalField("desc", name, m.desc, None);
    OptionalField("rp", name, None, m.replyTo);
    FirstFields(m, name);
    ReactionField(m.reactions, name);
  }

  lemma FirstFields(m: Sent, name: string)
    ensures Field([("i", Num(m.id)), ("a", Str(m.author))], name) ==
              if name == "i" then Some(Num(m.id)) else if name == "a" then Some(Str(m.author)) else None
  {
    var ms := [("i", Num(m.id)), ("a", Str(m.author))];
    var second := [("a", Str(m.author))];
    assert ms[1..] == second && second[1..] == [];
    assert Field(second, name) == if name == "a" then Some(Str(m.author)) else None;
  }

  lemma ReactionField(rs: seq<Reaction>, name: string)
    ensures Field(ReactionMember(rs), name) == if name == "re" && rs != [] then Some(Obj(Counts(rs))) else None
  {
  }

  lemma MembersShow(m: Sent)
    ensures Shows(Members(m), m)
  {
    hide Members, Field;
    NamedField(m, "i");
    NamedField(m, "a");
    NamedField(m, "t");
    NamedField(m, "caption");
    NamedField(m, "kind");
    NamedField(m, "desc");
    NamedField(m, "rp");
    NamedField(m, "re");
  }

  /** userPayload: one object after another, between brackets. What the text says, by the
      names of its fields and as the decoder reads it, is said of the messages as given. */
  method UserPayload(ms: seq<EvalMessage>) returns (text: string)
    ensures text == Print(Encode(ProjectAll(ms)))
    ensures Decode(text) == Some(ProjectAll(ms))
    ensures var d := Decode(text).value; |d| == |ms| && forall i :: 0 <= i < |ms| ==> Says(d[i], ms[i])
    ensures Parse(text).Got? && Parse(text).value.Arr?
    ensures var items := Parse(text).value.items;
            && |items| == |ms|
            && forall i :: 0 <= i < |ms| ==> items[i].Obj? && Shows(items[i].members, Decode(text).value[i])
  {
    hide Print, Members, Project, Decode, Parse, Says, Shows;
    text := "[";
    ghost var items := Encode(ProjectAll(ms)).items;
    var i := 0;
    while i < |ms|
      invariant 0 <= i <= |ms|
      invariant text == "[" + PrintItems(items[..i])
    {
      hide PrintItems;
      ItemsSnoc(items[..i], items[i]);
      assert items[..i + 1] == items[..i] + [items[i]];
      if i > 0 {
        text := text + ", ";
      }
      text := AppendMessage(text, ms[i]);
      i := i + 1;
    }
    assert items[..i] == items;
    text := text + "]";
    ArrayPrinted(items);
    PayloadRead(ProjectAll(ms));
    PrintParse(Encode(ProjectAll(ms)));
    forall i | 0 <= i < |ms| ensures Says(ProjectAll(ms)[i], ms[i]) && Shows(Members(Project(ms[i])), Project(ms[i])) {
      ProjectSays(ms[i]);
      MembersShow(Project(ms[i]));
    }
  }

  // ----- The decoder undoes the printer -----

  function Rank(name: string): nat {
    if name == "i" then 0 else if name == "a" then 1 else if name == "t" then 2
    else if name == "caption" then 3 else if name == "kind" then 4 else if name == "desc" then 5
    else if name == "rp" then 6 else 7
  }

  /** No member belongs to a field before field k. */
  predicate From(ms: seq<(string, Json)>, k: nat) {
    forall i :: 0 <= i < |ms| ==> Rank(ms[i].0) >= k
  }

  lemma TextTaken(name: string, s: Option<string>, rest: seq<(string, Json)>)
    requires From(rest, Rank(name) + 1)
    ensures TakeMember(OptionalText(name, s) + rest, name) ==
              (if s.Some? then Some(Str(s.value)) else None, rest)
    ensures From(OptionalText(name, s) + rest, Rank(name))
  {
    hide Rank;
    var all := OptionalText(name, s) + rest;
    if s.Some? {
      assert all[1..] == rest;
    } else {
      assert all == rest;
    }
  }

  lemma NumberTaken(name: string, n: Option<int>, rest: seq<(string, Json)>)
    requires From(rest, Rank(name) + 1)
    ensures TakeMember(OptionalNumber(name, n) + rest, name) ==
              (if n.Some? then Some(Num(n.value)) else None, rest)
    ensures From(OptionalNumber(name, n) + rest, Rank(name))
  {
    hide Rank;
    var all := OptionalNumber(name, n) + rest;
    if n.Some? {
      assert all[1..] == rest;
    } else {
      assert all == rest;
    }
  }

  lemma ReactionsTaken(rs: seq<Reaction>)
    ensures var (re, rest) := TakeMember(ReactionMember(rs), "re");
            AsReactions(re) == rs && rest == []
    ensures From(ReactionMember(rs), 7)
  {
  }

  lemma MembersDecode(m: Sent)
    ensures DecodeMembers(Members(m)) == Some(m)
  {
    hide TakeMember, From, OptionalText, OptionalNumber, ReactionMember, AsReactions;
    var ms7 := ReactionMember(m.reactions);
    ReactionsTaken(m.reactions);
    var ms6 := OptionalNumber("rp", m.replyTo) + ms7;
    NumberTaken("rp", m.replyTo, ms7);
    var ms5 := OptionalText("desc", m.desc) + ms6;
    TextTaken("desc", m.desc, ms6);
    var ms4 := OptionalText("kind", m.kind) + ms5;
    TextTaken("kind", m.kind, ms5);
    var ms3 := OptionalText("caption", m.caption) + ms4;
    TextTaken("caption", m.caption, ms4);
    var ms2 := OptionalText("t", m.text) + ms3;
    TextTaken("t", m.text, ms3);
    var ms1 := OptionalText("a", Some(m.author)) + ms2;
    TextTaken("a", Some(m.author), ms2);
    var ms0 := OptionalNumber("i", Some(m.id)) + ms1;
    NumberTaken("i", Some(m.id), ms1);
    HeadMembers(m, ms2);
    assert Members(m) == ms0;
  }

  lemma HeadMembers(m: Sent, rest: seq<(string, Json)>)
    ensures [("i", Num(m.id)), ("a", Str(m.author))] + rest ==
              OptionalNumber("i", Some(m.id)) + (OptionalText("a", Some(m.author)) + rest)
  {
  }

  lemma {:induction false} ItemsDecode(ms: seq<Sent>)
    ensures DecodeItems(Encode(ms).items) == Some(ms)
    decreases |ms|
  {
    hide DecodeMembers, Members;
    if ms != [] {
      MembersDecode(ms[0]);
      ItemsDecode(ms[1..]);
      assert Encode(ms).items[1..] == Encode(ms[1..]).items;
      assert [ms[0]] + ms[1..] == ms;
    }
  }

  lemma PayloadRead(ms: seq<Sent>)
    ensures Decode(Print(Encode(ms))) == Some(ms)
  {
    hide Print, Parse;
    PrintParse(Encode(ms));
    ItemsDecode(ms);
  }

  /** Two lists of messages give the same text exactly when they agree in what may be sent:
      no text a member of the chat writes can pass for a field or a message. */
  lemma SameTextSameMessages(ms: seq<EvalMessage>, ms': seq<EvalMessage>)
    ensures Print(Encode(ProjectAll(ms))) == Print(Encode(ProjectAll(ms'))) <==> ProjectAll(ms) == ProjectAll(ms')
  {
    PayloadRead(ProjectAll(ms));
    PayloadRead(ProjectAll(ms'));
  }
}
