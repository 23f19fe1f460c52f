/** The cleanup of the audit log (internal/audit/audit.go, prune and readLine). The file is
    its bytes; what the two tests on a line's text answer is given, whatever they look for.
    Reading, writing and renaming do not fail here: any failure leaves the log as it was.
 */
module AuditLog {
  import opened Lines
  import opened Wrappers

  const MAX_LINE := 64 * 1024 * 1024
  const READ_BUFFER := 64 * 1024

  /** blank: nothing but white space. expired: created_at can be read and is too old. */
  datatype Judge = Judge(blank: Bytes -> bool, expired: Bytes -> bool)

  // ----- A file as lines -----

  /** The lines with their terminators; the last may have none. */
  function RawLines(file: Bytes): seq<Bytes>
    decreases |file|
  {
    if file == [] then [] else [file[..LineEnd(file)]] + RawLines(file[LineEnd(file)..])
  }

  /** One past the first line feed, or the length if there is none. */
  function LineEnd(file: Bytes): (n: nat)
    ensures n <= |file| && (file != [] ==> n > 0)
  {
    var n := IndexOf(file, '\n');
    if n == |file| then n else n + 1
  }

  function Concat(raws: seq<Bytes>): Bytes {
    if raws == [] then [] else raws[0] + Concat(raws[1..])
  }

  /** The text of each line, its terminator stripped. */
  function Texts(raws: seq<Bytes>): seq<Bytes> {
    if raws == [] then [] else [TrimRight(raws[0])] + Texts(raws[1..])
  }

  function TextLines(file: Bytes): seq<Bytes> {
    Texts(RawLines(file))
  }

  predicate Dropped(raw: Bytes, judge: Judge) {
    |raw| > MAX_LINE || judge.blank(TrimRight(raw)) || judge.expired(TrimRight(raw))
  }

  /** The texts that stay, in order. */
  function KeptTexts(raws: seq<Bytes>, judge: Judge): seq<Bytes> {
    if raws == [] then []
    else (if Dropped(raws[0], judge) then [] else [TrimRight(raws[0])]) + KeptTexts(raws[1..], judge)
  }

  // ----- What is written -----

  predicate AllKept(raws: seq<Bytes>, judge: Judge) {
    forall i :: 0 <= i < |raws| ==> !Dropped(raws[i], judge)
  }

  function FirstDrop(raws: seq<Bytes>, judge: Judge): (f: nat)
    ensures f <= |raws| && AllKept(raws[..f], judge) && (f < |raws| ==> Dropped(raws[f], judge))
  {
    if raws == [] || Dropped(raws[0], judge) then 0
    else
      var f := FirstDrop(raws[1..], judge) + 1;
      assert raws[..f] == [raws[0]] + raws[1..][..f - 1];
      f
  }

  /** The lines from the first dropped one on: those kept, each ended by a line feed. */
  function Renewed(raws: seq<Bytes>, judge: Judge): seq<Bytes> {
    if raws == [] then []
    else (if Dropped(raws[0], judge) then [] else [TrimRight(raws[0]) + "\n"]) + Renewed(raws[1..], judge)
  }

  /** The lines before the first dropped one as they stand, and the rest renewed. */
  function OutLines(raws: seq<Bytes>, judge: Judge): seq<Bytes> {
    var f := FirstDrop(raws, judge);
    raws[..f] + Renewed(raws[f..], judge)
  }

  /** The new file, or None when the old one is left as it is. */
  function Pruned(raws: seq<Bytes>, judge: Judge): Option<Bytes> {
    if FirstDrop(raws, judge) == |raws| then None else Some(Concat(OutLines(raws, judge)))
  }

  // ----- Adding one line -----

  lemma {:induction false} ConcatSnoc(raws: seq<Bytes>, raw: Bytes)
    ensures Concat(raws + [raw]) == Concat(raws) + raw
    decreases |raws|
  {
    if raws == [] {
      assert raws + [raw] == [raw];
      assert Concat([raw]) == raw + Concat([]);
    } else {
      assert (raws + [raw])[1..] == raws[1..] + [raw];
      ConcatSnoc(raws[1..], raw);
    }
  }

  lemma {:induction false} RenewedSnoc(raws: seq<Bytes>, raw: Bytes, judge: Judge)
    ensures Renewed(raws + [raw], judge) ==
              Renewed(raws, judge) + if Dropped(raw, judge) then [] else [TrimRight(raw) + "\n"]
    decreases |raws|
  {
    hide Dropped;
    if raws == [] {
      assert raws + [raw] == [raw];
      assert [raw][1..] == [];
    } else {
      assert (raws + [raw])[1..] == raws[1..] + [raw];
      RenewedSnoc(raws[1..], raw, judge);
    }
  }

  lemma {:induction false} FirstDropSnoc(raws: seq<Bytes>, raw: Bytes, judge: Judge)
    ensures FirstDrop(raws + [raw], judge) ==
              if FirstDrop(raws, judge) < |raws| then FirstDrop(raws, judge)
              else if Dropped(raw, judge) then |raws| else |raws| + 1
    decreases |raws|
  {
    hide Dropped;
    if raws == [] {
      assert raws + [raw] == [raw];
      assert [raw][1..] == [];
    } else {
      assert (raws + [raw])[1..] == raws[1..] + [raw];
      FirstDropSnoc(raws[1..], raw, judge);
    }
  }

  /** One line more: the file starts to be rewritten, goes on being, or stays as it is. */
  lemma PrunedSnoc(raws: seq<Bytes>, raw: Bytes, judge: Judge)
    ensures var before := Pruned(raws, judge);
            Pruned(raws + [raw], judge) ==
              if Dropped(raw, judge) then (if before.None? then Some(Concat(raws)) else before)
              else if before.None? then None
              else Some(before.value + TrimRight(raw) + "\n")
  {
    hide Dropped, Concat;
    var all := raws + [raw];
    var f := FirstDrop(raws, judge);
    FirstDropSnoc(raws, raw, judge);
    if f == |raws| {
      assert all[..f] == raws && all[f..] == [raw];
      assert [raw][1..] == [];
      if Dropped(raw, judge) {
        assert Renewed([raw], judge) == [];
        assert OutLines(all, judge) == raws;
      }
    } else {
      RenewedSnoc(raws[f..], raw, judge);
      assert all[..f] == raws[..f] && all[f..] == raws[f..] + [raw];
      var line := TrimRight(raw) + "\n";
      if Dropped(raw, judge) {
        assert OutLines(all, judge) == OutLines(raws, judge);
      } else {
        assert OutLines(all, judge) == OutLines(raws, judge) + [line];
        ConcatSnoc(OutLines(raws, judge), line);
        var text := Concat(OutLines(raws, judge));
        assert text + line == text + TrimRight(raw) + "\n";
      }
    }
  }

  lemma NextLine(file: Bytes, pos: nat, n: nat)
    requires 0 < n && pos + n <= |file| && LineEnd(file[pos..]) == n
    ensures RawLines(file[pos..]) == [file[pos..pos + n]] + RawLines(file[pos + n..])
  {
    hide LineEnd;
    assert file[pos..][..n] == file[pos..pos + n];
    assert file[pos..][n..] == file[pos + n..];
  }

  lemma LineFound(file: Bytes, pos: nat, n: nat, eof: bool)
    requires pos + n <= |file|
    requires eof ==> '\n' !in file[pos..pos + n] && pos + n == |file|
    requires !eof ==> 0 < n && '\n' !in file[pos..pos + n - 1] && file[pos + n - 1] == '\n'
    ensures IndexOf(file[pos..], '\n') == if eof then n else n - 1
    ensures eof <==> '\n' !in file[pos..]
  {
    var rest := file[pos..];
    if eof {
      assert rest == file[pos..pos + n];
    } else {
      assert rest[n - 1] == '\n';
      assert forall i :: 0 <= i < n - 1 ==> rest[i] == file[pos..pos + n - 1][i];
    }
  }

  // ----- The cleanup as it runs -----

  /** One line with its terminator and the bytes it takes, read a buffer at a time. A line
      over the limit is read through without being kept. */
  method ReadLine(file: Bytes, pos: nat) returns (line: Bytes, n: nat, tooLong: bool, eof: bool)
    requires pos <= |file|
    ensures pos + n <= |file| && IndexOf(file[pos..], '\n') == if eof then n else n - 1
    ensures eof <==> '\n' !in file[pos..]
    ensures eof ==> pos + n == |file|
    ensures tooLong <==> n > MAX_LINE
    ensures !tooLong ==> line == file[pos..pos + n]
  {
    hide IndexOf;
    line, n, tooLong := [], 0, false;
    while true
      invariant pos + n <= |file|
      invariant '\n' !in file[pos..pos + n]
      invariant tooLong <==> n > MAX_LINE
      invariant !tooLong ==> line == file[pos..pos + n]
      decreases |file| - pos - n
    {
      var rest := file[pos + n..];
      var end := IndexOf(rest, '\n');
      var size := if end < READ_BUFFER then (if end < |rest| then end + 1 else end) else READ_BUFFER;
      var chunk := rest[..size];
      assert file[pos..pos + n + size] == file[pos..pos + n] + chunk;
      n := n + size;
      if !tooLong {
        if |line| + |chunk| > MAX_LINE {
          tooLong, line := true, [];
        } else {
          line := line + chunk;
        }
      }
      if end < READ_BUFFER {
        eof := end == |rest|;
        LineFound(file, pos, n, eof);
        return;
      }
    }
  }

  lemma NothingYet(judge: Judge)
    ensures RawLines([]) == [] && Concat([]) == [] && Pruned([], judge) == None
  {
  }

  lemma Judged(raw: Bytes, line: Bytes, tooLong: bool, judge: Judge)
    requires tooLong <==> |raw| > MAX_LINE
    requires !tooLong ==> line == raw
    ensures Dropped(raw, judge) <==> tooLong || judge.blank(TrimRight(line)) || judge.expired(TrimRight(line))
  {
  }

  method Prune(file: Bytes, judge: Judge) returns (out: Option<Bytes>)
    ensures out == Pruned(RawLines(file), judge)
    ensures out.None? <==> forall raw :: raw in RawLines(file) ==> Good(raw, judge)
    ensures out.Some? ==> TextLines(out.value) == KeptTexts(RawLines(file), judge)
    ensures out.Some? ==> forall text :: text in TextLines(out.value) <==>
              exists raw :: raw in RawLines(file) && Good(raw, judge) && text == TrimRight(raw)
  {
    hide RawLines, Pruned, Concat, Dropped, IndexOf, KeptTexts, TextLines, AllKept, Good, TrimRight;
    NothingYet(judge);
    out := None;
    var consumed, dropped := 0, 0;
    ghost var done: seq<Bytes> := [];
    while true
      invariant consumed <= |file|
      invariant done + RawLines(file[consumed..]) == RawLines(file)
      invariant Concat(done) == file[..consumed]
      invariant out == Pruned(done, judge) && (out.None? <==> dropped == 0)
      decreases |file| - consumed
    {
      var line, n, tooLong, eof := ReadLine(file, consumed);
      if n > 0 {
        ghost var raw := file[consumed..consumed + n];
        NextLine(file, consumed, n);
        PrunedSnoc(done, raw, judge);
        var trimmed := TrimRight(line);
        Judged(raw, line, tooLong, judge);
        if tooLong || judge.blank(trimmed) || judge.expired(trimmed) {
          dropped := dropped + 1;
          if out.None? {
            out := Some(file[..consumed]);
          }
        } else if out.Some? {
          out := Some(out.value + trimmed + "\n");
        }
        ConcatSnoc(done, raw);
        done := done + [raw];
        consumed := consumed + n;
        assert done + RawLines(file[consumed..]) == RawLines(file);
      }
      if eof {
        break;
      }
    }
    assert file[consumed..] == [];
    assert done + [] == done;
    PruneFilters(file, judge);
    GoodStay(RawLines(file), judge);
  }

  /** Not too long, and its text neither blank nor expired. */
  predicate Good(raw: Bytes, judge: Judge) {
    var text := TrimRight(raw);
    |raw| <= MAX_LINE && !judge.blank(text) && !judge.expired(text)
  }

  lemma GoodIsKept(raw: Bytes, judge: Judge)
    ensures Good(raw, judge) <==> !Dropped(raw, judge)
  {
  }

  lemma {:induction false} GoodStay(raws: seq<Bytes>, judge: Judge)
    ensures AllKept(raws, judge) <==> forall raw :: raw in raws ==> Good(raw, judge)
    ensures forall text :: text in KeptTexts(raws, judge) <==>
              exists raw :: raw in raws && Good(raw, judge) && text == TrimRight(raw)
    decreases |raws|
  {
    hide Dropped, Good, TrimRight;
    forall raw ensures Good(raw, judge) <==> !Dropped(raw, judge) { GoodIsKept(raw, judge); }
    if raws != [] {
      GoodStay(raws[1..], judge);
      assert raws == [raws[0]] + raws[1..];
      AllKeptFirst(raws[0], raws[1..], judge);
    }
  }

  // ----- What the new file holds -----

  /** A line of a file: a line feed may only end it. */
  predicate IsRaw(raw: Bytes) {
    raw != [] && '\n' !in raw[..|raw| - 1]
  }

  predicate Ended(raw: Bytes) {
    raw != [] && raw[|raw| - 1] == '\n'
  }

  /** The lines of some file: only the last may lack its terminator. */
  predicate AreLines(raws: seq<Bytes>) {
    forall i :: 0 <= i < |raws| ==> IsRaw(raws[i]) && (i < |raws| - 1 ==> Ended(raws[i]))
  }

  lemma LineEndIs(raw: Bytes, rest: Bytes)
    requires IsRaw(raw) && (Ended(raw) || rest == [])
    ensures LineEnd(raw + rest) == |raw|
  {
    hide IndexOf;
    var file, last := raw + rest, |raw| - 1;
    assert forall i :: 0 <= i < last ==> file[i] == raw[..last][i];
    assert file[last] == raw[last];
  }

  /** The first line of a file, and the rest. */
  lemma FirstSplit(raw: Bytes, rest: Bytes)
    requires IsRaw(raw) && (Ended(raw) || rest == [])
    ensures RawLines(raw + rest) == [raw] + RawLines(rest)
  {
    hide IsRaw, Ended, LineEnd;
    LineEndIs(raw, rest);
    var file := raw + rest;
    assert file[..|raw|] == raw && file[|raw|..] == rest;
    assert file != [] by { assert LineEnd(file) == |raw|; RawIsNotEmpty(raw); }
  }

  lemma RawIsNotEmpty(raw: Bytes)
    requires IsRaw(raw)
    ensures raw != []
  {
  }

  lemma NoLines()
    ensures RawLines([]) == []
  {
  }

  lemma FirstOf(file: Bytes) returns (raw: Bytes, rest: Bytes)
    requires file != []
    ensures IsRaw(raw) && file == raw + rest && (Ended(raw) || rest == [])
    ensures |rest| < |file|
  {
    hide IndexOf;
    var n := LineEnd(file);
    raw, rest := file[..n], file[n..];
    assert raw[..n - 1] == file[..n - 1];
  }

  lemma AreLinesFirst(raw: Bytes, raws: seq<Bytes>)
    requires IsRaw(raw) && (Ended(raw) || raws == []) && AreLines(raws)
    ensures AreLines([raw] + raws)
  {
    hide IsRaw, Ended;
    var all := [raw] + raws;
    assert forall i :: 1 <= i < |all| ==> all[i] == raws[i - 1];
  }

  lemma {:induction false} LinesOfFile(file: Bytes)
    ensures AreLines(RawLines(file)) && Concat(RawLines(file)) == file
    decreases |file|
  {
    hide RawLines, IsRaw, Ended, AreLines;
    NoLines();
    if file == [] {
      NoLinesAreLines();
    } else {
      var raw, rest := FirstOf(file);
      LinesOfFile(rest);
      FirstSplit(raw, rest);
      AreLinesFirst(raw, RawLines(rest));
      assert ([raw] + RawLines(rest))[1..] == RawLines(rest);
    }
  }

  lemma NoLinesAreLines()
    ensures AreLines([])
  {
  }

  lemma {:induction false} FileOfLines(raws: seq<Bytes>)
    requires AreLines(raws)
    ensures RawLines(Concat(raws)) == raws
    decreases |raws|
  {
    hide RawLines, IsRaw, Ended;
    NoLines();
    if raws != [] {
      FileOfLines(raws[1..]);
      assert |raws| == 1 ==> raws[1..] == [];
      FirstSplit(raws[0], Concat(raws[1..]));
      assert [raws[0]] + raws[1..] == raws;
    }
  }

  lemma {:induction false} TrimIsPrefix(line: Bytes)
    ensures TrimRight(line) <= line
    ensures var t := TrimRight(line); t == [] || !IsEol(t[|t| - 1])
    ensures |TrimRight(line)| == |line| || (line != [] && IsEol(line[|line| - 1]))
    ensures forall i :: |TrimRight(line)| <= i < |line| ==> IsEol(line[i])
    decreases |line|
  {
    if line != [] && IsEol(line[|line| - 1]) {
      TrimIsPrefix(line[..|line| - 1]);
    }
  }

  lemma Trimmed(line: Bytes)
    ensures TrimRight(line) <= line
    ensures TrimRight(TrimRight(line) + "\n") == TrimRight(line)
    ensures |TrimRight(line)| == |line| || (line != [] && IsEol(line[|line| - 1]))
  {
    TrimIsPrefix(line);
    var t := TrimRight(line);
    assert (t + "\n")[..|t|] == t;
    assert TrimRight(t + "\n") == TrimRight(t);
    assert TrimRight(t) == t;
  }

  lemma RenewedLine(raw: Bytes)
    requires IsRaw(raw)
    ensures IsRaw(TrimRight(raw) + "\n") && Ended(TrimRight(raw) + "\n")
  {
    TrimIsPrefix(raw);
    var t := TrimRight(raw);
    forall i | 0 <= i < |t| ensures t[i] != '\n' {
      if i < |raw| - 1 {
        assert raw[..|raw| - 1][i] == t[i];
      }
    }
    assert (t + "\n")[..|t|] == t;
  }

  lemma {:induction false} TextsJoined(a: seq<Bytes>, b: seq<Bytes>)
    ensures Texts(a + b) == Texts(a) + Texts(b)
    decreases |a|
  {
    if a == [] {
      assert a + b == b;
    } else {
      assert (a + b)[1..] == a[1..] + b;
      TextsJoined(a[1..], b);
    }
  }

  lemma {:induction false} KeptJoined(a: seq<Bytes>, b: seq<Bytes>, judge: Judge)
    ensures KeptTexts(a + b, judge) == KeptTexts(a, judge) + KeptTexts(b, judge)
    decreases |a|
  {
    hide Dropped;
    if a == [] {
      assert a + b == b;
    } else {
      assert (a + b)[1..] == a[1..] + b;
      KeptJoined(a[1..], b, judge);
    }
  }

  lemma {:induction false} KeptAreTexts(raws: seq<Bytes>, judge: Judge)
    requires AllKept(raws, judge)
    ensures KeptTexts(raws, judge) == Texts(raws)
    decreases |raws|
  {
    hide Dropped;
    if raws != [] {
      KeptAreTexts(raws[1..], judge);
    }
  }

  /** The renewed lines say what the kept ones said, and are lines that end. */
  lemma {:induction false} RenewedTexts(raws: seq<Bytes>, judge: Judge)
    requires forall i :: 0 <= i < |raws| ==> IsRaw(raws[i])
    ensures Texts(Renewed(raws, judge)) == KeptTexts(raws, judge)
    ensures forall i :: 0 <= i < |Renewed(raws, judge)| ==>
              IsRaw(Renewed(raws, judge)[i]) && Ended(Renewed(raws, judge)[i])
    decreases |raws|
  {
    hide Dropped, IsRaw, Ended, TrimRight;
    if raws != [] {
      RenewedTexts(raws[1..], judge);
      if !Dropped(raws[0], judge) {
        RenewedLine(raws[0]);
        Trimmed(raws[0]);
        var line := TrimRight(raws[0]) + "\n";
        assert Renewed(raws, judge) == [line] + Renewed(raws[1..], judge);
        TextsJoined([line], Renewed(raws[1..], judge));
        assert Texts([line]) == [TrimRight(line)];
      } else {
        assert Renewed(raws, judge) == Renewed(raws[1..], judge);
      }
    }
  }

  lemma OutLinesAreLines(raws: seq<Bytes>, judge: Judge)
    requires AreLines(raws) && FirstDrop(raws, judge) < |raws|
    ensures AreLines(OutLines(raws, judge))
    ensures Texts(OutLines(raws, judge)) == KeptTexts(raws, judge)
  {
    hide Dropped, IsRaw, Ended, KeptTexts, Renewed, Texts;
    var f := FirstDrop(raws, judge);
    RenewedTexts(raws[f..], judge);
    TextsJoined(raws[..f], Renewed(raws[f..], judge));
    KeptJoined(raws[..f], raws[f..], judge);
    KeptAreTexts(raws[..f], judge);
    assert raws[..f] + raws[f..] == raws;
    var out, renewed := OutLines(raws, judge), Renewed(raws[f..], judge);
    forall i | 0 <= i < |out| ensures IsRaw(out[i]) && (i < |out| - 1 ==> Ended(out[i])) {
      if i < f {
        assert out[i] == raws[i];
      } else {
        assert out[i] == renewed[i - f];
      }
    }
  }

  /** The cleanup leaves the file alone exactly when no line must go; otherwise the lines of
      the new file are the lines kept, in order. */
  lemma PruneFilters(file: Bytes, judge: Judge)
    ensures var out := Pruned(RawLines(file), judge);
            && (out.None? <==> AllKept(RawLines(file), judge))
            && (out.Some? ==> TextLines(out.value) == KeptTexts(RawLines(file), judge))
  {
    hide RawLines, KeptTexts, Dropped;
    var raws := RawLines(file);
    LinesOfFile(file);
    var f := FirstDrop(raws, judge);
    if f < |raws| {
      OutLinesAreLines(raws, judge);
      FileOfLines(OutLines(raws, judge));
    } else {
      assert raws[..f] == raws;
    }
  }

  /** A line whose text fits the limit and whose text and line feed together do not: only a
      last line without its terminator can be one. */
  predicate Outgrows(raw: Bytes, judge: Judge) {
    !Dropped(raw, judge) && |TrimRight(raw)| == MAX_LINE
  }

  lemma RenewedOutgrows(raw: Bytes, judge: Judge)
    requires IsRaw(raw) && !Dropped(raw, judge)
    ensures Dropped(TrimRight(raw) + "\n", judge) <==> Outgrows(raw, judge)
    ensures Outgrows(raw, judge) ==> !Ended(raw)
  {
    Trimmed(raw);
    if Ended(raw) {
      assert TrimRight(raw) == TrimRight(raw[..|raw| - 1]);
      Trimmed(raw[..|raw| - 1]);
    }
  }

  lemma {:induction false} RenewedKept(raws: seq<Bytes>, judge: Judge)
    requires forall i :: 0 <= i < |raws| ==> IsRaw(raws[i])
    ensures AllKept(Renewed(raws, judge), judge) <==> forall i :: 0 <= i < |raws| ==> !Outgrows(raws[i], judge)
    decreases |raws|
  {
    hide Dropped, IsRaw, TrimRight, Outgrows;
    if raws != [] {
      RenewedKept(raws[1..], judge);
      var rest := Renewed(raws[1..], judge);
      if !Dropped(raws[0], judge) {
        RenewedOutgrows(raws[0], judge);
        var line := TrimRight(raws[0]) + "\n";
        assert Renewed(raws, judge) == [line] + rest;
        AllKeptFirst(line, rest, judge);
      } else {
        assert Renewed(raws, judge) == rest;
        assert !Outgrows(raws[0], judge) by { DroppedStays(raws[0], judge); }
      }
      assert raws == [raws[0]] + raws[1..];
    }
  }

  lemma DroppedStays(raw: Bytes, judge: Judge)
    requires Dropped(raw, judge)
    ensures !Outgrows(raw, judge)
  {
  }

  lemma AllKeptFirst(line: Bytes, rest: seq<Bytes>, judge: Judge)
    ensures AllKept([line] + rest, judge) <==> !Dropped(line, judge) && AllKept(rest, judge)
  {
    hide Dropped;
    var all := [line] + rest;
    assert all[0] == line && all[1..] == rest;
    if AllKept(all, judge) {
      forall i | 0 <= i < |rest| ensures !Dropped(rest[i], judge) {
        assert rest[i] == all[i + 1];
      }
    }
  }

  lemma AllKeptJoined(a: seq<Bytes>, b: seq<Bytes>, judge: Judge)
    requires AllKept(a, judge)
    ensures AllKept(a + b, judge) <==> AllKept(b, judge)
  {
    hide Dropped;
    if AllKept(a + b, judge) {
      forall i | 0 <= i < |b| ensures !Dropped(b[i], judge) {
        assert b[i] == (a + b)[|a| + i];
      }
    }
  }

  /** A second cleanup at the same time finds nothing to drop, unless the last line had no
      terminator and just fitted: the line feed the first cleanup gave it takes it over. */
  lemma SecondPruneDropsNothing(file: Bytes, judge: Judge)
    requires !AllKept(RawLines(file), judge)
    ensures var raws := RawLines(file);
            Pruned(RawLines(Pruned(raws, judge).value), judge) == None <==> !Outgrows(raws[|raws| - 1], judge)
  {
    hide RawLines, Dropped, Renewed, Concat, Outgrows, IsRaw, Ended;
    var raws := RawLines(file);
    LinesOfFile(file);
    var f := FirstDrop(raws, judge);
    assert raws[..|raws|] == raws;
    OutLinesAreLines(raws, judge);
    FileOfLines(OutLines(raws, judge));
    PruneFilters(Concat(OutLines(raws, judge)), judge);
    AllKeptJoined(raws[..f], Renewed(raws[f..], judge), judge);
    RenewedKept(raws[f..], judge);
    forall i | f <= i < |raws| - 1 ensures !Outgrows(raws[i], judge) {
      OnlyLastOutgrows(raws[i], judge);
    }
    assert raws[f..][|raws| - 1 - f] == raws[|raws| - 1];
    forall i | 0 <= i < |raws[f..]| && !Outgrows(raws[|raws| - 1], judge) ensures !Outgrows(raws[f..][i], judge) {
      assert raws[f..][i] == raws[f + i];
    }
  }

  lemma OnlyLastOutgrows(raw: Bytes, judge: Judge)
    requires IsRaw(raw) && Ended(raw)
    ensures !Outgrows(raw, judge)
  {
    if !Dropped(raw, judge) {
      RenewedOutgrows(raw, judge);
    }
  }

  /** So it is when every line is below the limit. */
  lemma ShortLinesPruneOnce(file: Bytes, judge: Judge)
    requires !AllKept(RawLines(file), judge)
    requires forall i :: 0 <= i < |RawLines(file)| ==> |RawLines(file)[i]| < MAX_LINE
    ensures Pruned(RawLines(Pruned(RawLines(file), judge).value), judge) == None
  {
    var raws := RawLines(file);
    SecondPruneDropsNothing(file, judge);
    Trimmed(raws[|raws| - 1]);
  }
}
