/**
  Skipping a second approval prompt for `read_file`: a call is let through without asking when
  an approval of this user turn already covers its scope. The scope comparison is judged
  against what `read_file` shows for any file.
 */
module ReadCoalescing {
  import opened Wrappers

  const DEFAULT_LIMIT := 8000

  /** The arguments that matter; None is an argument left out. */
  datatype ReadArgs = ReadArgs(path: string, offset: Option<int>, limit: Option<int>, lineCap: Option<int>)

  datatype Scope = Scope(path: string, offset: nat, limit: nat, cap: Option<nat>)

  function CapOf(lineCap: Option<int>): Option<nat> {
    if lineCap.Some? && lineCap.value > 0 then Some(lineCap.value) else None
  }

  /** The comparable scope of a call; `canonical` resolves a path and is empty for a blank one. */
  function ParseScope(args: ReadArgs, canonical: string -> string): Option<Scope> {
    var path := canonical(args.path);
    if path == "" then None
    else
      var off := if args.offset.Some? then args.offset.value else 0;
      var lim := if args.limit.Some? then args.limit.value else DEFAULT_LIMIT;
      Some(Scope(path, if off < 0 then 0 else off, if lim < 1 then 1 else lim, CapOf(args.lineCap)))
  }

  predicate IsSubset(new_: Scope, approved: Scope) {
    && new_.path == approved.path && new_.offset == approved.offset
    && new_.limit <= approved.limit
    && !(new_.cap.None? && approved.cap.Some?)
    && (new_.cap.Some? && approved.cap.Some? ==> new_.cap.value <= approved.cap.value)
  }

  /** A partial order, in which dropping the line cap gives the largest scope. */
  lemma ScopeOrder(a: Scope, b: Scope, c: Scope)
    ensures IsSubset(a, a)
    ensures IsSubset(a, b) && IsSubset(b, a) ==> a == b
    ensures IsSubset(a, b) && IsSubset(b, c) ==> IsSubset(a, c)
    ensures IsSubset(a, a.(cap := None)) && (IsSubset(a.(cap := None), a) <==> a.cap == None)
  {
  }

  // ----- lines -----

  /** Position of the first line break, or the length. */
  function Break(s: string): (i: nat)
    ensures i <= |s| && (forall k :: 0 <= k < i ==> s[k] != '\n') && (i < |s| ==> s[i] == '\n')
  {
    if s == "" || s[0] == '\n' then 0 else 1 + Break(s[1..])
  }

  /** The lines of a text; a line break at its end opens no further line. */
  function SplitLines(s: string): seq<string>
    decreases |s|
  {
    if s == "" then [] else [s[..Break(s)]] + AfterBreak(s)
  }

  function AfterBreak(s: string): seq<string>
    requires s != ""
    decreases |s|, 0
  {
    if Break(s) < |s| then SplitLines(s[Break(s) + 1..]) else []
  }

  function Join(lines: seq<string>): string {
    if lines == [] then ""
    else if |lines| == 1 then lines[0]
    else lines[0] + "\n" + Join(lines[1..])
  }

  // ----- what read_file shows -----

  function Min(a: nat, b: nat): nat { if a < b then a else b }

  /** What the line cap leaves of a byte slice. */
  function Capped(s: string, cap: Option<nat>): string {
    if cap.Some? && |SplitLines(s)| > cap.value then Join(SplitLines(s)[..cap.value]) else s
  }

  function ChunkAt(raw: string, offset: nat, limit: nat): string {
    if offset >= |raw| then "" else raw[offset..Min(offset + limit, |raw|)]
  }

  function OffsetOf(args: ReadArgs): nat {
    if args.offset.Some? && args.offset.value > 0 then args.offset.value else 0
  }

  function LimitOf(args: ReadArgs, maxBytes: nat): nat {
    var lim := if args.limit.Some? then args.limit.value else DEFAULT_LIMIT;
    var l := if lim < maxBytes then lim else maxBytes;
    if l < 1 then 1 else l
  }

  function SliceRead(raw: string, args: ReadArgs, maxBytes: nat): string {
    ChunkAt(raw, OffsetOf(args), LimitOf(args, maxBytes))
  }

  /** The text a call reads, before any line numbering. */
  function TextRead(raw: string, args: ReadArgs, maxBytes: nat): string {
    Capped(SliceRead(raw, args, maxBytes), CapOf(args.lineCap))
  }

  /** Lines with their numbers in front; `number` renders a line number and its separator. */
  function Numbered(lines: seq<string>, start: nat, number: nat -> string): (r: seq<string>)
    ensures |r| == |lines| && forall i :: 0 <= i < |r| ==> r[i] == number(start + i) + lines[i]
  {
    seq(|lines|, i requires 0 <= i < |lines| => number(start + i) + lines[i])
  }

  function NumberedText(text: string, start: nat, number: nat -> string): string {
    Join(Numbered(SplitLines(text), start, number))
  }

  function Breaks(s: string): nat {
    if s == "" then 0 else Breaks(s[..|s| - 1]) + if s[|s| - 1] == '\n' then 1 else 0
  }

  /** What comes back: a body, and the offset to go on from when the file has more. */
  datatype Shown = BeyondEnd | Slice(body: string, next: Option<nat>)

  function BodyOf(raw: string, args: ReadArgs, maxBytes: nat, lineNumbers: bool, number: nat -> string): string {
    var text := TextRead(raw, args, maxBytes);
    if lineNumbers then NumberedText(text, Breaks(raw[..Min(OffsetOf(args), |raw|)]) + 1, number) else text
  }

  method CountBreaks(s: string) returns (n: nat)
    ensures n == Breaks(s)
  {
    n := 0;
    for i := 0 to |s|
      invariant n == Breaks(s[..i])
    {
      assert s[..i + 1][..i] == s[..i];
      if s[i] == '\n' {
        n := n + 1;
      }
    }
    assert s[..|s|] == s;
  }

  method NumberLines(lines: seq<string>, start: nat, number: nat -> string) returns (out: seq<string>)
    ensures out == Numbered(lines, start, number)
  {
    out := [];
    for i := 0 to |lines|
      invariant |out| == i && forall k :: 0 <= k < i ==> out[k] == number(start + k) + lines[k]
    {
      out := out + [number(start + i) + lines[i]];
    }
  }

  method ReadFile(raw: string, args: ReadArgs, maxBytes: nat, lineNumbers: bool, number: nat -> string)
    returns (shown: Shown)
    ensures shown.BeyondEnd? <==> OffsetOf(args) >= |raw|
    ensures shown.Slice? ==> shown.body == BodyOf(raw, args, maxBytes, lineNumbers, number)
    ensures shown.Slice? ==>
              (shown.next == None <==> OffsetOf(args) + LimitOf(args, maxBytes) >= |raw|)
    ensures shown.Slice? && shown.next.Some? ==>
              && OffsetOf(args) < shown.next.value < |raw|
              && SliceRead(raw, args, maxBytes) == raw[OffsetOf(args)..shown.next.value]
  {
    var off, lim, cap := OffsetOf(args), LimitOf(args, maxBytes), CapOf(args.lineCap);
    if off >= |raw| {
      return BeyondEnd;
    }
    var chunk := raw[off..Min(off + lim, |raw|)];
    var text := chunk;
    var lines := SplitLines(text);
    if cap.Some? && |lines| > cap.value {
      text := Join(lines[..cap.value]);
    }
    var next: Option<nat> := if off + |chunk| >= |raw| then None else Some(off + |chunk|);
    if !lineNumbers {
      return Slice(text, next);
    }
    var before := CountBreaks(raw[..off]);
    var out := NumberLines(SplitLines(text), before + 1, number);
    shown := Slice(Join(out), next);
  }

  // ----- lines of a prefix -----

  /** a is what cutting the text of lines b short leaves: whole lines, then perhaps a part of one. */
  ghost predicate CutOf(a: seq<string>, b: seq<string>) {
    && |a| <= |b|
    && (forall i :: 0 <= i < |a| - 1 ==> a[i] == b[i])
    && (a != [] ==> a[|a| - 1] <= b[|a| - 1])
  }

  predicate EndsLine(s: string) { s != "" && s[|s| - 1] == '\n' }

  lemma BreakOfPrefix(x: string, y: string)
    requires x <= y
    ensures Break(x) == if Break(y) < |x| then Break(y) else |x|
  {
    if Break(y) < |x| {
      assert x[Break(y)] == y[Break(y)];
    }
    if Break(x) < |x| {
      assert y[Break(x)] == '\n';
    }
  }

  lemma PrependCut(line: string, a: seq<string>, b: seq<string>)
    requires CutOf(a, b)
    ensures CutOf([line] + a, [line] + b)
  {
    var la, lb := [line] + a, [line] + b;
    forall i | 0 <= i < |la| - 1
      ensures la[i] == lb[i]
    {
      if i > 0 {
        assert la[i] == a[i - 1] && lb[i] == b[i - 1];
      }
    }
    if a != [] {
      assert la[|la| - 1] == a[|a| - 1] && lb[|la| - 1] == b[|a| - 1];
    }
  }

  /** Cutting a text inside its first line leaves a part of that line. */
  lemma PartOfFirstLine(x: string, y: string)
    requires x <= y && x != "" && Break(y) >= |x|
    ensures SplitLines(x) == [x] && CutOf(SplitLines(x), SplitLines(y)) && !EndsLine(x)
  {
    BreakOfPrefix(x, y);
    assert x[..|x|] == x;
    var first := y[..Break(y)];
    assert x <= first && SplitLines(y)[0] == first;
  }

  lemma DropBoth(x: string, y: string, i: nat)
    requires x <= y && i < |x| && x[i] == '\n'
    ensures x[..i] == y[..i] && x[i + 1..] <= y[i + 1..]
    ensures EndsLine(x) == (x[i + 1..] == "" || EndsLine(x[i + 1..]))
  {
  }

  /** Cutting a text short cuts its lines short; cutting it after a break leaves whole lines. */
  lemma {:induction false} LinesOfPrefix(x: string, y: string)
    requires x <= y
    ensures CutOf(SplitLines(x), SplitLines(y))
    ensures EndsLine(x) ==> SplitLines(x) <= SplitLines(y)
    decreases |x|
  {
    if x == "" {
    } else if Break(y) >= |x| {
      PartOfFirstLine(x, y);
    } else {
      BreakOfPrefix(x, y);
      DropBoth(x, y, Break(x));
      var restX, restY := x[Break(x) + 1..], y[Break(x) + 1..];
      LinesOfPrefix(restX, restY);
      PrependCut(y[..Break(y)], SplitLines(restX), SplitLines(restY));
    }
  }

  lemma GluePrefix(head: string, x: string, y: string)
    requires x <= y
    ensures head + x <= head + y
  {
  }

  /** Lines cut short join to a prefix. */
  lemma {:induction false} JoinOfCut(a: seq<string>, b: seq<string>)
    requires CutOf(a, b)
    ensures Join(a) <= Join(b)
    ensures a != [] && |a| < |b| ==> |Join(a)| < |Join(b)|
  {
    if |a| > 1 {
      assert forall i :: 0 <= i < |a| - 1 ==> a[1..][i] == a[i + 1] && b[1..][i] == b[i + 1];
      assert a[0] == b[0];
      JoinOfCut(a[1..], b[1..]);
      GluePrefix(a[0] + "\n", Join(a[1..]), Join(b[1..]));
    } else if |a| == 1 {
      assert b[0] <= Join(b);
      assert a[0] <= b[0];
    }
  }

  /** Splitting and joining drops no more than a line break at the end. */
  lemma {:induction false} JoinOfSplit(s: string)
    ensures var j := Join(SplitLines(s)); j <= s && |s| == |j| + if EndsLine(s) then 1 else 0
    decreases |s|
  {
    if s != "" && Break(s) < |s| {
      var i := Break(s);
      var rest := s[i + 1..];
      JoinOfSplit(rest);
      assert s == (s[..i] + "\n") + rest;
      assert SplitLines(s)[1..] == SplitLines(rest);
      if rest != "" {
        GluePrefix(s[..i] + "\n", Join(SplitLines(rest)), rest);
      }
    }
  }

  // ----- capping and prefixes -----

  /** A capped text is a prefix of the text, and holds at least the lines the cap allows. */
  lemma CappedPrefix(s: string, cap: Option<nat>)
    ensures Capped(s, cap) <= s
  {
    var lines := SplitLines(s);
    if cap.Some? && |lines| > cap.value {
      JoinOfCut(lines[..cap.value], lines);
      JoinOfSplit(s);
    }
  }

  /**
    The one case in which the smaller read is not a prefix of the larger: both have the same line
    cap, the smaller slice ends with the break of the last line it allows, and the larger slice
    has further lines, so that its own text is cut just before that break.
   */
  predicate CutBeforeBreak(x: string, y: string, n: Option<nat>, m: Option<nat>) {
    && n.Some? && n == m
    && |SplitLines(x)| == m.value < |SplitLines(y)| && EndsLine(x)
  }

  /** Reading less of the same slice shows nothing new, except for a line break in that case. */
  lemma CappedSubset(x: string, y: string, n: Option<nat>, m: Option<nat>)
    requires x <= y
    requires !(n.None? && m.Some?) && (n.Some? && m.Some? ==> n.value <= m.value)
    ensures Capped(x, n) <= Capped(y, m) + "\n"
    ensures Capped(x, n) <= Capped(y, m) <==> !CutBeforeBreak(x, y, n, m)
  {
    CappedPrefix(x, n);
    CappedPrefix(y, m);
    if m.Some? && |SplitLines(y)| > m.value {
      if |SplitLines(x)| > n.value {
        BothCut(x, y, n.value, m.value);
      } else {
        LargerCut(x, y, n.value, m.value);
      }
    }
    SamePrefix(Capped(x, n), Capped(y, m), y);
  }

  lemma BothCut(x: string, y: string, n: nat, m: nat)
    requires x <= y && n <= m && |SplitLines(x)| > n && |SplitLines(y)| > m
    ensures |Join(SplitLines(x)[..n])| <= |Join(SplitLines(y)[..m])|
  {
    LinesOfPrefix(x, y);
    JoinOfCut(SplitLines(x)[..n], SplitLines(y)[..m]);
  }

  lemma LargerCut(x: string, y: string, n: nat, m: nat)
    requires x <= y && |SplitLines(x)| <= n <= m < |SplitLines(y)|
    ensures var cut := Join(SplitLines(y)[..m]);
            |x| <= |cut| || (|x| == |cut| + 1 && EndsLine(x))
    ensures |x| == |Join(SplitLines(y)[..m])| + 1 <==> CutBeforeBreak(x, y, Some(n), Some(m))
  {
    var lx, ly := SplitLines(x), SplitLines(y);
    LinesOfPrefix(x, y);
    assert CutOf(lx, ly[..m]);
    JoinOfCut(lx, ly[..m]);
    JoinOfSplit(x);
    if EndsLine(x) && |lx| == m {
      assert lx == ly[..m];
    }
  }

  lemma SamePrefix(a: string, b: string, whole: string)
    requires a <= whole && b <= whole && |a| <= |b| + 1
    requires |a| == |b| + 1 ==> a[|b|] == '\n'
    ensures a <= b + "\n"
  {
  }

  /**
    For every file: if the scope of a call is covered by an approved one, the text it reads is a
    prefix of the text the approved call reads, up to one line break at the end of the latter,
    and it is a prefix outright except in that one case.
   */
  lemma SubsetReadsWithin(raw: string, maxBytes: nat, canonical: string -> string, call: ReadArgs, approved: ReadArgs)
    requires ParseScope(call, canonical).Some? && ParseScope(approved, canonical).Some?
    requires IsSubset(ParseScope(call, canonical).value, ParseScope(approved, canonical).value)
    ensures TextRead(raw, call, maxBytes) <= TextRead(raw, approved, maxBytes) + "\n"
    ensures TextRead(raw, call, maxBytes) <= TextRead(raw, approved, maxBytes)
            <==> !CutBeforeBreak(SliceRead(raw, call, maxBytes), SliceRead(raw, approved, maxBytes),
                                 CapOf(call.lineCap), CapOf(approved.lineCap))
  {
    var s, a := ParseScope(call, canonical).value, ParseScope(approved, canonical).value;
    var x, y := SliceRead(raw, call, maxBytes), SliceRead(raw, approved, maxBytes);
    assert OffsetOf(call) == OffsetOf(approved) && LimitOf(call, maxBytes) <= LimitOf(approved, maxBytes);
    assert x <= y;
    CappedSubset(x, y, s.cap, a.cap);
  }

  /** Numbering keeps the order: a shorter text is shown as a prefix of what the longer one shows. */
  lemma NumberedMonotone(x: string, y: string, start: nat, number: nat -> string)
    requires x <= y
    ensures NumberedText(x, start, number) <= NumberedText(y, start, number)
  {
    LinesOfPrefix(x, y);
    var a, b := SplitLines(x), SplitLines(y);
    var na, nb := Numbered(a, start, number), Numbered(b, start, number);
    if a != [] {
      GluePrefix(number(start + |a| - 1), a[|a| - 1], b[|a| - 1]);
    }
    JoinOfCut(na, nb);
  }

  // ----- what numbering makes of that case -----

  lemma {:induction false} LinesUnbroken(s: string)
    ensures forall l :: l in SplitLines(s) ==> '\n' !in l
    decreases |s|
  {
    if s != "" && Break(s) < |s| {
      LinesUnbroken(s[Break(s) + 1..]);
    }
  }

  /** Lines without a blank one at the end, which joining and splitting loses. */
  function Resplit(lines: seq<string>): seq<string> {
    if lines != [] && lines[|lines| - 1] == "" then lines[..|lines| - 1] else lines
  }

  lemma FirstBreak(line: string, rest: string)
    requires '\n' !in line
    ensures Break(line) == |line| && Break(line + "\n" + rest) == |line|
    ensures SplitLines(line + "\n" + rest) == [line] + SplitLines(rest)
  {
    var s := line + "\n" + rest;
    assert s[|line|] == '\n' && forall k :: 0 <= k < |line| ==> s[k] == line[k];
    assert s[..|line|] == line && s[|line| + 1..] == rest;
  }

  lemma {:induction false} SplitOfJoin(lines: seq<string>)
    requires forall l :: l in lines ==> '\n' !in l
    ensures SplitLines(Join(lines)) == Resplit(lines)
  {
    if |lines| == 1 {
      FirstBreak(lines[0], "");
      assert lines[0][..|lines[0]|] == lines[0];
    } else if |lines| > 1 {
      SplitOfJoin(lines[1..]);
      FirstBreak(lines[0], Join(lines[1..]));
      assert lines == [lines[0]] + lines[1..];
    }
  }

  /** A blank line at the end shows as a further numbered line. */
  lemma NumberedResplit(lines: seq<string>, start: nat, number: nat -> string)
    requires number(start) != ""
    ensures Join(Numbered(lines, start, number)) <= Join(Numbered(Resplit(lines), start, number)) <==> Resplit(lines) == lines
  {
    var a, b := Numbered(Resplit(lines), start, number), Numbered(lines, start, number);
    if Resplit(lines) != lines {
      assert CutOf(a, b);
      JoinOfCut(a, b);
    }
  }

  predicate LastLineBlank(s: string) {
    SplitLines(s) != [] && SplitLines(s)[|SplitLines(s)| - 1] == ""
  }

  /** In that case the numbered output is a prefix all the same, unless the last line read is blank. */
  lemma NumberedInCutCase(x: string, y: string, n: Option<nat>, m: Option<nat>, start: nat, number: nat -> string)
    requires x <= y && CutBeforeBreak(x, y, n, m) && number(start) != ""
    ensures NumberedText(Capped(x, n), start, number) <= NumberedText(Capped(y, m), start, number) <==> !LastLineBlank(x)
  {
    LinesOfPrefix(x, y);
    var lines := SplitLines(x);
    assert lines == SplitLines(y)[..m.value] && Capped(x, n) == x && Capped(y, m) == Join(lines);
    LinesUnbroken(x);
    SplitOfJoin(lines);
    NumberedResplit(lines, start, number);
  }

  /**
    For every file and covered call, numbered or not: what the call shows is a prefix of what the
    approved call shows, except in that one case; and with line numbers, as is the default, except
    only when in that case the last line read is blank.
   */
  lemma SubsetShowsPrefix(raw: string, maxBytes: nat, canonical: string -> string, call: ReadArgs, approved: ReadArgs,
                          lineNumbers: bool, number: nat -> string)
    requires ParseScope(call, canonical).Some? && ParseScope(approved, canonical).Some?
    requires IsSubset(ParseScope(call, canonical).value, ParseScope(approved, canonical).value)
    requires forall k :: number(k) != ""
    ensures BodyOf(raw, call, maxBytes, lineNumbers, number) <= BodyOf(raw, approved, maxBytes, lineNumbers, number)
            <==> !(CutBeforeBreak(SliceRead(raw, call, maxBytes), SliceRead(raw, approved, maxBytes),
                                  CapOf(call.lineCap), CapOf(approved.lineCap))
                   && (lineNumbers ==> LastLineBlank(SliceRead(raw, call, maxBytes))))
  {
    SubsetReadsWithin(raw, maxBytes, canonical, call, approved);
    if lineNumbers {
      var start := Breaks(raw[..Min(OffsetOf(call), |raw|)]) + 1;
      var x, y := SliceRead(raw, call, maxBytes), SliceRead(raw, approved, maxBytes);
      var n, m := CapOf(call.lineCap), CapOf(approved.lineCap);
      if CutBeforeBreak(x, y, n, m) {
        SlicesOfCovered(raw, maxBytes, canonical, call, approved);
        NumberedInCutCase(x, y, n, m, start, number);
      } else {
        NumberedMonotone(Capped(x, n), Capped(y, m), start, number);
      }
    }
  }

  lemma SlicesOfCovered(raw: string, maxBytes: nat, canonical: string -> string, call: ReadArgs, approved: ReadArgs)
    requires ParseScope(call, canonical).Some? && ParseScope(approved, canonical).Some?
    requires IsSubset(ParseScope(call, canonical).value, ParseScope(approved, canonical).value)
    ensures OffsetOf(call) == OffsetOf(approved)
    ensures SliceRead(raw, call, maxBytes) <= SliceRead(raw, approved, maxBytes)
  {
    assert LimitOf(call, maxBytes) <= LimitOf(approved, maxBytes);
  }

  /** A covered call of which the numbered output is no prefix: it shows a blank line more. */
  lemma BlankLineExample(canonical: string -> string, number: nat -> string)
    requires canonical("f") != "" && forall k :: number(k) != ""
    ensures var call, approved := ReadArgs("f", None, Some(3), Some(2)), ReadArgs("f", None, Some(4), Some(2));
            && IsSubset(ParseScope(call, canonical).value, ParseScope(approved, canonical).value)
            && !(BodyOf("a\n\nb", call, 8000, true, number) <= BodyOf("a\n\nb", approved, 8000, true, number))
  {
    var call, approved := ReadArgs("f", None, Some(3), Some(2)), ReadArgs("f", None, Some(4), Some(2));
    var raw := "a\n\nb";
    assert SliceRead(raw, approved, 8000) == raw && SliceRead(raw, call, 8000) == "a\n\n";
    BlankLines();
    assert CutBeforeBreak("a\n\n", raw, Some(2), Some(2)) && LastLineBlank("a\n\n");
    SubsetShowsPrefix(raw, 8000, canonical, call, approved, true, number);
  }

  lemma BlankLines()
    ensures SplitLines("a\n\nb") == ["a", "", "b"] && SplitLines("a\n\n") == ["a", ""]
  {
    assert "a\n\nb" == "a" + "\n" + "\nb" && "\nb" == "" + "\n" + "b";
    assert "a\n\n" == "a" + "\n" + "\n" && "\n" == "" + "\n" + "";
    FirstBreak("a", "\nb");
    FirstBreak("", "b");
    FirstBreak("a", "\n");
    FirstBreak("", "");
    SplitOfJoin(["b"]);
  }

  /** The other case does occur: the approved read was cut at its line cap just before that break. */
  lemma ExtraBreakExample(canonical: string -> string)
    requires canonical("f") != ""
    ensures var call, approved := ReadArgs("f", None, Some(2), Some(1)), ReadArgs("f", None, Some(3), Some(1));
            && IsSubset(ParseScope(call, canonical).value, ParseScope(approved, canonical).value)
            && TextRead("a\nb", call, 8000) == "a\n" && TextRead("a\nb", approved, 8000) == "a"
  {
    var y := "a\nb";
    assert ChunkAt(y, 0, 3) == y && ChunkAt(y, 0, 2) == "a\n";
    assert Break(y) == 1 && Break("a\n") == 1;
    assert y[2..] == "b" && "a\n"[2..] == "" && Break("b") == 1;
    assert "b"[..1] == "b" && "a\n"[..1] == "a" && y[..1] == "a";
    assert AfterBreak("a\n") == [] && AfterBreak("b") == [];
    assert SplitLines("b") == ["b"] && SplitLines("a\n") == ["a"];
    assert AfterBreak(y) == ["b"] && SplitLines(y) == ["a"] + ["b"];
    assert SplitLines(y)[..1] == ["a"];
  }

  // ----- the coalescer -----

  datatype Approval = Approval(time: nat, scope: Scope)

  function Pruned(recent: seq<Approval>, now: int, window: nat): (r: seq<Approval>)
    ensures forall a :: a in r <==> a in recent && now - a.time <= window
  {
    if recent == [] then []
    else
      var n := |recent| - 1;
      assert recent == recent[..n] + [recent[n]];
      Pruned(recent[..n], now, window) + if now - recent[n].time <= window then [recent[n]] else []
  }

  ghost predicate Covered(recent: seq<Approval>, scope: Scope, now: int, window: nat) {
    exists a :: a in recent && now - a.time <= window && IsSubset(scope, a.scope)
  }

  const READ_FILE := "read_file"

  datatype Event =
    | Approve(tool: string, args: ReadArgs, time: nat)
    | Ask(tool: string, args: ReadArgs, time: nat)
    | NewTurn

  datatype Setup = Setup(window: nat, canonical: string -> string)

  /** What an event makes of the approvals remembered. */
  function Recalled(recent: seq<Approval>, e: Event, s: Setup): seq<Approval> {
    match e
    case NewTurn => []
    case Ask(tool, args, time) =>
      if tool == READ_FILE && ParseScope(args, s.canonical).Some? then Pruned(recent, time, s.window) else recent
    case Approve(tool, args, time) =>
      if tool == READ_FILE && ParseScope(args, s.canonical).Some?
      then Pruned(recent, time, s.window) + [Approval(time, ParseScope(args, s.canonical).value)] else recent
  }

  ghost function Remembered(events: seq<Event>, s: Setup): seq<Approval> {
    if events == [] then [] else Recalled(Remembered(events[..|events| - 1], s), events[|events| - 1], s)
  }

  lemma RememberedSnoc(events: seq<Event>, e: Event, s: Setup)
    ensures Remembered(events + [e], s) == Recalled(Remembered(events, s), e, s)
  {
    assert (events + [e])[..|events|] == events;
  }

  class ReadFileSubsetCoalescer {
    const setup: Setup
    var recent: seq<Approval>
    ghost var events: seq<Event>  // all calls made so far

    ghost predicate Valid()
      reads this
    {
      recent == Remembered(events, setup)
    }

    constructor (setup: Setup)
      ensures Valid() && events == [] && this.setup == setup
    {
      this.setup := setup;
      recent, events := [], [];
    }

    method Prune(now: nat)
      modifies `recent
      ensures recent == Pruned(old(recent), now, setup.window)
    {
      var kept: seq<Approval> := [];
      for i := 0 to |recent|
        invariant kept == Pruned(recent[..i], now, setup.window)
      {
        assert recent[..i + 1][..i] == recent[..i];
        if now - recent[i].time <= setup.window {
          kept := kept + [recent[i]];
        }
      }
      assert recent[..|recent|] == recent;
      recent := kept;
    }

    method Search(scope: Scope, now: nat) returns (found: bool)
      ensures found <==> Covered(recent, scope, now, setup.window)
    {
      for i := 0 to |recent|
        invariant forall j :: 0 <= j < i ==> !(now - recent[j].time <= setup.window && IsSubset(scope, recent[j].scope))
      {
        if now - recent[i].time > setup.window {
          continue;
        }
        if IsSubset(scope, recent[i].scope) {
          assert recent[i] in recent;
          return true;
        }
      }
      return false;
    }

    method ShouldSkipHitl(tool: string, args: ReadArgs, now: nat) returns (skip: bool)
      requires Valid()
      modifies this
      ensures Valid() && events == old(events) + [Ask(tool, args, now)]
      ensures var scope := ParseScope(args, setup.canonical);
              skip <==> tool == READ_FILE && scope.Some?
                        && Covered(Remembered(old(events), setup), scope.value, now, setup.window)
    {
      RememberedSnoc(events, Ask(tool, args, now), setup);
      events := events + [Ask(tool, args, now)];
      if tool != READ_FILE {
        return false;
      }
      var scope := ParseScope(args, setup.canonical);
      if scope.None? {
        return false;
      }
      Prune(now);
      skip := Search(scope.value, now);
    }

    method RecordApproval(tool: string, args: ReadArgs, now: nat)
      requires Valid()
      modifies this
      ensures Valid() && events == old(events) + [Approve(tool, args, now)]
    {
      RememberedSnoc(events, Approve(tool, args, now), setup);
      events := events + [Approve(tool, args, now)];
      if tool != READ_FILE {
        return;
      }
      var scope := ParseScope(args, setup.canonical);
      if scope.None? {
        return;
      }
      Prune(now);
      recent := recent + [Approval(now, scope.value)];
    }

    /** Called when a user turn begins. */
    method Clear()
      requires Valid()
      modifies this
      ensures Valid() && events == old(events) + [NewTurn]
    {
      RememberedSnoc(events, NewTurn, setup);
      events := events + [NewTurn];
      recent := [];
    }
  }

  // ----- whole turns -----

  ghost predicate ClockRuns(events: seq<Event>, now: nat) {
    && (forall i :: 0 <= i < |events| && !events[i].NewTurn? ==> events[i].time <= now)
    && (forall i, j :: 0 <= i < j < |events| && !events[i].NewTurn? && !events[j].NewTurn? ==> events[i].time <= events[j].time)
  }

  ghost predicate Approves(e: Event, s: Setup, a: Approval) {
    && e.Approve? && e.tool == READ_FILE && e.time == a.time
    && ParseScope(e.args, s.canonical) == Some(a.scope)
  }

  lemma RecalledMembers(recent: seq<Approval>, e: Event, s: Setup, a: Approval)
    requires !e.NewTurn? && e.time - a.time <= s.window
    ensures a in Recalled(recent, e, s) <==> a in recent || Approves(e, s, a)
  {
  }

  /** events[i] approves a, and no user turn has begun since. */
  ghost predicate ApprovedThisTurn(events: seq<Event>, s: Setup, i: nat, a: Approval) {
    && i < |events| && Approves(events[i], s, a)
    && forall j :: i < j < |events| ==> !events[j].NewTurn?
  }

  lemma LastEventRemembered(events: seq<Event>, s: Setup, a: Approval)
    requires events != [] && !events[|events| - 1].NewTurn? && events[|events| - 1].time - a.time <= s.window
    ensures a in Remembered(events, s) <==>
              a in Remembered(events[..|events| - 1], s) || ApprovedThisTurn(events, s, |events| - 1, a)
  {
    RecalledMembers(Remembered(events[..|events| - 1], s), events[|events| - 1], s, a);
  }

  /** Exactly this turn's approvals are remembered, as long as they are within the window. */
  lemma {:induction false} RemembersThisTurn(events: seq<Event>, s: Setup, now: nat, a: Approval)
    requires ClockRuns(events, now) && now - a.time <= s.window
    ensures a in Remembered(events, s) <==> exists i: nat :: ApprovedThisTurn(events, s, i, a)
  {
    if events != [] {
      var n := |events| - 1;
      var front, last := events[..n], events[n];
      assert ClockRuns(front, now) by {
        forall i | 0 <= i < n
          ensures front[i] == events[i]
        {
        }
      }
      RemembersThisTurn(front, s, now, a);
      if last.NewTurn? {
        assert forall i: nat :: !ApprovedThisTurn(events, s, i, a);
      } else {
        assert last.time - a.time <= s.window;
        forall i: nat
          ensures ApprovedThisTurn(front, s, i, a) <==> i < n && ApprovedThisTurn(events, s, i, a)
        {
          if i < n {
            assert front[i] == events[i];
          }
        }
        LastEventRemembered(events, s, a);
      }
    }
  }

  /**
    In every run with a clock that does not go back: a prompt is skipped exactly when some
    approval of the same turn, not older than the window, covers the call.
   */
  lemma SkippedIffCovered(events: seq<Event>, s: Setup, scope: Scope, now: nat)
    requires ClockRuns(events, now)
    ensures Covered(Remembered(events, s), scope, now, s.window)
            <==> exists i: nat, a :: ApprovedThisTurn(events, s, i, a) && now - a.time <= s.window && IsSubset(scope, a.scope)
  {
    if Covered(Remembered(events, s), scope, now, s.window) {
      var a :| a in Remembered(events, s) && now - a.time <= s.window && IsSubset(scope, a.scope);
      RemembersThisTurn(events, s, now, a);
    }
    if i: nat, a :| ApprovedThisTurn(events, s, i, a) && now - a.time <= s.window && IsSubset(scope, a.scope) {
      RemembersThisTurn(events, s, now, a);
    }
  }

  /** So a skipped call reads, of any file, no more than a call approved in the same turn. */
  lemma SkippedReadsApproved(events: seq<Event>, s: Setup, call: ReadArgs, now: nat, raw: string, maxBytes: nat)
    requires ClockRuns(events, now) && ParseScope(call, s.canonical).Some?
    requires Covered(Remembered(events, s), ParseScope(call, s.canonical).value, now, s.window)
    ensures exists i: nat :: i < |events| && events[i].Approve? && events[i].tool == READ_FILE && now - events[i].time <= s.window
              && (forall j :: i < j < |events| ==> !events[j].NewTurn?)
              && TextRead(raw, call, maxBytes) <= TextRead(raw, events[i].args, maxBytes) + "\n"
              && (TextRead(raw, call, maxBytes) <= TextRead(raw, events[i].args, maxBytes)
                  || CutBeforeBreak(SliceRead(raw, call, maxBytes), SliceRead(raw, events[i].args, maxBytes),
                                    CapOf(call.lineCap), CapOf(events[i].args.lineCap)))
  {
    var scope := ParseScope(call, s.canonical).value;
    SkippedIffCovered(events, s, scope, now);
    var i: nat, a :| ApprovedThisTurn(events, s, i, a) && now - a.time <= s.window && IsSubset(scope, a.scope);
    SubsetReadsWithin(raw, maxBytes, s.canonical, call, events[i].args);
  }
}
