/** The line scanner of shorten/shortener.go: tab-expanded width (`lineLen`), the per-round
    marker pass (`annotateLongLines`) and marker stripping (`removeAnnotations`). */
module Lines {
  import opened Text
  import opened Settings
  import Annotation

  /** The width of a line after tab expansion: a tab counts `tabLen`, any other rune 1. */
  function Width(tabLen: int, s: string): int {
    if s == [] then 0
    else Width(tabLen, s[..|s| - 1]) + (if s[|s| - 1] == '\t' then tabLen else 1)
  }

  function Tabs(s: string): nat {
    multiset(s)['\t']
  }

  /** The width is tabLen times the number of tabs plus the number of other runes. */
  lemma {:induction false} WidthCounts(tabLen: int, s: string)
    ensures Width(tabLen, s) == tabLen * Tabs(s) + (|s| - Tabs(s))
  {
    if s != [] {
      var p, c := s[..|s| - 1], s[|s| - 1];
      WidthCounts(tabLen, p);
      assert s == p + [c];
      assert multiset(s) == multiset(p) + multiset{c};
      var t := Tabs(p);
      if c == '\t' {
        assert Tabs(s) == t + 1;
        assert tabLen * (t + 1) == tabLen * t + tabLen;
      } else {
        assert Tabs(s) == t;
      }
    }
  }

  /** Width is additive over concatenation. */
  lemma {:induction false} WidthConcat(tabLen: int, a: string, b: string)
    ensures Width(tabLen, a + b) == Width(tabLen, a) + Width(tabLen, b)
    decreases |b|
  {
    if b != [] {
      var b' := b[..|b| - 1];
      assert (a + b)[..|a + b| - 1] == a + b';
      WidthConcat(tabLen, a, b');
    } else {
      assert a + b == a;
    }
  }

  /** lineLen: counts the width rune by rune. */
  method LineLen(cfg: Config, line: string) returns (length: int)
    ensures length == Width(cfg.tabLen, line)
  {
    length := 0;
    var i := 0;
    while i < |line|
      invariant 0 <= i <= |line|
      invariant length == Width(cfg.tabLen, line[..i])
    {
      assert line[..i + 1][..i] == line[..i];
      if line[i] == '\t' {
        length := length + cfg.tabLen;
      } else {
        length := length + 1;
      }
      i := i + 1;
    }
    assert line[..i] == line;
  }

  /** isComment: trimmed of spaces and tabs at both ends, the line starts with `//`. */
  predicate IsComment(line: string) {
    HasPrefix(Trim(line, Annotation.Blanks), "//")
  }

  /** Every marker is a line comment. */
  lemma MarkerIsComment(line: string)
    requires Annotation.Is(line)
    ensures IsComment(line)
  {
    var t := Trim(line, Annotation.Blanks);
    assert t[..2] == t[..|Annotation.Prefix|][..2];
  }

  // ---------------------------------------------------------------------------------------
  // annotateLongLines

  /** The state of the pass after some lines: the lines emitted so far, the number of lines
      still to shorten, and the width recorded by the previous line when it is a marker. */
  datatype Scan = Scan(out: seq<string>, count: nat, prevLen: int)

  /** One step of the pass, on one line. */
  function Step(cfg: Config, prev: Scan, line: string): (s: Scan)
    requires prev.prevLen > -1 ==> prev.out != []
    ensures s.out != [] && s.out[|s.out| - 1] == line && s.prevLen == Annotation.Parse(line)
  {
    var length := Width(cfg.tabLen, line);
    var parsed := Annotation.Parse(line);
    if prev.prevLen > -1 then
      if length <= cfg.maxLen then Scan(prev.out[..|prev.out| - 1] + [line], prev.count, parsed)
      else if length < prev.prevLen then
        Scan(prev.out[..|prev.out| - 1] + [Annotation.Create(length)] + [line], prev.count + 1, parsed)
      else Scan(prev.out + [line], prev.count, parsed)
    else if !IsComment(line) && length > cfg.maxLen then
      Scan(prev.out + [Annotation.Create(length)] + [line], prev.count + 1, parsed)
    else Scan(prev.out + [line], prev.count, parsed)
  }

  /** The pass as a left fold of Step over the lines. */
  function Annotate(cfg: Config, lines: seq<string>): (s: Scan)
    ensures lines == [] ==> s == Scan([], 0, -1)
    ensures lines != [] ==> s.out != [] && s.out[|s.out| - 1] == lines[|lines| - 1]
  {
    if lines == [] then Scan([], 0, -1)
    else Step(cfg, Annotate(cfg, lines[..|lines| - 1]), lines[|lines| - 1])
  }

  /** annotateLongLines: the imperative pass, appending to, truncating and overwriting the
      output as it goes. */
  method AnnotateLongLines(cfg: Config, lines: seq<string>) returns (annotatedLines: seq<string>, linesToShorten: nat)
    ensures annotatedLines == Annotate(cfg, lines).out
    ensures linesToShorten == Annotate(cfg, lines).count
  {
    annotatedLines := [];
    linesToShorten := 0;
    var prevLen := -1;
    var i := 0;
    ghost var scan := Scan([], 0, -1);
    TakeAll(lines);
    assert scan == Annotate(cfg, lines[..0]);
    while i < |lines|
      invariant 0 <= i <= |lines|
      invariant scan == Annotate(cfg, lines[..i])
      invariant annotatedLines == scan.out && linesToShorten == scan.count && prevLen == scan.prevLen
    {
      var line := lines[i];
      ghost var next := Step(cfg, scan, line);
      PrefixStep(lines, i);
      assert Annotate(cfg, lines[..i + 1]) == next;
      var length := LineLen(cfg, line);
      if prevLen > -1 {
        if length <= cfg.maxLen {
          annotatedLines := annotatedLines[..|annotatedLines| - 1];
        } else if length < prevLen {
          UpdateLast(annotatedLines, Annotation.Create(length));
          annotatedLines := annotatedLines[|annotatedLines| - 1 := Annotation.Create(length)];
          linesToShorten := linesToShorten + 1;
        }
      } else if !IsComment(line) && length > cfg.maxLen {
        annotatedLines := annotatedLines + [Annotation.Create(length)];
        linesToShorten := linesToShorten + 1;
      }
      annotatedLines := annotatedLines + [line];
      prevLen := Annotation.Parse(line);
      assert annotatedLines == next.out && linesToShorten == next.count;
      scan := next;
      i := i + 1;
      assert scan == Annotate(cfg, lines[..i]);
    }
    TakeAll(lines);
  }

  // A reference for the pass, position by position: what line i of the input turns into.

  /** Line i is a marker that records a width (Parse gives more than -1). */
  predicate MarkerAt(lines: seq<string>, i: int)
    requires 0 <= i < |lines|
  {
    Annotation.Parse(lines[i]) > -1
  }

  /** Line i gets a new marker: the line before it is no marker, and it is a long code line. */
  predicate Fresh(cfg: Config, lines: seq<string>, i: int)
    requires 0 <= i < |lines|
  {
    !(i > 0 && MarkerAt(lines, i - 1)) && !IsComment(lines[i]) &&
    Width(cfg.tabLen, lines[i]) > cfg.maxLen
  }

  /** Line i is a marker whose line now fits: it is dropped. */
  predicate Dropped(cfg: Config, lines: seq<string>, i: int)
    requires 0 <= i < |lines|
  {
    MarkerAt(lines, i) && i + 1 < |lines| && Width(cfg.tabLen, lines[i + 1]) <= cfg.maxLen
  }

  /** Line i is a marker whose line got shorter but is still too long: it is rewritten. */
  predicate Renewed(cfg: Config, lines: seq<string>, i: int)
    requires 0 <= i < |lines|
  {
    MarkerAt(lines, i) && i + 1 < |lines| &&
    cfg.maxLen < Width(cfg.tabLen, lines[i + 1]) < Annotation.Parse(lines[i])
  }

  /** What becomes of line i itself: nothing for a dropped marker, the renewed marker, or the
      line unchanged. */
  function Settled(cfg: Config, lines: seq<string>, i: int): (r: seq<string>)
    requires 0 <= i < |lines|
    ensures |r| == (if Dropped(cfg, lines, i) then 0 else 1)
  {
    if Dropped(cfg, lines, i) then []
    else if Renewed(cfg, lines, i) then [Annotation.Create(Width(cfg.tabLen, lines[i + 1]))]
    else [lines[i]]
  }

  /** What line i contributes to the output: a new marker if it earns one, then what becomes
      of the line itself. */
  function Emit(cfg: Config, lines: seq<string>, i: int): (r: seq<string>)
    requires 0 <= i < |lines|
    ensures |r| == |Added(cfg, lines, i)| + |Settled(cfg, lines, i)|
  {
    Added(cfg, lines, i) + Settled(cfg, lines, i)
  }

  /** The contributions of the first k lines, in order. */
  function EmitAll(cfg: Config, lines: seq<string>, k: nat): seq<string>
    requires k <= |lines|
  {
    if k == 0 then [] else EmitAll(cfg, lines, k - 1) + Emit(cfg, lines, k - 1)
  }

  /** The lines among the first k that count as work: each new and each renewed marker. */
  function WorkAll(cfg: Config, lines: seq<string>, k: nat): nat
    requires k <= |lines|
  {
    if k == 0 then 0
    else WorkAll(cfg, lines, k - 1) + |Added(cfg, lines, k - 1)| +
         (if Renewed(cfg, lines, k - 1) then 1 else 0)
  }

  /** After k >= 1 lines the fold has emitted the settled contributions of lines 0..k-2, then
      the new marker of line k-1 if any, then line k-1 itself (whose fate as a marker depends
      on the line after it). */
  predicate PrefixDone(cfg: Config, lines: seq<string>, k: nat)
    requires 1 <= k <= |lines|
  {
    Annotate(cfg, lines[..k]).out == EmitAll(cfg, lines, k - 1) + Added(cfg, lines, k - 1) + [lines[k - 1]] &&
    Annotate(cfg, lines[..k]).count == WorkAll(cfg, lines, k - 1) + |Added(cfg, lines, k - 1)|
  }

  lemma {:induction false} AnnotatePrefix(cfg: Config, lines: seq<string>, k: nat)
    requires 1 <= k <= |lines|
    ensures PrefixDone(cfg, lines, k)
  {
    PrefixStep(lines, k - 1);
    if k == 1 {
      TakeAll(lines);
      ConcatEmpty(Added(cfg, lines, 0));
    } else {
      AnnotatePrefix(cfg, lines, k - 1);
      if MarkerAt(lines, k - 2) {
        StepAfterMarker(cfg, lines, k);
      } else {
        StepAfterCode(cfg, lines, k);
      }
    }
  }

  /** The step after a marker line: the marker is dropped, renewed or kept. */
  lemma StepAfterMarker(cfg: Config, lines: seq<string>, k: nat)
    requires 2 <= k <= |lines| && MarkerAt(lines, k - 2) && PrefixDone(cfg, lines, k - 1)
    ensures PrefixDone(cfg, lines, k)
  {
    var i, line := k - 2, lines[k - 1];
    var prev := Annotate(cfg, lines[..k - 1]);
    AnnotateLast(cfg, lines, k);
    var before := EmitAll(cfg, lines, i) + Added(cfg, lines, i);
    var settled := Settled(cfg, lines, i);
    assert prev.out == before + [lines[i]];
    DropLastConcat(before, [lines[i]]);
    ConcatEmpty(before);
    Assoc(EmitAll(cfg, lines, i), Added(cfg, lines, i), settled);
    SettledAfterMarker(cfg, lines, i);
    MarkerStep(cfg, prev, line);
    ConcatEmpty(before + settled);
  }

  /** What the step after a marker line does, in closed form: the marker (the last line out)
      is dropped, replaced by a marker for the new width, or kept. */
  lemma MarkerStep(cfg: Config, prev: Scan, line: string)
    requires prev.prevLen > -1 && prev.out != []
    ensures var length := Width(cfg.tabLen, line);
            var kept := if length <= cfg.maxLen then []
                        else if length < prev.prevLen then [Annotation.Create(length)]
                        else [prev.out[|prev.out| - 1]];
            Step(cfg, prev, line) ==
              Scan(prev.out[..|prev.out| - 1] + kept + [line],
                   prev.count + (if cfg.maxLen < length < prev.prevLen then 1 else 0),
                   Annotation.Parse(line))
  {
    var n := |prev.out|;
    Split3(prev.out, n - 1);
    ConcatEmpty(prev.out[..n - 1]);
    ConcatEmpty(prev.out[..n - 1] + [prev.out[n - 1]]);
  }

  /** What becomes of a marker line, in terms of the width of the line after it. */
  lemma SettledAfterMarker(cfg: Config, lines: seq<string>, i: nat)
    requires i + 1 < |lines| && MarkerAt(lines, i)
    ensures var length := Width(cfg.tabLen, lines[i + 1]);
            Settled(cfg, lines, i) ==
              (if length <= cfg.maxLen then []
               else if length < Annotation.Parse(lines[i]) then [Annotation.Create(length)]
               else [lines[i]]) &&
            (Renewed(cfg, lines, i) <==> cfg.maxLen < length < Annotation.Parse(lines[i])) &&
            Added(cfg, lines, i + 1) == []
  {
  }

  /** The fold after k lines is one step on the fold after k - 1, whose last line out and
      recorded width come from line k - 2. */
  lemma AnnotateLast(cfg: Config, lines: seq<string>, k: nat)
    requires 2 <= k <= |lines|
    ensures var prev := Annotate(cfg, lines[..k - 1]);
            prev.out != [] && prev.out[|prev.out| - 1] == lines[k - 2] &&
            prev.prevLen == Annotation.Parse(lines[k - 2]) &&
            Annotate(cfg, lines[..k]) == Step(cfg, prev, lines[k - 1])
  {
    var init := lines[..k - 1];
    PrefixStep(lines, k - 1);
    assert Annotate(cfg, lines[..k]) == Step(cfg, Annotate(cfg, init), lines[k - 1]);
    PrefixStep(lines, k - 2);
    assert Annotate(cfg, init) == Step(cfg, Annotate(cfg, lines[..k - 2]), lines[k - 2]);
  }

  /** The step after a line that is no marker: the line is kept, and the next one may earn a
      new marker. */
  lemma StepAfterCode(cfg: Config, lines: seq<string>, k: nat)
    requires 2 <= k <= |lines| && !MarkerAt(lines, k - 2) && PrefixDone(cfg, lines, k - 1)
    ensures PrefixDone(cfg, lines, k)
  {
    var i, line := k - 2, lines[k - 1];
    var prev := Annotate(cfg, lines[..k - 1]);
    AnnotateLast(cfg, lines, k);
    SettledAfterCode(cfg, lines, i);
    Assoc(EmitAll(cfg, lines, i), Added(cfg, lines, i), [lines[i]]);
    StepAfterNoMarker(cfg, prev, line);
  }

  /** A line that is no marker is kept as it is, and the line after it earns a new marker
      exactly when it is a long code line. */
  lemma SettledAfterCode(cfg: Config, lines: seq<string>, i: nat)
    requires i + 1 < |lines| && !MarkerAt(lines, i)
    ensures Settled(cfg, lines, i) == [lines[i]] && !Renewed(cfg, lines, i)
    ensures Added(cfg, lines, i + 1) ==
              (if !IsComment(lines[i + 1]) && Width(cfg.tabLen, lines[i + 1]) > cfg.maxLen
               then [Annotation.Create(Width(cfg.tabLen, lines[i + 1]))] else [])
  {
  }

  lemma StepAfterNoMarker(cfg: Config, prev: Scan, line: string)
    requires prev.prevLen <= -1
    ensures var added := if !IsComment(line) && Width(cfg.tabLen, line) > cfg.maxLen
                         then [Annotation.Create(Width(cfg.tabLen, line))] else [];
            Step(cfg, prev, line) == Scan(prev.out + added + [line], prev.count + |added|, Annotation.Parse(line))
  {
    ConcatEmpty(prev.out);
  }

  /** The new marker line i earns, if any. */
  function Added(cfg: Config, lines: seq<string>, i: int): (r: seq<string>)
    requires 0 <= i < |lines|
    ensures |r| <= 1
  {
    if Fresh(cfg, lines, i) then [Annotation.Create(Width(cfg.tabLen, lines[i]))] else []
  }

  /** The pass emits exactly the position-by-position contributions, and counts exactly the
      new and renewed markers. */
  lemma AnnotateReference(cfg: Config, lines: seq<string>)
    ensures Annotate(cfg, lines).out == EmitAll(cfg, lines, |lines|)
    ensures Annotate(cfg, lines).count == WorkAll(cfg, lines, |lines|)
  {
    if lines != [] {
      AnnotatePrefix(cfg, lines, |lines|);
      TakeAll(lines);
      ConcatEmpty(Added(cfg, lines, |lines| - 1));
      assert Settled(cfg, lines, |lines| - 1) == [lines[|lines| - 1]];
    }
  }

  /** The lines that are no markers, in order. */
  function Unmarked(lines: seq<string>): (r: seq<string>)
    ensures |r| <= |lines|
  {
    if lines == [] then [] else Unmarked(lines[..|lines| - 1]) + CodeLine(lines[|lines| - 1])
  }

  /** A line on its own, or nothing for a marker. */
  function CodeLine(line: string): (r: seq<string>)
    ensures |r| <= 1
  {
    if Annotation.Is(line) then [] else [line]
  }

  lemma UnmarkedSingle(line: string)
    ensures Unmarked([line]) == CodeLine(line)
  {
    Singleton(line);
    ConcatEmpty(CodeLine(line));
  }

  lemma {:induction false} UnmarkedConcat(a: seq<string>, b: seq<string>)
    ensures Unmarked(a + b) == Unmarked(a) + Unmarked(b)
    decreases |b|
  {
    if b == [] {
      ConcatEmpty(a);
      ConcatEmpty(Unmarked(a));
    } else {
      DropLastConcat(a, b);
      UnmarkedConcat(a, b[..|b| - 1]);
    }
  }

  /** Every line kept is no marker, so filtering twice is filtering once. */
  lemma {:induction false} UnmarkedIdempotent(lines: seq<string>)
    ensures Unmarked(Unmarked(lines)) == Unmarked(lines)
  {
    if lines != [] {
      var p, last := lines[..|lines| - 1], lines[|lines| - 1];
      UnmarkedIdempotent(p);
      UnmarkedConcat(Unmarked(p), CodeLine(last));
      if !Annotation.Is(last) {
        UnmarkedSingle(last);
      } else {
        assert CodeLine(last) == [];
      }
    }
  }

  /** Filtering keeps every line that is no marker, with what comes before it and after it. */
  lemma UnmarkedKeeps(lines: seq<string>, i: nat)
    requires i < |lines| && !Annotation.Is(lines[i])
    ensures Unmarked(lines) == Unmarked(lines[..i]) + [lines[i]] + Unmarked(lines[i + 1..])
  {
    Split3(lines, i);
    UnmarkedConcat(lines[..i] + [lines[i]], lines[i + 1..]);
    UnmarkedConcat(lines[..i], [lines[i]]);
    UnmarkedSingle(lines[i]);
  }

  /** Filtering drops every marker. */
  lemma UnmarkedDrops(lines: seq<string>, i: nat)
    requires i < |lines| && Annotation.Is(lines[i])
    ensures Unmarked(lines) == Unmarked(lines[..i]) + Unmarked(lines[i + 1..])
  {
    Split3(lines, i);
    UnmarkedConcat(lines[..i] + [lines[i]], lines[i + 1..]);
    UnmarkedConcat(lines[..i], [lines[i]]);
    UnmarkedSingle(lines[i]);
    ConcatEmpty(Unmarked(lines[..i]));
  }

  /** Each contribution holds the same code line as the input line it stands for. */
  lemma EmitKeepsCode(cfg: Config, lines: seq<string>, i: nat)
    requires i < |lines|
    ensures Unmarked(Emit(cfg, lines, i)) == CodeLine(lines[i])
  {
    UnmarkedConcat(Added(cfg, lines, i), Settled(cfg, lines, i));
    AddedUnmarked(cfg, lines, i);
    SettledKeepsCode(cfg, lines, i);
    ConcatEmpty(CodeLine(lines[i]));
  }

  /** A new marker holds no code line. */
  lemma AddedUnmarked(cfg: Config, lines: seq<string>, i: nat)
    requires i < |lines|
    ensures Unmarked(Added(cfg, lines, i)) == []
  {
    var added := Added(cfg, lines, i);
    if added != [] {
      UnmarkedSingle(added[0]);
    }
  }

  /** What becomes of a line holds its code line: a marker stays a marker or goes. */
  lemma SettledKeepsCode(cfg: Config, lines: seq<string>, i: nat)
    requires i < |lines|
    ensures Unmarked(Settled(cfg, lines, i)) == CodeLine(lines[i])
  {
    var settled := Settled(cfg, lines, i);
    if settled != [] {
      UnmarkedSingle(settled[0]);
    }
  }

  lemma {:induction false} EmitAllKeepsCode(cfg: Config, lines: seq<string>, k: nat)
    requires k <= |lines|
    ensures Unmarked(EmitAll(cfg, lines, k)) == Unmarked(lines[..k])
  {
    if k == 0 {
      TakeAll(lines);
    } else {
      EmitAllKeepsCode(cfg, lines, k - 1);
      UnmarkedConcat(EmitAll(cfg, lines, k - 1), Emit(cfg, lines, k - 1));
      EmitKeepsCode(cfg, lines, k - 1);
      UnmarkedStep(lines, k - 1);
    }
  }

  /** The pass adds and removes markers only: its output holds exactly the input's code lines
      (everything but markers), in the same order. */
  lemma AnnotateKeepsCode(cfg: Config, lines: seq<string>)
    ensures Unmarked(Annotate(cfg, lines).out) == Unmarked(lines)
  {
    AnnotateReference(cfg, lines);
    EmitAllKeepsCode(cfg, lines, |lines|);
    TakeAll(lines);
  }

  function FreshCount(cfg: Config, lines: seq<string>, k: nat): nat
    requires k <= |lines|
  {
    if k == 0 then 0 else FreshCount(cfg, lines, k - 1) + |Added(cfg, lines, k - 1)|
  }

  function DroppedCount(cfg: Config, lines: seq<string>, k: nat): nat
    requires k <= |lines|
  {
    if k == 0 then 0 else DroppedCount(cfg, lines, k - 1) + (if Dropped(cfg, lines, k - 1) then 1 else 0)
  }

  /** Output length = input length + markers created - markers dropped. */
  lemma AnnotateLength(cfg: Config, lines: seq<string>)
    ensures |Annotate(cfg, lines).out| ==
            |lines| + FreshCount(cfg, lines, |lines|) - DroppedCount(cfg, lines, |lines|)
  {
    AnnotateReference(cfg, lines);
    EmitAllLength(cfg, lines, |lines|);
  }

  lemma {:induction false} EmitAllLength(cfg: Config, lines: seq<string>, k: nat)
    requires k <= |lines|
    ensures |EmitAll(cfg, lines, k)| == k + FreshCount(cfg, lines, k) - DroppedCount(cfg, lines, k)
    ensures DroppedCount(cfg, lines, k) <= k
  {
    if k > 0 {
      var i := k - 1;
      EmitAllLength(cfg, lines, i);
      EmitLength(cfg, lines, i);
    }
  }

  /** Line i contributes its new marker, if any, and itself unless it is a dropped marker. */
  lemma EmitLength(cfg: Config, lines: seq<string>, i: nat)
    requires i < |lines|
    ensures |EmitAll(cfg, lines, i + 1)| ==
            |EmitAll(cfg, lines, i)| + |Added(cfg, lines, i)| + (if Dropped(cfg, lines, i) then 0 else 1)
  {
  }

  /** A file whose lines all fit and which holds no marker passes through unchanged, with no
      work counted. */
  lemma AnnotateCompliant(cfg: Config, lines: seq<string>)
    requires forall i :: 0 <= i < |lines| ==>
               Width(cfg.tabLen, lines[i]) <= cfg.maxLen && Annotation.Parse(lines[i]) == -1
    ensures Annotate(cfg, lines).out == lines && Annotate(cfg, lines).count == 0
  {
    AnnotateReference(cfg, lines);
    CompliantPrefix(cfg, lines, |lines|);
    TakeAll(lines);
  }

  lemma {:induction false} CompliantPrefix(cfg: Config, lines: seq<string>, k: nat)
    requires k <= |lines|
    requires forall i :: 0 <= i < |lines| ==>
               Width(cfg.tabLen, lines[i]) <= cfg.maxLen && Annotation.Parse(lines[i]) == -1
    ensures EmitAll(cfg, lines, k) == lines[..k] && WorkAll(cfg, lines, k) == 0
  {
    if k == 0 {
      TakeAll(lines);
    } else {
      CompliantPrefix(cfg, lines, k - 1);
      var i := k - 1;
      assert Width(cfg.tabLen, lines[i]) <= cfg.maxLen && !MarkerAt(lines, i);
      assert Added(cfg, lines, i) == [];
      assert Settled(cfg, lines, i) == [lines[i]];
      ConcatEmpty([lines[i]]);
      assert Emit(cfg, lines, i) == [lines[i]];
      PrefixStep(lines, i);
    }
  }

  // ---------------------------------------------------------------------------------------
  // removeAnnotations

  /** The content with every marker line removed. */
  function StripMarkers(content: string): string {
    Join(Unmarked(Split(content, '\n')), '\n')
  }

  /** The filter over one more line. */
  lemma UnmarkedStep(lines: seq<string>, i: nat)
    requires i < |lines|
    ensures Unmarked(lines[..i + 1]) == Unmarked(lines[..i]) + CodeLine(lines[i])
  {
    PrefixStep(lines, i);
  }

  /** removeAnnotations: a filter loop over the lines of the content. */
  method RemoveAnnotations(content: string) returns (cleaned: string)
    ensures cleaned == StripMarkers(content)
  {
    var lines := Split(content, '\n');
    var cleanedLines: seq<string> := [];
    var i := 0;
    while i < |lines|
      invariant 0 <= i <= |lines|
      invariant cleanedLines == Unmarked(lines[..i])
    {
      UnmarkedStep(lines, i);
      if !Annotation.Is(lines[i]) {
        cleanedLines := cleanedLines + [lines[i]];
      } else {
        ConcatEmpty(cleanedLines);
      }
      i := i + 1;
    }
    TakeAll(lines);
    cleaned := Join(cleanedLines, '\n');
  }

  /** Every line the filter keeps is a line of the input and no marker. */
  lemma {:induction false} UnmarkedFrom(lines: seq<string>, line: string)
    requires line in Unmarked(lines)
    ensures line in lines && !Annotation.Is(line)
  {
    var p, last := lines[..|lines| - 1], lines[|lines| - 1];
    PrefixStep(lines, |lines| - 1);
    TakeAll(lines);
    if line in Unmarked(p) {
      UnmarkedFrom(p, line);
    }
  }

  /** Splitting the stripped content gives back the kept lines (a single empty line when none
      is kept). */
  lemma StripMarkersSplit(content: string)
    ensures Split(StripMarkers(content), '\n') == (if Unmarked(Split(content, '\n')) == [] then [""]
                                                  else Unmarked(Split(content, '\n')))
  {
    var kept := Unmarked(Split(content, '\n'));
    if kept != [] {
      forall i | 0 <= i < |kept| ensures '\n' !in kept[i] {
        UnmarkedFrom(Split(content, '\n'), kept[i]);
      }
      SplitJoin(kept, '\n');
    }
  }

  /** removeAnnotations is idempotent. */
  lemma StripMarkersIdempotent(content: string)
    ensures StripMarkers(StripMarkers(content)) == StripMarkers(content)
  {
    StripMarkersSplit(content);
    var kept := Unmarked(Split(content, '\n'));
    if kept == [] {
      assert !Annotation.Is("");
      UnmarkedSingle("");
    } else {
      UnmarkedIdempotent(Split(content, '\n'));
    }
  }
}
