/** Comment reflow (shorten/comments.go): runs of over-long `//` comment lines are gathered
    word by word and re-wrapped greedily into comment lines that fit the width budget. */
module Comments {
  import opened Text
  import opened Settings
  import Annotation
  import opened Lines

  // ---------------------------------------------------------------------------------------
  // isDirective: the pattern `\s*//(line |extern |export |[a-z0-9]+:[a-z0-9])`, matched
  // anywhere in the line (the match is not anchored, so the leading `\s*` adds nothing).

  predicate IsLabelChar(c: char) {
    'a' <= c <= 'z' || '0' <= c <= '9'
  }

  /** The end of the run of label characters that starts at `i`. */
  function LabelEnd(t: string, i: nat): (k: nat)
    requires i <= |t|
    ensures i <= k <= |t|
    decreases |t| - i
  {
    if i < |t| && IsLabelChar(t[i]) then LabelEnd(t, i + 1) else i
  }

  /** What may follow `//` in a directive: `line `, `extern `, `export `, or a label of
      lower-case letters and digits, a colon and one more such character. */
  predicate DirectiveBody(t: string) {
    HasPrefix(t, "line ") || HasPrefix(t, "extern ") || HasPrefix(t, "export ") ||
    (var k := LabelEnd(t, 0); 0 < k && k + 1 < |t| && t[k] == ':' && IsLabelChar(t[k + 1]))
  }

  /** A directive starts at position i. */
  predicate DirectiveAt(line: string, i: nat)
    requires i <= |line|
  {
    HasPrefix(line[i..], "//") && DirectiveBody(line[i + 2..])
  }

  /** isDirective: somewhere in the line a directive starts. */
  predicate IsDirective(line: string) {
    exists i :: 0 <= i <= |line| && DirectiveAt(line, i)
  }

  /** The label of a marker, `golines:shorten`, has the directive form, so every marker is a
      directive as well. */
  lemma MarkerIsDirective(line: string)
    requires Annotation.Is(line)
    ensures IsDirective(line)
  {
    var k := Annotation.Indent(line);
    var t := line[k + 2..];
    var m := line[k..k + |Annotation.Prefix|];
    assert m == Annotation.Prefix;
    assert line[k..][..2] == m[..2] == "//";
    assert t[..16] == m[2..];
    MarkerLabel(t);
    assert DirectiveAt(line, k);
  }

  /** `golines:shorten:` is a label, a colon and a label character. */
  lemma MarkerLabel(t: string)
    requires |t| >= 16 && t[..16] == "golines:shorten:"
    ensures DirectiveBody(t)
  {
    assert LabelEnd(t, 7) == 7;
    assert LabelEnd(t, 6) == 7;
    assert LabelEnd(t, 5) == 7;
    assert LabelEnd(t, 4) == 7;
    assert LabelEnd(t, 3) == 7;
    assert LabelEnd(t, 2) == 7;
    assert LabelEnd(t, 1) == 7;
    assert LabelEnd(t, 0) == 7;
  }

  /** Every `//go:generate` line is a directive. */
  lemma GoGenerateIsDirective(rest: string)
    ensures IsDirective("//go:generate" + rest)
  {
    var d := "//go:generate" + rest;
    assert d[2..][..5] == "go:ge";
    assert LabelEnd(d[2..], 2) == 2;
    assert LabelEnd(d[2..], 1) == 2;
    assert LabelEnd(d[2..], 0) == 2;
    assert DirectiveAt(d, 0);
  }

  /** A comment whose `//` is followed by a space, and that holds no other slash, is no
      directive: `// go:generate` does not count. */
  lemma SpacedCommentIsNoDirective(rest: string)
    requires '/' !in rest
    ensures !IsDirective("// " + rest)
  {
    var c := "// " + rest;
    forall i | 0 <= i <= |c|
      ensures !DirectiveAt(c, i)
    {
      if i == 0 {
        assert c[2..][0] == ' ';
        assert LabelEnd(c[2..], 0) == 0;
      } else if i + 1 < |c| {
        assert c[i..][..2] != "//" by {
          if i == 1 {
            assert c[i..][1] == ' ';
          } else if i == 2 {
            assert c[i..][0] == ' ';
          } else {
            assert c[i..][0] == rest[i - 3];
          }
        }
      }
    }
  }

  // ---------------------------------------------------------------------------------------
  // The lines that join a run, and what is taken from them

  /** A comment line holds `//`. */
  lemma CommentHasSlashes(line: string)
    requires IsComment(line)
    ensures 0 <= IndexOf(line, "//")
  {
    var l := TrimLeft(line, Annotation.Blanks);
    var t := Trim(line, Annotation.Blanks);
    TrimLeftTrims(line, Annotation.Blanks);
    TrimRightTrims(l, Annotation.Blanks);
    var a := |line| - |l|;
    assert t[..2] == line[a..a + 2];
    IndexOfFinds(line, "//", a);
  }

  /** Where the comment leader ends: just after the first `//` of the line. */
  function LeaderEnd(line: string): (k: nat)
    requires IsComment(line)
    ensures 2 <= k <= |line| && line[k - 2..k] == "//"
    ensures forall j :: 0 <= j < k - 2 ==> !(line[j] == '/' && line[j + 1] == '/')
  {
    CommentHasSlashes(line);
    IndexOfFirst(line, "//");
    var r := IndexOf(line, "//");
    assert forall j :: 0 <= j < r ==> !(line[j] == '/' && line[j + 1] == '/') by {
      forall j | 0 <= j < r
        ensures !(line[j] == '/' && line[j + 1] == '/')
      {
        assert !OccursAt(line, "//", j);
      }
    }
    r + 2
  }

  /** The text up to and including the first `//`: the prefix of the reflowed lines. */
  function Leader(line: string): string
    requires IsComment(line)
  {
    line[..LeaderEnd(line)]
  }

  /** The words after the leader: the rest of the line, trimmed of spaces at both ends and
      cut at every space (so two spaces in a row give an empty word). */
  function Words(line: string): (words: seq<string>)
    requires IsComment(line)
    ensures SpaceFree(words)
  {
    Split(Trim(line[LeaderEnd(line)..], {' '}), ' ')
  }

  /** No word holds a space. */
  predicate SpaceFree(words: seq<string>) {
    forall i :: 0 <= i < |words| ==> ' ' !in words[i]
  }

  /** A line joins the run when it is a line comment, no marker, no directive, and too wide. */
  predicate JoinsRun(cfg: Config, line: string) {
    IsComment(line) && !Annotation.Is(line) && !IsDirective(line) &&
    Width(cfg.tabLen, line) > cfg.maxLen
  }

  /** Markers never join a run, on two counts: they are markers, and they are directives. */
  lemma MarkerNeverJoins(cfg: Config, line: string)
    requires Annotation.Is(line)
    ensures !JoinsRun(cfg, line) && IsDirective(line)
  {
    MarkerIsDirective(line);
  }

  // ---------------------------------------------------------------------------------------
  // Greedy packing of words into lines

  /** The width a group of words takes after the prefix: one space and the bytes of each word. */
  function Cost(words: seq<string>): (c: nat)
    ensures c >= |words|
  {
    if words == [] then 0 else Cost(words[..|words| - 1]) + 1 + ByteLen(words[|words| - 1])
  }

  /** The words packed so far: the full lines, the line being filled and its cost. */
  datatype Packing = Packing(done: seq<seq<string>>, line: seq<string>, lineLen: int)

  /** One word: it starts a new line when the current one is non-empty and the word does not
      fit within the budget. */
  function PackStep(budget: int, p: Packing, word: string): Packing {
    if p.lineLen > 0 && p.lineLen + 1 + ByteLen(word) > budget then
      Packing(p.done + [p.line], [word], 1 + ByteLen(word))
    else Packing(p.done, p.line + [word], p.lineLen + 1 + ByteLen(word))
  }

  /** The packing as a left fold over the words. */
  function Pack(budget: int, words: seq<string>): Packing {
    if words == [] then Packing([], [], 0)
    else PackStep(budget, Pack(budget, words[..|words| - 1]), words[|words| - 1])
  }

  /** The groups of words that become lines: the full lines, then the last one if non-empty. */
  function Groups(budget: int, words: seq<string>): seq<seq<string>> {
    var p := Pack(budget, words);
    if p.lineLen > 0 then p.done + [p.line] else p.done
  }

  function Flatten(groups: seq<seq<string>>): seq<string> {
    if groups == [] then [] else Flatten(groups[..|groups| - 1]) + groups[|groups| - 1]
  }

  /** No group is empty. */
  predicate NonEmptyGroups(groups: seq<seq<string>>) {
    forall k :: 0 <= k < |groups| ==> groups[k] != []
  }

  /** Every group of two or more words fits the budget. */
  predicate FitGroups(budget: int, groups: seq<seq<string>>) {
    forall k :: 0 <= k < |groups| ==> |groups[k]| > 1 ==> Cost(groups[k]) <= budget
  }

  /** Every line was ended only because the first word of the next one would not fit. */
  predicate GreedyGroups(budget: int, groups: seq<seq<string>>) {
    forall k :: 0 < k < |groups| ==>
      groups[k] != [] && Cost(groups[k - 1]) + 1 + ByteLen(groups[k][0]) > budget
  }

  /** What the packing keeps true after `words`: it holds them in order, tracks the cost of
      the current line, and the current line is empty only before the first word. */
  predicate PackedWords(p: Packing, words: seq<string>) {
    Flatten(p.done) + p.line == words && p.lineLen == Cost(p.line) &&
    (p.line == [] <==> words == []) && (p.line == [] ==> p.done == [])
  }

  /** ... and the lines so far are non-empty, fit unless they hold one word, and were ended
      only when the next word would not fit. */
  predicate PackedShapes(budget: int, p: Packing) {
    NonEmptyGroups(p.done) && FitGroups(budget, p.done + [p.line]) &&
    GreedyGroups(budget, p.done + [p.line])
  }

  /** The step on a word that does not fit closes the current line. */
  lemma CloseWords(p: Packing, words: seq<string>, w: string)
    requires PackedWords(p, words) && p.lineLen > 0
    ensures PackedWords(Packing(p.done + [p.line], [w], 1 + ByteLen(w)), words + [w])
  {
    DropLastConcat(p.done, [p.line]);
    ConcatEmpty(p.done);
    assert Flatten(p.done + [p.line]) == Flatten(p.done) + p.line;
    Singleton(w);
    assert Cost([w]) == 1 + ByteLen(w);
  }

  lemma CloseShapes(budget: int, p: Packing, w: string)
    requires PackedShapes(budget, p) && p.line != [] && Cost(p.line) + 1 + ByteLen(w) > budget
    ensures PackedShapes(budget, Packing(p.done + [p.line], [w], 1 + ByteLen(w)))
  {
    Singleton(w);
    AppendGroup(budget, p.done + [p.line], [w]);
  }

  /** Appending a group keeps the shapes, given that it is non-empty, fits unless it holds
      one word, and that its first word would not have fit on the line before it. */
  lemma AppendGroup(budget: int, groups: seq<seq<string>>, g: seq<string>)
    requires NonEmptyGroups(groups) && FitGroups(budget, groups) && GreedyGroups(budget, groups)
    requires g != [] && (|g| > 1 ==> Cost(g) <= budget)
    requires groups != [] ==> Cost(groups[|groups| - 1]) + 1 + ByteLen(g[0]) > budget
    ensures NonEmptyGroups(groups + [g]) && FitGroups(budget, groups + [g]) &&
            GreedyGroups(budget, groups + [g])
  {
    AppendNonEmpty(groups, g);
    AppendFits(budget, groups, g);
    AppendGreedy(budget, groups, g);
  }

  lemma AppendNonEmpty(groups: seq<seq<string>>, g: seq<string>)
    requires NonEmptyGroups(groups) && g != []
    ensures NonEmptyGroups(groups + [g])
  {
    var next := groups + [g];
    forall k | 0 <= k < |next| ensures next[k] != [] {
      if k < |groups| {
        assert next[k] == groups[k];
      }
    }
  }

  lemma AppendFits(budget: int, groups: seq<seq<string>>, g: seq<string>)
    requires FitGroups(budget, groups) && (|g| > 1 ==> Cost(g) <= budget)
    ensures FitGroups(budget, groups + [g])
  {
    var next := groups + [g];
    forall k | 0 <= k < |next| && |next[k]| > 1 ensures Cost(next[k]) <= budget {
      if k < |groups| {
        assert next[k] == groups[k];
      }
    }
  }

  lemma AppendGreedy(budget: int, groups: seq<seq<string>>, g: seq<string>)
    requires NonEmptyGroups(groups) && GreedyGroups(budget, groups) && g != []
    requires groups != [] ==> Cost(groups[|groups| - 1]) + 1 + ByteLen(g[0]) > budget
    ensures GreedyGroups(budget, groups + [g])
  {
    var next := groups + [g];
    forall k | 0 < k < |next|
      ensures next[k] != [] && Cost(next[k - 1]) + 1 + ByteLen(next[k][0]) > budget
    {
      assert next[k - 1] == groups[k - 1];
      if k < |groups| {
        assert next[k] == groups[k];
      }
    }
  }

  /** The step on a word that fits, or on the first word, extends the current line. */
  lemma ExtendWords(p: Packing, words: seq<string>, w: string)
    requires PackedWords(p, words)
    ensures PackedWords(Packing(p.done, p.line + [w], p.lineLen + 1 + ByteLen(w)), words + [w])
  {
    Assoc(Flatten(p.done), p.line, [w]);
    DropLastConcat(p.line, [w]);
    ConcatEmpty(p.line);
  }

  lemma ExtendShapes(budget: int, p: Packing, w: string)
    requires PackedShapes(budget, p) && (p.line == [] ==> p.done == [])
    requires p.line != [] ==> Cost(p.line) + 1 + ByteLen(w) <= budget
    ensures PackedShapes(budget, Packing(p.done, p.line + [w], p.lineLen + 1 + ByteLen(w)))
  {
    var line := p.line + [w];
    DropLastConcat(p.line, [w]);
    ConcatEmpty(p.line);
    assert Cost(line) == Cost(p.line) + 1 + ByteLen(w);
    if p.line != [] {
      assert line[0] == p.line[0];
    }
    ReplaceLastGroup(budget, p.done, p.line, line);
  }

  /** Replacing the last group by a longer one that starts with the same word, and that fits
      unless it holds one word, keeps the shapes. */
  lemma ReplaceLastGroup(budget: int, groups: seq<seq<string>>, g: seq<string>, g': seq<string>)
    requires FitGroups(budget, groups + [g]) && GreedyGroups(budget, groups + [g])
    requires g' != [] && (g != [] ==> g'[0] == g[0]) && (g == [] ==> groups == [])
    requires |g'| > 1 ==> Cost(g') <= budget
    ensures FitGroups(budget, groups + [g']) && GreedyGroups(budget, groups + [g'])
  {
    ReplaceLastFits(budget, groups, g, g');
    ReplaceLastGreedy(budget, groups, g, g');
  }

  lemma ReplaceLastFits(budget: int, groups: seq<seq<string>>, g: seq<string>, g': seq<string>)
    requires FitGroups(budget, groups + [g]) && (|g'| > 1 ==> Cost(g') <= budget)
    ensures FitGroups(budget, groups + [g'])
  {
    var before, after := groups + [g], groups + [g'];
    forall k | 0 <= k < |after| && |after[k]| > 1 ensures Cost(after[k]) <= budget {
      if k < |groups| {
        assert after[k] == before[k];
      }
    }
  }

  lemma ReplaceLastGreedy(budget: int, groups: seq<seq<string>>, g: seq<string>, g': seq<string>)
    requires GreedyGroups(budget, groups + [g])
    requires g' != [] && (g != [] ==> g'[0] == g[0]) && (g == [] ==> groups == [])
    ensures GreedyGroups(budget, groups + [g'])
  {
    var before, after := groups + [g], groups + [g'];
    forall k | 0 < k < |after|
      ensures after[k] != [] && Cost(after[k - 1]) + 1 + ByteLen(after[k][0]) > budget
    {
      assert after[k - 1] == before[k - 1];
      assert before[k] != [] && Cost(before[k - 1]) + 1 + ByteLen(before[k][0]) > budget;
      if k < |groups| {
        assert after[k] == before[k];
      }
    }
  }

  lemma {:induction false} PackInvariant(budget: int, words: seq<string>)
    ensures PackedWords(Pack(budget, words), words) && PackedShapes(budget, Pack(budget, words))
  {
    if words != [] {
      var ws, w := words[..|words| - 1], words[|words| - 1];
      PackInvariant(budget, ws);
      var p := Pack(budget, ws);
      PrefixStep(words, |words| - 1);
      TakeAll(words);
      if p.lineLen > 0 && p.lineLen + 1 + ByteLen(w) > budget {
        CloseWords(p, ws, w);
        CloseShapes(budget, p, w);
      } else {
        ExtendWords(p, ws, w);
        ExtendShapes(budget, p, w);
      }
    }
  }

  /** The words come out in order, none dropped, duplicated or split. */
  lemma GroupsKeepWords(budget: int, words: seq<string>)
    ensures Flatten(Groups(budget, words)) == words
  {
    PackInvariant(budget, words);
    var p := Pack(budget, words);
    if p.lineLen > 0 {
      DropLastConcat(p.done, [p.line]);
      ConcatEmpty(p.done);
    } else {
      ConcatEmpty(Flatten(p.done));
    }
  }

  /** Every group is non-empty; a group over the budget holds a single word; and a group ends
      only where the next word would not have fit. */
  lemma GroupsShapes(budget: int, words: seq<string>)
    ensures var groups := Groups(budget, words);
            NonEmptyGroups(groups) && FitGroups(budget, groups) && GreedyGroups(budget, groups)
  {
    PackInvariant(budget, words);
    var p := Pack(budget, words);
    if p.lineLen > 0 {
      AppendNonEmpty(p.done, p.line);
    } else {
      assert p.line == [] && p.done == [];
    }
  }

  lemma GroupsNonEmpty(budget: int, words: seq<string>)
    ensures NonEmptyGroups(Groups(budget, words))
  {
    GroupsShapes(budget, words);
  }

  // ---------------------------------------------------------------------------------------
  // Rendering the groups as comment lines

  /** One reflowed line: the prefix, a space, and the words joined by single spaces. */
  function RenderLine(prefix: string, group: seq<string>): string {
    prefix + " " + Join(group, ' ')
  }

  function Render(prefix: string, groups: seq<seq<string>>): (lines: seq<string>)
    ensures |lines| == |groups|
  {
    if groups == [] then []
    else Render(prefix, groups[..|groups| - 1]) + [RenderLine(prefix, groups[|groups| - 1])]
  }

  lemma {:induction false} RenderLines(prefix: string, groups: seq<seq<string>>)
    ensures forall k :: 0 <= k < |groups| ==> Render(prefix, groups)[k] == RenderLine(prefix, groups[k])
  {
    if groups != [] {
      RenderLines(prefix, groups[..|groups| - 1]);
    }
  }

  /** The width left for words after the prefix of a reflowed line. */
  function Budget(cfg: Config, prefix: string): int {
    cfg.maxLen - Width(cfg.tabLen, prefix)
  }

  /** A line reads back as a group: it starts with the prefix and a space, and the rest of it
      splits into the words of the group. */
  predicate ReadsBack(line: string, prefix: string, group: seq<string>) {
    HasPrefix(line, prefix + " ") && Split(line[|prefix| + 1..], ' ') == group
  }

  /** A pending run of words, reflowed under `prefix` within the configured width. */
  function Flush(cfg: Config, prefix: string, words: seq<string>): seq<string> {
    Render(prefix, Groups(Budget(cfg, prefix), words))
  }

  /** A reflowed line starts with the prefix and a space, and the rest of it splits back
      into the words of its group. */
  lemma RenderReadBack(prefix: string, group: seq<string>)
    requires group != [] && SpaceFree(group)
    ensures ReadsBack(RenderLine(prefix, group), prefix, group)
  {
    var line := RenderLine(prefix, group);
    assert line[..|prefix| + 1] == prefix + " ";
    assert line[|prefix| + 1..] == Join(group, ' ');
    SplitJoin(group, ' ');
  }

  /** The words of a run can be read back from the lines it is reflowed into, in order. */
  lemma FlushKeepsWords(cfg: Config, prefix: string, words: seq<string>)
    requires SpaceFree(words)
    ensures |Flush(cfg, prefix, words)| == |Groups(Budget(cfg, prefix), words)|
    ensures Flatten(Groups(Budget(cfg, prefix), words)) == words
    ensures forall k :: 0 <= k < |Groups(Budget(cfg, prefix), words)| ==>
              ReadsBack(Flush(cfg, prefix, words)[k], prefix, Groups(Budget(cfg, prefix), words)[k])
  {
    forall k | 0 <= k < |Groups(Budget(cfg, prefix), words)|
      ensures ReadsBack(Flush(cfg, prefix, words)[k], prefix, Groups(Budget(cfg, prefix), words)[k])
    {
      FlushLine(cfg, prefix, words, k);
    }
    GroupsKeepWords(Budget(cfg, prefix), words);
  }

  /** One reflowed line of a run reads back as its group. */
  lemma FlushLine(cfg: Config, prefix: string, words: seq<string>, k: nat)
    requires SpaceFree(words)
    requires k < |Groups(Budget(cfg, prefix), words)|
    ensures ReadsBack(Flush(cfg, prefix, words)[k], prefix, Groups(Budget(cfg, prefix), words)[k])
  {
    var groups := Groups(Budget(cfg, prefix), words);
    GroupsKeepWords(Budget(cfg, prefix), words);
    GroupsNonEmpty(Budget(cfg, prefix), words);
    RenderLines(prefix, groups);
    FlattenHolds(groups, k, ' ');
    RenderReadBack(prefix, groups[k]);
  }

  /** Each group is a slice of the flattened words, so a character none of those words holds
      is in none of the group's words either. */
  lemma {:induction false} FlattenHolds(groups: seq<seq<string>>, k: nat, c: char)
    requires k < |groups|
    requires forall i :: 0 <= i < |Flatten(groups)| ==> c !in Flatten(groups)[i]
    ensures forall i :: 0 <= i < |groups[k]| ==> c !in groups[k][i]
  {
    var last := |groups| - 1;
    var init := Flatten(groups[..last]);
    assert Flatten(groups) == init + groups[last];
    if k < last {
      assert forall i :: 0 <= i < |init| ==> init[i] == Flatten(groups)[i];
      FlattenHolds(groups[..last], k, c);
    } else {
      assert forall i :: 0 <= i < |groups[k]| ==> groups[k][i] == Flatten(groups)[|init| + i];
    }
  }

  lemma {:induction false} ByteLenConcat(a: string, b: string)
    ensures ByteLen(a + b) == ByteLen(a) + ByteLen(b)
    decreases |b|
  {
    if b == [] {
      assert a + b == a;
    } else {
      var b' := b[..|b| - 1];
      DropLastConcat(a, b);
      ByteLenConcat(a, b');
    }
  }

  lemma {:induction false} JoinAppend(group: seq<string>, word: string, sep: char)
    requires group != []
    ensures Join(group + [word], sep) == Join(group, sep) + [sep] + word
  {
    if |group| > 1 {
      assert (group + [word])[1..] == group[1..] + [word];
      JoinAppend(group[1..], word, sep);
    }
  }

  /** The part of a reflowed line after the prefix is exactly as wide, in bytes, as the cost
      of its group. */
  lemma {:induction false} RenderCost(group: seq<string>)
    requires group != []
    ensures ByteLen(" " + Join(group, ' ')) == Cost(group)
  {
    assert ByteLen(" ") == 1 by {
      assert " "[..0] == "";
    }
    if |group| == 1 {
      ByteLenConcat(" ", group[0]);
      assert group[..0] == [];
    } else {
      var init, w := group[..|group| - 1], group[|group| - 1];
      var joined := Join(init, ' ');
      RenderCost(init);
      assert group == init + [w];
      JoinAppend(init, w, ' ');
      var head := " " + joined + " ";
      assert " " + Join(group, ' ') == head + w;
      ByteLenConcat(head, w);
      ByteLenConcat(" " + joined, " ");
      assert ByteLen(head) == Cost(init) + 1;
      assert ByteLen(head + w) == Cost(init) + 1 + ByteLen(w);
      assert Cost(group) == Cost(init) + 1 + ByteLen(w);
      assert ByteLen(" " + Join(group, ' ')) == ByteLen(head + w);
    }
  }

  /** Without tabs a line is no wider than its byte count. */
  lemma {:induction false} WidthAtMostBytes(tabLen: int, s: string)
    requires '\t' !in s
    ensures Width(tabLen, s) <= ByteLen(s)
  {
    if s != [] {
      WidthAtMostBytes(tabLen, s[..|s| - 1]);
    }
  }

  lemma {:induction false} JoinAvoids(group: seq<string>, sep: char, c: char)
    requires c != sep && forall i :: 0 <= i < |group| ==> c !in group[i]
    ensures c !in Join(group, sep)
  {
    if |group| > 1 {
      JoinAvoids(group[1..], sep, c);
    }
  }

  /** A reflowed line of two or more tab-free words fits within MaxLen. */
  lemma RenderedLineFits(cfg: Config, prefix: string, group: seq<string>)
    requires |group| > 1 && Cost(group) <= Budget(cfg, prefix)
    requires forall i :: 0 <= i < |group| ==> '\t' !in group[i]
    ensures Width(cfg.tabLen, RenderLine(prefix, group)) <= cfg.maxLen
  {
    var tail := " " + Join(group, ' ');
    JoinAvoids(group, ' ', '\t');
    WidthAtMostBytes(cfg.tabLen, tail);
    RenderCost(group);
    assert RenderLine(prefix, group) == prefix + tail;
    WidthConcat(cfg.tabLen, prefix, tail);
  }

  /** The packing of one more word is one more step. */
  lemma PackNext(budget: int, words: seq<string>, j: nat)
    requires j < |words|
    ensures Pack(budget, words[..j + 1]) == PackStep(budget, Pack(budget, words[..j]), words[j])
  {
    PrefixStep(words, j);
  }

  /** Rendering one more group adds its line at the end. */
  lemma RenderNext(prefix: string, groups: seq<seq<string>>, group: seq<string>)
    ensures Render(prefix, groups + [group]) == Render(prefix, groups) + [RenderLine(prefix, group)]
  {
    DropLastConcat(groups, [group]);
    ConcatEmpty(groups);
  }

  /** The inner loop of shortenCommentsFunc: packs the pending words into reflowed lines. */
  method FlushWords(cfg: Config, prefix: string, words: seq<string>) returns (lines: seq<string>)
    ensures lines == Flush(cfg, prefix, words)
  {
    lines := [];
    var currLineLen := 0;
    var currLineWords: seq<string> := [];
    var prefixLen := LineLen(cfg, prefix);
    var maxCommentLen := cfg.maxLen - prefixLen;
    var j := 0;
    ghost var p := Packing([], [], 0);
    TakeAll(words);
    while j < |words|
      invariant 0 <= j <= |words|
      invariant p == Pack(maxCommentLen, words[..j])
      invariant lines == Render(prefix, p.done)
      invariant currLineWords == p.line && currLineLen == p.lineLen
    {
      var word := words[j];
      PackNext(maxCommentLen, words, j);
      if currLineLen > 0 && currLineLen + 1 + ByteLen(word) > maxCommentLen {
        RenderNext(prefix, p.done, p.line);
        lines := lines + [RenderLine(prefix, currLineWords)];
        currLineWords := [];
        currLineLen := 0;
      }
      currLineWords := currLineWords + [word];
      currLineLen := currLineLen + 1 + ByteLen(word);
      p := PackStep(maxCommentLen, p, word);
      j := j + 1;
    }
    TakeAll(words);
    if currLineLen > 0 {
      RenderNext(prefix, p.done, p.line);
      lines := lines + [RenderLine(prefix, currLineWords)];
    }
  }

  // ---------------------------------------------------------------------------------------
  // shortenCommentsFunc

  /** The state after some lines: the lines written, the words of the pending run, and the
      prefix of the last line that joined a run. */
  datatype Reflow = Reflow(out: seq<string>, words: seq<string>, prefix: string)

  /** One line: a line that joins the run adds its words and sets the prefix; any other line
      first flushes the pending run and is then written unchanged. */
  function ReflowStep(cfg: Config, r: Reflow, line: string): Reflow {
    if JoinsRun(cfg, line) then Reflow(r.out, r.words + Words(line), Leader(line))
    else Reflow(r.out + Flush(cfg, r.prefix, r.words) + [line], [], r.prefix)
  }

  function ReflowAll(cfg: Config, lines: seq<string>): Reflow {
    if lines == [] then Reflow([], [], "")
    else ReflowStep(cfg, ReflowAll(cfg, lines[..|lines| - 1]), lines[|lines| - 1])
  }

  /** The text shortenCommentsFunc returns: the lines written, joined again. A run still
      pending after the last line is not flushed. */
  function ReflowText(cfg: Config, content: string): string {
    Join(ReflowAll(cfg, Split(content, '\n')).out, '\n')
  }

  /** One line adds to the pending words only the words of a line that joins the run. */
  lemma StepWords(cfg: Config, r: Reflow, line: string)
    ensures ReflowStep(cfg, r, line).words ==
              (if JoinsRun(cfg, line) then r.words + Words(line) else [])
    ensures JoinsRun(cfg, line) ==> SpaceFree(Words(line))
  {
  }

  lemma SpaceFreeConcat(a: seq<string>, b: seq<string>)
    requires SpaceFree(a)
    requires SpaceFree(b)
    ensures SpaceFree(a + b)
  {
    assert forall i :: 0 <= i < |a + b| ==> (a + b)[i] == (if i < |a| then a[i] else b[i - |a|]);
  }

  /** The pending words never hold a space, so they are read back intact (FlushKeepsWords). */
  lemma {:induction false} PendingWordsSpaceFree(cfg: Config, lines: seq<string>)
    ensures SpaceFree(ReflowAll(cfg, lines).words)
  {
    if lines != [] {
      var init, line := lines[..|lines| - 1], lines[|lines| - 1];
      var r := ReflowAll(cfg, init);
      PendingWordsSpaceFree(cfg, init);
      StepWords(cfg, r, line);
      if JoinsRun(cfg, line) {
        SpaceFreeConcat(r.words, Words(line));
      }
    }
  }

  /** A file with no line that joins a run comes out line for line as it went in. */
  lemma {:induction false} ReflowUnchanged(cfg: Config, lines: seq<string>)
    requires forall i :: 0 <= i < |lines| ==> !JoinsRun(cfg, lines[i])
    ensures ReflowAll(cfg, lines) == Reflow(lines, [], "")
  {
    if lines != [] {
      var init, line := lines[..|lines| - 1], lines[|lines| - 1];
      assert forall i :: 0 <= i < |init| ==> init[i] == lines[i];
      ReflowUnchanged(cfg, init);
      assert ReflowAll(cfg, lines) == ReflowStep(cfg, Reflow(init, [], ""), line);
      PassThrough(cfg, Reflow(init, [], ""), line);
      PrefixStep(lines, |lines| - 1);
      TakeAll(lines);
    }
  }

  /** A line that does not join the run, with no words pending, is written as it is. */
  lemma PassThrough(cfg: Config, r: Reflow, line: string)
    requires !JoinsRun(cfg, line) && r.words == []
    ensures ReflowStep(cfg, r, line) == Reflow(r.out + [line], [], r.prefix)
  {
    assert Flush(cfg, r.prefix, []) == [];
    ConcatEmpty(r.out);
  }

  /** ... and so does its text. */
  lemma ReflowTextUnchanged(cfg: Config, content: string)
    requires forall i :: 0 <= i < |Split(content, '\n')| ==> !JoinsRun(cfg, Split(content, '\n')[i])
    ensures ReflowText(cfg, content) == content
  {
    ReflowUnchanged(cfg, Split(content, '\n'));
    JoinSplit(content, '\n');
  }

  /** A line that joins the run writes nothing: if input ends inside a run, that run is lost. */
  lemma PendingRunDropped(cfg: Config, lines: seq<string>, line: string)
    requires JoinsRun(cfg, line)
    ensures ReflowAll(cfg, lines + [line]).out == ReflowAll(cfg, lines).out
  {
    PrefixStep(lines + [line], |lines|);
    assert (lines + [line])[..|lines|] == lines;
  }

  /** The fold over one more line is one more step. */
  lemma ReflowNext(cfg: Config, lines: seq<string>, i: nat)
    requires i < |lines|
    ensures ReflowAll(cfg, lines[..i + 1]) == ReflowStep(cfg, ReflowAll(cfg, lines[..i]), lines[i])
  {
    PrefixStep(lines, i);
  }

  /** A line that joins the run adds its words and sets the prefix. */
  lemma JoinStep(cfg: Config, r: Reflow, line: string)
    requires JoinsRun(cfg, line)
    ensures ReflowStep(cfg, r, line) == Reflow(r.out, r.words + Words(line), Leader(line))
  {
  }

  /** Any other line flushes the pending run and is written after it. */
  lemma FlushStep(cfg: Config, r: Reflow, line: string)
    requires !JoinsRun(cfg, line)
    ensures ReflowStep(cfg, r, line) == Reflow(r.out + Flush(cfg, r.prefix, r.words) + [line], [], r.prefix)
  {
  }

  // ---------------------------------------------------------------------------------------
  // A reflowed line is never a marker

  /** The shape of a comment leader: blanks, then `//`. */
  predicate LeaderForm(p: string) {
    |p| >= 2 && p[|p| - 2] == '/' && p[|p| - 1] == '/' &&
    forall j :: 0 <= j < |p| - 2 ==> p[j] in Annotation.Blanks
  }

  /** The leader of a comment line is its leading blanks and the `//` after them. */
  lemma LeaderShape(line: string)
    requires IsComment(line)
    ensures LeaderForm(Leader(line))
  {
    var l := TrimLeft(line, Annotation.Blanks);
    var t := Trim(line, Annotation.Blanks);
    TrimLeftTrims(line, Annotation.Blanks);
    TrimRightTrims(l, Annotation.Blanks);
    var a := |line| - |l|;
    assert t[..2] == line[a..a + 2];
    var k := LeaderEnd(line);
    assert line[a..a + 2] == "//";
  }

  /** A line written under a leader starts, once trimmed, with `// ` or is just `//`: it is
      never a marker. */
  lemma RenderedNoMarker(prefix: string, group: seq<string>)
    requires LeaderForm(prefix)
    ensures !Annotation.Is(RenderLine(prefix, group))
  {
    var s := RenderLine(prefix, group);
    var a := |prefix| - 2;
    assert s[a] == '/' && s[a + 1] == '/' && s[a + 2] == ' ';
    var l := TrimLeft(s, Annotation.Blanks);
    TrimLeftTrims(s, Annotation.Blanks);
    var m := |s| - |l|;
    assert l[1] == '/' && l[2] == ' ';
    var t := TrimRight(l, Annotation.Blanks);
    TrimRightTrims(l, Annotation.Blanks);
    if |t| >= 3 {
      assert t[2] == ' ' && Annotation.Prefix[2] == 'g';
    }
  }

  /** What the reflow keeps true over lines that are neither markers nor hold a newline: no
      line written is a marker or holds a newline, no pending word holds a newline, and
      pending words come with the leader of a gathered line. */
  predicate CleanReflow(r: Reflow) {
    (forall i :: 0 <= i < |r.out| ==> !Annotation.Is(r.out[i]) && '\n' !in r.out[i]) &&
    (forall i :: 0 <= i < |r.words| ==> '\n' !in r.words[i]) &&
    (r.words != [] ==> LeaderForm(r.prefix))
  }

  /** Flushing newline-free words under a leader writes no marker and no newline. */
  lemma FlushClean(cfg: Config, prefix: string, words: seq<string>)
    requires forall i :: 0 <= i < |words| ==> '\n' !in words[i]
    requires words != [] ==> LeaderForm(prefix)
    ensures forall k :: 0 <= k < |Flush(cfg, prefix, words)| ==>
              !Annotation.Is(Flush(cfg, prefix, words)[k]) && '\n' !in Flush(cfg, prefix, words)[k]
  {
    var groups := Groups(Budget(cfg, prefix), words);
    if words == [] {
      assert groups == [];
    } else {
      GroupsKeepWords(Budget(cfg, prefix), words);
      RenderLines(prefix, groups);
      assert '\n' !in prefix;
      forall k | 0 <= k < |groups|
        ensures !Annotation.Is(Flush(cfg, prefix, words)[k]) && '\n' !in Flush(cfg, prefix, words)[k]
      {
        RenderedNoMarker(prefix, groups[k]);
        FlattenHolds(groups, k, '\n');
        JoinAvoids(groups[k], ' ', '\n');
      }
    }
  }

  /** The words of a line without a newline hold no newline. */
  lemma WordsNoNewline(line: string)
    requires IsComment(line) && '\n' !in line
    ensures forall i :: 0 <= i < |Words(line)| ==> '\n' !in Words(line)[i]
  {
    var rest := line[LeaderEnd(line)..];
    assert '\n' !in rest;
    var l := TrimLeft(rest, {' '});
    assert '\n' !in l;
    assert '\n' !in TrimRight(l, {' '});
    SplitAvoids(Trim(rest, {' '}), ' ', '\n');
  }

  /** A gathered line keeps the reflow clean: its words hold no newline and its leader has
      the leader's shape. */
  lemma JoinClean(cfg: Config, r: Reflow, line: string)
    requires CleanReflow(r) && JoinsRun(cfg, line) && '\n' !in line
    ensures CleanReflow(ReflowStep(cfg, r, line))
  {
    LeaderShape(line);
    WordsNoNewline(line);
    var w := r.words + Words(line);
    assert forall i :: 0 <= i < |w| ==> '\n' !in w[i] by {
      forall i | 0 <= i < |w| ensures '\n' !in w[i] {
        if i >= |r.words| { assert w[i] == Words(line)[i - |r.words|]; }
      }
    }
  }

  /** A line that ends a run keeps the reflow clean: the flushed lines and the line itself
      are no markers and hold no newline. */
  lemma EndClean(cfg: Config, r: Reflow, line: string)
    requires CleanReflow(r) && !JoinsRun(cfg, line) && !Annotation.Is(line) && '\n' !in line
    ensures CleanReflow(ReflowStep(cfg, r, line))
  {
    FlushClean(cfg, r.prefix, r.words);
    var f := Flush(cfg, r.prefix, r.words);
    var out := r.out + f + [line];
    assert ReflowStep(cfg, r, line).out == out;
    forall i | 0 <= i < |out| ensures !Annotation.Is(out[i]) && '\n' !in out[i] {
      if i < |r.out| { assert out[i] == r.out[i]; }
      else if i < |r.out| + |f| { assert out[i] == f[i - |r.out|]; }
    }
  }

  /** One line keeps the reflow clean. */
  lemma ReflowStepClean(cfg: Config, r: Reflow, line: string)
    requires CleanReflow(r) && !Annotation.Is(line) && '\n' !in line
    ensures CleanReflow(ReflowStep(cfg, r, line))
  {
    if JoinsRun(cfg, line) {
      JoinClean(cfg, r, line);
    } else {
      EndClean(cfg, r, line);
    }
  }

  /** Over lines that are neither markers nor hold a newline, the reflow stays clean. */
  lemma {:induction false} ReflowClean(cfg: Config, lines: seq<string>)
    requires forall i :: 0 <= i < |lines| ==> !Annotation.Is(lines[i]) && '\n' !in lines[i]
    ensures CleanReflow(ReflowAll(cfg, lines))
  {
    if lines != [] {
      var init := lines[..|lines| - 1];
      assert forall i :: 0 <= i < |init| ==> init[i] == lines[i];
      ReflowClean(cfg, init);
      ReflowStepClean(cfg, ReflowAll(cfg, init), lines[|lines| - 1]);
    }
  }

  /** Reflowing text that holds no marker line gives text that holds no marker line: every
      line written is an input line or a line under a comment leader. */
  lemma ReflowTextNoMarker(cfg: Config, content: string)
    requires forall line | line in Split(content, '\n') :: !Annotation.Is(line)
    ensures forall line | line in Split(ReflowText(cfg, content), '\n') :: !Annotation.Is(line)
  {
    var lines := Split(content, '\n');
    assert forall i :: 0 <= i < |lines| ==> lines[i] in lines;
    ReflowClean(cfg, lines);
    var out := ReflowAll(cfg, lines).out;
    if out == [] {
      assert ReflowText(cfg, content) == "";
      assert Split("", '\n') == [""];
      assert TrimLeft("", Annotation.Blanks) == "";
    } else {
      SplitJoin(out, '\n');
    }
  }

  /** shortenCommentsFunc: gathers the words of each run of long comment lines and writes
      them out, reflowed, before the line that ends the run. */
  method ShortenComments(cfg: Config, content: string) returns (result: string)
    ensures result == ReflowText(cfg, content)
  {
    var lines := Split(content, '\n');
    var cleanedLines: seq<string> := [];
    var words: seq<string> := [];
    var prefix := "";
    var i := 0;
    TakeAll(lines);
    while i < |lines|
      invariant 0 <= i <= |lines|
      invariant ReflowAll(cfg, lines[..i]) == Reflow(cleanedLines, words, prefix)
    {
      ReflowNext(cfg, lines, i);
      cleanedLines, words, prefix := ReflowLine(cfg, lines[i], cleanedLines, words, prefix);
      i := i + 1;
    }
    TakeAll(lines);
    result := Join(cleanedLines, '\n');
  }

  /** The body of the loop in shortenCommentsFunc, on one line. */
  method ReflowLine(cfg: Config, line: string, cleanedLines: seq<string>, words: seq<string>, prefix: string)
    returns (cleanedLines': seq<string>, words': seq<string>, prefix': string)
    ensures Reflow(cleanedLines', words', prefix') == ReflowStep(cfg, Reflow(cleanedLines, words, prefix), line)
  {
    ghost var r := Reflow(cleanedLines, words, prefix);
    var length := LineLen(cfg, line);
    if IsComment(line) && !Annotation.Is(line) && !IsDirective(line) && length > cfg.maxLen {
      CommentHasSlashes(line);
      var start := IndexOf(line, "//");
      prefix' := line[..start + 2];
      var trimmedLine := Trim(line[start + 2..], {' '});
      var currLineWords := Split(trimmedLine, ' ');
      cleanedLines', words' := cleanedLines, words + currLineWords;
      assert JoinsRun(cfg, line) && prefix' == Leader(line) && currLineWords == Words(line);
      JoinStep(cfg, r, line);
    } else {
      var reflowed := FlushWords(cfg, prefix, words);
      cleanedLines' := cleanedLines + reflowed;
      words', prefix' := [], prefix;
      cleanedLines' := cleanedLines' + [line];
      FlushStep(cfg, r, line);
    }
  }
}
