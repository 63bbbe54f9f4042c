/** The driver of shorten/shortener.go, `Process`: format the source, then repeat
    annotate / parse / rewrite / print until nothing is left to shorten or the round cap is
    reached, then strip the markers, reflow comments and format once more.  The Go
    formatter, the dst parser and printer and the struct tag detector are foreign code; they
    enter the model as the function values of a `Toolchain`. */
module Shortener {
  import opened Text
  import opened Settings
  import opened Syntax
  import Annotation
  import opened Lines
  import Comments
  import Format
  import Rewriter

  /** A parsed file: its top-level declarations and their decoration table. */
  datatype ParsedTree = ParsedTree(decls: seq<Node>, state: TreeState)

  /** The foreign calls of `Process`; `None` stands for a returned error. */
  datatype Toolchain = Toolchain(
    formatSource: string -> Option<string>,       // go/format.Source
    parse: string -> Option<ParsedTree>,          // decorator.Parse
    fprint: ParsedTree -> Option<string>,         // decorator.Fprint
    hasMultipleTags: seq<string> -> bool          // tags.HasMultipleTags
  )

  /** Which step of `Process` returned an error. */
  datatype Failure = FormatSourceFailed | ParseFailed | PrintFailed

  datatype Outcome = Done(content: string) | Failed(failure: Failure)

  /** An outcome, with the number of parse / rewrite / print rounds that led to it. */
  datatype Run = Run(outcome: Outcome, rounds: nat)

  // ---------------------------------------------------------------------------------------
  // The loop as a function

  /** The stop rule: nothing left to shorten, and on the first round also no struct tags to
      align. */
  predicate StopRule(cfg: Config, round: nat, linesToShorten: nat, multipleTags: bool) {
    linesToShorten == 0 && (round > 0 || !cfg.reformatTags || !multipleTags)
  }

  /** The stop rule applied to the content a round starts from. */
  predicate Stops(cfg: Config, tools: Toolchain, content: string, round: nat) {
    var lines := Split(content, '\n');
    StopRule(cfg, round, Annotate(cfg, lines).count, tools.hasMultipleTags(lines))
  }

  /** The content with its long lines annotated. */
  function Annotated(cfg: Config, content: string): string {
    Join(Annotate(cfg, Split(content, '\n')).out, '\n')
  }

  /** One round after the stop rule let it run: parse the annotated content, rewrite the
      tree, print it. */
  function Rewrite(cfg: Config, tools: Toolchain, annotated: string): (r: Outcome) {
    match tools.parse(annotated)
    case None => Failed(ParseFailed)
    case Some(tree) =>
      match tools.fprint(ParsedTree(tree.decls, Format.FormatFile(cfg, tree.decls, tree.state)))
      case None => Failed(PrintFailed)
      case Some(printed) => Done(printed)
  }

  /** How one pass of the loop body ends: on the stop rule, on an error, or with printed
      content for the next round. */
  datatype Step = Stop | Fail(failure: Failure) | Next(printed: string)

  function RoundStep(cfg: Config, tools: Toolchain, content: string, round: nat): (r: Step) {
    if Stops(cfg, tools, content, round) then Stop
    else
      match Rewrite(cfg, tools, Annotated(cfg, content))
      case Failed(f) => Fail(f)
      case Done(printed) => Next(printed)
  }

  /** The loop of `Process` from round `round` on; it runs at most the rounds the cap leaves. */
  function Rounds(cfg: Config, tools: Toolchain, content: string, round: nat): (r: Run)
    requires round <= MaxRounds
    ensures r.rounds <= MaxRounds + 1 - round
    decreases MaxRounds - round
  {
    match RoundStep(cfg, tools, content, round)
    case Stop => Run(Done(content), 0)
    case Fail(f) => Run(Failed(f), 0)
    case Next(printed) =>
        if round + 1 > MaxRounds then Run(Done(printed), 1)
        else
          var rest := Rounds(cfg, tools, printed, round + 1);
          Run(rest.outcome, rest.rounds + 1)
  }

  /** The text handed to the final formatting: markers removed unless KeepAnnotations is set,
      then long comments reflowed when ShortenComments is set. */
  function Cleaned(cfg: Config, content: string): string {
    var stripped := if cfg.keepAnnotations then content else StripMarkers(content);
    if cfg.shortenComments then Comments.ReflowText(cfg, stripped) else stripped
  }

  /** What follows the loop: strip the markers unless they are kept, reflow comments when
      asked to, and format. */
  function Finish(cfg: Config, tools: Toolchain, content: string): (r: Outcome) {
    match tools.formatSource(Cleaned(cfg, content))
    case None => Failed(FormatSourceFailed)
    case Some(formatted) => Done(formatted)
  }

  /** Process: the whole run.  A run never takes more than MaxRounds + 1 rounds. */
  function Shorten(cfg: Config, tools: Toolchain, content: string): (r: Run)
    ensures r.rounds <= MaxRounds + 1
  {
    match tools.formatSource(content)
    case None => Run(Failed(FormatSourceFailed), 0)
    case Some(formatted) =>
      var loop := Rounds(cfg, tools, formatted, 0);
      match loop.outcome
      case Failed(f) => Run(Failed(f), loop.rounds)
      case Done(last) => Run(Finish(cfg, tools, last), loop.rounds)
  }

  // ---------------------------------------------------------------------------------------
  // Properties of a run

  /** The loop stops at once, unchanged, exactly when the stop rule holds. */
  lemma StopsAtOnce(cfg: Config, tools: Toolchain, content: string, round: nat)
    requires round <= MaxRounds
    ensures Stops(cfg, tools, content, round) <==> Rounds(cfg, tools, content, round) == Run(Done(content), 0)
  {
  }

  /** A loop that ends before the cap ends on content with no line left to shorten. */
  lemma {:induction false} EndsClean(cfg: Config, tools: Toolchain, content: string, round: nat)
    requires round <= MaxRounds
    requires Rounds(cfg, tools, content, round).outcome.Done?
    requires round + Rounds(cfg, tools, content, round).rounds <= MaxRounds
    ensures Annotate(cfg, Split(Rounds(cfg, tools, content, round).outcome.content, '\n')).count == 0
    decreases MaxRounds - round
  {
    if !Stops(cfg, tools, content, round) {
      var printed := RoundStep(cfg, tools, content, round).printed;
      EndsClean(cfg, tools, printed, round + 1);
    }
  }

  /** When markers are not kept, the text handed to the final formatting holds no marker
      line, whether or not comments are reflowed. */
  lemma FinishDropsMarkers(cfg: Config, content: string)
    requires !cfg.keepAnnotations
    ensures forall line | line in Split(Cleaned(cfg, content), '\n') :: !Annotation.Is(line)
  {
    StripMarkersSplit(content);
    forall line | line in Split(StripMarkers(content), '\n') ensures !Annotation.Is(line) {
      if Unmarked(Split(content, '\n')) == [] {
        assert line == "";
      } else {
        UnmarkedFrom(Split(content, '\n'), line);
      }
    }
    if cfg.shortenComments {
      Comments.ReflowTextNoMarker(cfg, StripMarkers(content));
    }
  }

  /** A file with no long line, and with no struct tags to align, is formatted, cleaned and
      formatted again, and never parsed. */
  lemma {:induction false} ShortFileSkipsLoop(cfg: Config, tools: Toolchain, content: string, formatted: string)
    requires tools.formatSource(content) == Some(formatted)
    requires Annotate(cfg, Split(formatted, '\n')).count == 0
    requires !cfg.reformatTags || !tools.hasMultipleTags(Split(formatted, '\n'))
    ensures Shorten(cfg, tools, content) == Run(Finish(cfg, tools, formatted), 0)
  {
    assert Stops(cfg, tools, formatted, 0);
    StopsAtOnce(cfg, tools, formatted, 0);
  }

  /** A file whose only work is tag alignment still runs a first round. */
  lemma TagsForceFirstRound(cfg: Config, tools: Toolchain, formatted: string)
    requires cfg.reformatTags && tools.hasMultipleTags(Split(formatted, '\n'))
    ensures Rounds(cfg, tools, formatted, 0) != Run(Done(formatted), 0)
  {
    StopsAtOnce(cfg, tools, formatted, 0);
  }

  /** A successful run that ends before the cap ends on content with nothing to shorten. */
  lemma {:induction false} EarlyEndIsClean(cfg: Config, tools: Toolchain, content: string)
    requires Shorten(cfg, tools, content).rounds <= MaxRounds
    requires tools.formatSource(content).Some?
    requires Rounds(cfg, tools, tools.formatSource(content).value, 0).outcome.Done?
    ensures Annotate(cfg, Split(Rounds(cfg, tools, tools.formatSource(content).value, 0).outcome.content, '\n')).count == 0
  {
    var loop := Rounds(cfg, tools, tools.formatSource(content).value, 0);
    assert loop.rounds == Shorten(cfg, tools, content).rounds;
    EndsClean(cfg, tools, tools.formatSource(content).value, 0);
  }

  // ---------------------------------------------------------------------------------------
  // The loop as the source runs it

  /** The head of the loop body: annotate the long lines and apply the stop rule. */
  method AnnotateRound(cfg: Config, tools: Toolchain, content: string, round: nat) returns (stop: bool, annotated: string)
    ensures stop == Stops(cfg, tools, content, round)
    ensures annotated == Annotated(cfg, content)
  {
    var lines := Split(content, '\n');
    var annotatedLines, linesToShorten := AnnotateLongLines(cfg, lines);
    stop := false;
    if linesToShorten == 0 {
      if round == 0 {
        if !cfg.reformatTags || !tools.hasMultipleTags(lines) {
          stop := true;
        }
      } else {
        stop := true;
      }
    }
    annotated := Join(annotatedLines, '\n');
  }

  /** One pass of the loop body up to the printed output. */
  method LoopBody(cfg: Config, tools: Toolchain, content: string, round: nat) returns (step: Step)
    ensures step == RoundStep(cfg, tools, content, round)
  {
    var stop, annotated := AnnotateRound(cfg, tools, content, round);
    if stop {
      return Stop;
    }
    var printed := RewriteRound(cfg, tools, annotated);
    step := if printed.Failed? then Fail(printed.failure) else Next(printed.content);
  }

  /** One round of the loop body after the stop rule: parse, rewrite the file in place,
      print. */
  method RewriteRound(cfg: Config, tools: Toolchain, annotated: string) returns (result: Outcome)
    ensures result == Rewrite(cfg, tools, annotated)
  {
    var parsed := tools.parse(annotated);
    if parsed.None? {
      return Failed(ParseFailed);
    }
    var file := new Rewriter.ParsedFile(cfg, parsed.value.decls, parsed.value.state);
    file.FormatFile();
    var printed := tools.fprint(ParsedTree(file.decls, file.State()));
    if printed.None? {
      return Failed(PrintFailed);
    }
    result := Done(printed.value);
  }

  /** The loop of Process: it reassigns the content and the round counter, and breaks on the
      stop rule or after the last allowed round. */
  method ShortenLoop(cfg: Config, tools: Toolchain, formatted: string) returns (result: Outcome, rounds: nat)
    ensures Run(result, rounds) == Rounds(cfg, tools, formatted, 0)
  {
    var content := formatted;
    var round: nat := 0;
    ghost var loop := Rounds(cfg, tools, content, 0);
    while true
      invariant round <= MaxRounds && round <= loop.rounds
      invariant Rounds(cfg, tools, content, round) == Run(loop.outcome, loop.rounds - round)
      decreases MaxRounds - round
    {
      var step := LoopBody(cfg, tools, content, round);
      if step.Stop? {
        break;
      } else if step.Fail? {
        return Failed(step.failure), round;
      }
      content := step.printed;
      round := round + 1;
      if round > MaxRounds {
        break;
      }
    }
    result, rounds := Done(content), round;
  }

  /** Process: format, run the loop, strip the markers unless they are kept, reflow comments
      when asked to, and format again. */
  method Process(cfg: Config, tools: Toolchain, source: string) returns (result: Outcome, rounds: nat)
    ensures Run(result, rounds) == Shorten(cfg, tools, source)
  {
    var formatted := tools.formatSource(source);
    if formatted.None? {
      return Failed(FormatSourceFailed), 0;
    }
    var content;
    content, rounds := ShortenLoop(cfg, tools, formatted.value);
    if content.Failed? {
      return content, rounds;
    }
    var text := content.content;
    if !cfg.keepAnnotations {
      text := RemoveAnnotations(text);
    }
    if cfg.shortenComments {
      text := Comments.ShortenComments(cfg, text);
    }
    var final := tools.formatSource(text);
    if final.None? {
      return Failed(FormatSourceFailed), rounds;
    }
    result := Done(final.value);
  }
}
