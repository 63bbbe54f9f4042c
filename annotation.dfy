/** The marker comments (shortener/internal/annotation/annotation.go): a marker is the line
    comment `//golines:shorten:<width>` placed just before a line that is too long, recording
    the width that line had when it was last measured. */
module Annotation {
  import opened Text
  import opened Syntax

  const Prefix := "//golines:shorten:"

  /** The cutset that Is trims from both ends of a line. */
  const Blanks: set<char> := {' ', '\t'}

  /** The marker text for a line of the given width. */
  function Create(length: int): (line: string)
    ensures Is(line)
  {
    TrimKeepsPrefix(Prefix, IntToDecimal(length), Blanks);
    Prefix + IntToDecimal(length)
  }

  /** A line is a marker when, trimmed of blanks at both ends, it starts with the prefix. */
  predicate Is(line: string) {
    HasPrefix(Trim(line, Blanks), Prefix)
  }

  /** The number of blanks before a marker's prefix. */
  function Indent(line: string): (k: nat)
    requires Is(line)
    ensures k + |Prefix| <= |line| && line[k..k + |Prefix|] == Prefix
    ensures forall i :: 0 <= i < k ==> line[i] in Blanks
  {
    var t := TrimLeft(line, Blanks);
    TrimLeftTrims(line, Blanks);
    TrimRightTrims(t, Blanks);
    assert Trim(line, Blanks) == TrimRight(t, Blanks);
    assert t[..|Prefix|] == Trim(line, Blanks)[..|Prefix|];
    |line| - |t|
  }

  /** The text after the marker's prefix, up to the end of the line (trailing blanks kept). */
  function Payload(line: string): string
    requires Is(line)
  {
    line[Indent(line) + |Prefix|..]
  }

  /** The width recorded in a marker, or -1 when the line is no marker or its width does not
      read as an integer. */
  function Parse(line: string): (length: int)
    ensures length != -1 ==> Is(line)
  {
    if !Is(line) then -1
    else
      var components := SplitN(line, ':', 3);
      MarkerFields(line);
      match Atoi(components[2])
      case None => -1
      case Some(v) => v
  }

  /** SplitN(line, ":", 3) on a marker yields three pieces, the last being the payload: the
      prefix holds exactly two colons and only blanks come before it. */
  lemma MarkerFields(line: string)
    requires Is(line)
    ensures |SplitN(line, ':', 3)| == 3 && SplitN(line, ':', 3)[2] == Payload(line)
  {
    var k := Indent(line);
    var blanks, rest := line[..k], Payload(line);
    assert line == blanks + Prefix + rest by {
      assert line == line[..k] + line[k..k + |Prefix|] + line[k + |Prefix|..];
    }
    assert ':' !in blanks by {
      forall i | 0 <= i < |blanks| ensures blanks[i] != ':' {
        assert line[i] in Blanks;
      }
    }
    SplitMarker(blanks, rest);
  }

  /** The prefix holds exactly two colons, so SplitN(.., 3) of a marker isolates what follows it. */
  lemma SplitMarker(blanks: string, rest: string)
    requires ':' !in blanks
    ensures SplitN(blanks + Prefix + rest, ':', 3) == [blanks + "//golines", "shorten", rest]
  {
    var a, mid := blanks + "//golines", "shorten";
    assert ':' !in a by {
      assert forall i :: 0 <= i < |a| ==> a[i] == (if i < |blanks| then blanks[i] else "//golines"[i - |blanks|]);
    }
    assert Prefix == "//golines" + [':'] + mid + [':'];
    assert blanks + Prefix + rest == a + [':'] + (mid + [':'] + rest);
    SplitNAtSeparator(a, ':', mid + [':'] + rest, 3);
    SplitNAtSeparator(mid, ':', rest, 2);
  }

  /** Parse reads the payload of a marker with strconv.Atoi. */
  lemma ParseReadsPayload(line: string)
    requires Is(line)
    ensures Parse(line) == (if Atoi(Payload(line)).Some? then Atoi(Payload(line)).value else -1)
  {
    MarkerFields(line);
  }

  /** Round trip: the width a marker is created with is the width parsed back from it. */
  lemma ParseCreate(length: int)
    requires MinInt64 <= length <= MaxInt64
    ensures Parse(Create(length)) == length
  {
    var line := Create(length);
    assert line[..|Prefix|] == Prefix;
    assert Indent(line) == 0 by {
      assert line[0] == '/' && line[0] !in Blanks;
    }
    assert Payload(line) == IntToDecimal(length);
    ParseReadsPayload(line);
    AtoiDecimal(length);
  }

  /** `has`: a decoration list is marked when its LAST comment is a marker. */
  predicate EndsWithMarker(decorations: seq<string>) {
    |decorations| > 0 && Is(decorations[|decorations| - 1])
  }

  /** A marker followed by an ordinary comment no longer marks the node. */
  lemma OnlyLastCommentCounts(decorations: seq<string>, comment: string)
    ensures EndsWithMarker(decorations + [comment]) <==> Is(comment)
  {
  }

  /** The node's leading comments end with a marker. */
  predicate Has(n: Node) {
    EndsWithMarker(n.start)
  }

  /** The node's trailing comments end with a marker. */
  predicate HasTail(n: Node) {
    EndsWithMarker(n.end)
  }

  /** A marker on the node itself or on one of a fixed set of its children: the parameters of
      a function declaration, the type of a field (or a marker after the field), the base and
      name of a selector (one level only), the callee of a call or any of its arguments (one
      level only), and the methods of an interface type. */
  function HasRecursive(n: Node): (r: bool)
    ensures Has(n) ==> r
  {
    Has(n) ||
    match n.kind
    case FuncDecl(funcType, _) =>
      funcType.kind.FuncType? &&
      exists i :: 0 <= i < |funcType.kind.params| && HasRecursive(funcType.kind.params[i])
    case Field(typ) => HasTail(n) || HasRecursive(typ)
    case SelectorExpr(x, sel) => Has(sel) || Has(x)
    case CallExpr(fun, args) => HasRecursive(fun) || exists i :: 0 <= i < |args| && Has(args[i])
    case InterfaceType(methods) => exists i :: 0 <= i < |methods| && HasRecursive(methods[i])
    case _ => false
  }

  /** Every node kind outside those five is marked only through its own leading comments. */
  lemma HasRecursiveOtherKinds(n: Node)
    requires !(n.kind.FuncDecl? || n.kind.Field? || n.kind.SelectorExpr? ||
               n.kind.CallExpr? || n.kind.InterfaceType?)
    ensures HasRecursive(n) == Has(n)
  {
  }
}
