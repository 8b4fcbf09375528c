/** The line layout both loggers write: a timestamp, a level label in square brackets and
    the message, with an optional gap (" " or "") on each side of the bracketed label.
    `Parse` reads a line back into its fields; it is the inverse the formatters are checked
    against. */
module LogLine {

  datatype Option<T> = None | Some(value: T)

  /** The three parts of one written line. */
  datatype Fields = Fields(timestamp: string, levelLabel: string, message: string)

  /** The position of the first `c` in `s`, if there is one. */
  function IndexOf(s: string, c: char): (r: Option<nat>)
    ensures r.None? <==> c !in s
    ensures r.Some? ==> r.value < |s| && s[r.value] == c && c !in s[..r.value]
  {
    if |s| == 0 then None
    else if s[0] == c then Some(0)
    else match IndexOf(s[1..], c)
      case None => None
      case Some(i) =>
        assert s[..i + 1] == [s[0]] + s[1..][..i];
        Some(i + 1)
  }

  /** When `c` does not occur in `a`, the first `c` of `a + b` is the first `c` of `b`. */
  lemma {:induction false} IndexOfAfter(a: string, b: string, c: char)
    requires c !in a && c in b
    ensures IndexOf(a + b, c) == Some(|a| + IndexOf(b, c).value)
  {
    if a == [] {
      assert a + b == b;
    } else {
      assert a[0] != c;
      assert (a + b)[1..] == a[1..] + b;
      IndexOfAfter(a[1..], b, c);
    }
  }

  /** The line `f` is written as. */
  function Compose(f: Fields, gap: string): string
  {
    f.timestamp + gap + "[" + (f.levelLabel + "]" + gap + f.message)
  }

  /** Reads the part of a line after its first '[': the label runs to the first ']',
      and the message starts `gap` after that ']'. */
  function ParseAfterBracket(rest: string, gap: string): (r: Option<(string, string)>)
    ensures r.Some? ==> ']' !in r.value.0
  {
    match IndexOf(rest, ']')
    case None => None
    case Some(j) =>
      if |rest| < j + 1 + |gap| || rest[j + 1..j + 1 + |gap|] != gap then None
      else Some((rest[..j], rest[j + 1 + |gap|..]))
  }

  /** Reads a line back: the timestamp ends `gap` before the first '[', and the rest is
      read by `ParseAfterBracket`. */
  function Parse(line: string, gap: string): (r: Option<Fields>)
  {
    match IndexOf(line, '[')
    case None => None
    case Some(i) =>
      if i < |gap| || line[i - |gap|..i] != gap then None
      else
        match ParseAfterBracket(line[i + 1..], gap)
        case None => None
        case Some((levelLabel, message)) => Some(Fields(line[..i - |gap|], levelLabel, message))
  }

  lemma ParseAfterBracketCompose(levelLabel: string, gap: string, message: string)
    requires ']' !in levelLabel
    ensures ParseAfterBracket(levelLabel + "]" + gap + message, gap) == Some((levelLabel, message))
  {
    var rest := levelLabel + "]" + gap + message;
    assert rest == levelLabel + ("]" + gap + message);
    IndexOfAfter(levelLabel, "]" + gap + message, ']');
    var j := |levelLabel|;
    assert rest[j + 1..j + 1 + |gap|] == gap;
    assert rest[..j] == levelLabel;
    assert rest[j + 1 + |gap|..] == message;
  }

  /** `Parse` in terms of where the first '[' stands and what `ParseAfterBracket` reads. */
  lemma ParseAt(line: string, gap: string, i: nat, f: Fields)
    requires IndexOf(line, '[') == Some(i)
    requires i >= |gap| && line[i - |gap|..i] == gap && line[..i - |gap|] == f.timestamp
    requires ParseAfterBracket(line[i + 1..], gap) == Some((f.levelLabel, f.message))
    ensures Parse(line, gap) == Some(f)
  {
  }

  /** Parsing a composed line gives back its fields, whenever the timestamp holds no '['
      and the label no ']'. */
  lemma ParseCompose(f: Fields, gap: string)
    requires '[' !in f.timestamp && '[' !in gap && ']' !in f.levelLabel
    ensures Parse(Compose(f, gap), gap) == Some(f)
  {
    var line := Compose(f, gap);
    var head := f.timestamp + gap;
    var rest := f.levelLabel + "]" + gap + f.message;
    assert line == head + ("[" + rest);
    assert '[' !in head;
    IndexOfAfter(head, "[" + rest, '[');
    var i := |head|;
    assert line[i - |gap|..i] == gap && line[..i - |gap|] == f.timestamp && line[i + 1..] == rest
    by {
      assert line[..i] == head;
    }
    ParseAfterBracketCompose(f.levelLabel, gap, f.message);
    ParseAt(line, gap, i, f);
  }

  lemma ComposeParseAfterBracket(rest: string, gap: string)
    requires ParseAfterBracket(rest, gap).Some?
    ensures var (levelLabel, message) := ParseAfterBracket(rest, gap).value;
      levelLabel + "]" + gap + message == rest
  {
    var j := IndexOf(rest, ']').value;
    assert rest == rest[..j] + [rest[j]] + rest[j + 1..j + 1 + |gap|] + rest[j + 1 + |gap|..];
  }

  /** What a successful `Parse` checked: the gap before the first '[' and a readable rest. */
  lemma ParseGuards(line: string, gap: string, i: nat)
    requires Parse(line, gap).Some? && IndexOf(line, '[') == Some(i)
    ensures i >= |gap| && line[i - |gap|..i] == gap
    ensures ParseAfterBracket(line[i + 1..], gap).Some?
  {
  }

  /** What a successful `Parse` returned: the fields on either side of the first '['. */
  lemma ParseFieldsAt(line: string, gap: string, i: nat)
    requires Parse(line, gap).Some? && IndexOf(line, '[') == Some(i)
    requires i >= |gap| && ParseAfterBracket(line[i + 1..], gap).Some?
    ensures Parse(line, gap).value.timestamp == line[..i - |gap|]
    ensures Parse(line, gap).value.levelLabel == ParseAfterBracket(line[i + 1..], gap).value.0
    ensures Parse(line, gap).value.message == ParseAfterBracket(line[i + 1..], gap).value.1
  {
  }

  lemma ParseFound(line: string, gap: string)
    requires Parse(line, gap).Some?
    ensures IndexOf(line, '[').Some?
  {
  }

  /** Every line that parses is the composition of the fields it parses to. */
  lemma ComposeParse(line: string, gap: string)
    requires Parse(line, gap).Some?
    ensures Compose(Parse(line, gap).value, gap) == line
  {
    ParseFound(line, gap);
    var i := IndexOf(line, '[').value;
    ParseGuards(line, gap, i);
    ParseFieldsAt(line, gap, i);
    ComposeParseAfterBracket(line[i + 1..], gap);
    var f := Parse(line, gap).value;
    Reassemble(line, i - |gap|, i, f.timestamp, gap, f.levelLabel + "]" + gap + f.message);
  }

  lemma Reassemble(line: string, k: nat, i: nat, head: string, gap: string, tail: string)
    requires k <= i < |line| && line[i] == '['
    requires line[..k] == head && line[k..i] == gap && line[i + 1..] == tail
    ensures head + gap + "[" + tail == line
  {
    assert line == line[..k] + line[k..i] + [line[i]] + line[i + 1..];
  }

  /** A parsed timestamp holds no '[' and a parsed label no ']', so every line that parses
      meets the side conditions of `ParseCompose`. */
  lemma ParsedFieldsAreClean(line: string, gap: string)
    requires Parse(line, gap).Some?
    ensures '[' !in Parse(line, gap).value.timestamp && ']' !in Parse(line, gap).value.levelLabel
  {
    var i := IndexOf(line, '[').value;
    ParseGuards(line, gap, i);
    ParseFieldsAt(line, gap, i);
    assert line[..i - |gap|] == line[..i][..i - |gap|];
  }
}
