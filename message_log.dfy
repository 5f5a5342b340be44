/** The message box of the main window, as text. Every message the controller
    writes into it is terminated by CR LF, so the box holds a sequence of lines. */
module MessageLog {

  const NewLine: string := "\r\n"

  /** The text of a message box that holds exactly these messages, oldest first. */
  function Render(lines: seq<string>): string
  {
    if lines == [] then "" else lines[0] + NewLine + Render(lines[1..])
  }

  /** Writing two batches of messages one after the other gives the text of both. */
  lemma {:induction false} RenderAppend(a: seq<string>, b: seq<string>)
    ensures Render(a + b) == Render(a) + Render(b)
  {
    if a == [] {
      assert a + b == b;
    } else {
      assert (a + b)[0] == a[0];
      assert (a + b)[1..] == a[1..] + b;
      RenderAppend(a[1..], b);
    }
  }

  /** A message that does not itself contain a CR LF pair. */
  predicate NoBreak(s: string)
  {
    forall i :: 0 <= i < |s| - 1 ==> !(s[i] == '\r' && s[i + 1] == '\n')
  }

  /** A fixed label that starts with no LF and ends with no CR, so it cannot complete a
      line break with the text on either side of it. */
  predicate Label(s: string)
  {
    NoBreak(s) && 0 < |s| && s[0] != '\n' && s[|s| - 1] != '\r'
  }

  /** Text without line breaks, joined around a label, has no line break either. */
  lemma NoBreakAround(a: string, s: string, b: string)
    requires NoBreak(a) && Label(s) && NoBreak(b)
    ensures NoBreak(a + s + b)
  {
    var t := a + s + b;
    forall i | 0 <= i < |t| - 1 ensures !(t[i] == '\r' && t[i + 1] == '\n') {
      if i + 1 < |a| {
        assert t[i] == a[i] && t[i + 1] == a[i + 1];
      } else if i + 1 == |a| {
        assert t[i + 1] == s[0];
      } else if i + 1 < |a| + |s| {
        assert t[i] == s[i - |a|] && t[i + 1] == s[i + 1 - |a|];
      } else if i + 1 == |a| + |s| {
        assert t[i] == s[|s| - 1];
      } else {
        assert t[i] == b[i - |a| - |s|] && t[i + 1] == b[i + 1 - |a| - |s|];
      }
    }
  }

  /** The position of the first CR LF in `text`, or its length when there is none. */
  function LineLength(text: string): (n: nat)
    ensures n <= |text|
    ensures n < |text| ==> n + 2 <= |text| && text[n] == '\r' && text[n + 1] == '\n'
    ensures forall i :: 0 <= i < n && i + 1 < |text| ==> !(text[i] == '\r' && text[i + 1] == '\n')
  {
    if |text| < 2 then |text|
    else if text[0] == '\r' && text[1] == '\n' then 0
    else 1 + LineLength(text[1..])
  }

  /** Reads the messages back out of a message-box text. */
  function SplitLines(text: string): seq<string>
    decreases |text|
  {
    if text == [] then []
    else
      var n := LineLength(text);
      [text[..n]] + if n < |text| then SplitLines(text[n + 2..]) else []
  }

  /** The first line of a rendered message ends exactly where the message ends. */
  lemma {:induction false} LineLengthOfMessage(line: string, rest: string)
    requires NoBreak(line)
    ensures LineLength(line + NewLine + rest) == |line|
  {
    var text := line + NewLine + rest;
    if line == [] {
      assert text[0] == '\r' && text[1] == '\n';
    } else {
      assert text[0] == line[0];
      assert text[1] == if |line| == 1 then '\r' else line[1];
      assert text[1..] == line[1..] + NewLine + rest;
      LineLengthOfMessage(line[1..], rest);
    }
  }

  /** Reading a message box back gives the messages written into it, provided no
      message contains a line break of its own. */
  lemma {:induction false} SplitRender(lines: seq<string>)
    requires forall i :: 0 <= i < |lines| ==> NoBreak(lines[i])
    ensures SplitLines(Render(lines)) == lines
  {
    if lines != [] {
      var rest := Render(lines[1..]);
      var text := lines[0] + NewLine + rest;
      LineLengthOfMessage(lines[0], rest);
      assert text[..|lines[0]|] == lines[0];
      assert text[|lines[0]| + 2..] == rest;
      SplitRender(lines[1..]);
    }
  }
}
