/**
 * The message history both BLEAct copies keep in their TextView: SetText puts
 * the new message on the first line, then copies the previous lines below it,
 * dropping the oldest once MAX_LINE lines were shown.  Lines are recovered
 * from the text with Java's String.split.
 */
module LineHistory {
  const NEW_LINE: char := '\n'

  /** The pieces between newlines, empty ones included: "a\n" gives ["a", ""], "" gives [""]. */
  function RawSplit(s: string): (r: seq<string>)
    ensures |r| >= 1
    ensures forall i :: 0 <= i < |r| ==> NEW_LINE !in r[i]
  {
    if s == [] then [""]
    else
      var rest := RawSplit(s[1..]);
      if s[0] == NEW_LINE then [""] + rest else [[s[0]] + rest[0]] + rest[1..]
  }

  /** Removes the empty pieces at the end. */
  function DropTrailingEmpty(p: seq<string>): (r: seq<string>)
    ensures r <= p
    ensures r == [] || r[|r| - 1] != ""
    ensures forall i :: |r| <= i < |p| ==> p[i] == ""
  {
    if p == [] then []
    else if p[|p| - 1] == "" then DropTrailingEmpty(p[..|p| - 1])
    else p
  }

  /**
   * String.split("\n"): a text without a newline is its own single piece
   * (so "" gives [""]); otherwise the pieces, less the empty ones at the end.
   */
  function JavaSplit(s: string): seq<string> {
    if NEW_LINE !in s then [s] else DropTrailingEmpty(RawSplit(s))
  }

  /** "\n" + line for each line, in order: what the loop of SetText appends. */
  function JoinBelow(lines: seq<string>): string {
    if lines == [] then "" else JoinBelow(lines[..|lines| - 1]) + [NEW_LINE] + lines[|lines| - 1]
  }

  /** The previous lines SetText copies: all of them below maxLine, all but the last (oldest) from maxLine on. */
  function KeptLines(lines: seq<string>, maxLine: nat): seq<string>
    requires maxLine >= 1
  {
    if maxLine <= |lines| then lines[..|lines| - 1] else lines
  }

  /** The text SetText(mes) leaves in a TextView that showed `text`. */
  function Compose(text: string, mes: string, maxLine: nat): string
    requires maxLine >= 1
  {
    mes + JoinBelow(KeptLines(JavaSplit(text), maxLine))
  }

  /** The loop of SetText: the message, then each kept previous line after a newline. */
  method ComposeText(text: string, mes: string, maxLine: nat) returns (r: string)
    requires maxLine >= 1
    ensures r == Compose(text, mes, maxLine)
  {
    var textAry := JavaSplit(text);
    var len := |textAry|;
    if maxLine <= len {
      len := len - 1;
    }
    r := mes;
    for i := 0 to len
      invariant r == mes + JoinBelow(textAry[..i])
    {
      assert textAry[..i + 1][..i] == textAry[..i];
      r := r + [NEW_LINE] + textAry[i];
    }
    assert textAry[..len] == KeptLines(textAry, maxLine);
  }

  lemma {:induction false} RawSplitJoin(a: string, b: string)
    ensures RawSplit(a + [NEW_LINE] + b) == RawSplit(a) + RawSplit(b)
    decreases |a|
  {
    var s := a + [NEW_LINE] + b;
    if a == [] {
      assert s[0] == NEW_LINE && s[1..] == b;
    } else {
      assert s[0] == a[0];
      assert s[1..] == a[1..] + [NEW_LINE] + b;
      RawSplitJoin(a[1..], b);
    }
  }

  lemma RawSplitLine(s: string)
    requires NEW_LINE !in s
    ensures RawSplit(s) == [s]
    decreases |s|
  {
    if s != [] {
      RawSplitLine(s[1..]);
      assert [s[0]] + s[1..] == s;
    }
  }

  /** Joining single lines below a single-line message and splitting again gives the lines back. */
  lemma {:induction false} RawSplitComposed(mes: string, lines: seq<string>)
    requires NEW_LINE !in mes
    requires forall i :: 0 <= i < |lines| ==> NEW_LINE !in lines[i]
    ensures RawSplit(mes + JoinBelow(lines)) == [mes] + lines
  {
    if lines == [] {
      assert mes + JoinBelow(lines) == mes;
      RawSplitLine(mes);
    } else {
      var front, last := lines[..|lines| - 1], lines[|lines| - 1];
      assert lines == front + [last];
      RawSplitComposed(mes, front);
      var head := mes + JoinBelow(front);
      assert JoinBelow(lines) == JoinBelow(front) + [NEW_LINE] + last;
      assert mes + JoinBelow(lines) == head + [NEW_LINE] + last;
      RawSplitJoin(head, last);
      RawSplitLine(last);
    }
  }

  lemma ComposedHasNewline(mes: string, lines: seq<string>)
    requires lines != []
    ensures NEW_LINE in mes + JoinBelow(lines)
  {
    var front := lines[..|lines| - 1];
    var t := mes + JoinBelow(lines);
    assert t == (mes + JoinBelow(front)) + [NEW_LINE] + lines[|lines| - 1];
    assert t[|mes + JoinBelow(front)|] == NEW_LINE;
  }

  lemma JavaSplitLines(s: string)
    ensures forall i :: 0 <= i < |JavaSplit(s)| ==> NEW_LINE !in JavaSplit(s)[i]
  {
  }

  /**
   * The lines of the text after SetText(mes): the message, then the kept
   * previous lines in their order, less any empty lines left at the end.
   */
  lemma ComposeLines(text: string, mes: string, maxLine: nat)
    requires maxLine >= 1
    requires NEW_LINE !in mes
    ensures var kept := KeptLines(JavaSplit(text), maxLine);
      JavaSplit(Compose(text, mes, maxLine)) == if kept == [] then [mes] else DropTrailingEmpty([mes] + kept)
  {
    var kept := KeptLines(JavaSplit(text), maxLine);
    JavaSplitLines(text);
    RawSplitComposed(mes, kept);
    if kept == [] {
      assert Compose(text, mes, maxLine) == mes;
    } else {
      ComposedHasNewline(mes, kept);
    }
  }

  /**
   * SetText keeps the new message first and the previous lines in their
   * original order; when the last kept line is not empty nothing else is lost.
   */
  lemma ComposeOrder(text: string, mes: string, maxLine: nat)
    requires maxLine >= 1
    requires NEW_LINE !in mes && mes != ""
    ensures var kept := KeptLines(JavaSplit(text), maxLine);
      var after := JavaSplit(Compose(text, mes, maxLine));
      after != [] && after[0] == mes && after[1..] <= kept
      && (kept == [] || kept[|kept| - 1] != "" ==> after == [mes] + kept)
  {
    ComposeLines(text, mes, maxLine);
    var kept := KeptLines(JavaSplit(text), maxLine);
    if kept != [] {
      var p := [mes] + kept;
      var r := DropTrailingEmpty(p);
      assert p[0] != "";
      assert r[0] == p[0] == mes;
      assert r[1..] <= p[1..] == kept;
      if kept[|kept| - 1] != "" {
        assert p[|p| - 1] != "";
        assert r == p;
      }
    }
  }

  /** With n previous lines: all n are kept below maxLine, and from maxLine on only the last is dropped. */
  lemma KeptLinesCount(lines: seq<string>, maxLine: nat)
    requires maxLine >= 1
    ensures KeptLines(lines, maxLine) <= lines
    ensures |KeptLines(lines, maxLine)| == if |lines| < maxLine then |lines| else |lines| - 1
  {
  }

  /** The display never grows past maxLine lines: a history within the bound stays within it. */
  lemma ComposeBound(text: string, mes: string, maxLine: nat)
    requires maxLine >= 1
    requires NEW_LINE !in mes
    requires |JavaSplit(text)| <= maxLine
    ensures |JavaSplit(Compose(text, mes, maxLine))| <= maxLine
  {
    ComposeLines(text, mes, maxLine);
  }

  /** An empty TextView splits into one empty line, so the first SetText leaves "mes\n". */
  lemma FirstMessage(mes: string, maxLine: nat)
    requires maxLine >= 2
    ensures JavaSplit("") == [""]
    ensures Compose("", mes, maxLine) == mes + [NEW_LINE]
  {
    assert JoinBelow([""]) == JoinBelow([]) + [NEW_LINE] + "";
  }
}
