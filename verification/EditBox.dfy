/** Text as UTF-8 (RFC 3629) and its division into code points. */
module Utf8 {
  type Byte = bv8
  /** The bytes of one code point. */
  type Char = seq<Byte>

  /** How many bytes the program takes for a code point, by its first byte. */
  function LeadLength(b: Byte): (n: int)
    ensures 1 <= n <= 4
  {
    if b & 0x80 == 0 then 1 else if b & 0xE0 == 0xC0 then 2 else if b & 0xF0 == 0xE0 then 3 else 4
  }

  predicate Tail(b: Byte) {
    0x80 <= b <= 0xBF
  }

  /** A well-formed code point: section 4 of RFC 3629. */
  predicate WellFormed(c: Char) {
    match |c|
    case 1 => c[0] <= 0x7F
    case 2 => 0xC2 <= c[0] <= 0xDF && Tail(c[1])
    case 3 => Tail(c[1]) && Tail(c[2]) && 0xE0 <= c[0] <= 0xEF && (c[0] == 0xE0 ==> 0xA0 <= c[1]) && (c[0] == 0xED ==> c[1] <= 0x9F)
    case 4 =>
      && Tail(c[1]) && Tail(c[2]) && Tail(c[3]) && 0xF0 <= c[0] <= 0xF4
      && (c[0] == 0xF0 ==> 0x90 <= c[1]) && (c[0] == 0xF4 ==> c[1] <= 0x8F)
    case _ => false
  }

  function Concat<T>(parts: seq<seq<T>>): seq<T> {
    if parts == [] then [] else parts[0] + Concat(parts[1..])
  }

  /** The pieces the program cuts a text into; an incomplete last one is dropped. */
  function Split(text: seq<Byte>): (chars: seq<Char>)
    ensures forall i :: 0 <= i < |chars| ==> chars[i] != []
    decreases |text|
  {
    if text == [] || LeadLength(text[0]) > |text| then []
    else [text[..LeadLength(text[0])]] + Split(text[LeadLength(text[0])..])
  }

  lemma {:induction false} LeadIsLength(c: Char)
    requires WellFormed(c)
    ensures |c| >= 1 && LeadLength(c[0]) == |c|
  {
  }

  /** Cutting a well-formed text yields exactly its code points. */
  lemma {:induction false} SplitIsExact(chars: seq<Char>)
    requires forall i :: 0 <= i < |chars| ==> WellFormed(chars[i])
    ensures Split(Concat(chars)) == chars
  {
    if chars != [] {
      var text, c, rest := Concat(chars), chars[0], Concat(chars[1..]);
      LeadIsLength(c);
      assert text == c + rest;
      assert text[..|c|] == c && text[|c|..] == rest;
      SplitIsExact(chars[1..]);
      hide WellFormed;
    }
  }

  /** Whatever the text, the pieces are its beginning; all of it exactly when no piece is cut short. */
  lemma {:induction false} SplitIsPrefix(text: seq<Byte>)
    ensures Concat(Split(text)) <= text
    ensures Concat(Split(text)) == text <==> Complete(text)
    decreases |text|
  {
    if text != [] && LeadLength(text[0]) <= |text| {
      var n := LeadLength(text[0]);
      SplitIsPrefix(text[n..]);
      assert Split(text)[0] == text[..n] && Split(text)[1..] == Split(text[n..]);
      assert text == text[..n] + text[n..];
    }
  }

  predicate Complete(text: seq<Byte>)
    decreases |text|
  {
    text == [] || (LeadLength(text[0]) <= |text| && Complete(text[LeadLength(text[0])..]))
  }

  lemma {:induction false} ConcatSnoc<T>(parts: seq<seq<T>>, last: seq<T>)
    ensures Concat(parts + [last]) == Concat(parts) + last
  {
    if parts == [] {
      assert parts + [last] == [last];
      assert Concat([last]) == last + Concat<T>([]);
    } else {
      ConcatSnoc(parts[1..], last);
      assert (parts + [last])[0] == parts[0] && (parts + [last])[1..] == parts[1..] + [last];
    }
  }
}

/** Greedy line wrapping, and why no other wrapping needs fewer lines. */
module Wrapping {
  import opened Utf8

  const MAX_WIDTH := 300

  /** The width of one code point in the chat font, as a parameter. */
  type Measure = seq<Byte> -> nat

  function Width(w: Measure, line: seq<Char>): nat {
    if line == [] then 0 else Width(w, line[..|line| - 1]) + w(line[|line| - 1])
  }

  /** The lines made of `chars` when `line` is the line so far. */
  function Wrap(w: Measure, chars: seq<Char>, line: seq<Char>): (lines: seq<seq<Char>>)
    decreases |chars|
  {
    if chars == [] then (if line == [] then [] else [line])
    else if Width(w, line) + w(chars[0]) > MAX_WIDTH then (if line == [] then [] else [line]) + Wrap(w, chars[1..], [chars[0]])
    else Wrap(w, chars[1..], line + [chars[0]])
  }

  lemma {:induction false} WidthSnoc(w: Measure, line: seq<Char>, c: Char)
    ensures Width(w, line + [c]) == Width(w, line) + w(c)
  {
    assert (line + [c])[..|line|] == line;
  }

  /** Nothing is lost, added or moved. */
  lemma {:induction false} WrapKeepsText(w: Measure, chars: seq<Char>, line: seq<Char>)
    ensures Concat(Wrap(w, chars, line)) == line + chars
    decreases |chars|
  {
    if chars == [] {
      assert Concat([line]) == line + Concat<Char>([]);
    } else {
      var c, rest := chars[0], chars[1..];
      assert chars == [c] + rest;
      if Width(w, line) + w(c) > MAX_WIDTH {
        WrapKeepsText(w, rest, [c]);
        var more := Wrap(w, rest, [c]);
        if line == [] {
          assert [] + more == more && line + chars == chars;
        } else {
          assert ([line] + more)[0] == line && ([line] + more)[1..] == more;
          assert Concat([line] + more) == line + Concat(more);
        }
      } else {
        WrapKeepsText(w, rest, line + [c]);
      }
    }
  }

  ghost predicate FitsWidth(w: Measure, line: seq<Char>) {
    Width(w, line) <= MAX_WIDTH
  }

  /** Every line fits if every single code point does. */
  lemma {:induction false} WrapFits(w: Measure, chars: seq<Char>, line: seq<Char>)
    requires FitsWidth(w, line) && forall i :: 0 <= i < |chars| ==> w(chars[i]) <= MAX_WIDTH
    ensures forall i :: 0 <= i < |Wrap(w, chars, line)| ==> FitsWidth(w, Wrap(w, chars, line)[i]) && Wrap(w, chars, line)[i] != []
    decreases |chars|
  {
    if chars != [] {
      var c, rest := chars[0], chars[1..];
      WidthSnoc(w, line, c);
      WidthSnoc(w, [], c);
      assert [] + [c] == [c];
      if Width(w, line) + w(c) > MAX_WIDTH {
        WrapFits(w, rest, [c]);
      } else {
        WrapFits(w, rest, line + [c]);
      }
    }
  }

  /** A line that fits holds only code points that fit. */
  lemma {:induction false} CharsFit(w: Measure, line: seq<Char>, i: int)
    requires 0 <= i < |line|
    ensures w(line[i]) <= Width(w, line)
  {
    if i < |line| - 1 { CharsFit(w, line[..|line| - 1], i); }
  }

  lemma {:induction false} InSomeLine(lines: seq<seq<Char>>, i: int) returns (k: int, j: int)
    requires 0 <= i < |Concat(lines)|
    ensures 0 <= k < |lines| && 0 <= j < |lines[k]| && lines[k][j] == Concat(lines)[i]
  {
    if i < |lines[0]| {
      k, j := 0, i;
    } else {
      k, j := InSomeLine(lines[1..], i - |lines[0]|);
      k := k + 1;
    }
  }

  /** All lines fit exactly when all code points do. */
  lemma {:induction false} AllFitIff(w: Measure, chars: seq<Char>)
    ensures (forall i :: 0 <= i < |Wrap(w, chars, [])| ==> FitsWidth(w, Wrap(w, chars, [])[i]))
       <==> (forall i :: 0 <= i < |chars| ==> w(chars[i]) <= MAX_WIDTH)
  {
    var lines := Wrap(w, chars, []);
    if forall i :: 0 <= i < |lines| ==> FitsWidth(w, lines[i]) {
      WrapKeepsText(w, chars, []);
      assert [] + chars == chars;
      forall i | 0 <= i < |chars|
        ensures w(chars[i]) <= MAX_WIDTH
      {
        var k, j := InSomeLine(lines, i);
        CharsFit(w, lines[k], j);
        assert FitsWidth(w, lines[k]);
      }
    }
    if forall i :: 0 <= i < |chars| ==> w(chars[i]) <= MAX_WIDTH { WrapFits(w, chars, []); }
  }

  predicate IsSuffix(s: seq<Char>, t: seq<Char>) {
    |s| <= |t| && t[|t| - |s|..] == s
  }

  lemma {:induction false} SuffixSnoc(s: seq<Char>, t: seq<Char>, c: Char)
    requires IsSuffix(s, t)
    ensures IsSuffix(s + [c], t + [c]) && IsSuffix([c], s + [c])
  {
  }

  lemma {:induction false} SuffixNarrower(w: Measure, s: seq<Char>, t: seq<Char>)
    requires IsSuffix(s, t)
    ensures Width(w, s) <= Width(w, t)
  {
    if s != [] {
      assert s[|s| - 1] == t[|t| - 1];
      assert IsSuffix(s[..|s| - 1], t[..|t| - 1]);
      SuffixNarrower(w, s[..|s| - 1], t[..|t| - 1]);
    }
  }

  /** Starting with less on the line never needs more lines, and starting with more at most one more. */
  lemma {:induction false} LessOnTheLine(w: Measure, chars: seq<Char>, s: seq<Char>, t: seq<Char>)
    requires IsSuffix(s, t)
    ensures |Wrap(w, chars, s)| <= |Wrap(w, chars, t)| <= 1 + |Wrap(w, chars, s)|
    decreases |chars|
  {
    if chars != [] {
      var c, rest := chars[0], chars[1..];
      SuffixNarrower(w, s, t);
      SuffixSnoc(s, t, c);
      if Width(w, t) + w(c) <= MAX_WIDTH {
        LessOnTheLine(w, rest, s + [c], t + [c]);
      } else if Width(w, s) + w(c) <= MAX_WIDTH {
        LessOnTheLine(w, rest, [c], s + [c]);
      }
    }
  }

  /** What fits on a line is put on it. */
  lemma {:induction false} FirstLine(w: Measure, first: seq<Char>, rest: seq<Char>, line: seq<Char>)
    requires FitsWidth(w, line + first)
    ensures Wrap(w, first + rest, line) == Wrap(w, rest, line + first)
    decreases |first|
  {
    if first == [] {
      assert first + rest == rest && line + first == line;
    } else {
      var c, more := first[0], first[1..];
      assert first + rest == [c] + (more + rest) && line + first == line + [c] + more;
      WidthSnoc(w, line, c);
      PrefixNarrower(w, line + [c], more);
      FirstLine(w, more, rest, line + [c]);
    }
  }

  lemma {:induction false} PrefixNarrower(w: Measure, a: seq<Char>, b: seq<Char>)
    ensures Width(w, a) <= Width(w, a + b)
  {
    if b == [] {
      assert a + b == a;
    } else {
      PrefixNarrower(w, a, b[..|b| - 1]);
      assert a + b == a + b[..|b| - 1] + [b[|b| - 1]];
      WidthSnoc(w, a + b[..|b| - 1], b[|b| - 1]);
    }
  }

  /** No division of the text into lines that fit has fewer lines. */
  lemma {:induction false} WrapIsMinimal(w: Measure, lines: seq<seq<Char>>)
    requires forall i :: 0 <= i < |lines| ==> FitsWidth(w, lines[i])
    ensures |Wrap(w, Concat(lines), [])| <= |lines|
  {
    if lines != [] {
      var rest := Concat(lines[1..]);
      WrapIsMinimal(w, lines[1..]);
      assert [] + lines[0] == lines[0];
      FirstLine(w, lines[0], rest, []);
      LessOnTheLine(w, rest, [], lines[0]);
    }
  }

  /** A text that fits is one line. */
  lemma {:induction false} OneLine(w: Measure, chars: seq<Char>)
    requires FitsWidth(w, chars) && chars != []
    ensures Wrap(w, chars, []) == [chars]
  {
    assert [] + chars == chars && chars + [] == chars;
    FirstLine(w, chars, [], []);
  }
}

/** The chat box (EditBox): wrapped input goes to a list of the last fifty messages. */
module EditBoxes {
  import opened Utf8
  import opened Wrapping

  const MAX_MESSAGES := 50

  function Last<T>(s: seq<T>, n: nat): seq<T> {
    if |s| <= n then s else s[|s| - n..]
  }

  /** The list is the end of all messages, and only its oldest ones are missing: none as long as there
      are no more than fifty. */
  ghost predicate Ends(list: seq<seq<Byte>>, all: seq<seq<Byte>>) {
    && |list| == (if |all| < 50 then |all| else 50)
    && forall k :: 0 <= k < |list| ==> list[k] == all[|all| - |list| + k]
  }

  /** The last message is the last one of those that were added. */
  ghost predicate EndsWith(list: seq<seq<Byte>>, more: seq<seq<Byte>>) {
    more != [] ==> list != [] && list[|list| - 1] == more[|more| - 1]
  }

  lemma {:induction false} LastEnds(before: seq<seq<Byte>>, more: seq<seq<Byte>>)
    ensures Ends(Last(before + more, MAX_MESSAGES), before + more)
    ensures EndsWith(Last(before + more, MAX_MESSAGES), more)
  {
  }

  /** The bytes of each line. */
  function Bytes(lines: seq<seq<Char>>): (r: seq<seq<Byte>>)
    ensures |r| == |lines| && forall i :: 0 <= i < |lines| ==> r[i] == Concat(lines[i])
  {
    if lines == [] then [] else [Concat(lines[0])] + Bytes(lines[1..])
  }

  /** What a text input adds to the list. */
  function Messages(w: Measure, text: seq<Byte>): seq<seq<Byte>> {
    if w(text) <= MAX_WIDTH then [text] else Bytes(Wrap(w, Split(text), []))
  }

  class EditBox {
    var messageList: seq<seq<Byte>>
    const measure: Measure

    ghost predicate Valid()
      reads this`messageList
    {
      |messageList| <= MAX_MESSAGES
    }

    constructor (measure: Measure)
      ensures Valid() && this.measure == measure && messageList == []
    {
      this.measure := measure;
      messageList := [];
    }

    /** Appends a message; the oldest ones make room. */
    method AddMessageToList(text: seq<Byte>)
      modifies this`messageList
      ensures Valid() && messageList == Last(old(messageList) + [text], MAX_MESSAGES)
      ensures messageList ==
        (if |old(messageList)| < 50 then old(messageList) else old(messageList)[|old(messageList)| - 49..]) + [text]
    {
      while |messageList| >= MAX_MESSAGES && |messageList| > 0
        invariant messageList == old(messageList) || |old(messageList)| >= MAX_MESSAGES
        invariant |messageList| >= MAX_MESSAGES - 1 || messageList == old(messageList)
        invariant |messageList| <= |old(messageList)| && messageList == old(messageList)[|old(messageList)| - |messageList|..]
        decreases |messageList|
      {
        messageList := messageList[1..];
      }
      messageList := messageList + [text];
    }

    /** Puts one more piece on the line, or on a new one when the line is full. */
    method AddPiece(charStr: Char, currentLine: seq<Byte>, currentWidth: int, ghost ms: seq<seq<Byte>>,
                    ghost line: seq<Char>, ghost done: seq<seq<Byte>>, ghost rest: seq<Char>)
      returns (nextLine: seq<Byte>, nextWidth: int, ghost line': seq<Char>, ghost done': seq<seq<Byte>>)
      requires Valid() && messageList == Last(ms + done, MAX_MESSAGES) && charStr != []
      requires currentLine == Concat(line) && currentWidth == Width(measure, line) && (currentLine == [] <==> line == [])
      modifies this`messageList
      ensures Valid() && messageList == Last(ms + done', MAX_MESSAGES)
      ensures nextLine == Concat(line') && nextWidth == Width(measure, line') && nextLine != [] && line' != []
      ensures done' + Bytes(Wrap(measure, rest, line')) == done + Bytes(Wrap(measure, [charStr] + rest, line))
    {
      hide *;
      Start(measure, []);
      nextLine, nextWidth, line', done' := currentLine, currentWidth, line, done;
      var charWidth := measure(charStr);
      WrapStep(measure, charStr, rest, line);
      if nextWidth + charWidth > MAX_WIDTH {
        if nextLine != [] {
          LastStep(ms, done, nextLine);
          BytesStep(line, Wrap(measure, rest, [charStr]), done);
          AddMessageToList(nextLine);
          done' := done + [nextLine];
        }
        nextLine := [];
        nextWidth := 0;
        line' := [];
      }
      LongerLine(measure, line', charStr);
      nextLine := nextLine + charStr;
      nextWidth := nextWidth + charWidth;
      line' := line' + [charStr];
    }

    /** Adds a text, wrapped if it is too wide. */
    method ProcessTextInput(text: seq<Byte>)
      requires Valid()
      modifies this`messageList
      ensures Valid() && messageList == Last(old(messageList) + Messages(measure, text), MAX_MESSAGES)
      ensures Ends(messageList, old(messageList) + Messages(measure, text))
      ensures EndsWith(messageList, Messages(measure, text))
    {
      hide *;
      LastEnds(messageList, Messages(measure, text));
      Start(measure, text);
      var textWidth := measure(text);
      if textWidth <= MAX_WIDTH {
        AddMessageToList(text);
      } else {
        var currentLine: seq<Byte> := [];
        var currentWidth := 0;
        var pos := 0;
        ghost var line: seq<Char>, done: seq<seq<Byte>> := [], [];
        ghost var all := Bytes(Wrap(measure, Split(text), []));
        LastOfNothing(this);
        while pos < |text|
          invariant 0 <= pos <= |text| && Valid()
          invariant messageList == Last(old(messageList) + done, MAX_MESSAGES)
          invariant done + Bytes(Wrap(measure, Split(text[pos..]), line)) == all
          invariant currentLine == Concat(line) && currentWidth == Width(measure, line) && (currentLine == [] <==> line == [])
        {
          var nextPos := pos + LeadLength(text[pos]);
          NextPiece(text, pos);
          if nextPos > |text| {
            break;
          }
          var charStr := text[pos..nextPos];
          currentLine, currentWidth, line, done :=
            AddPiece(charStr, currentLine, currentWidth, old(messageList), line, done, Split(text[nextPos..]));
          pos := nextPos;
        }
        NoPiece(text, pos, measure, line);
        assert done + [] == done;
        if currentLine != [] {
          LastStep(old(messageList), done, currentLine);
          BytesStep(line, [], done);
          AddMessageToList(currentLine);
        }
      }
    }
  }

  lemma {:induction false} NextPiece(text: seq<Byte>, pos: int)
    requires 0 <= pos < |text|
    ensures MAX_WIDTH == 300 && MAX_MESSAGES == 50
    ensures
      var next := pos + LeadLength(text[pos]);
      if next > |text| then Split(text[pos..]) == []
      else text[pos..next] != [] && Split(text[pos..]) == [text[pos..next]] + Split(text[next..])
  {
    var n := LeadLength(text[pos]);
    if pos + n <= |text| {
      assert text[pos..][..n] == text[pos..pos + n] && text[pos..][n..] == text[pos + n..];
    }
  }

  lemma {:induction false} WrapStep(w: Measure, c: Char, rest: seq<Char>, line: seq<Char>)
    ensures Wrap(w, [c] + rest, line) ==
      if Width(w, line) + w(c) > MAX_WIDTH then (if line == [] then [] else [line]) + Wrap(w, rest, [c])
      else Wrap(w, rest, line + [c])
    ensures [] + [c] == [c] && [] + Wrap(w, rest, [c]) == Wrap(w, rest, [c]) && Width(w, []) == 0
  {
    assert ([c] + rest)[0] == c && ([c] + rest)[1..] == rest;
  }

  lemma {:induction false} BytesStep(line: seq<Char>, more: seq<seq<Char>>, done: seq<seq<Byte>>)
    ensures Bytes([line] + more) == [Concat(line)] + Bytes(more)
    ensures done + Bytes([line] + more) == done + [Concat(line)] + Bytes(more)
    ensures done + Bytes([line]) == done + [Concat(line)]
  {
    assert ([line] + more)[0] == line && ([line] + more)[1..] == more;
    assert [line][1..] == [];
    assert Bytes([line]) == [Concat(line)] + Bytes([]);
  }

  lemma {:induction false} LastStep(ms: seq<seq<Byte>>, done: seq<seq<Byte>>, m: seq<Byte>)
    ensures Last(Last(ms + done, MAX_MESSAGES) + [m], MAX_MESSAGES) == Last(ms + (done + [m]), MAX_MESSAGES)
  {
    assert ms + (done + [m]) == (ms + done) + [m];
  }

  lemma {:induction false} LongerLine(w: Measure, line: seq<Char>, c: Char)
    requires c != []
    ensures Concat(line + [c]) == Concat(line) + c && Width(w, line + [c]) == Width(w, line) + w(c)
    ensures Concat(line + [c]) != [] && Concat<Byte>([]) == []
  {
    ConcatSnoc(line, c);
    WidthSnoc(w, line, c);
  }

  /** Where the loop ends, no piece is left. */
  lemma {:induction false} NoPiece(text: seq<Byte>, pos: int, w: Measure, line: seq<Char>)
    requires 0 <= pos <= |text| && (pos == |text| || Split(text[pos..]) == [])
    ensures Wrap(w, Split(text[pos..]), line) == (if line == [] then [] else [line]) && Bytes([]) == []
  {
    if pos == |text| { assert text[pos..] == []; }
  }

  lemma {:induction false} Start(w: Measure, text: seq<Byte>)
    ensures text[0..] == text && Concat<Byte>([]) == [] && Width(w, []) == 0 && MAX_WIDTH == 300 && MAX_MESSAGES == 50
    ensures Messages(w, text) == if w(text) <= MAX_WIDTH then [text] else Bytes(Wrap(w, Split(text), []))
    ensures [] + Bytes(Wrap(w, Split(text), [])) == Bytes(Wrap(w, Split(text), []))
  {
  }

  lemma {:induction false} LastOfNothing(b: EditBox)
    requires b.Valid()
    ensures Last(b.messageList + [], MAX_MESSAGES) == b.messageList
  {
  }

  // ---------------------------------------------------------------- what the messages say

  ghost predicate AllWellFormed(chars: seq<Char>) {
    forall i :: 0 <= i < |chars| ==> WellFormed(chars[i])
  }

  /** The font measures a well-formed text as the sum of its code points. */
  ghost predicate Additive(w: Measure) {
    forall chars :: AllWellFormed(chars) ==> w(Concat(chars)) == Width(w, chars)
  }

  /** What the lines hold is what the text holds. */
  lemma {:induction false} InConcat(lines: seq<seq<Char>>, k: int, j: int)
    requires 0 <= k < |lines| && 0 <= j < |lines[k]|
    ensures lines[k][j] in Concat(lines)
  {
    if k == 0 {
      assert Concat(lines)[j] == lines[0][j];
    } else {
      InConcat(lines[1..], k - 1, j);
    }
  }

  lemma {:induction false} LinesWellFormed(lines: seq<seq<Char>>)
    requires AllWellFormed(Concat(lines))
    ensures forall k :: 0 <= k < |lines| ==> AllWellFormed(lines[k])
  {
    hide Concat, WellFormed;
    forall k, j | 0 <= k < |lines| && 0 <= j < |lines[k]|
      ensures WellFormed(lines[k][j])
    {
      InConcat(lines, k, j);
    }
  }

  /** For a well-formed text and an additive font: the messages together are the text, each of them is
      a run of whole code points, all of them fit exactly when every code point does, and no division
      into lines that fit has fewer. */
  lemma {:induction false} MessagesAreTheText(w: Measure, chars: seq<Char>) returns (lines: seq<seq<Char>>)
    requires Additive(w) && chars != [] && AllWellFormed(chars)
    ensures Messages(w, Concat(chars)) == Bytes(lines) && Concat(lines) == chars
    ensures (forall i :: 0 <= i < |lines| ==> w(Messages(w, Concat(chars))[i]) <= MAX_WIDTH)
       <==> (forall i :: 0 <= i < |chars| ==> w(chars[i]) <= MAX_WIDTH)
    ensures forall other: seq<seq<Char>> :: Concat(other) == chars && (forall i :: 0 <= i < |other| ==> FitsWidth(w, other[i])) ==>
      |lines| <= |other|
  {
    hide *;
    lines := Wrap(w, chars, []);
    OpenText(chars);
    SplitIsExact(chars);
    WrapKeepsText(w, chars, []);
    assert [] + chars == chars;
    MessagesFrom(w, chars);
    LinesWellFormed(lines);
    WidthsOf(w, lines);
    AllFitIff(w, chars);
    forall i | 0 <= i < |lines|
      ensures w(Bytes(lines)[i]) <= MAX_WIDTH <==> FitsWidth(w, lines[i])
    {
      FitsIs(w, lines[i]);
    }
    forall other: seq<seq<Char>> | Concat(other) == chars && forall i :: 0 <= i < |other| ==> FitsWidth(w, other[i])
      ensures |lines| <= |other|
    {
      WrapIsMinimal(w, other);
    }
  }

  lemma {:induction false} OpenText(chars: seq<Char>)
    requires AllWellFormed(chars)
    ensures forall i :: 0 <= i < |chars| ==> WellFormed(chars[i])
  {
  }

  lemma {:induction false} FitsIs(w: Measure, line: seq<Char>)
    ensures FitsWidth(w, line) <==> Width(w, line) <= MAX_WIDTH
  {
  }

  lemma {:induction false} WidthsOf(w: Measure, lines: seq<seq<Char>>)
    requires Additive(w) && forall k :: 0 <= k < |lines| ==> AllWellFormed(lines[k])
    ensures forall i :: 0 <= i < |lines| ==> w(Bytes(lines)[i]) == Width(w, lines[i])
  {
    hide Bytes, Width, AllWellFormed;
  }

  /** Both ways of adding a text make the same messages of it. */
  lemma {:induction false} MessagesFrom(w: Measure, chars: seq<Char>)
    requires Additive(w) && chars != [] && AllWellFormed(chars) && Split(Concat(chars)) == chars
    ensures Messages(w, Concat(chars)) == Bytes(Wrap(w, chars, []))
  {
    hide Wrap, Split, Concat, Width, AllWellFormed;
    if w(Concat(chars)) <= MAX_WIDTH {
      assert FitsWidth(w, chars);
      OneLine(w, chars);
      BytesStep(chars, [], []);
    }
  }
}
