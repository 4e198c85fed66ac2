/** The two truncations of tool output in stages.py. */
module ToolOutput {
  import opened Wrappers

  const Limit: nat := 4000
  const Half: nat := 2000
  const LogLimit: nat := 1200

  function Digit(n: nat): char
    requires n < 10
  {
    ['0', '1', '2', '3', '4', '5', '6', '7', '8', '9'][n]
  }

  function Small(n: nat): (r: string)
    requires n < 1000
    ensures 1 <= |r| <= 3
  {
    if n < 10 then [Digit(n)]
    else if n < 100 then [Digit(n / 10), Digit(n % 10)]
    else Padded(n)
  }

  function Padded(n: nat): (r: string)
    requires n < 1000
    ensures |r| == 3
  {
    [Digit(n / 100), Digit(n / 10 % 10), Digit(n % 10)]
  }

  /** A count with commas between the thousands. */
  function Commas(n: nat): (r: string)
    ensures n < 1000 <==> |r| < 4
  {
    if n < 1000 then Small(n) else Commas(n / 1000) + "," + Padded(n % 1000)
  }

  function NoticeHead(): (r: string)
    ensures r != ""
  {
    "\n\n(byoai-runtime truncation notice: "
  }

  function NoticeTail(): string {
    " chars omitted from middle here; non-log tool output, safe length cap only)\n\n"
  }

  function Notice(omitted: nat): (r: string)
    ensures r != ""
  {
    NoticeHead() + Commas(omitted) + NoticeTail()
  }

  function TruncateGeneric(text: string): string {
    if |text| <= Limit then text
    else text[..Half] + Notice(|text| - Limit) + text[|text| - Half..]
  }

  // ----- log-like output

  function Lines(text: string): (r: seq<string>)
    ensures r != []
  {
    LinesFrom(text, "")
  }

  function LinesFrom(text: string, line: string): (r: seq<string>)
    ensures r != []
    decreases text
  {
    if text == "" then [line]
    else if text[0] == '\n' then [line] + LinesFrom(text[1..], "")
    else LinesFrom(text[1..], line + [text[0]])
  }

  function Join(lines: seq<string>): string {
    if lines == [] then "" else if |lines| == 1 then lines[0] else lines[0] + "\n" + Join(lines[1..])
  }

  predicate Contains(s: string, sub: string) {
    sub <= s || (s != "" && Contains(s[1..], sub))
  }

  predicate IsError(line: string) {
    Contains(line, "FAIL") || Contains(line, "ERROR") || Contains(line, "Traceback") || Contains(line, "Exception")
  }

  function Errors(lines: seq<string>): (r: seq<string>)
    ensures forall x :: x in r <==> x in lines && IsError(x)
  {
    if lines == [] then [] else (if IsError(lines[0]) then [lines[0]] else []) + Errors(lines[1..])
  }

  function ErrorLinesNotice(): string {
    "(byoai-runtime truncation notice: verbose test/log output pruned to error lines)"
  }

  function CutNotice(): string {
    "(byoai-runtime truncation notice: large log-like tool output truncated here)"
  }

  function TruncateLogLike(text: string): string {
    if |text| <= LogLimit then text
    else
      var errors := Errors(Lines(text));
      if errors != [] then Join(LastN(errors, 25)) + "\n\n" + ErrorLinesNotice()
      else text[..600] + "\n\n" + CutNotice()
  }

  function Lower(s: string): string {
    seq(|s|, i requires 0 <= i < |s| => if 'A' <= s[i] <= 'Z' then (s[i] as int + 32) as char else s[i])
  }

  predicate IsLogTool(name: string) {
    var n := Lower(name);
    Contains(n, "bash") || Contains(n, "shell") || Contains(n, "execute") || Contains(n, "run")
        || Contains(n, "terminal")
  }

  /** What becomes of a long output of the named tool. */
  function Truncated(tool: string, text: string): string {
    if IsLogTool(tool) then TruncateLogLike(text) else TruncateGeneric(text)
  }

  // ----- a second truncation

  lemma PaddedInjective(a: nat, b: nat)
    requires a < 1000 && b < 1000 && Padded(a) == Padded(b)
    ensures a == b
  {
    assert Padded(a)[0] == Padded(b)[0] && Padded(a)[1] == Padded(b)[1] && Padded(a)[2] == Padded(b)[2];
    hide Digit, Padded;
    DigitInjective(a / 100, b / 100);
    DigitInjective(a / 10 % 10, b / 10 % 10);
    DigitInjective(a % 10, b % 10);
    ThreeDigits(a);
    ThreeDigits(b);
  }

  lemma ThreeDigits(n: nat)
    requires n < 1000
    ensures n == 100 * (n / 100) + 10 * (n / 10 % 10) + n % 10
  {
  }

  lemma DigitInjective(a: nat, b: nat)
    requires a < 10 && b < 10
    ensures Digit(a) == Digit(b) ==> a == b
  {
  }

  lemma SmallInjective(a: nat, b: nat)
    requires a < 1000 && b < 1000 && Small(a) == Small(b)
    ensures a == b
  {
    var s := Small(a);
    if |s| == 1 {
      assert Small(b)[0] == s[0];
    } else if |s| == 2 {
      assert Small(b)[0] == s[0] && Small(b)[1] == s[1];
      DigitInjective(a / 10, b / 10);
      DigitInjective(a % 10, b % 10);
    } else {
      PaddedInjective(a, b);
    }
  }

  lemma {:induction false} CommasInjective(a: nat, b: nat)
    requires Commas(a) == Commas(b)
    ensures a == b
  {
    if a < 1000 {
      SmallInjective(a, b);
    } else {
      var x, y := Commas(a / 1000) + ",", Commas(b / 1000) + ",";
      var s := Commas(a);
      assert s == x + Padded(a % 1000) == y + Padded(b % 1000);
      assert s[|s| - 3..] == Padded(a % 1000) == Padded(b % 1000);
      assert s[..|s| - 4] == Commas(a / 1000) == Commas(b / 1000);
      PaddedInjective(a % 1000, b % 1000);
      CommasInjective(a / 1000, b / 1000);
    }
  }

  lemma Middle(head: string, x: string, y: string, tail: string)
    requires head + x + tail == head + y + tail
    ensures x == y
  {
    var s := head + x + tail;
    assert |x| == |y|;
    assert s[|head|..|head| + |x|] == x && s[|head|..|head| + |y|] == y;
  }

  lemma NoticeInjective(a: nat, b: nat)
    ensures Notice(a) == Notice(b) <==> a == b
  {
    hide Commas, NoticeHead, NoticeTail;
    if Notice(a) == Notice(b) {
      Middle(NoticeHead(), Commas(a), Commas(b), NoticeTail());
      CommasInjective(a, b);
    }
  }

  lemma Cut(head: string, middle: string, tail: string)
    requires |head| == |tail| == Half && middle != ""
    ensures TruncateGeneric(head + middle + tail) == head + Notice(|middle|) + tail
  {
    hide Notice;
    var r := head + middle + tail;
    assert r[..Half] == head && r[|r| - Half..] == tail;
  }

  /** A second pass rewrites the notice, unless the first omitted exactly as many characters as its notice has. */
  lemma AgainByNotice(text: string)
    ensures TruncateGeneric(TruncateGeneric(text)) == TruncateGeneric(text)
            <==> |text| <= Limit || |text| - Limit == |Notice(|text| - Limit)|
  {
    hide Notice;
    if |text| > Limit {
      var n := |text| - Limit;
      var head, tail, m := text[..Half], text[|text| - Half..], |Notice(n)|;
      Cut(head, Notice(n), tail);
      NoticeInjective(n, m);
      if head + Notice(m) + tail == head + Notice(n) + tail {
        Middle(head, Notice(m), Notice(n), tail);
      }
    }
  }

  // ----- lines

  lemma {:induction false} JoinLinesFrom(text: string, line: string)
    ensures Join(LinesFrom(text, line)) == line + text
    decreases text
  {
    if text == "" {
    } else if text[0] == '\n' {
      JoinLinesFrom(text[1..], "");
      assert line + text == line + "\n" + text[1..];
    } else {
      JoinLinesFrom(text[1..], line + [text[0]]);
      assert line + text == (line + [text[0]]) + text[1..];
    }
  }

  lemma {:induction false} LinesFromJoin(done: string, line: string, rest: seq<string>)
    requires '\n' !in line && forall x :: x in rest ==> '\n' !in x
    ensures LinesFrom(Join([line] + rest), done) == [done + line] + rest
    decreases rest, line
  {
    var text := Join([line] + rest);
    if line != "" {
      LinesFromJoin(done + [line[0]], line[1..], rest);
      assert text[0] == line[0] && text[1..] == Join([line[1..]] + rest);
      assert done + [line[0]] + line[1..] == done + line;
    } else if rest == [] {
      assert text == "" && done + line == done;
    } else {
      LinesFromJoin("", rest[0], rest[1..]);
      assert "" + rest[0] == rest[0] && done + line == done;
      assert [rest[0]] + rest[1..] == rest;
      assert ([line] + rest)[1..] == rest;
      assert text[0] == '\n' && text[1..] == Join(rest);
    }
  }

  lemma {:induction false} LinesHaveNoBreaks(text: string, line: string, x: string)
    requires '\n' !in line && x in LinesFrom(text, line)
    ensures '\n' !in x
    decreases text
  {
    if text != "" {
      if text[0] != '\n' {
        LinesHaveNoBreaks(text[1..], line + [text[0]], x);
      } else if x != line {
        LinesHaveNoBreaks(text[1..], "", x);
      }
    }
  }

  /** Splitting into lines and joining them are inverse on lines without breaks. */
  lemma LinesRoundTrip(text: string, lines: seq<string>)
    requires lines != [] && forall x :: x in lines ==> '\n' !in x
    ensures Join(Lines(text)) == text
    ensures Lines(Join(lines)) == lines
  {
    JoinLinesFrom(text, "");
    LinesFromJoin("", lines[0], lines[1..]);
    assert [lines[0]] + lines[1..] == lines;
    assert "" + lines[0] == lines[0] && "" + text == text;
  }

  lemma {:induction false} LinesFromAppend(a: string, b: string, line: string)
    ensures LinesFrom(a + "\n" + b, line) == LinesFrom(a, line) + Lines(b)
    decreases a
  {
    var text := a + "\n" + b;
    if a == "" {
      assert text[1..] == b;
    } else {
      assert text[1..] == a[1..] + "\n" + b;
      if a[0] == '\n' {
        LinesFromAppend(a[1..], b, "");
      } else {
        LinesFromAppend(a[1..], b, line + [a[0]]);
      }
    }
  }

  lemma AfterBlankLine(kept: string, notice: string)
    ensures Lines(kept + "\n\n" + notice) == Lines(kept) + [""] + Lines(notice)
  {
    LinesFromAppend(kept, "\n" + notice, "");
    LinesFromAppend("", notice, "");
    assert kept + "\n\n" + notice == kept + "\n" + ("\n" + notice);
    assert "" + "\n" + notice == "\n" + notice;
    assert Lines("") == [""];
  }

  /** A long log with error lines, pruned, splits into exactly the last 25 of them, a blank line and the notice. */
  lemma PrunedLogLines(text: string)
    requires |text| > LogLimit && Errors(Lines(text)) != []
    ensures Lines(TruncateLogLike(text)) == LastN(Errors(Lines(text)), 25) + [""] + Lines(ErrorLinesNotice())
  {
    hide ErrorLinesNotice, LinesFrom, Join, IsError;
    var errors := Errors(Lines(text));
    var kept := LastN(errors, 25);
    assert forall x :: x in kept ==> x in errors;
    forall x | x in kept ensures '\n' !in x {
      LinesHaveNoBreaks(text, "", x);
    }
    LinesRoundTrip(text, kept);
    AfterBlankLine(Join(kept), ErrorLinesNotice());
  }

  /** A long log without error lines keeps exactly its first 600 characters, and says so. */
  lemma LogKeepsStart(text: string)
    requires |text| > 1200 && Errors(Lines(text)) == []
    ensures var r := TruncateLogLike(text); |r| > 600 && r[..600] == text[..600] && r[600..] == "\n\n" + CutNotice()
  {
    hide CutNotice, Errors, Lines, Join, LastN, ErrorLinesNotice;
    Assoc(text[..600], "\n\n", CutNotice());
    SplitBack(text[..600], "\n\n" + CutNotice());
  }

  lemma SplitBack<T>(a: seq<T>, b: seq<T>)
    ensures (a + b)[..|a|] == a && (a + b)[|a|..] == b
  {
  }

  /** A long output of another tool keeps exactly its first and last 2000 characters, with the notice in between. */
  lemma GenericKeepsEnds(text: string)
    requires |text| > 4000
    ensures var r, n := TruncateGeneric(text), |Notice(|text| - 4000)|;
            && |r| == 4000 + n
            && r[..2000] == text[..2000] && r[2000..2000 + n] == Notice(|text| - 4000)
            && r[2000 + n..] == text[|text| - 2000..]
  {
    hide Notice;
  }

  /** The text holds the word somewhere. */
  ghost predicate Holds(text: string, word: string) {
    exists k :: 0 <= k <= |text| && word <= text[k..]
  }

  lemma {:induction false} ContainsMeaning(text: string, word: string)
    ensures Contains(text, word) <==> Holds(text, word)
  {
    if word <= text {
      assert text[0..] == text;
    } else if text != "" {
      ContainsMeaning(text[1..], word);
      if Holds(text[1..], word) {
        var k :| 0 <= k <= |text[1..]| && word <= text[1..][k..];
        assert text[1..][k..] == text[k + 1..];
      } else {
        forall k | 0 <= k <= |text| ensures !(word <= text[k..]) {
          assert k > 0 ==> text[1..][k - 1..] == text[k..];
        }
      }
    }
  }

  lemma HoldsStart(text: string, word: string, start: string)
    requires start <= word && Holds(text, word)
    ensures Holds(text, start)
  {
    var k :| 0 <= k <= |text| && word <= text[k..];
    assert start <= text[k..];
  }

  /** A tool is log-like exactly when its name, in lower case, holds one of the listed words. */
  lemma LogToolMeaning(name: string)
    ensures IsLogTool(name) <==>
              exists word :: word in ["bash", "shell", "execute", "run", "runtests", "runcommand", "terminal"]
                             && Holds(Lower(name), word)
  {
    var n := Lower(name);
    hide Lower, Holds, Contains;
    forall word ensures Contains(n, word) <==> Holds(n, word) {
      ContainsMeaning(n, word);
    }
    if Holds(n, "runtests") {
      HoldsStart(n, "runtests", "run");
    }
    if Holds(n, "runcommand") {
      HoldsStart(n, "runcommand", "run");
    }
  }

  /** A line is kept exactly when it holds one of the markers. */
  lemma ErrorLineMeaning(line: string)
    ensures IsError(line) <==>
              exists word :: word in ["FAIL", "ERROR", "Traceback", "Exception"] && Holds(line, word)
  {
    hide Holds, Contains;
    forall word ensures Contains(line, word) <==> Holds(line, word) {
      ContainsMeaning(line, word);
    }
  }

  // ----- which long outputs stay as they are

  lemma NoticeDecides(text: string)
    requires |text| > Limit
    ensures TruncateGeneric(text) == text <==> text[Half..|text| - Half] == Notice(|text| - Limit)
  {
    hide Notice;
    var head, middle, tail := text[..Half], text[Half..|text| - Half], text[|text| - Half..];
    assert text == head + middle + tail;
    if head + Notice(|text| - Limit) + tail == head + middle + tail {
      Middle(head, Notice(|text| - Limit), middle, tail);
    }
  }

  lemma SameLines(a: string, b: string)
    ensures Lines(a) == Lines(b) ==> a == b
  {
    JoinLinesFrom(a, "");
    JoinLinesFrom(b, "");
    assert "" + a == a && "" + b == b;
  }

  lemma CutIsShorter(text: string)
    requires |text| > 1200 && Errors(Lines(text)) == []
    ensures |TruncateLogLike(text)| < |text|
  {
    hide Lines;
    CutNoticeLength();
    hide CutNotice;
  }

  lemma CutNoticeLength()
    ensures |CutNotice()| < 100
  {
  }

  /** The text is its last 25 error lines, a blank line and the notice. */
  predicate IsPruned(text: string) {
    var errors := Errors(Lines(text));
    errors != [] && Lines(text) == LastN(errors, 25) + [""] + Lines(ErrorLinesNotice())
  }

  /** A long log stays as it is exactly when it has been pruned already. */
  lemma LogStays(text: string)
    requires |text| > 1200
    ensures TruncateLogLike(text) == text
            <==> IsPruned(text)
  {
    hide TruncateLogLike, Lines, Errors, ErrorLinesNotice, LastN;
    if Errors(Lines(text)) == [] {
      CutIsShorter(text);
    } else {
      PrunedLogLines(text);
      SameLines(TruncateLogLike(text), text);
    }
  }

  /** Of the outputs over 1200 characters exactly these stay as they are: from other tools, those that fit the limit;
      and those that have been truncated already. */
  lemma StaysIff(tool: string, text: string)
    requires |text| > 1200
    ensures Truncated(tool, text) == text <==>
              if IsLogTool(tool) then IsPruned(text)
              else |text| <= 4000 || text[Half..|text| - Half] == Notice(|text| - Limit)
  {
    hide Notice, IsPruned, TruncateLogLike, IsLogTool;
    if IsLogTool(tool) {
      LogStays(text);
    } else if |text| > Limit {
      NoticeDecides(text);
    }
  }

  // ----- which long outputs get shorter

  lemma {:induction false} CommasFit(n: nat)
    ensures |Commas(n)| <= n + 3
  {
    if n >= 1000 {
      CommasFit(n / 1000);
    }
  }

  /** The notice is shorter than what it stands for from 117 characters on, and as long for 116. */
  lemma NoticeFits(n: nat)
    ensures n > |Notice(n)| <==> n >= 117
    ensures n == |Notice(n)| <==> n == 116
  {
    assert |NoticeHead()| == 36 && |NoticeTail()| == 77;
    if n >= 1000 {
      CommasFit(n / 1000);
      assert |Commas(n)| == |Commas(n / 1000)| + 4;
    } else {
      assert Commas(n) == Small(n);
    }
    hide NoticeHead, NoticeTail, Commas, Small;
  }

  /** Head and tail make a text shorter exactly when it is at least 117 characters over the limit. */
  lemma GenericShorterIff(text: string)
    ensures |TruncateGeneric(text)| < |text| <==> |text| >= 4117
  {
    hide Notice;
    if |text| > Limit {
      NoticeFits(|text| - Limit);
    }
  }

  /** Truncating head and tail again changes exactly the texts over the limit, but for one length. */
  lemma TruncatingAgain(text: string)
    ensures TruncateGeneric(TruncateGeneric(text)) == TruncateGeneric(text)
            <==> |text| <= 4000 || |text| == 4116
  {
    hide Notice, TruncateGeneric;
    AgainByNotice(text);
    if |text| > Limit {
      NoticeFits(|text| - Limit);
    }
  }

  function KeptErrors(text: string): string {
    Join(LastN(Errors(Lines(text)), 25))
  }

  lemma PrunedLength(text: string)
    requires |text| > 1200 && Errors(Lines(text)) != []
    ensures |TruncateLogLike(text)| == |KeptErrors(text)| + 82
  {
    hide Lines, Join, Errors, IsError;
    assert |ErrorLinesNotice()| == 80;
    hide ErrorLinesNotice;
  }

  /** A long log gets shorter exactly when it has no error lines, or leaves out more than the 82 characters it adds. */
  lemma LogShorterIff(text: string)
    requires |text| > 1200
    ensures |TruncateLogLike(text)| < |text|
            <==> Errors(Lines(text)) == [] || |KeptErrors(text)| + 82 < |text|
  {
    hide Lines, Errors, TruncateLogLike, KeptErrors;
    if Errors(Lines(text)) == [] {
      CutIsShorter(text);
    } else {
      PrunedLength(text);
    }
  }

  /** Of the outputs over 1200 characters exactly these get shorter. */
  lemma ShorterIff(tool: string, text: string)
    requires |text| > 1200
    ensures |Truncated(tool, text)| < |text| <==>
              if IsLogTool(tool) then
                Errors(Lines(text)) == [] || |KeptErrors(text)| + 82 < |text|
              else |text| >= 4117
  {
    hide Notice, KeptErrors, Errors, Lines, ErrorLinesNotice, TruncateLogLike, TruncateGeneric, IsLogTool;
    if IsLogTool(tool) {
      LogShorterIff(text);
    } else {
      GenericShorterIff(text);
    }
  }

  /** One character over the limit: the output is longer than the text, and a second truncation changes it again. */
  lemma OneOverGrows(text: string)
    requires |text| == 4001
    ensures |TruncateGeneric(text)| > |text|
    ensures TruncateGeneric(TruncateGeneric(text)) != TruncateGeneric(text)
  {
    hide Notice;
    NoticeFits(1);
    AgainByNotice(text);
  }

  lemma {:induction false} OneLine(text: string, line: string)
    requires '\n' !in text
    ensures LinesFrom(text, line) == [line + text]
    decreases text
  {
    if text == "" {
      assert line + text == line;
    } else {
      OneLine(text[1..], line + [text[0]]);
      assert line + [text[0]] + text[1..] == line + text;
    }
  }

  /** A long log of one error line comes out whole, with the notice below. */
  lemma OneErrorLineGrows(text: string)
    requires |text| > 1200 && '\n' !in text && IsError(text)
    ensures TruncateLogLike(text) == text + "\n\n" + ErrorLinesNotice()
  {
    hide IsError, ErrorLinesNotice, LinesFrom, CutNotice;
    OneLine(text, "");
    assert "" + text == text && Lines(text) == [text];
    assert [text][1..] == [] && Errors([]) == [];
    assert Errors([text]) == [text];
    assert Join([text]) == text;
  }

  /** Up to the limit the output of a tool without a name stays as it is. */
  lemma UnnamedStays(text: string)
    requires 1200 < |text| <= 4000
    ensures Truncated("", text) == text
  {
    hide TruncateLogLike;
    assert Lower("") == "";
  }
}
