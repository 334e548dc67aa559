/** `generate_questions` (app.py) once the text-generation call has answered, and
    the numbered listing of the questions posted to the transcript. */
module Questions {
  import opened Text

  /** What a call to the text-generation service produced: the generated text,
      or the message of the exception it raised. */
  datatype Reply = Responded(text: string) | Failed(message: string)

  const NoQuestionsPlaceholder := "Error generating questions."

  /** `[q for q in lines if q]`: the non-empty lines, in order. Exactly the
      occurrences of `""` are dropped; every other line is kept as often as it occurs. */
  function DropEmpty(lines: seq<string>): (r: seq<string>)
    ensures forall k :: 0 <= k < |r| ==> r[k] != []
    ensures multiset(r) == multiset(lines)[[] := 0]
  {
    if lines == [] then []
    else
      assert lines == [lines[0]] + lines[1..];
      (if lines[0] == [] then [] else [lines[0]]) + DropEmpty(lines[1..])
  }

  /** Filtering distributes over concatenation, so the kept lines stay in their order. */
  lemma {:induction false} DropEmptyAppend(a: seq<string>, b: seq<string>)
    ensures DropEmpty(a + b) == DropEmpty(a) + DropEmpty(b)
    decreases |a|
  {
    if a != [] {
      assert (a + b)[1..] == a[1..] + b;
      DropEmptyAppend(a[1..], b);
    } else {
      assert a + b == b;
    }
  }

  /** Lines that are all non-empty pass through unchanged. */
  lemma {:induction false} DropEmptyKeepsNonEmpty(lines: seq<string>)
    requires forall k :: 0 <= k < |lines| ==> lines[k] != []
    ensures DropEmpty(lines) == lines
    decreases |lines|
  {
    if lines != [] {
      DropEmptyKeepsNonEmpty(lines[1..]);
      assert [lines[0]] + lines[1..] == lines;
    }
  }

  /** `generate_questions` after the call returned `reply`: the non-empty lines of
      the stripped text for a non-empty reply, the placeholder for an empty one,
      and a single `API Error:` entry when the call raised. No entry is ever `""`. */
  function GenerateQuestions(reply: Reply): (qs: seq<string>)
    ensures forall k :: 0 <= k < |qs| ==> qs[k] != []
    ensures reply.Failed? ==> qs == ["API Error: " + reply.message]
    ensures reply == Responded([]) ==> qs == [NoQuestionsPlaceholder]
  {
    match reply
    case Failed(e) => ["API Error: " + e]
    case Responded(text) =>
      if text == [] then [NoQuestionsPlaceholder] else DropEmpty(Split(Strip(text), '\n'))
  }

  /** For a non-empty reply every question is a line of the stripped text without
      its newline, and every non-empty line of it is a question, as often as it occurs. */
  lemma QuestionsAreTheNonEmptyLines(text: string)
    requires text != []
    ensures var qs := GenerateQuestions(Responded(text));
            var lines := Split(Strip(text), '\n');
            && (forall k :: 0 <= k < |qs| ==> qs[k] in lines && '\n' !in qs[k])
            && (forall line :: line in lines && line != [] ==> multiset(qs)[line] == multiset(lines)[line])
  {
    var qs := GenerateQuestions(Responded(text));
    var lines := Split(Strip(text), '\n');
    forall k | 0 <= k < |qs|
      ensures qs[k] in lines && '\n' !in qs[k]
    {
      assert qs[k] in multiset(qs);
    }
  }

  /** The list is empty exactly when the reply was non-empty but all whitespace;
      in every other case at least one question (possibly a placeholder) results. */
  lemma NoQuestionsIff(reply: Reply)
    ensures GenerateQuestions(reply) == [] <==>
      reply.Responded? && reply.text != [] && forall k :: 0 <= k < |reply.text| ==> IsSpace(reply.text[k])
  {
    if reply.Responded? && reply.text != [] {
      var t := Strip(reply.text);
      if t != [] {
        var lines := Split(t, '\n');
        assert t[0] != '\n';
        assert lines[0] == [t[0]] + Split(t[1..], '\n')[0];
        assert DropEmpty(lines) == [lines[0]] + DropEmpty(lines[1..]);
      } else {
        assert Split(t, '\n') == [[]];
        assert DropEmpty([[]]) == [];
      }
    }
  }

  /** When the stripped reply has no blank line, the questions are all its lines:
      joining them with newlines rebuilds the stripped reply. */
  lemma QuestionsRejoin(text: string)
    requires text != []
    requires forall k :: 0 <= k < |Split(Strip(text), '\n')| ==> Split(Strip(text), '\n')[k] != []
    ensures Join(GenerateQuestions(Responded(text)), "\n") == Strip(text)
  {
    DropEmptyKeepsNonEmpty(Split(Strip(text), '\n'));
    JoinSplit(Strip(text), '\n');
  }

  /** A reply made of non-empty lines without outer whitespace yields those lines. */
  lemma QuestionsOfJoinedLines(lines: seq<string>)
    requires |lines| >= 1
    requires forall k :: 0 <= k < |lines| ==> lines[k] != [] && '\n' !in lines[k]
    requires !IsSpace(lines[0][0]) && !IsSpace(lines[|lines| - 1][|lines[|lines| - 1]| - 1])
    ensures GenerateQuestions(Responded(Join(lines, "\n"))) == lines
  {
    var text := Join(lines, "\n");
    JoinStartsAndEnds(lines, "\n");
    StripKeepsTrimmed(text);
    SplitJoin(lines, '\n');
    DropEmptyKeepsNonEmpty(lines);
  }

  /** A join of non-empty parts starts with the first part's first character and
      ends with the last part's last character. */
  lemma {:induction false} JoinStartsAndEnds(parts: seq<string>, sep: string)
    requires |parts| >= 1 && forall k :: 0 <= k < |parts| ==> parts[k] != []
    ensures var j := Join(parts, sep);
            |j| >= 1 && j[0] == parts[0][0] && j[|j| - 1] == parts[|parts| - 1][|parts[|parts| - 1]| - 1]
    decreases |parts|
  {
    if |parts| > 1 {
      JoinStartsAndEnds(parts[1..], sep);
    }
  }

  /** An all-whitespace line between two questions is kept: only `""` is dropped. */
  lemma WhitespaceLineIsKept()
    ensures GenerateQuestions(Responded("Q1\n \nQ2")) == ["Q1", " ", "Q2"]
  {
    assert Join(["Q1", " ", "Q2"], "\n") == "Q1\n \nQ2";
    QuestionsOfJoinedLines(["Q1", " ", "Q2"]);
  }

  /** A reply of nothing but whitespace yields no question at all. */
  lemma WhitespaceReplyYieldsNothing()
    ensures GenerateQuestions(Responded(" \n\t\n")) == []
  {
  }

  /** Five newline-separated questions come back as five questions. */
  lemma FiveQuestions()
    ensures GenerateQuestions(Responded("Q1\nQ2\nQ3\nQ4\nQ5")) == ["Q1", "Q2", "Q3", "Q4", "Q5"]
  {
    assert Join(["Q1", "Q2", "Q3", "Q4", "Q5"], "\n") == "Q1\nQ2\nQ3\nQ4\nQ5";
    QuestionsOfJoinedLines(["Q1", "Q2", "Q3", "Q4", "Q5"]);
  }

  /** `[f"{i+1}. {q}" for i, q in enumerate(qs)]`. */
  function Numbered(qs: seq<string>): (lines: seq<string>)
    ensures |lines| == |qs|
  {
    seq(|qs|, i requires 0 <= i < |qs| => Decimal(i + 1) + ". " + qs[i])
  }

  /** The body of the listing: the numbered questions joined by newlines. */
  function QuestionsText(qs: seq<string>): string {
    Join(Numbered(qs), "\n")
  }

  /** Line `i` of the listing reads back as the number `i + 1`, then `". "`, then
      question `i`, and holds no newline when the question holds none. */
  lemma NumberedLine(qs: seq<string>, i: nat)
    requires i < |qs|
    ensures var line := Numbered(qs)[i];
            var n := |Decimal(i + 1)|;
            && n <= |line|
            && (forall c :: 0 <= c < n ==> IsDigit(line[c]))
            && ParseDecimal(line[..n]) == i + 1
            && line[n..] == ". " + qs[i]
            && ('\n' !in qs[i] ==> '\n' !in line)
  {
    var line := Numbered(qs)[i];
    var d := Decimal(i + 1);
    assert line == d + ". " + qs[i];
    assert line[..|d|] == d;
    ParseDecimalOfDecimal(i + 1);
    assert '\n' !in d by {
      forall c | 0 <= c < |d| ensures d[c] != '\n' {
        assert IsDigit(d[c]);
      }
    }
  }

  /** When no question holds a newline, the listing has one line per question, in
      order: line `i` reads back as the number `i + 1`, then `". "`, then question `i`. */
  lemma QuestionsTextLines(qs: seq<string>)
    requires qs != []
    requires forall k :: 0 <= k < |qs| ==> '\n' !in qs[k]
    ensures var lines := Split(QuestionsText(qs), '\n');
            && lines == Numbered(qs)
            && |lines| == |qs|
            && forall i :: 0 <= i < |qs| ==>
                 var n := |Decimal(i + 1)|;
                 && n <= |lines[i]|
                 && (forall c :: 0 <= c < n ==> IsDigit(lines[i][c]))
                 && ParseDecimal(lines[i][..n]) == i + 1
                 && lines[i][n..] == ". " + qs[i]
  {
    var numbered := Numbered(qs);
    forall k | 0 <= k < |numbered|
      ensures '\n' !in numbered[k]
    {
      NumberedLine(qs, k);
    }
    SplitJoin(numbered, '\n');
    forall i | 0 <= i < |qs|
      ensures var n := |Decimal(i + 1)|;
              && n <= |numbered[i]|
              && (forall c :: 0 <= c < n ==> IsDigit(numbered[i][c]))
              && ParseDecimal(numbered[i][..n]) == i + 1
              && numbered[i][n..] == ". " + qs[i]
    {
      NumberedLine(qs, i);
    }
  }

  /** Questions generated from a reply hold no newline, so the listing shows one per line. */
  lemma RepliedQuestionsAreSingleLines(text: string)
    ensures forall k :: 0 <= k < |GenerateQuestions(Responded(text))| ==>
              '\n' !in GenerateQuestions(Responded(text))[k]
  {
    if text != [] {
      QuestionsAreTheNonEmptyLines(text);
    }
  }
}
