/** The greedy word wrap of `TextRenderComponent`, as functions on the word
    sequence. Each word is measured together with the separator that follows
    it, by the font's `stringWidth` (`width`); a word goes on the current line
    when the running width plus its own stays within the line length, and
    otherwise starts a new line. A line is a group of words, each followed by
    the separator. */
module TextLayout {

  /** The width the layout charges for one word: `stringWidth(word + sep)`. */
  function WordWidth(width: string -> int, sep: string, word: string): real
  {
    width(word + sep) as real
  }

  /** The text of a line: every word followed by the separator. */
  function Join(g: seq<string>, sep: string): string
  {
    if g == [] then "" else Join(g[..|g| - 1], sep) + g[|g| - 1] + sep
  }

  /** The running width the layout reaches after the words of `g`. */
  function SumWidth(g: seq<string>, sep: string, width: string -> int): real
  {
    if g == [] then 0.0 else SumWidth(g[..|g| - 1], sep, width) + WordWidth(width, sep, g[|g| - 1])
  }

  function Flatten(gs: seq<seq<string>>): seq<string>
  {
    if gs == [] then [] else Flatten(gs[..|gs| - 1]) + gs[|gs| - 1]
  }

  function Concat(lines: seq<string>): string
  {
    if lines == [] then "" else Concat(lines[..|lines| - 1]) + lines[|lines| - 1]
  }

  /** The wrap loop from a given state: `done` holds the finished lines, `cur`
      the words of the line being built, `cx` the running width. */
  function GroupAcc(words: seq<string>, sep: string, width: string -> int, lineLength: real,
                    done: seq<seq<string>>, cur: seq<string>, cx: real): seq<seq<string>>
    decreases |words|
  {
    if words == [] then done + [cur]
    else
      var length := WordWidth(width, sep, words[0]);
      if cx + length <= lineLength
      then GroupAcc(words[1..], sep, width, lineLength, done, cur + [words[0]], cx + length)
      else GroupAcc(words[1..], sep, width, lineLength, done + [cur], [words[0]], length)
  }

  /** The words of each line, from an empty first line at width 0. */
  function Groups(words: seq<string>, sep: string, width: string -> int, lineLength: real): seq<seq<string>>
  {
    GroupAcc(words, sep, width, lineLength, [], [], 0.0)
  }

  function Lines(gs: seq<seq<string>>, sep: string): (lines: seq<string>)
    ensures |lines| == |gs|
  {
    seq(|gs|, i requires 0 <= i < |gs| => Join(gs[i], sep))
  }

  /** The lines `draw` computes for a word sequence. */
  function Wrap(words: seq<string>, sep: string, width: string -> int, lineLength: real): seq<string>
  {
    Lines(Groups(words, sep, width, lineLength), sep)
  }

  /** A line's words fit: the first line's, and those of any line of two or
      more words, add up to at most the line length. */
  ghost predicate Fits(g: seq<string>, first: bool, sep: string, width: string -> int, lineLength: real)
  {
    g != [] && (first || |g| >= 2) ==> SumWidth(g, sep, width) <= lineLength
  }

  /** A line was started for a reason: it has a first word, and that word
      did not fit on the line before it. */
  ghost predicate BreakJustified(prev: seq<string>, g: seq<string>, sep: string, width: string -> int, lineLength: real)
  {
    g != [] && SumWidth(prev, sep, width) + WordWidth(width, sep, g[0]) > lineLength
  }

  ghost predicate WellWrapped(gs: seq<seq<string>>, sep: string, width: string -> int, lineLength: real)
  {
    && (forall i :: 0 <= i < |gs| ==> Fits(gs[i], i == 0, sep, width, lineLength))
    && (forall i :: 0 < i < |gs| ==> BreakJustified(gs[i - 1], gs[i], sep, width, lineLength))
  }

  lemma JoinAppend(a: seq<string>, b: seq<string>, sep: string)
    ensures Join(a + b, sep) == Join(a, sep) + Join(b, sep)
    decreases |b|
  {
    if b != [] {
      var last := b[|b| - 1];
      assert (a + b)[..|a + b| - 1] == a + b[..|b| - 1];
      assert (a + b)[|a + b| - 1] == last;
      JoinAppend(a, b[..|b| - 1], sep);
      calc {
        Join(a + b, sep);
        Join(a + b[..|b| - 1], sep) + last + sep;
        Join(a, sep) + Join(b[..|b| - 1], sep) + last + sep;
        Join(a, sep) + (Join(b[..|b| - 1], sep) + last + sep);
        Join(a, sep) + Join(b, sep);
      }
    } else {
      assert a + b == a;
    }
  }

  lemma LinesAppend(gs: seq<seq<string>>, g: seq<string>, sep: string)
    ensures Lines(gs + [g], sep) == Lines(gs, sep) + [Join(g, sep)]
  {
  }

  lemma {:induction false} ConcatLines(gs: seq<seq<string>>, sep: string)
    ensures Concat(Lines(gs, sep)) == Join(Flatten(gs), sep)
    decreases |gs|
  {
    if gs != [] {
      var n := |gs| - 1;
      assert gs == gs[..n] + [gs[n]];
      LinesAppend(gs[..n], gs[n], sep);
      assert Lines(gs, sep)[..n] == Lines(gs[..n], sep);
      ConcatLines(gs[..n], sep);
      JoinAppend(Flatten(gs[..n]), gs[n], sep);
    }
  }

  lemma {:induction false} FlattenGroupAcc(words: seq<string>, sep: string, width: string -> int, lineLength: real,
                                           done: seq<seq<string>>, cur: seq<string>, cx: real)
    ensures Flatten(GroupAcc(words, sep, width, lineLength, done, cur, cx)) == Flatten(done) + cur + words
    decreases |words|
  {
    if words == [] {
      assert (done + [cur])[..|done|] == done;
    } else {
      var w := words[0];
      var length := WordWidth(width, sep, w);
      assert words == [w] + words[1..];
      if cx + length <= lineLength {
        FlattenGroupAcc(words[1..], sep, width, lineLength, done, cur + [w], cx + length);
      } else {
        FlattenGroupAcc(words[1..], sep, width, lineLength, done + [cur], [w], length);
        assert (done + [cur])[..|done|] == done;
      }
    }
  }

  /** The loop only appends: the finished lines are kept, and the line in
      progress is a prefix of the line it becomes. */
  lemma {:induction false} GroupAccExtends(words: seq<string>, sep: string, width: string -> int, lineLength: real,
                                           done: seq<seq<string>>, cur: seq<string>, cx: real)
    ensures var r := GroupAcc(words, sep, width, lineLength, done, cur, cx);
            |r| > |done| && r[..|done|] == done && cur <= r[|done|]
    decreases |words|
  {
    if words != [] {
      var w := words[0];
      var length := WordWidth(width, sep, w);
      if cx + length <= lineLength {
        GroupAccExtends(words[1..], sep, width, lineLength, done, cur + [w], cx + length);
      } else {
        GroupAccExtends(words[1..], sep, width, lineLength, done + [cur], [w], length);
        var r := GroupAcc(words, sep, width, lineLength, done, cur, cx);
        assert r[..|done| + 1][..|done|] == r[..|done|];
      }
    }
  }

  lemma ExtendCurrent(done: seq<seq<string>>, cur: seq<string>, w: string, sep: string,
                      width: string -> int, lineLength: real)
    requires WellWrapped(done + [cur], sep, width, lineLength)
    requires SumWidth(cur + [w], sep, width) <= lineLength
    ensures WellWrapped(done + [cur + [w]], sep, width, lineLength)
  {
    ExtendCurrentFits(done, cur, w, sep, width, lineLength);
    ExtendCurrentBreaks(done, cur, w, sep, width, lineLength);
  }

  lemma ExtendCurrentFits(done: seq<seq<string>>, cur: seq<string>, w: string, sep: string,
                          width: string -> int, lineLength: real)
    requires forall i :: 0 <= i < |done + [cur]| ==> Fits((done + [cur])[i], i == 0, sep, width, lineLength)
    requires SumWidth(cur + [w], sep, width) <= lineLength
    ensures forall i :: 0 <= i < |done + [cur + [w]]| ==> Fits((done + [cur + [w]])[i], i == 0, sep, width, lineLength)
  {
    var before, after := done + [cur], done + [cur + [w]];
    forall i | 0 <= i < |after|
      ensures Fits(after[i], i == 0, sep, width, lineLength)
    {
      if i < |done| {
        assert after[i] == before[i];
      }
    }
  }

  lemma ExtendCurrentBreaks(done: seq<seq<string>>, cur: seq<string>, w: string, sep: string,
                            width: string -> int, lineLength: real)
    requires forall i :: 0 < i < |done + [cur]| ==> BreakJustified((done + [cur])[i - 1], (done + [cur])[i], sep, width, lineLength)
    ensures forall i :: 0 < i < |done + [cur + [w]]| ==> BreakJustified((done + [cur + [w]])[i - 1], (done + [cur + [w]])[i], sep, width, lineLength)
  {
    var before, after := done + [cur], done + [cur + [w]];
    forall i | 0 < i < |after|
      ensures BreakJustified(after[i - 1], after[i], sep, width, lineLength)
    {
      assert BreakJustified(before[i - 1], before[i], sep, width, lineLength);
      assert after[i - 1] == before[i - 1];
      if i < |done| {
        assert after[i] == before[i];
      } else {
        assert before[i] == cur;
        assert after[i][0] == cur[0];
      }
    }
  }

  lemma StartLine(done: seq<seq<string>>, cur: seq<string>, w: string, sep: string,
                  width: string -> int, lineLength: real)
    requires WellWrapped(done + [cur], sep, width, lineLength)
    requires SumWidth(cur, sep, width) + WordWidth(width, sep, w) > lineLength
    ensures WellWrapped(done + [cur] + [[w]], sep, width, lineLength)
  {
    var before, after := done + [cur], done + [cur] + [[w]];
    forall i | 0 <= i < |after|
      ensures Fits(after[i], i == 0, sep, width, lineLength)
    {
      if i < |before| {
        assert after[i] == before[i];
      }
    }
    forall i | 0 < i < |after|
      ensures BreakJustified(after[i - 1], after[i], sep, width, lineLength)
    {
      if i < |before| {
        assert after[i] == before[i] && after[i - 1] == before[i - 1];
        assert BreakJustified(before[i - 1], before[i], sep, width, lineLength);
      }
    }
  }

  lemma {:induction false} GroupAccWellWrapped(words: seq<string>, sep: string, width: string -> int, lineLength: real,
                                               done: seq<seq<string>>, cur: seq<string>, cx: real)
    requires WellWrapped(done + [cur], sep, width, lineLength)
    requires cx == SumWidth(cur, sep, width)
    ensures WellWrapped(GroupAcc(words, sep, width, lineLength, done, cur, cx), sep, width, lineLength)
    decreases |words|
  {
    if words != [] {
      var w := words[0];
      var length := WordWidth(width, sep, w);
      if cx + length <= lineLength {
        assert (cur + [w])[..|cur|] == cur;
        ExtendCurrent(done, cur, w, sep, width, lineLength);
        GroupAccWellWrapped(words[1..], sep, width, lineLength, done, cur + [w], cx + length);
      } else {
        StartLine(done, cur, w, sep, width, lineLength);
        assert SumWidth([w], sep, width) == length;
        GroupAccWellWrapped(words[1..], sep, width, lineLength, done + [cur], [w], length);
      }
    }
  }

  /** Concatenating the groups gives back the words in order, and
      concatenating the lines gives every word followed by the separator. */
  lemma WrapKeepsWords(words: seq<string>, sep: string, width: string -> int, lineLength: real)
    ensures Flatten(Groups(words, sep, width, lineLength)) == words
    ensures Concat(Wrap(words, sep, width, lineLength)) == Join(words, sep)
  {
    FlattenGroupAcc(words, sep, width, lineLength, [], [], 0.0);
    ConcatLines(Groups(words, sep, width, lineLength), sep);
  }

  /** There is always at least one line. */
  lemma WrapHasALine(words: seq<string>, sep: string, width: string -> int, lineLength: real)
    ensures |Wrap(words, sep, width, lineLength)| >= 1
  {
    GroupAccExtends(words, sep, width, lineLength, [], [], 0.0);
  }

  /** The layout is greedy and sound: every line after the first is
      non-empty and was begun only because its first word did not fit after
      the line before it; the first line, and every line of two or more
      words, stays within the line length. */
  lemma WrapIsGreedy(words: seq<string>, sep: string, width: string -> int, lineLength: real)
    ensures WellWrapped(Groups(words, sep, width, lineLength), sep, width, lineLength)
  {
    GroupAccWellWrapped(words, sep, width, lineLength, [], [], 0.0);
  }

  /** The first line has no words exactly when there are no words or the
      first word alone is wider than the line. */
  lemma FirstGroupEmpty(words: seq<string>, sep: string, width: string -> int, lineLength: real)
    ensures var gs := Groups(words, sep, width, lineLength);
            |gs| >= 1 && (gs[0] == [] <==> words == [] || WordWidth(width, sep, words[0]) > lineLength)
  {
    if words != [] {
      var w := words[0];
      var length := WordWidth(width, sep, w);
      if 0.0 + length <= lineLength {
        var none: seq<string> := [];
        assert none + [w] == [w];
        assert Groups(words, sep, width, lineLength) == GroupAcc(words[1..], sep, width, lineLength, [], [w], length);
        GroupAccExtends(words[1..], sep, width, lineLength, [], [w], length);
      } else {
        var empty: seq<seq<string>> := [];
        assert empty + [[]] == [[]];
        assert Groups(words, sep, width, lineLength) == GroupAcc(words[1..], sep, width, lineLength, [[]], [w], length);
        GroupAccExtends(words[1..], sep, width, lineLength, [[]], [w], length);
      }
    }
  }

  /** With a non-empty separator, the first line is the empty string
      exactly when there are no words or the first word alone does not fit:
      the empty first line of the wrap. */
  lemma FirstLineEmpty(words: seq<string>, sep: string, width: string -> int, lineLength: real)
    requires sep != ""
    ensures var lines := Wrap(words, sep, width, lineLength);
            |lines| >= 1 && (lines[0] == "" <==> words == [] || WordWidth(width, sep, words[0]) > lineLength)
  {
    FirstGroupEmpty(words, sep, width, lineLength);
  }
}
