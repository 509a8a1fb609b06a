/** The component that wraps a text into lines and draws them below each
    other. The lines are recomputed on a draw only after the text changed. */
module TextRender {
  import opened Geometry
  import opened Components
  import opened TextLayout

  /** One `drawText` call: a line and where it is drawn. */
  datatype TextCall = TextCall(line: string, x: real, y: real)

  /** The line spacing for a font: its size times 1.3. */
  function Leading(font: Font): real
  {
    font.size as real * 1.3
  }

  /** Where the draw pass puts each line: all at the parent's x plus the
      offset, line `i` at `i` leadings below the parent's y plus the offset. */
  function Placed(lines: seq<string>, parent: Vec, offset: Vec, leading: real): (calls: seq<TextCall>)
    ensures |calls| == |lines|
    ensures forall i :: 0 <= i < |lines| ==>
              calls[i].line == lines[i] && calls[i].x == parent.x + offset.x
              && calls[i].y == parent.y + offset.y + i as real * leading
  {
    seq(|lines|, i requires 0 <= i < |lines| =>
      TextCall(lines[i], parent.x + offset.x, i as real * leading + parent.y + offset.y))
  }

  /** Consecutive lines are drawn exactly one leading apart. */
  lemma PlacedSpacing(lines: seq<string>, parent: Vec, offset: Vec, leading: real, i: nat)
    requires 0 < i < |lines|
    ensures Placed(lines, parent, offset, leading)[i].y - Placed(lines, parent, offset, leading)[i - 1].y == leading
  {
  }

  class TextRenderComponent {
    const name: string
    const componentType: ComponentType
    var font: Font
    var leading: real
    /** The text; `None` until `setText` is first called. */
    var text: Option<string>
    var lines: seq<string>
    var recalculate: bool
    var wordSeparator: string
    var offset: Vec
    var lineLength: real

    /** `defaultFont` is the engine's default font. */
    constructor (name: string, lineLength: real, offset: Vec, defaultFont: Font)
      ensures this.name == name && componentType == RenderComponent
      ensures font == defaultFont && leading == Leading(defaultFont)
      ensures text == None && lines == [] && recalculate
      ensures wordSeparator == " " && this.offset == offset && this.lineLength == lineLength
    {
      this.name := name;
      componentType := RenderComponent;
      font := defaultFont;
      leading := Leading(defaultFont);
      text := None;
      lines := [];
      recalculate := true;
      wordSeparator := " ";
      this.offset := offset;
      this.lineLength := lineLength;
    }

    /** The wrap loop of `draw`: the lines for `words`, built word by word. */
    method Recalculate(words: seq<string>, width: string -> int)
      modifies this`lines
      ensures lines == Wrap(words, wordSeparator, width, lineLength)
    {
      lines := [];
      var currentX := 0.0;
      var lineBuilder := "";
      ghost var done: seq<seq<string>> := [];
      ghost var cur: seq<string> := [];
      var i := 0;
      while i < |words|
        invariant 0 <= i <= |words|
        invariant lines == Lines(done, wordSeparator)
        invariant lineBuilder == Join(cur, wordSeparator)
        invariant GroupAcc(words[i..], wordSeparator, width, lineLength, done, cur, currentX)
                  == Groups(words, wordSeparator, width, lineLength)
      {
        var word := words[i];
        var length := width(word + wordSeparator) as real;
        assert words[i..] == [word] + words[i + 1..];
        if currentX + length <= lineLength {
          lineBuilder := lineBuilder + word + wordSeparator;
          currentX := currentX + length;
          assert (cur + [word])[..|cur|] == cur;
          cur := cur + [word];
        } else {
          LinesAppend(done, cur, wordSeparator);
          lines := lines + [lineBuilder];
          lineBuilder := "" + word + wordSeparator;
          currentX := length;
          done, cur := done + [cur], [word];
          assert cur[..0] == [];
        }
        i := i + 1;
      }
      LinesAppend(done, cur, wordSeparator);
      lines := lines + [lineBuilder];
    }

    /** `draw`: recomputes the lines if the text changed since the last
        draw, then returns the line draw calls. `split` is Java's
        `String.split` and `width` the `stringWidth` of the component's
        font; `parent` is the parent's position. A draw that must recompute
        while no text was ever set clears the lines and then fails (`None`),
        as the Java code does on its null text. */
    method Draw(parent: Vec, split: (string, string) -> seq<string>, width: string -> int)
      returns (calls: Option<seq<TextCall>>)
      modifies this`lines, this`recalculate
      ensures old(recalculate) && old(text) == None ==> calls == None && lines == [] && recalculate
      ensures !(old(recalculate) && old(text) == None) ==>
                && !recalculate
                && lines == (if old(recalculate)
                             then Wrap(split(text.value, wordSeparator), wordSeparator, width, lineLength)
                             else old(lines))
                && calls == Some(Placed(lines, parent, offset, leading))
    {
      if recalculate {
        lines := [];
        if text == None {
          return None;
        }
        var words := split(text.value, wordSeparator);
        Recalculate(words, width);
        recalculate := false;
      }
      var drawn: seq<TextCall> := [];
      var currentY := 0.0;
      var i := 0;
      while i < |lines|
        invariant 0 <= i <= |lines|
        invariant currentY == i as real * leading
        invariant |drawn| == i
        invariant forall j :: 0 <= j < i ==>
                    drawn[j] == TextCall(lines[j], parent.x + offset.x, j as real * leading + parent.y + offset.y)
      {
        drawn := drawn + [TextCall(lines[i], parent.x + offset.x, currentY + parent.y + offset.y)];
        currentY := currentY + leading;
        i := i + 1;
      }
      assert drawn == Placed(lines, parent, offset, leading);
      calls := Some(drawn);
    }

    method SetText(text: string)
      modifies this`text, this`recalculate
      ensures this.text == Some(text) && recalculate
    {
      this.text := Some(text);
      recalculate := true;
    }

    /** Changes the font and its leading; the lines are not recomputed. */
    method SetFont(font: Font)
      modifies this`font, this`leading
      ensures this.font == font && leading == Leading(font)
    {
      this.font := font;
      leading := Leading(font);
    }

    /** Does not ask for the lines to be recomputed. */
    method SetWordSeparator(wordSeparator: string)
      modifies this`wordSeparator
      ensures this.wordSeparator == wordSeparator
    {
      this.wordSeparator := wordSeparator;
    }

    method SetOffset(offset: Vec)
      modifies this`offset
      ensures this.offset == offset
    {
      this.offset := offset;
    }

    /** Does not ask for the lines to be recomputed. */
    method SetLineLength(lineLength: real)
      modifies this`lineLength
      ensures this.lineLength == lineLength
    {
      this.lineLength := lineLength;
    }

    /** Does nothing on a tick. */
    method OnFixedTick()
    {
    }

    /** Reacts to no collision. */
    method OnCollision()
    {
    }
  }
}
