/** A text box that reveals its text like a typewriter: a cursor advances by
    `speed` every tick, and while it is inside the text the prefix up to the
    rounded cursor is handed to the box's text renderer. */
module TextBoxes {
  import opened Geometry
  import opened TextRender

  const DEFAULT_SPEED: real := 0.075

  /** Java's `Math.round(float)`: the nearest integer, halves rounded up. */
  function Round(r: real): (n: int)
    ensures n as real - 0.5 <= r < n as real + 0.5
  {
    (r + 0.5).Floor
  }

  /** What a tick with the cursor at `cursor` hands to the renderer: `None`
      once the cursor has reached the end of the text. */
  function Revealed(text: string, cursor: real): (r: Option<string>)
    requires cursor < |text| as real ==> Round(cursor) >= 0
    ensures r.Some? <==> cursor < |text| as real
    ensures r.Some? ==> r.value <= text && |r.value| == Round(cursor)
  {
    if cursor < |text| as real then Some(text[..Round(cursor)]) else None
  }

  lemma RoundMonotonic(a: real, b: real)
    requires a <= b
    ensures Round(a) <= Round(b)
  {
  }

  /** With a non-negative speed the revealed prefix only grows. */
  lemma RevealGrows(text: string, c1: real, c2: real)
    requires -0.5 <= c1 <= c2 < |text| as real
    ensures Revealed(text, c1).value <= Revealed(text, c2).value
  {
    RoundMonotonic(c1, c2);
  }

  class TextBox {
    var text: string
    var font: Font
    const transform: Transform
    const renderer: TextRenderComponent
    var cursor: real
    var speed: real

    /** `TextBox(text, transform, offsetX, offsetY)`: the renderer's line
        length is the box width minus `offsetX`, and its offset is
        `(offsetX, offsetY)`. */
    constructor (text: string, transform: Transform, offsetX: real, offsetY: real, defaultFont: Font)
      ensures this.text == text && this.transform == transform && font == defaultFont
      ensures cursor == 1.0 && speed == DEFAULT_SPEED
      ensures fresh(renderer) && renderer.name == "text-renderer"
      ensures renderer.lineLength == transform.width - offsetX && renderer.offset == Vec(offsetX, offsetY)
      ensures renderer.text == None && renderer.recalculate && renderer.font == defaultFont
    {
      this.text := text;
      this.transform := transform;
      font := defaultFont;
      cursor := 1.0;
      speed := DEFAULT_SPEED;
      renderer := new TextRenderComponent("text-renderer", transform.width - offsetX, Vec(offsetX, offsetY), defaultFont);
    }

    /** One tick: pushes the revealed prefix while the cursor is inside the
        text, then advances the cursor by `speed`. A cursor driven below
        -0.5 by a negative speed makes `substring` throw (`ok` false), and
        nothing changes. */
    method OnFixedTick() returns (ok: bool)
      modifies this`cursor, renderer`text, renderer`recalculate
      ensures ok <==> !(old(cursor) < |text| as real && Round(old(cursor)) < 0)
      ensures ok ==> cursor == old(cursor) + speed
      ensures ok && old(cursor) < |text| as real ==>
                renderer.text == Some(Revealed(text, old(cursor)).value) && renderer.recalculate
      ensures !ok || old(cursor) >= |text| as real ==>
                renderer.text == old(renderer.text) && renderer.recalculate == old(renderer.recalculate)
      ensures !ok ==> cursor == old(cursor)
    {
      if cursor < |text| as real {
        var end := Round(cursor);
        if end < 0 {
          return false;
        }
        renderer.SetText(text[..end]);
      }
      cursor := cursor + speed;
      ok := true;
    }

    method Start()
      modifies this`cursor
      ensures cursor == 1.0
    {
      cursor := 1.0;
    }

    /** `start(text)`: sets the text and restarts the reveal. */
    method StartWith(text: string)
      modifies this`text, this`cursor
      ensures this.text == text && cursor == 1.0
    {
      SetText(text);
      Start();
    }

    /** Sets the box's text and restarts the reveal; the renderer gets the
        new text only on the next tick. */
    method SetText(text: string)
      modifies this`text, this`cursor
      ensures this.text == text && cursor == 1.0
    {
      this.text := text;
      Start();
    }

    /** Sets the font of the box and of its renderer. */
    method SetFont(font: Font)
      modifies this`font, renderer`font, renderer`leading
      ensures this.font == font && renderer.font == font && renderer.leading == Leading(font)
    {
      this.font := font;
      renderer.SetFont(font);
    }

    method SetSpeed(speed: real)
      modifies this`speed
      ensures this.speed == speed
    {
      this.speed := speed;
    }
  }
}
