/**
 * Text layout (src/Font.h, src/Font.cpp): the 128 glyph records filled
 * from FreeType's metrics, and `draw`'s cursor loop with each
 * `glDrawArrays` call recorded as an emitted quad.
 */
module Fonts {
  import opened Geometry

  /** The loop counter's type: `unsigned char`. */
  newtype uchar = x: int | 0 <= x < 256

  /** What FreeType reports for one character: bitmap size, advance (in 1/64 pixel) and bearing. */
  datatype Glyph = Glyph(width: nat, rows: nat, advanceX: int, left: int, top: int)

  /** `Font::Character`. */
  datatype Character = Character(textureId: nat, shift: nat, size: Vec2, offset: Vec2)

  /** One `glDrawArrays(GL_TRIANGLES, 0, 6)` with the bound texture and the uploaded vertices (x, y, u, v). */
  datatype DrawCall = DrawCall(texture: nat, vertices: seq<Vec4>)

  const GlyphCount := 128

  /** `const GLuint shift = advance.x`: the conversion to a 32-bit unsigned value wraps. */
  function ShiftOf(advanceX: int): (s: nat)
    ensures s < 0x1_0000_0000
    ensures 0 <= advanceX < 0x1_0000_0000 ==> s == advanceX
  {
    advanceX % 0x1_0000_0000
  }

  /** The record the constructor stores for one character. */
  function CharacterOf(g: Glyph, textureId: nat): Character {
    Character(textureId, ShiftOf(g.advanceX), Vec2(g.width as real, g.rows as real), Vec2(g.left as real, g.top as real))
  }

  /** `shift >> 6`: the advance in whole pixels. */
  function Step(c: Character): nat {
    c.shift / 64
  }

  /** Every code of `text` indexes the 128-entry table. */
  predicate InTable(text: string) {
    forall i :: 0 <= i < |text| ==> text[i] as int < GlyphCount
  }

  /** The cursor after laying out `text`: the sum of the glyph steps. */
  function Advance(chars: seq<Character>, text: string): real
    requires |chars| == GlyphCount && InTable(text)
  {
    if |text| == 0 then 0.0
    else Advance(chars, text[..|text| - 1]) + Step(chars[text[|text| - 1] as int]) as real
  }

  /** The six vertices of one glyph at the given cursor: two triangles, v = 0 on the top edge. */
  function Quad(c: Character, cursor: real): seq<Vec4> {
    var xpos := cursor + c.offset.x;
    var ypos := c.offset.y - c.size.y;
    var w := c.size.x;
    var h := c.size.y;
    [ Vec4(xpos, ypos + h, 0.0, 0.0), Vec4(xpos, ypos, 0.0, 1.0), Vec4(xpos + w, ypos, 1.0, 1.0),
      Vec4(xpos, ypos + h, 0.0, 0.0), Vec4(xpos + w, ypos, 1.0, 1.0), Vec4(xpos + w, ypos + h, 1.0, 0.0) ]
  }

  /** The draw calls `draw(text)` issues, one per character. */
  function Layout(chars: seq<Character>, text: string): seq<DrawCall>
    requires |chars| == GlyphCount && InTable(text)
  {
    if |text| == 0 then []
    else
      var n := |text| - 1;
      var c := chars[text[n] as int];
      Layout(chars, text[..n]) + [DrawCall(c.textureId, Quad(c, Advance(chars, text[..n])))]
  }

  /**
   * One draw call per character: the i-th uses that character's texture
   * and sits at the cursor reached after the first i characters.
   */
  lemma {:induction false} LayoutAt(chars: seq<Character>, text: string, i: nat)
    requires |chars| == GlyphCount && InTable(text) && i < |text|
    ensures |Layout(chars, text)| == |text|
    ensures var c := chars[text[i] as int];
            Layout(chars, text)[i] == DrawCall(c.textureId, Quad(c, Advance(chars, text[..i])))
  {
    var n := |text| - 1;
    assert InTable(text[..n]);
    LayoutLength(chars, text[..n]);
    if i < n {
      LayoutAt(chars, text[..n], i);
      assert text[..n][..i] == text[..i];
    }
  }

  lemma {:induction false} LayoutLength(chars: seq<Character>, text: string)
    requires |chars| == GlyphCount && InTable(text)
    ensures |Layout(chars, text)| == |text|
  {
    if |text| > 0 {
      LayoutLength(chars, text[..|text| - 1]);
    }
  }

  /** The cursor never moves left: glyphs are laid out left to right. */
  lemma {:induction false} AdvanceMonotone(chars: seq<Character>, text: string, i: nat)
    requires |chars| == GlyphCount && InTable(text) && i <= |text|
    ensures 0.0 <= Advance(chars, text[..i]) <= Advance(chars, text)
    decreases |text|
  {
    if i < |text| {
      var n := |text| - 1;
      assert text[..n][..i] == text[..i];
      AdvanceMonotone(chars, text[..n], i);
    } else {
      assert text[..i] == text;
      AdvanceNonNegative(chars, text);
    }
  }

  lemma {:induction false} AdvanceNonNegative(chars: seq<Character>, text: string)
    requires |chars| == GlyphCount && InTable(text)
    ensures Advance(chars, text) >= 0.0
  {
    if |text| > 0 {
      AdvanceNonNegative(chars, text[..|text| - 1]);
    }
  }

  /** Text that is one string after another advances by the sum of both. */
  lemma {:induction false} AdvanceAppend(chars: seq<Character>, s: string, t: string)
    requires |chars| == GlyphCount && InTable(s) && InTable(t)
    ensures InTable(s + t)
    ensures Advance(chars, s + t) == Advance(chars, s) + Advance(chars, t)
    decreases |t|
  {
    if |t| == 0 {
      assert s + t == s;
    } else {
      var n := |t| - 1;
      assert (s + t)[..|s + t| - 1] == s + t[..n];
      assert (s + t)[|s + t| - 1] == t[n];
      AdvanceAppend(chars, s, t[..n]);
    }
  }

  /**
   * Every vertex of a glyph's quad lies in its cell
   * [cursor + offset.x, cursor + offset.x + width] x [offset.y - height, offset.y],
   * and its texture coordinate is a corner of the unit square: u = 0 on the
   * left edge, u = 1 on the right, v = 0 on the top edge, v = 1 on the bottom.
   * Empty glyphs such as the space (width or height 0) are included.
   */
  lemma QuadInCell(c: Character, cursor: real, k: nat)
    requires c.size.x >= 0.0 && c.size.y >= 0.0 && k < 6
    ensures |Quad(c, cursor)| == 6
    ensures var p := Quad(c, cursor)[k];
            var left := cursor + c.offset.x;
            var top := c.offset.y;
            && left <= p.x <= left + c.size.x && top - c.size.y <= p.y <= top
            && (p.z == 0.0 ==> p.x == left) && (p.z == 1.0 ==> p.x == left + c.size.x)
            && (p.w == 0.0 ==> p.y == top) && (p.w == 1.0 ==> p.y == top - c.size.y)
            && (p.z == 0.0 || p.z == 1.0) && (p.w == 0.0 || p.w == 1.0)
  {
  }

  /** Every glyph record the constructor builds has a non-negative size, so `QuadInCell` applies to it. */
  lemma CharacterSizeNonNegative(g: Glyph, textureId: nat)
    ensures CharacterOf(g, textureId).size.x >= 0.0 && CharacterOf(g, textureId).size.y >= 0.0
  {
  }

  /**
   * For a glyph with a non-empty bitmap the texture coordinate tells the
   * edge exactly: a vertex is on the left edge iff u = 0, on the right
   * iff u = 1, on the top iff v = 0 and on the bottom iff v = 1.
   */
  lemma QuadEdgesExact(c: Character, cursor: real, k: nat)
    requires c.size.x > 0.0 && c.size.y > 0.0 && k < 6
    ensures |Quad(c, cursor)| == 6
    ensures var p := Quad(c, cursor)[k];
            var left := cursor + c.offset.x;
            var top := c.offset.y;
            && (p.z == 0.0 <==> p.x == left) && (p.z == 1.0 <==> p.x == left + c.size.x)
            && (p.w == 0.0 <==> p.y == top) && (p.w == 1.0 <==> p.y == top - c.size.y)
  {
  }

  /** One pass of the `draw` loop: the next character's quad is emitted at the current cursor, which then advances. */
  lemma LayoutStep(chars: seq<Character>, text: string, i: nat)
    requires |chars| == GlyphCount && InTable(text) && i < |text|
    ensures InTable(text[..i]) && InTable(text[..i + 1])
    ensures var c := chars[text[i] as int];
            && Layout(chars, text[..i + 1]) == Layout(chars, text[..i]) + [DrawCall(c.textureId, Quad(c, Advance(chars, text[..i])))]
            && Advance(chars, text[..i + 1]) == Advance(chars, text[..i]) + Step(c) as real
  {
    assert text[..i + 1][..i] == text[..i];
  }

  /** The constructor's glyph table, as a function of FreeType's metrics and the generated texture names. */
  function Table(glyphs: seq<Glyph>, textureIds: seq<nat>, n: nat): seq<Character>
    requires n <= |glyphs| && n <= |textureIds|
  {
    seq(n, i requires 0 <= i < n => CharacterOf(glyphs[i], textureIds[i]))
  }

  class Font {
    const chars: array<Character>

    ghost predicate Valid()
      reads this
    {
      chars.Length == GlyphCount
    }

    /**
     * `Font(path)`: one record per code 0..127; `glyphs[ch]` is what
     * `FT_Load_Char` reports for `ch`, `textureIds[ch]` the name
     * `glGenTextures` returns for it.
     */
    constructor (glyphs: seq<Glyph>, textureIds: seq<nat>)
      requires |glyphs| == GlyphCount && |textureIds| == GlyphCount
      ensures Valid() && fresh(chars)
      ensures chars[..] == Table(glyphs, textureIds, GlyphCount)
    {
      var table := new Character[GlyphCount](_ => Character(0, 0, Vec2(0.0, 0.0), Vec2(0.0, 0.0)));
      var ch: uchar := 0;
      while ch < 128
        invariant 0 <= ch <= 128
        invariant forall i :: 0 <= i < ch as int ==> table[i] == CharacterOf(glyphs[i], textureIds[i])
      {
        table[ch] := CharacterOf(glyphs[ch], textureIds[ch]);
        ch := ch + 1;
      }
      chars := table;
    }

    /**
     * `draw(text)`: the cursor starts at 0; each character emits its quad
     * at the cursor, then moves the cursor by `shift >> 6`.
     */
    method Draw(text: string) returns (calls: seq<DrawCall>)
      requires Valid() && InTable(text)
      ensures calls == Layout(chars[..], text)
    {
      calls := [];
      var cursor := 0.0;
      var i := 0;
      while i < |text|
        invariant 0 <= i <= |text| && InTable(text[..i])
        invariant cursor == Advance(chars[..], text[..i])
        invariant calls == Layout(chars[..], text[..i])
      {
        var ch := chars[text[i] as int];
        var textureId := ch.textureId;
        var width := ch.size.x;
        var height := ch.size.y;
        var xpos := cursor + ch.offset.x;
        var ypos := ch.offset.y - ch.size.y;
        var vertices := [
          Vec4(xpos, ypos + height, 0.0, 0.0), Vec4(xpos, ypos, 0.0, 1.0), Vec4(xpos + width, ypos, 1.0, 1.0),
          Vec4(xpos, ypos + height, 0.0, 0.0), Vec4(xpos + width, ypos, 1.0, 1.0), Vec4(xpos + width, ypos + height, 1.0, 0.0)
        ];
        assert vertices == Quad(ch, cursor);
        LayoutStep(chars[..], text, i);
        calls := calls + [DrawCall(textureId, vertices)];
        cursor := cursor + (ch.shift / 64) as real;
        i := i + 1;
      }
      assert text[..i] == text;
    }
  }
}
