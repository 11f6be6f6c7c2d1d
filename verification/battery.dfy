/**
 * The suit-armour HUD element (`hud_battery.cpp`): it remembers the value
 * it shows (`bat`) and the last value the server sent (`newBat`), picks
 * the animation to play when they differ, and paints the value as a bar
 * of lit and unlit chunks.
 */
module Battery {
  import opened Numeric

  /** `INIT_BAT`: no value shown yet. */
  const InitBat: int := -1
  /** Below this the low-armour alert plays. */
  const LowArmor: int := 20

  /** `m_iBat`, `m_iNewBat` and the number on display (`SetDisplayValue`). */
  datatype Hud = Hud(bat: int, newBat: int, display: int)

  datatype Anim =
    | SuitPowerZero | SuitDamageTaken | SuitArmorLow
    | SuitPowerIncreasedAbove20 | SuitPowerIncreasedBelow20

  /** `Reset` (also `VidInit`): the old value is put on display, then both values start over. */
  function Reset(h: Hud): (r: Hud)
    ensures r.bat == InitBat && r.newBat == 0
    ensures r.display == h.bat
  {
    Hud(-1, 0, h.bat)
  }

  /** `Init`: a reset, then the same two values again. */
  function Init(h: Hud): (r: Hud)
    ensures r.bat == InitBat && r.newBat == 0
    ensures r == Reset(h)
  {
    var reset := Reset(h);
    reset.(bat := -1, newBat := 0)
  }

  /** `MsgFunc_Battery`: the value read as a signed 16-bit short. */
  function Message(h: Hud, value: int): (r: Hud)
    requires -32768 <= value < 32768
    ensures r.newBat == value && r.bat == h.bat && r.display == h.display
  {
    h.(newBat := value)
  }

  /** `ShouldDraw`: a pending change or a visible panel, if the HUD element may draw at all. */
  function ShouldDraw(h: Hud, alpha: int, elementShouldDraw: bool): (r: bool)
    ensures r <==> elementShouldDraw && (h.bat != h.newBat || alpha > 0)
  {
    var needsDraw := h.bat != h.newBat || alpha > 0;
    needsDraw && elementShouldDraw
  }

  /**
   * `OnThink`: nothing when the value is unchanged.  Otherwise a new value
   * of zero plays the zero animation; a drop plays the damage animation,
   * and the low alert too below 20; a rise plays the "above 20" animation
   * when there was no armour before (or none shown yet) or the new value
   * is 20 or more, else the "below 20" one.  The new value is then shown.
   */
  function OnThink(h: Hud): (r: (Hud, seq<Anim>))
    ensures h.bat == h.newBat ==> r == (h, [])
    ensures h.bat != h.newBat ==> r.0 == Hud(h.newBat, h.newBat, h.newBat) && 1 <= |r.1| <= 2
    ensures SuitPowerZero in r.1 <==> h.bat != h.newBat && h.newBat == 0
    ensures SuitDamageTaken in r.1 <==> h.newBat != 0 && h.newBat < h.bat
    ensures SuitArmorLow in r.1 <==> h.newBat != 0 && h.newBat < h.bat && h.newBat < LowArmor
    ensures SuitPowerIncreasedAbove20 in r.1 <==>
              h.newBat != 0 && h.newBat > h.bat && (h.bat == InitBat || h.bat == 0 || h.newBat >= LowArmor)
    ensures SuitPowerIncreasedBelow20 in r.1 <==>
              h.newBat != 0 && h.newBat > h.bat && h.bat != InitBat && h.bat != 0 && h.newBat < LowArmor
  {
    if h.bat == h.newBat then (h, [])
    else
      var anims :=
        if h.newBat == 0 then [SuitPowerZero]
        else if h.newBat < h.bat then
          [SuitDamageTaken] + (if h.newBat < 20 then [SuitArmorLow] else [])
        else if h.bat == -1 || h.bat == 0 || h.newBat >= 20 then [SuitPowerIncreasedAbove20]
        else [SuitPowerIncreasedBelow20];
      (Hud(h.newBat, h.newBat, h.newBat), anims)
  }

  /** After a change the HUD has caught up: thinking again at once plays nothing. */
  lemma ThinkSettles(h: Hud)
    ensures OnThink(OnThink(h).0) == (OnThink(h).0, [])
  {
  }

  /**
   * The first armour after `Init` (or a reset) never plays an alert: a
   * positive value plays "above 20" whatever it is, and no value plays
   * anything but the zero animation.
   */
  lemma FirstValueNoAlert(h: Hud, value: int)
    requires -32768 <= value < 32768
    ensures value > 0 ==> OnThink(Message(Init(h), value)).1 == [SuitPowerIncreasedAbove20]
    ensures value == 0 ==> OnThink(Message(Init(h), value)).1 == [SuitPowerZero]
  {
  }

  /**
   * The HUD over a run of server messages, each followed by a think: the
   * animations played in order.
   */
  function Feed(h: Hud, values: seq<int>): (r: (Hud, seq<Anim>))
    requires forall k :: 0 <= k < |values| ==> -32768 <= values[k] < 32768
    decreases |values|
  {
    if values == [] then (h, [])
    else
      var t := OnThink(Message(h, values[0]));
      var rest := Feed(t.0, values[1..]);
      (rest.0, t.1 + rest.1)
  }

  /**
   * After any non-empty run the HUD holds the last value sent, with no
   * change pending, and at most two animations were started per message.
   */
  lemma {:induction false} FeedShowsLast(h: Hud, values: seq<int>)
    requires forall k :: 0 <= k < |values| ==> -32768 <= values[k] < 32768
    ensures |Feed(h, values).1| <= 2 * |values|
    ensures values != [] ==> Feed(h, values).0.bat == Feed(h, values).0.newBat == values[|values| - 1]
    decreases |values|
  {
    if values != [] {
      var t := OnThink(Message(h, values[0]));
      FeedShowsLast(t.0, values[1..]);
    }
  }

  /** A chunk of the bar: lit or not, and its left and right pixel columns. */
  datatype Chunk = Chunk(lit: bool, left: int, right: int)

  /** The bar's proportional layout values. */
  datatype Layout = Layout(insetX: real, width: real, chunkWidth: real, chunkGap: real)

  /** `chunkCount`: the bar width over the chunk pitch, truncated. */
  function ChunkCount(l: Layout): int
    requires l.chunkWidth + l.chunkGap > 0.0
  {
    Trunc(l.width / (l.chunkWidth + l.chunkGap))
  }

  /** `enabledChunks`: the share of the chunks the armour value covers, rounded half up. */
  function EnabledChunks(chunkCount: int, bat: int): (e: int)
  {
    Trunc(chunkCount as real * (bat as real / 100.0) + 0.5)
  }

  /** With 0 to 100 armour the lit chunks are between none and all of them. */
  lemma EnabledWithinBar(chunkCount: int, bat: int)
    requires chunkCount >= 0 && 0 <= bat <= 100
    ensures 0 <= EnabledChunks(chunkCount, bat) <= chunkCount
    ensures bat == 0 ==> EnabledChunks(chunkCount, bat) == 0
    ensures bat == 100 ==> EnabledChunks(chunkCount, bat) == chunkCount
  {
    var c := chunkCount as real;
    var f := bat as real / 100.0;
    ShareOfBar(c, f);
    var x := c * f + 0.5;
    var e := EnabledChunks(chunkCount, bat);
    assert e == Trunc(x);
    assert 0.5 <= x <= c + 0.5;
    assert e as real <= x;
    if bat == 0 {
      assert f == 0.0;
      assert c * f == 0.0;
    }
    if bat == 100 {
      assert f == 1.0;
      assert c * f == c;
    }
  }

  /** A share between none and all of a non-negative count stays within it. */
  lemma ShareOfBar(c: real, f: real)
    requires c >= 0.0 && 0.0 <= f <= 1.0
    ensures 0.0 <= c * f <= c
  {
    if c > 0.0 && f > 0.0 {
      assert c * f > 0.0 * f;
      assert c * (1.0 - f) >= 0.0 * (1.0 - f);
      assert c - c * f == c * (1.0 - f);
    } else if c == 0.0 {
      assert c * f == 0.0 * f;
    } else {
      assert c * f == c * 0.0;
    }
  }

  /**
   * `Paint`: `enabled` lit chunks, then unlit ones up to `chunkCount`,
   * each one pitch to the right of the last, the integer position
   * truncating after every step.
   */
  method Paint(l: Layout, bat: int) returns (chunks: seq<Chunk>)
    requires l.chunkWidth + l.chunkGap > 0.0
    ensures var n := ChunkCount(l);
            var e := EnabledChunks(n, bat);
            var lit := if e > 0 then e else 0;
            && |chunks| == lit + (if n - e > 0 then n - e else 0)
            && (forall k :: 0 <= k < |chunks| ==> (chunks[k].lit <==> k < lit))
    ensures |chunks| > 0 ==> chunks[0].left == Trunc(l.insetX)
    ensures Laid(chunks, l)
  {
    var chunkCount := ChunkCount(l);
    var enabled := EnabledChunks(chunkCount, bat);
    var lit, xpos := Lay([], l, Trunc(l.insetX), true, enabled);
    chunks, xpos := Lay(lit, l, xpos, false, chunkCount - enabled);
  }

  /**
   * One of `Paint`'s loops: `count` more chunks (none if it is negative)
   * of the given kind, from `xpos` on.
   */
  method Lay(chunks: seq<Chunk>, l: Layout, xpos: int, lit: bool, count: int) returns (r: seq<Chunk>, next: int)
    requires Stepped(chunks, l, xpos)
    ensures |r| == |chunks| + (if count > 0 then count else 0)
    ensures r[..|chunks|] == chunks
    ensures forall k :: |chunks| <= k < |r| ==> r[k].lit == lit
    ensures Stepped(r, l, next)
  {
    r, next := chunks, xpos;
    var i := 0;
    while i < count
      invariant if count > 0 then 0 <= i <= count else i == 0
      invariant |r| == |chunks| + i
      invariant r[..|chunks|] == chunks
      invariant forall k :: |chunks| <= k < |r| ==> r[k].lit == lit
      invariant Stepped(r, l, next)
    {
      StepChunk(r, l, next, lit);
      r := r + [Chunk(lit, next, Trunc(next as real + l.chunkWidth))];
      next := Trunc(next as real + (l.chunkWidth + l.chunkGap));
      i := i + 1;
    }
  }

  /** Appending the chunk at `xpos` and stepping on keeps the bar evenly laid out. */
  lemma StepChunk(chunks: seq<Chunk>, l: Layout, xpos: int, lit: bool)
    requires Stepped(chunks, l, xpos)
    ensures Stepped(chunks + [Chunk(lit, xpos, Trunc(xpos as real + l.chunkWidth))], l,
                    Trunc(xpos as real + (l.chunkWidth + l.chunkGap)))
  {
    var next := chunks + [Chunk(lit, xpos, Trunc(xpos as real + l.chunkWidth))];
    forall k | 0 < k < |next|
      ensures next[k].left == Trunc(next[k - 1].left as real + (l.chunkWidth + l.chunkGap))
    {
      if k < |chunks| {
        assert next[k] == chunks[k] && next[k - 1] == chunks[k - 1];
      }
    }
  }

  /**
   * The chunks drawn so far start at the inset, step one pitch at a time
   * and are one chunk wide, and `xpos` is where the next one goes.
   */
  ghost predicate Stepped(chunks: seq<Chunk>, l: Layout, xpos: int)
  {
    && (|chunks| > 0 ==> chunks[0].left == Trunc(l.insetX))
    && (|chunks| == 0 ==> xpos == Trunc(l.insetX))
    && (|chunks| > 0 ==> xpos == Trunc(chunks[|chunks| - 1].left as real + (l.chunkWidth + l.chunkGap)))
    && Laid(chunks, l)
  }

  /**
   * For a value within 0..100 the bar is exactly `chunkCount` chunks long,
   * the first `enabledChunks` of them lit.
   */
  lemma BarLength(l: Layout, bat: int, chunks: seq<Chunk>)
    requires l.chunkWidth + l.chunkGap > 0.0 && l.width >= 0.0 && 0 <= bat <= 100
    requires var n := ChunkCount(l);
             var e := EnabledChunks(n, bat);
             var lit := if e > 0 then e else 0;
             |chunks| == lit + (if n - e > 0 then n - e else 0)
    ensures |chunks| == ChunkCount(l)
  {
    assert l.width / (l.chunkWidth + l.chunkGap) >= 0.0;
    EnabledWithinBar(ChunkCount(l), bat);
  }

  /** The step relations `Paint` promises between a chunk and its neighbours. */
  predicate Laid(chunks: seq<Chunk>, l: Layout)
  {
    && (forall k :: 0 <= k < |chunks| ==> chunks[k].right == Trunc(chunks[k].left as real + l.chunkWidth))
    && (forall k :: 0 < k < |chunks| ==>
          chunks[k].left == Trunc(chunks[k - 1].left as real + (l.chunkWidth + l.chunkGap)))
  }

  /**
   * With a non-negative chunk width and gap the painted chunks run left to
   * right and never overlap: every chunk ends at or before the start of
   * every later one.
   */
  lemma ChunksInOrder(l: Layout, chunks: seq<Chunk>)
    requires l.chunkWidth >= 0.0 && l.chunkGap >= 0.0
    requires Laid(chunks, l)
    ensures forall i, j :: 0 <= i < j < |chunks| ==> chunks[i].left <= chunks[i].right <= chunks[j].left
  {
    forall i, j | 0 <= i < j < |chunks|
      ensures chunks[i].left <= chunks[i].right <= chunks[j].left
    {
      Spans(l, chunks, i);
      EndsBefore(l, chunks, i, j);
    }
  }

  /** A chunk spans at least nothing. */
  lemma Spans(l: Layout, chunks: seq<Chunk>, i: int)
    requires l.chunkWidth >= 0.0
    requires Laid(chunks, l) && 0 <= i < |chunks|
    ensures chunks[i].left <= chunks[i].right
  {
    var x := chunks[i].left;
    TruncMonotone(x as real, x as real + l.chunkWidth);
    TruncOfInt(x);
  }

  /** Chunk `i` ends no later than chunk `j > i` starts. */
  lemma {:induction false} EndsBefore(l: Layout, chunks: seq<Chunk>, i: int, j: int)
    requires l.chunkWidth >= 0.0 && l.chunkGap >= 0.0
    requires Laid(chunks, l) && 0 <= i < j < |chunks|
    ensures chunks[i].right <= chunks[j].left
    decreases j - i
  {
    var x := chunks[i].left as real;
    TruncMonotone(x + l.chunkWidth, x + (l.chunkWidth + l.chunkGap));
    assert chunks[i].right <= chunks[i + 1].left;
    if i + 1 < j {
      Spans(l, chunks, i + 1);
      EndsBefore(l, chunks, i + 1, j);
    }
  }

  /**
   * `ShouldDraw` across a message and a think: a new value makes the
   * element draw whatever its alpha, and once a think has caught up it
   * draws only while the panel is still visible.
   */
  lemma DrawsUntilCaughtUp(h: Hud, value: int, alpha: int, elementShouldDraw: bool)
    requires -32768 <= value < 32768
    ensures value != h.bat ==> (ShouldDraw(Message(h, value), alpha, elementShouldDraw) <==> elementShouldDraw)
    ensures ShouldDraw(OnThink(Message(h, value)).0, alpha, elementShouldDraw) <==> elementShouldDraw && alpha > 0
  {
  }
}
