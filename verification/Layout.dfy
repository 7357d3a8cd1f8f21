/** Scroll arithmetic in 16-bit lines over content of any length. */
module Layout {

  const U16_MAX: nat := 0xFFFF

  type u16 = x: int | 0 <= x <= U16_MAX

  datatype LineSpan = LineSpan(start: nat, height: nat)

  /** `u16::try_from(n).unwrap_or(u16::MAX)` */
  function ToU16(n: nat): u16 {
    if n <= U16_MAX then n else U16_MAX
  }

  function SaturatingSub(a: u16, b: u16): u16 {
    if a <= b then 0 else a - b
  }

  function SaturatingAdd(a: u16, b: u16): u16 {
    ToU16(a + b)
  }

  function Min(a: u16, b: u16): u16 {
    if a <= b then a else b
  }

  function ClampScroll(offset: u16, totalLines: nat, viewport: u16): u16 {
    Min(offset, SaturatingSub(ToU16(totalLines), viewport))
  }

  function EnsureVisible(offset: u16, card: LineSpan, viewport: u16, totalLines: nat): u16 {
    if viewport == 0 then 0
    else
      var start, height := ToU16(card.start), ToU16(card.height);
      if height > viewport then ClampScroll(start, totalLines, viewport)
      else
        ClampScroll(Nearest(offset, start, SaturatingAdd(start, height), viewport), totalLines, viewport)
  }

  /** The nearest offset with the lines from `start` to `end` in view. */
  function Nearest(offset: u16, start: u16, end: u16, viewport: u16): u16 {
    if start < offset then start
    else if end > SaturatingAdd(offset, viewport) then SaturatingSub(end, viewport)
    else offset
  }

  function Reanchor(offset: u16, before: LineSpan, after: LineSpan, viewport: u16, totalLines: nat): u16 {
    var next := after.start + (offset - before.start);
    ClampScroll(if next < 0 then 0 else ToU16(next), totalLines, viewport)
  }

  // ----- what they are for -----

  /** The furthest the content can be scrolled. */
  function Furthest(totalLines: nat, viewport: nat): nat {
    if totalLines <= viewport then 0 else totalLines - viewport
  }

  predicate InContent(card: LineSpan, totalLines: nat) {
    card.start + card.height <= totalLines
  }

  predicate ShowsLine(offset: nat, viewport: nat, line: nat) {
    offset <= line < offset + viewport
  }

  predicate ShowsCard(offset: nat, viewport: nat, card: LineSpan) {
    offset <= card.start && card.start + card.height <= offset + viewport
  }

  function Distance(a: int, b: int): nat {
    if a <= b then b - a else a - b
  }

  lemma StaysInContent(offset: u16, card: LineSpan, viewport: u16, totalLines: nat)
    ensures EnsureVisible(offset, card, viewport, totalLines) <= Furthest(totalLines, viewport)
  {
  }

  /**
   A card of the content that fits is shown whole if and only if it ends where
   16 bits still reach; one that does not fit shows its header if and only if
   the header is where they do.
   */
  lemma ShowsTheCard(offset: u16, card: LineSpan, viewport: u16, totalLines: nat)
    requires viewport > 0 && InContent(card, totalLines)
    ensures
      var next := EnsureVisible(offset, card, viewport, totalLines);
      && (card.height <= viewport ==> (ShowsCard(next, viewport, card) <==> card.start + card.height <= U16_MAX))
      && (card.height > viewport ==> (ShowsLine(next, viewport, card.start) <==> card.start < U16_MAX))
  {
    if card.height <= viewport {
      ShowsWhatFits(offset, card, viewport, totalLines);
    } else {
      ShowsTheHeader(offset, card, viewport, totalLines);
    }
  }

  lemma ShowsWhatFits(offset: u16, card: LineSpan, viewport: u16, totalLines: nat)
    requires viewport > 0 && InContent(card, totalLines) && card.height <= viewport
    ensures ShowsCard(EnsureVisible(offset, card, viewport, totalLines), viewport, card) <==> card.start + card.height <= U16_MAX
  {
    var start, end := ToU16(card.start), SaturatingAdd(ToU16(card.start), card.height);
    var nearest := Nearest(offset, start, end, viewport);
    assert nearest <= start && end <= nearest + viewport;
    assert card.start + card.height <= U16_MAX ==> end <= ToU16(totalLines);
  }

  lemma ShowsTheHeader(offset: u16, card: LineSpan, viewport: u16, totalLines: nat)
    requires viewport > 0 && InContent(card, totalLines) && card.height > viewport
    ensures ShowsLine(EnsureVisible(offset, card, viewport, totalLines), viewport, card.start) <==> card.start < U16_MAX
  {
  }

  /** No offset that shows the card is nearer than the one chosen. */
  ghost predicate Nearer(offset: u16, card: LineSpan, viewport: u16, next: u16) {
    forall other: nat :: ShowsCard(other, viewport, card) ==> Distance(offset, next) <= Distance(offset, other)
  }

  /**
   A fitting card that ends within 16 bits is shown by the least movement if and
   only if the offset, or at least the card's first line, is somewhere that
   clamping in 16 bits allows.
   */
  lemma MovesTheLeastExactly(offset: u16, card: LineSpan, viewport: u16, totalLines: nat)
    requires viewport > 0 && InContent(card, totalLines) && card.height <= viewport && card.start + card.height <= U16_MAX
    ensures
      var furthest := Furthest(ToU16(totalLines), viewport);
      Nearer(offset, card, viewport, EnsureVisible(offset, card, viewport, totalLines))
      <==> offset <= furthest || card.start <= furthest
  {
    var furthest := Furthest(ToU16(totalLines), viewport);
    if offset > furthest && card.start > furthest {
      var other := if card.start < offset then card.start else offset;
      assert ShowsCard(other, viewport, card);
    }
  }

  /** And where the least movement is made, no other offset as near shows the card. */
  lemma TheLeastIsUnique(offset: u16, card: LineSpan, viewport: u16, totalLines: nat, other: nat)
    requires viewport > 0 && InContent(card, totalLines) && card.height <= viewport && card.start + card.height <= U16_MAX
    requires ShowsCard(other, viewport, card)
    ensures
      var next := EnsureVisible(offset, card, viewport, totalLines);
      Nearer(offset, card, viewport, next) && Distance(offset, next) == Distance(offset, other) ==> next == other
  {
    MovesTheLeastExactly(offset, card, viewport, totalLines);
  }

  /** Past 16 bits of content a card in view can still be moved for: clamping stops short of the last lines. */
  lemma LongContentMovesACardInView()
    ensures
      var card := LineSpan(65530, 5);
      ShowsCard(65530, 10, card) && 65530 <= Furthest(70000, 10) && EnsureVisible(65530, card, 10, 70000) == 65525
  {
  }

  lemma NearestIsIdempotent(offset: u16, start: u16, end: u16, viewport: u16, furthest: u16)
    requires start <= end <= start + viewport
    ensures
      var next := Min(Nearest(offset, start, end, viewport), furthest);
      Min(Nearest(next, start, end, viewport), furthest) == next
  {
  }

  /** Asking again changes nothing, whatever the card and the content. */
  lemma EnsureVisibleIsIdempotent(offset: u16, card: LineSpan, viewport: u16, totalLines: nat)
    ensures
      var next := EnsureVisible(offset, card, viewport, totalLines);
      EnsureVisible(next, card, viewport, totalLines) == next
  {
    var start, height := ToU16(card.start), ToU16(card.height);
    if viewport > 0 && height <= viewport {
      NearestIsIdempotent(offset, start, SaturatingAdd(start, height), viewport, SaturatingSub(ToU16(totalLines), viewport));
    }
  }

  /** Anchoring keeps the view where it was within the card exactly when that is a place to scroll to. */
  lemma ReanchorKeepsThePlace(offset: u16, before: LineSpan, after: LineSpan, viewport: u16, totalLines: nat)
    ensures
      var next := Reanchor(offset, before, after, viewport, totalLines);
      var wanted := after.start + (offset - before.start);
      && next <= Furthest(totalLines, viewport)
      && (next == wanted <==> 0 <= wanted <= Furthest(ToU16(totalLines), viewport))
      && (forall other: nat | other <= Furthest(ToU16(totalLines), viewport) ::
            Distance(wanted, next) <= Distance(wanted, other))
  {
  }

  /** Anchoring in steps is anchoring at once, as long as no step on the way had to be clamped. */
  lemma ReanchorComposes(offset: u16, a: LineSpan, b: LineSpan, c: LineSpan, viewport: u16, middle: nat, totalLines: nat)
    requires Reanchor(offset, a, b, viewport, middle) == b.start + (offset - a.start)
    ensures Reanchor(Reanchor(offset, a, b, viewport, middle), b, c, viewport, totalLines) == Reanchor(offset, a, c, viewport, totalLines)
  {
  }
}
