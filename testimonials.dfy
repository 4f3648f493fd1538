// The testimonials carousel: layout arithmetic and the index that the
// previous/next buttons and the autoplay timer move.

module Testimonials {
  import opened Content
  import opened Strings

  /** Width of one card plus its gap, in pixels. */
  const CardWidth: int := 320

  const EmptyMessage := "No testimonials available right now."

  /** `container.offsetWidth || rect.width || 800`: the first of the two
      measurements that is not zero, else 800. */
  function ContainerWidth(offsetWidth: int, rectWidth: real): (w: real)
    ensures w != 0.0
    ensures offsetWidth != 0 ==> w == offsetWidth as real
    ensures offsetWidth == 0 && rectWidth != 0.0 ==> w == rectWidth
    ensures offsetWidth == 0 && rectWidth == 0.0 ==> w == 800.0
  {
    if offsetWidth != 0 then offsetWidth as real
    else if rectWidth != 0.0 then rectWidth
    else 800.0
  }

  /** How many whole cards fit in the container, but at least one. */
  function CardsPerView(width: real): (c: int)
    ensures c >= 1
    ensures c > 1 ==> (c * CardWidth) as real <= width < ((c + 1) * CardWidth) as real
    ensures c == 1 ==> width < (2 * CardWidth) as real
  {
    var k := (width / 320.0).Floor;
    assert k as real <= width / 320.0 < k as real + 1.0;
    assert (k * CardWidth) as real <= width < ((k + 1) * CardWidth) as real;
    if k < 1 then 1 else k
  }

  /** The number of positions of a window of `perView` cards over `n` cards:
      the last position shows the last card, and there is always one. */
  function TotalSlides(n: nat, perView: int): (t: int)
    requires perView >= 1
    ensures t >= 1
    ensures n >= perView ==> t - 1 + perView == n
    ensures n <= perView ==> t == 1
  {
    if n - perView + 1 > 1 then n - perView + 1 else 1
  }

  /** What the track holds: the cards (each rendered by an opaque template)
      or the empty-state message. */
  datatype Track = Cards(cards: seq<Testimonial>) | Empty(message: string)

  /** The track content for a list of testimonials. */
  function TrackFor(testimonials: seq<Testimonial>): (r: Track)
    ensures r.Empty? <==> testimonials == []
    ensures r.Empty? ==> r.message == EmptyMessage
    ensures r.Cards? ==> r.cards == testimonials
  {
    if testimonials == [] then Empty(EmptyMessage) else Cards(testimonials)
  }

  /** The carousel that `setupLayout` builds: its index, the two buttons,
      the indicator dots and the track offset. */
  class Carousel {
    const count: nat
    const perView: int
    const total: int
    const badge: string
    const indicators: array<bool>
    var index: int
    var prevDisabled: bool
    var nextDisabled: bool
    var offset: int

    /** What `updateControls` leaves behind. */
    ghost predicate ControlsShown()
      reads this, indicators
    {
      && prevDisabled == (index == 0)
      && nextDisabled == (index == total - 1)
      && offset == index * CardWidth
      && forall i :: 0 <= i < indicators.Length ==> indicators[i] == (i == index)
    }

    ghost predicate Valid()
      reads this, indicators
    {
      && perView >= 1
      && total >= 1
      && indicators.Length == total
      && 0 <= index < total
      && ControlsShown()
    }

    /** `setupLayout` for a non-empty list of `count` testimonials, ending
        with its initial `updateControls()`. */
    constructor (count: nat, offsetWidth: int, rectWidth: real)
      ensures Valid() && fresh(indicators)
      ensures this.count == count
      ensures perView == CardsPerView(ContainerWidth(offsetWidth, rectWidth))
      ensures total == TotalSlides(count, perView)
      ensures index == 0
      ensures badge == NatToString(count) + " testimonials \U{B7} view " + NatToString(perView)
    {
      this.count := count;
      var perView := CardsPerView(ContainerWidth(offsetWidth, rectWidth));
      var total := TotalSlides(count, perView);
      this.perView := perView;
      this.total := total;
      badge := NatToString(count) + " testimonials \U{B7} view " + NatToString(perView);
      indicators := new bool[total](i => i == 0);
      index := 0;
      new;
      UpdateControls();
    }

    /** Disables the buttons at the two ends, marks the current indicator
        and moves the track. */
    method UpdateControls()
      requires perView >= 1 && total >= 1 && indicators.Length == total && 0 <= index < total
      modifies this, indicators
      ensures Valid() && index == old(index)
    {
      prevDisabled := index == 0;
      nextDisabled := index == total - 1;
      for i := 0 to indicators.Length
        modifies indicators
        invariant forall j :: 0 <= j < i ==> indicators[j] == (j == index)
      {
        indicators[i] := i == index;
      }
      offset := index * CardWidth;
    }

    /** The previous button: a step back, or nothing on the first slide. */
    method Prev()
      requires Valid()
      modifies this, indicators
      ensures Valid()
      ensures index == if old(index) > 0 then old(index) - 1 else old(index)
      ensures old(index) == 0 ==> unchanged(this) && unchanged(indicators)
    {
      if index > 0 {
        index := index - 1;
        UpdateControls();
      }
    }

    /** The next button: a step forward, or nothing on the last slide. */
    method Next()
      requires Valid()
      modifies this, indicators
      ensures Valid()
      ensures index == if old(index) < total - 1 then old(index) + 1 else old(index)
      ensures old(index) == total - 1 ==> unchanged(this) && unchanged(indicators)
    {
      if index < total - 1 {
        index := index + 1;
        UpdateControls();
      }
    }

    /** One tick of the five-second autoplay timer: forward, wrapping from
        the last slide to the first. */
    method AutoplayTick()
      requires Valid()
      modifies this, indicators
      ensures Valid()
      ensures index == (old(index) + 1) % total
    {
      if index < total - 1 {
        index := index + 1;
      } else {
        index := 0;
      }
      UpdateControls();
    }
  }

  /** The testimonials section: the track, how many navigation bars,
      indicator groups and debug badges the page holds, and the carousel the
      last layout built. */
  class Section {
    var track: Track
    var navs: nat
    var indicatorGroups: nat
    var badges: nat
    var carousel: Carousel?

    /** At most one of each piece of injected chrome. */
    ghost predicate Valid()
      reads this
    {
      navs <= 1 && indicatorGroups <= 1 && badges <= 1
    }

    constructor ()
      ensures Valid() && track == Cards([]) && navs == 0 && indicatorGroups == 0 && badges == 0 && carousel == null
    {
      track := Cards([]);
      navs, indicatorGroups, badges := 0, 0, 0;
      carousel := null;
    }

    /** `updateTestimonials(testimonials)`. An empty list only shows the
        message; otherwise the layout first removes any earlier navigation,
        indicators and badge and then adds one of each. */
    method Update(testimonials: seq<Testimonial>, offsetWidth: int, rectWidth: real)
      requires Valid()
      modifies this
      ensures Valid()
      ensures track == TrackFor(testimonials)
      ensures testimonials == [] ==>
        navs == old(navs) && indicatorGroups == old(indicatorGroups) && badges == old(badges) && carousel == old(carousel)
      ensures testimonials != [] ==>
        && navs == 1 && indicatorGroups == 1 && badges == 1
        && carousel != null && fresh(carousel) && fresh(carousel.indicators) && carousel.Valid()
        && carousel.index == 0
        && carousel.perView == CardsPerView(ContainerWidth(offsetWidth, rectWidth))
        && carousel.total == TotalSlides(|testimonials|, carousel.perView)
    {
      track := TrackFor(testimonials);
      if testimonials == [] {
        return;
      }
      if navs > 0 { navs := navs - 1; }
      if indicatorGroups > 0 { indicatorGroups := indicatorGroups - 1; }
      if badges > 0 { badges := badges - 1; }
      carousel := new Carousel(|testimonials|, offsetWidth, rectWidth);
      badges := badges + 1;
      navs := navs + 1;
      indicatorGroups := indicatorGroups + 1;
    }
  }

  /** The index after `ticks` autoplay ticks, one at a time. */
  function Tick(index: int, total: int, ticks: nat): (r: int)
    requires total >= 1 && 0 <= index < total
    ensures 0 <= r < total
  {
    if ticks == 0 then index
    else
      var prior := Tick(index, total, ticks - 1);
      if prior < total - 1 then prior + 1 else 0
  }

  /** Autoplay visits every slide and comes back: `total` ticks from any
      slide return to it. */
  lemma {:induction false} AutoplayPeriod(index: int, total: int, ticks: nat)
    requires total >= 1 && 0 <= index < total
    ensures Tick(index, total, ticks) == (index + ticks) % total
  {
    if ticks > 0 {
      AutoplayPeriod(index, total, ticks - 1);
      WrapSucc(index + ticks - 1, total);
    }
  }

  /** The successor modulo `n` wraps from `n - 1` to `0`. */
  lemma WrapSucc(a: nat, n: int)
    requires n >= 1
    ensures (a + 1) % n == if a % n < n - 1 then a % n + 1 else 0
  {
    var q, r := a / n, a % n;
    if r < n - 1 {
      ModUnique(a + 1, n, q, r + 1);
    } else {
      ModUnique(a + 1, n, q + 1, 0);
    }
  }

  /** The remainder is the one `r` in `[0, n)` with `x == q * n + r`. */
  lemma ModUnique(x: int, n: int, q: int, r: int)
    requires n >= 1 && 0 <= r < n && x == q * n + r
    ensures x % n == r
  {
    var d := q - x / n;
    assert d * n == x % n - r;
    assert d > 0 ==> d * n >= n;
    assert d < 0 ==> d * n <= -n;
  }
}
