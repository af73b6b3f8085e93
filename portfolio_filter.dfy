/**
 * The portfolio filter bar (script.js, section 5): clicking a filter button
 * makes it the one active, selected tab and shows exactly the project cards of
 * its category ("all" shows every card).
 *
 * A button's `data-filter` and a card's `data-cat` are `None` when the
 * attribute is absent (`undefined` in the page); buttons are identified by
 * their position in the bar.
 */
module PortfolioFilter {
  import opened Wrappers

  datatype Button = Button(filter: Option<string>, isActive: bool, ariaSelected: string)

  /** `display` is the card's inline style: "" shows it, "none" hides it. */
  datatype Card = Card(cat: Option<string>, display: string)

  /** `(f === "all") || (cat === f)`. */
  predicate Shows(f: Option<string>, cat: Option<string>): (shown: bool)
    ensures f == Some("all") ==> shown
    ensures f != Some("all") ==> (shown <==> cat == f)
    ensures cat == f ==> shown
  {
    f == Some("all") || cat == f
  }

  /** One button after `setActive(bs[k])`. */
  function MarkButton(b: Button, selected: bool): (m: Button)
    ensures m.filter == b.filter
    ensures m.isActive == selected
    ensures m.ariaSelected == (if selected then "true" else "false")
  {
    b.(isActive := selected, ariaSelected := if selected then "true" else "false")
  }

  /** The bar after `setActive(bs[k])`. */
  function Activated(bs: seq<Button>, k: nat): (r: seq<Button>)
    ensures |r| == |bs|
    ensures forall i :: 0 <= i < |bs| ==> r[i] == MarkButton(bs[i], i == k)
  {
    seq(|bs|, i requires 0 <= i < |bs| => MarkButton(bs[i], i == k))
  }

  /** One card once filter f has been applied. */
  function ShowCard(c: Card, f: Option<string>): (m: Card)
    ensures m.cat == c.cat
    ensures m.display == (if Shows(f, c.cat) then "" else "none")
  {
    c.(display := if Shows(f, c.cat) then "" else "none")
  }

  /** The cards once filter f has been applied. */
  function Filtered(cs: seq<Card>, f: Option<string>): (r: seq<Card>)
    ensures |r| == |cs|
    ensures forall i :: 0 <= i < |cs| ==> r[i] == ShowCard(cs[i], f)
  {
    seq(|cs|, i requires 0 <= i < |cs| => ShowCard(cs[i], f))
  }

  /** After a click exactly one button is active and selected: the clicked one. */
  lemma ExactlyOneActive(bs: seq<Button>, k: nat)
    requires k < |bs|
    ensures |set i | 0 <= i < |bs| && Activated(bs, k)[i].isActive| == 1
    ensures |set i | 0 <= i < |bs| && Activated(bs, k)[i].ariaSelected == "true"| == 1
    ensures Activated(bs, k)[k].isActive && Activated(bs, k)[k].ariaSelected == "true"
    ensures forall i :: 0 <= i < |bs| && i != k ==> Activated(bs, k)[i].ariaSelected == "false"
  {
    var r := Activated(bs, k);
    assert (set i | 0 <= i < |bs| && r[i].isActive) == {k};
    assert (set i | 0 <= i < |bs| && r[i].ariaSelected == "true") == {k};
  }

  /** The "all" filter shows every card, whatever its category. */
  lemma AllShowsEverything(cs: seq<Card>)
    ensures forall i :: 0 <= i < |cs| ==> Filtered(cs, Some("all"))[i].display == ""
  {
  }

  /** A card is shown iff its category is the filter's, for any filter but "all". */
  lemma ShownIffSameCategory(cs: seq<Card>, f: Option<string>)
    requires f != Some("all")
    ensures forall i :: 0 <= i < |cs| ==> (Filtered(cs, f)[i].display == "" <==> cs[i].cat == f)
  {
  }

  /** Filtering only writes `display`, so the last filter clicked decides everything. */
  lemma LastFilterWins(cs: seq<Card>, f: Option<string>, g: Option<string>)
    ensures Filtered(Filtered(cs, f), g) == Filtered(cs, g)
  {
    assert forall i :: 0 <= i < |cs| ==> Filtered(Filtered(cs, f), g)[i] == Filtered(cs, g)[i];
  }

  class FilterBar {
    var buttons: seq<Button>   // the `.filter` buttons, in page order
    var cards: seq<Card>       // the `.project` cards, in page order

    constructor (buttons: seq<Button>, cards: seq<Card>)
      ensures this.buttons == buttons && this.cards == cards
    {
      this.buttons := buttons;
      this.cards := cards;
    }

    /** `setActive(btn)` for the button at position k. */
    method SetActive(k: nat)
      modifies this`buttons
      ensures buttons == Activated(old(buttons), k)
    {
      var i := 0;
      while i < |buttons|
        invariant 0 <= i <= |buttons| == |old(buttons)|
        invariant forall j :: 0 <= j < i ==> buttons[j] == MarkButton(old(buttons)[j], j == k)
        invariant forall j :: i <= j < |buttons| ==> buttons[j] == old(buttons)[j]
      {
        buttons := buttons[i := MarkButton(buttons[i], i == k)];
        i := i + 1;
      }
    }

    /** The click handler of the button at position k. */
    method Click(k: nat)
      requires k < |buttons|
      modifies this
      ensures buttons == Activated(old(buttons), k)
      ensures cards == Filtered(old(cards), old(buttons)[k].filter)
    {
      SetActive(k);
      var f := buttons[k].filter;
      var i := 0;
      while i < |cards|
        invariant 0 <= i <= |cards| == |old(cards)|
        invariant buttons == Activated(old(buttons), k)
        invariant forall j :: 0 <= j < i ==> cards[j] == ShowCard(old(cards)[j], f)
        invariant forall j :: i <= j < |cards| ==> cards[j] == old(cards)[j]
      {
        cards := cards[i := ShowCard(cards[i], f)];
        i := i + 1;
      }
    }
  }
}
