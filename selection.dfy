/**
 * The selection state shared by both page scripts (subscription-form.js and
 * assets/js/subscription-form.js): the formatted options of one category,
 * the cards rendered from them, choosing a value (`updateSelectedData` on
 * the data, `selectOption` on the cards) and looking up what is selected
 * (`find(option => option.selected)` on the data, `querySelector` on the
 * cards).
 */
module Selection {
  import opened Records

  /**
   * One option as a page script holds it after formatting: the bold caption
   * (duration, insurance type or distance), the key `value`, the line under
   * the caption, the price (absolute for a subscription, a delta otherwise)
   * and the two flags.
   */
  datatype Choice = Choice(
    caption: string,
    value: string,
    description: string,
    price: int,
    selected: bool,
    recommended: bool)

  function CountSelected(cs: seq<Choice>): (n: nat)
    ensures n <= |cs|
  {
    if cs == [] then 0 else (if cs[0].selected then 1 else 0) + CountSelected(cs[1..])
  }

  function CountValue(cs: seq<Choice>, v: string): (n: nat)
    ensures n <= |cs|
  {
    if cs == [] then 0 else (if cs[0].value == v then 1 else 0) + CountValue(cs[1..], v)
  }

  predicate HasValue(cs: seq<Choice>, v: string)
  {
    exists i :: 0 <= i < |cs| && cs[i].value == v
  }

  /** Keys are unique within a category. */
  predicate UniqueValues(cs: seq<Choice>)
  {
    forall i, j :: 0 <= i < j < |cs| ==> cs[i].value != cs[j].value
  }

  /** The state the configurator promises in every category: exactly one option selected. */
  predicate ExactlyOneSelected(cs: seq<Choice>)
  {
    CountSelected(cs) == 1
  }

  /** The options of one category after choosing `v`: selected exactly when the key is `v`. */
  function Reselect(cs: seq<Choice>, v: string): (r: seq<Choice>)
    ensures |r| == |cs|
    ensures forall i :: 0 <= i < |cs| ==> r[i] == cs[i].(selected := cs[i].value == v)
  {
    if cs == [] then [] else [cs[0].(selected := cs[0].value == v)] + Reselect(cs[1..], v)
  }

  /** After choosing `v`, the number of selected options is the number of options keyed `v`. */
  lemma {:induction false} ReselectCount(cs: seq<Choice>, v: string)
    ensures CountSelected(Reselect(cs, v)) == CountValue(cs, v)
  {
    if cs != [] {
      ReselectCount(cs[1..], v);
      assert Reselect(cs, v)[1..] == Reselect(cs[1..], v);
    }
  }

  lemma {:induction false} UniqueCountValue(cs: seq<Choice>, v: string)
    requires UniqueValues(cs)
    ensures CountValue(cs, v) == if HasValue(cs, v) then 1 else 0
  {
    if cs != [] {
      var rest := cs[1..];
      assert UniqueValues(rest) by {
        forall i, j | 0 <= i < j < |rest| ensures rest[i].value != rest[j].value {
          assert rest[i] == cs[i + 1] && rest[j] == cs[j + 1];
        }
      }
      UniqueCountValue(rest, v);
      if cs[0].value == v {
        assert !HasValue(rest, v) by {
          forall i | 0 <= i < |rest| ensures rest[i].value != v {
            assert rest[i] == cs[i + 1];
          }
        }
      } else {
        assert HasValue(cs, v) == HasValue(rest, v) by {
          if HasValue(cs, v) {
            var i :| 0 <= i < |cs| && cs[i].value == v;
            assert rest[i - 1] == cs[i];
          }
          if HasValue(rest, v) {
            var i :| 0 <= i < |rest| && rest[i].value == v;
            assert cs[i + 1] == rest[i];
          }
        }
      }
    }
  }

  /**
   * Choosing a key that exists in a category with unique keys leaves exactly
   * one option selected; choosing one that does not exist leaves none.
   */
  lemma {:induction false} ReselectExactlyOne(cs: seq<Choice>, v: string)
    requires UniqueValues(cs)
    ensures ExactlyOneSelected(Reselect(cs, v)) <==> HasValue(cs, v)
    ensures !HasValue(cs, v) ==> CountSelected(Reselect(cs, v)) == 0
  {
    ReselectCount(cs, v);
    UniqueCountValue(cs, v);
  }

  /** Choosing the same key twice is the same as choosing it once. */
  lemma {:induction false} ReselectIdempotent(cs: seq<Choice>, v: string)
    ensures Reselect(Reselect(cs, v), v) == Reselect(cs, v)
  {
    var once := Reselect(cs, v);
    assert forall i :: 0 <= i < |cs| ==> Reselect(once, v)[i] == once[i];
  }

  /** Choosing leaves keys, and so their uniqueness, alone. */
  lemma {:induction false} ReselectKeepsValues(cs: seq<Choice>, v: string)
    ensures forall i :: 0 <= i < |cs| ==> Reselect(cs, v)[i].value == cs[i].value
    ensures UniqueValues(Reselect(cs, v)) <==> UniqueValues(cs)
  {
  }

  /**
   * The position `find(option => option.selected)` stops at: the first
   * selected option, or the length when none is selected.
   */
  function FindSelected(cs: seq<Choice>): (k: nat)
    ensures k <= |cs|
    ensures k < |cs| ==> cs[k].selected
    ensures forall j :: 0 <= j < k ==> !cs[j].selected
    ensures k == |cs| <==> CountSelected(cs) == 0
  {
    if cs == [] then 0 else if cs[0].selected then 0 else 1 + FindSelected(cs[1..])
  }

  /** `find(option => option.selected)`: the first selected option, if any. */
  function Find(cs: seq<Choice>): (r: Option<Choice>)
    ensures r.None? <==> CountSelected(cs) == 0
    ensures r.Some? ==> r.value.selected && r.value in cs
  {
    var k := FindSelected(cs);
    if k < |cs| then Some(cs[k]) else None
  }

  /** `find` stops at the first selected option. */
  lemma {:induction false} FindSelectedAt(cs: seq<Choice>, k: nat)
    requires k < |cs| && cs[k].selected
    requires forall i :: 0 <= i < k ==> !cs[i].selected
    ensures FindSelected(cs) == k
  {
    if k > 0 {
      FindSelectedAt(cs[1..], k - 1);
    }
  }

  /** After choosing an existing key, `find` returns the option carrying it. */
  lemma {:induction false} FindAfterReselect(cs: seq<Choice>, k: nat)
    requires UniqueValues(cs) && k < |cs|
    ensures Find(Reselect(cs, cs[k].value)) == Some(cs[k].(selected := true))
  {
    var r := Reselect(cs, cs[k].value);
    FindSelectedAt(r, k);
  }

  /**
   * The `forEach` of `updateSelectedData` over one category: each option's
   * `selected` flag becomes "its key is `v`".
   */
  method ReselectEach(cs: seq<Choice>, v: string) returns (r: seq<Choice>)
    ensures r == Reselect(cs, v)
  {
    r := cs;
    var i := 0;
    while i < |r|
      invariant 0 <= i <= |r| == |cs|
      invariant forall k :: 0 <= k < i ==> r[k] == cs[k].(selected := cs[k].value == v)
      invariant forall k :: i <= k < |r| ==> r[k] == cs[k]
    {
      r := r[i := r[i].(selected := r[i].value == v)];
      i := i + 1;
    }
  }

  // -----------------------------------------------------------------------
  // Rendered cards

  /**
   * A rendered option card: its bold caption, `data-value`, the price data
   * attribute, whether it carries the selected class and whether it holds
   * the check-mark image.
   */
  datatype Card = Card(caption: string, value: string, price: int, marked: bool, check: bool)

  /** The cards a render function builds: one per option, in order, marked when selected. */
  function Render(cs: seq<Choice>): (cards: seq<Card>)
    ensures |cards| == |cs|
    ensures forall i :: 0 <= i < |cs| ==>
      cards[i] == Card(cs[i].caption, cs[i].value, cs[i].price, cs[i].selected, cs[i].selected)
  {
    if cs == [] then []
    else [Card(cs[0].caption, cs[0].value, cs[0].price, cs[0].selected, cs[0].selected)] + Render(cs[1..])
  }

  /** The first card carrying the selected class (`querySelector`). */
  function FirstMarked(cards: seq<Card>): (r: Option<Card>)
    ensures r.Some? ==> r.value in cards && r.value.marked
    ensures r.None? <==> forall j :: 0 <= j < |cards| ==> !cards[j].marked
  {
    if cards == [] then None
    else if cards[0].marked then Some(cards[0])
    else FirstMarked(cards[1..])
  }

  /** When one card alone carries the selected class, `querySelector` returns that card. */
  lemma {:induction false} FirstMarkedOnly(cards: seq<Card>, k: nat)
    requires k < |cards|
    requires forall j :: 0 <= j < |cards| ==> (cards[j].marked <==> j == k)
    ensures FirstMarked(cards) == Some(cards[k])
  {
    if k > 0 {
      FirstMarkedOnly(cards[1..], k - 1);
    }
  }

  /** Rendering a category's options and reading the marked card gives the first selected option. */
  lemma {:induction false} FirstMarkedOfRender(cs: seq<Choice>)
    ensures FirstMarked(Render(cs)).None? <==> Find(cs).None?
    ensures Find(cs).Some? ==>
      (FirstMarked(Render(cs)) ==
       Some(Card(Find(cs).value.caption, Find(cs).value.value, Find(cs).value.price, true, true)))
  {
    if cs != [] {
      FirstMarkedOfRender(cs[1..]);
      assert Render(cs)[1..] == Render(cs[1..]);
    }
  }

  /**
   * With unique keys, marking the clicked card and choosing its key in the
   * data agree: the cards after `selectOption` are the cards rendered from
   * the options after `updateSelectedData`.
   */
  lemma {:induction false} RenderReselect(cs: seq<Choice>, j: nat)
    requires UniqueValues(cs) && j < |cs|
    ensures forall i :: 0 <= i < |cs| ==>
      Render(Reselect(cs, cs[j].value))[i] == Render(cs)[i].(marked := i == j, check := i == j)
  {
  }

  /**
   * `selectOption`: every card of the category loses the selected class and
   * its check mark, then the clicked card gets both.
   */
  method SelectOption(cards: seq<Card>, clicked: nat) returns (r: seq<Card>)
    requires clicked < |cards|
    ensures |r| == |cards|
    ensures forall j :: 0 <= j < |cards| ==>
      r[j] == cards[j].(marked := j == clicked, check := j == clicked)
  {
    r := cards;
    var j := 0;
    while j < |r|
      invariant 0 <= j <= |r| == |cards|
      invariant forall i :: 0 <= i < j ==> r[i] == cards[i].(marked := false, check := false)
      invariant forall i :: j <= i < |r| ==> r[i] == cards[i]
    {
      r := r[j := r[j].(marked := false, check := false)];
      j := j + 1;
    }
    r := r[clicked := r[clicked].(marked := true, check := true)];
  }
}
