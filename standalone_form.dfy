/**
 * The standalone configurator script (subscription-form.js at the top of
 * the repository): a module-level `formData` literal, cards rendered from
 * it, a click handler that marks the card, updates the data and recomputes
 * the total, and a total that adds only positive deltas and then takes 50
 * off one hard-coded combination.
 */
module StandaloneForm {
  import opened Text
  import opened Records
  import opened Selection
  import Catalog

  /** The base price used when no subscription is selected. */
  const FallbackBasePrice: int := 1795

  /** The hard-coded reduction for 9 months with full cover and 5000 km. */
  const CombinationDiscount: int := 50

  /**
   * The mileage list of the `formData` literal. It equals the enqueued
   * script's built-in mileage catalogue except that no entry is flagged
   * recommended. The subscription and insurance lists of the literal are
   * the built-in catalogues of module Catalog.
   */
  function InitialMileageOptions(): seq<Choice>
  {
    [ Choice("2,000 km", "2000", "AED 2.50 per additional km", 0, false, false),
      Choice("3,000 km", "3000", "AED 2.25 per additional km", 0, true, false),
      Choice("4,000 km", "4000", "AED 2.00 per additional km", 50, false, false),
      Choice("5,000 km", "5000", "AED 1.75 per additional km", 100, false, false) ]
  }

  /** A delta the total takes: the selected option's price when strictly positive, else nothing. */
  function Surcharge(o: Option<Choice>): (d: int)
    ensures d >= 0
    ensures o.Some? && o.value.price > 0 ==> d == o.value.price
    ensures o.None? || o.value.price <= 0 ==> d == 0
  {
    if o.Some? && o.value.price > 0 then o.value.price else 0
  }

  /**
   * Whether the combination check of `updateTotalPrice` throws, given the
   * selected subscription, insurance and mileage: it reads `.value` of the
   * subscription, then (only when that is 9 months) of the insurance, then
   * (only when that is full cover) of the mileage, with no guard against
   * "nothing selected".
   */
  predicate Throws(sub: Option<Choice>, ins: Option<Choice>, mile: Option<Choice>)
  {
    || sub.None?
    || (sub.value.value == "9months" && (ins.None? || (ins.value.value == "full" && mile.None?)))
  }

  /** The combination that gets the discount: 9 months, full cover, 5000 km. */
  predicate DiscountApplies(sub: Option<Choice>, ins: Option<Choice>, mile: Option<Choice>)
  {
    && sub.Some? && sub.value.value == "9months"
    && ins.Some? && ins.value.value == "full"
    && mile.Some? && mile.value.value == "5000"
  }

  /**
   * The total `updateTotalPrice` computes from the three selected options,
   * in the order it computes it, or None when the combination check throws
   * (the displayed total then stays as it was). The fallback base price is
   * computed but can never be shown: without a subscription the check
   * throws.
   */
  function TotalOf(sub: Option<Choice>, ins: Option<Choice>, mile: Option<Choice>): (r: Option<int>)
    ensures r.None? <==> Throws(sub, ins, mile)
    ensures r.Some? ==> sub.Some?
    ensures r.Some? ==> r.value == sub.value.price + Surcharge(ins) + Surcharge(mile)
                                   - (if DiscountApplies(sub, ins, mile) then CombinationDiscount else 0)
  {
    var base := if sub.Some? then sub.value.price else FallbackBasePrice;
    var withInsurance := if ins.Some? && ins.value.price > 0 then base + ins.value.price else base;
    var withMileage := if mile.Some? && mile.value.price > 0 then withInsurance + mile.value.price
                       else withInsurance;
    if sub.None? then None
    else if sub.value.value != "9months" then Some(withMileage)
    else if ins.None? then None
    else if ins.value.value != "full" then Some(withMileage)
    else if mile.None? then None
    else if mile.value.value == "5000" then Some(withMileage - CombinationDiscount)
    else Some(withMileage)
  }

  /** The total of the options selected in the three lists of `formData`. */
  function Total(subs: seq<Choice>, ins: seq<Choice>, miles: seq<Choice>): Option<int>
  {
    TotalOf(Find(subs), Find(ins), Find(miles))
  }

  /** With a selection in every category the total never throws. */
  lemma {:induction false} TotalWhenComplete(subs: seq<Choice>, ins: seq<Choice>, miles: seq<Choice>)
    requires ExactlyOneSelected(subs) && ExactlyOneSelected(ins) && ExactlyOneSelected(miles)
    ensures Total(subs, ins, miles).Some?
  {
  }

  /** Negative deltas never lower the total: it is at least the subscription price less the discount. */
  lemma {:induction false} TotalLowerBound(sub: Option<Choice>, ins: Option<Choice>, mile: Option<Choice>)
    requires TotalOf(sub, ins, mile).Some?
    ensures TotalOf(sub, ins, mile).value >= sub.value.price - CombinationDiscount
  {
  }

  /** The discounted combination: 1795 + 105 + 100 would be 2000, and the total shows 1950. */
  lemma {:induction false} CombinationTotal()
    ensures var sub, ins, mile := Catalog.DefaultSubscriptionChoices()[2], Catalog.DefaultInsuranceChoices()[1],
                                  InitialMileageOptions()[3];
      && sub.price + ins.price + mile.price == 2000
      && DiscountApplies(Some(sub), Some(ins), Some(mile))
      && TotalOf(Some(sub), Some(ins), Some(mile)) == Some(1950)
  {
  }

  /** The mileage list of the initial `formData` has unique keys and selects 3000 km. */
  lemma {:induction false} InitialMileage()
    ensures UniqueValues(InitialMileageOptions()) && ExactlyOneSelected(InitialMileageOptions())
    ensures Find(InitialMileageOptions()) == Some(InitialMileageOptions()[1])
  {
    var m := InitialMileageOptions();
    assert m[1..][1..][1..][1..] == [];
  }

  /** The initial `formData` totals 1795: 9 months, standard cover and 3000 km add nothing. */
  lemma {:induction false} InitialTotal()
    ensures Total(Catalog.DefaultSubscriptionChoices(), Catalog.DefaultInsuranceChoices(),
                  InitialMileageOptions()) == Some(1795)
  {
    Catalog.DefaultCatalogues();
    InitialMileage();
  }

  /** The page as loaded is shown faithfully, with the total "AED 1,795". */
  lemma {:induction false} InitialForm()
    ensures var subs, ins, miles := Catalog.DefaultSubscriptionChoices(), Catalog.DefaultInsuranceChoices(),
                                    InitialMileageOptions();
      && Shows(Section(subs, Render(subs))) && Shows(Section(ins, Render(ins)))
      && Shows(Section(miles, Render(miles)))
      && ShowsTotal(subs, ins, miles, "AED 1,795")
  {
    Catalog.DefaultCatalogues();
    InitialMileage();
    InitialTotal();
    FallbackTotalText();
  }

  /**
   * What a click establishes in its category: the cards after
   * `selectOption` are the cards of the options after `updateSelectedData`
   * with the clicked key, which leaves keys unique and exactly the clicked
   * option selected.
   */
  lemma {:induction false} Choose(before: seq<Choice>, j: nat, cards: seq<Card>)
    requires UniqueValues(before) && j < |before|
    requires |cards| == |before|
    requires forall i :: 0 <= i < |cards| ==> cards[i] == Render(before)[i].(marked := i == j, check := i == j)
    ensures cards[j].value == before[j].value
    ensures cards == Render(Reselect(before, before[j].value))
    ensures UniqueValues(Reselect(before, before[j].value))
    ensures ExactlyOneSelected(Reselect(before, before[j].value))
    ensures Find(Reselect(before, before[j].value)) == Some(before[j].(selected := true))
  {
    var v := before[j].value;
    RenderReselect(before, j);
    ReselectExactlyOne(before, v);
    assert HasValue(before, v);
    ReselectKeepsValues(before, v);
    FindAfterReselect(before, j);
  }

  /** One category of the page: its options in `formData` and its rendered cards. */
  datatype Section = Section(options: seq<Choice>, cards: seq<Card>)

  /**
   * A section is shown faithfully: one card per option, marked where
   * selected; keys are unique and exactly one option is selected.
   */
  ghost predicate Shows(s: Section)
  {
    s.cards == Render(s.options) && UniqueValues(s.options) && ExactlyOneSelected(s.options)
  }

  /** The total text shows the total of the current selection, which does not throw. */
  ghost predicate ShowsTotal(subs: seq<Choice>, ins: seq<Choice>, miles: seq<Choice>, text: string)
  {
    Total(subs, ins, miles).Some? && text == TotalText(Total(subs, ins, miles).value)
  }

  /** The section as a click on card `j` leaves it: that option selected alone, cards re-rendered. */
  function ClickedSection(s: Section, j: nat): Section
    requires j < |s.options|
  {
    var options := Reselect(s.options, s.options[j].value);
    Section(options, Render(options))
  }

  /**
   * A click on card `j` of one section: `selectOption` marks that card
   * alone, then `updateSelectedData` selects, in the section's options,
   * exactly those keyed by the card's `data-value`. The section stays
   * shown faithfully, with the clicked option as its one selection.
   */
  method ClickSection(s: Section, j: nat) returns (r: Section)
    requires Shows(s) && j < |s.options|
    ensures Shows(r)
    ensures r == ClickedSection(s, j)
    ensures Find(r.options) == Some(s.options[j].(selected := true))
    ensures |r.cards| == |s.cards| && forall i :: 0 <= i < |r.cards| ==> (r.cards[i].marked <==> i == j)
  {
    var cards := SelectOption(s.cards, j);
    Choose(s.options, j, cards);
    var options := ReselectEach(s.options, cards[j].value);
    r := Section(options, cards);
  }

  /** The class of the form: the `formData` object with its cards, and the total text. */
  class ConfiguratorForm {
    var subscription: Section
    var insurance: Section
    var mileage: Section
    var totalText: string

    /** The section of one category (`formData[section]` and its cards). */
    function SectionOf(c: Category): Section
      reads this
    {
      match c
      case Subscription => subscription
      case Insurance => insurance
      case Mileage => mileage
    }

    /**
     * Page load: the literal `formData`, the three rendered card groups and
     * the first total, "AED 1,795".
     */
    constructor ()
      ensures Shows(subscription) && Shows(insurance) && Shows(mileage)
      ensures ShowsTotal(subscription.options, insurance.options, mileage.options, totalText)
      ensures subscription.options == Catalog.DefaultSubscriptionChoices()
      ensures insurance.options == Catalog.DefaultInsuranceChoices()
      ensures mileage.options == InitialMileageOptions()
      ensures totalText == "AED 1,795"
    {
      var subs, ins, miles := Catalog.DefaultSubscriptionChoices(), Catalog.DefaultInsuranceChoices(),
                              InitialMileageOptions();
      InitialForm();
      subscription := Section(subs, Render(subs));
      insurance := Section(ins, Render(ins));
      mileage := Section(miles, Render(miles));
      totalText := "AED 1,795";
    }

    /**
     * `updateTotalPrice`: base price, then the positive deltas, then the
     * combination rule; the text is written only when nothing threw, which
     * is always the case when every section has its one selection.
     */
    method UpdateTotalPrice()
      modifies this`totalText
      ensures var t := Total(subscription.options, insurance.options, mileage.options);
              totalText == if t.Some? then TotalText(t.value) else old(totalText)
      ensures Shows(subscription) && Shows(insurance) && Shows(mileage) ==>
              ShowsTotal(subscription.options, insurance.options, mileage.options, totalText)
    {
      var selectedSubscription := Find(subscription.options);
      var totalPrice := if selectedSubscription.Some? then selectedSubscription.value.price
                        else FallbackBasePrice;
      var selectedInsurance := Find(insurance.options);
      var selectedMileage := Find(mileage.options);
      if selectedInsurance.Some? && selectedInsurance.value.price > 0 {
        totalPrice := totalPrice + selectedInsurance.value.price;
      }
      if selectedMileage.Some? && selectedMileage.value.price > 0 {
        totalPrice := totalPrice + selectedMileage.value.price;
      }
      // Each `.value` read below throws a TypeError on an undefined selection.
      if selectedSubscription.None? {
        return;
      }
      if selectedSubscription.value.value == "9months" {
        if selectedInsurance.None? {
          return;
        }
        if selectedInsurance.value.value == "full" {
          if selectedMileage.None? {
            return;
          }
          if selectedMileage.value.value == "5000" {
            totalPrice := totalPrice - CombinationDiscount;
          }
        }
      }
      assert TotalOf(selectedSubscription, selectedInsurance, selectedMileage) == Some(totalPrice);
      totalText := TotalText(totalPrice);
    }

    /**
     * A click on card `j` of a category: `selectOption`, then
     * `updateSelectedData` with the card's key, then `updateTotalPrice`.
     * Afterwards the clicked option is the one selected option of its
     * category, the other categories are unchanged, every section is
     * still shown faithfully and the total text shows the new total.
     */
    method Click(category: Category, j: nat)
      requires Shows(subscription) && Shows(insurance) && Shows(mileage)
      requires j < |SectionOf(category).options|
      modifies this`subscription, this`insurance, this`mileage, this`totalText
      ensures Shows(subscription) && Shows(insurance) && Shows(mileage)
      ensures ShowsTotal(subscription.options, insurance.options, mileage.options, totalText)
      ensures subscription == if category == Subscription then old(ClickedSection(subscription, j)) else old(subscription)
      ensures insurance == if category == Insurance then old(ClickedSection(insurance, j)) else old(insurance)
      ensures mileage == if category == Mileage then old(ClickedSection(mileage, j)) else old(mileage)
    {
      match category {
      case Subscription => subscription := ClickSection(subscription, j);
      case Insurance => insurance := ClickSection(insurance, j);
      case Mileage => mileage := ClickSection(mileage, j);
      }
      ghost var s, i, m := subscription, insurance, mileage;
      UpdateTotalPrice();
      assert subscription == s && insurance == i && mileage == m;
    }
  }
}
