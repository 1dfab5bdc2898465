/**
 * The option catalogue of the enqueued page script
 * (assets/js/subscription-form.js): `formatSubscriptionOptions`,
 * `formatInsuranceOptions` and `formatMileageOptions` turn the records the
 * server sends into the options the script renders, and fall back to a
 * fixed literal catalogue when a list is empty or missing.
 */
module Catalog {
  import opened Text
  import opened Records
  import opened Selection

  // -----------------------------------------------------------------------
  // Built-in catalogues (also the literal `formData` of subscription-form.js)

  function DefaultSubscriptionChoices(): seq<Choice>
  {
    [ Choice("3 months", "3months", "", 1895, false, false),
      Choice("6 months", "6months", "", 1845, false, false),
      Choice("9 months", "9months", "", 1795, true, false) ]
  }

  function DefaultInsuranceChoices(): seq<Choice>
  {
    [ Choice("Standard cover", "standard", "Included", 0, true, false),
      Choice("Full cover", "full", "+ AED 105/month", 105, false, true) ]
  }

  function DefaultMileageChoices(): seq<Choice>
  {
    [ Choice("2,000 km", "2000", "AED 2.50 per additional km", 0, false, false),
      Choice("3,000 km", "3000", "AED 2.25 per additional km", 0, true, true),
      Choice("4,000 km", "4000", "AED 2.00 per additional km", 50, false, false),
      Choice("5,000 km", "5000", "AED 1.75 per additional km", 100, false, false) ]
  }

  /**
   * The built-in catalogues: 3/6/9 months at 1895/1845/1795 with only 9
   * months selected; standard (0) and full (105) cover with only standard
   * selected; 2000/3000/4000/5000 km at 0/0/50/100 with only 3000 selected.
   * Keys are unique in each.
   */
  lemma {:induction false} DefaultCatalogues()
    ensures |DefaultSubscriptionChoices()| == 3 && |DefaultInsuranceChoices()| == 2
    ensures |DefaultMileageChoices()| == 4
    ensures UniqueValues(DefaultSubscriptionChoices())
    ensures UniqueValues(DefaultInsuranceChoices())
    ensures UniqueValues(DefaultMileageChoices())
    ensures ExactlyOneSelected(DefaultSubscriptionChoices())
    ensures ExactlyOneSelected(DefaultInsuranceChoices())
    ensures ExactlyOneSelected(DefaultMileageChoices())
    ensures Find(DefaultSubscriptionChoices()) == Some(Choice("9 months", "9months", "", 1795, true, false))
    ensures Find(DefaultInsuranceChoices()) == Some(Choice("Standard cover", "standard", "Included", 0, true, false))
    ensures Find(DefaultMileageChoices()) == Some(Choice("3,000 km", "3000", "AED 2.25 per additional km", 0, true, true))
  {
    var s, i, m := DefaultSubscriptionChoices(), DefaultInsuranceChoices(), DefaultMileageChoices();
    assert s[1..][1..][1..] == [] && i[1..][1..] == [] && m[1..][1..][1..][1..] == [];
  }

  // -----------------------------------------------------------------------
  // Formatting one record

  /** A subscription record as an option: keyed `<months>months`, priced base plus adjustment. */
  function SubscriptionChoice(o: SubscriptionRecord): (c: Choice)
  {
    Choice(IntToString(o.months) + " months", IntToString(o.months) + "months", "",
           o.basePrice + o.priceAdjustment, o.isSelected, o.isRecommended)
  }

  /** The line under an insurance type: the surcharge when positive, else "Included". */
  function InsuranceDescription(adjustment: int): (d: string)
    ensures adjustment > 0 ==> d == "+ AED " + IntToString(adjustment) + "/month"
    ensures adjustment <= 0 ==> d == "Included"
  {
    if adjustment > 0 then "+ AED " + IntToString(adjustment) + "/month" else "Included"
  }

  function InsuranceChoice(o: InsuranceRecord): (c: Choice)
  {
    Choice(o.name, InsuranceValue(o.id, o.name), InsuranceDescription(o.priceAdjustment),
           o.priceAdjustment, o.isSelected, o.isRecommended)
  }

  /**
   * A mileage record as an option. The records the server sends carry no
   * `extra_km_rate`, so an empty description always falls back to the 2.00
   * rate. The key is the decimal rendering of `miles`, which is what the
   * card's `data-value` holds.
   */
  function MileageChoice(o: MileageRecord): (c: Choice)
  {
    Choice(FormatNumber(o.miles) + " km", IntToString(o.miles),
           if o.description != "" then o.description else "AED 2.00 per additional km",
           o.priceAdjustment, o.isSelected, o.isRecommended)
  }

  // -----------------------------------------------------------------------
  // Formatting a list

  /** `formatSubscriptionOptions`. */
  function FormatSubscriptionOptions(options: seq<SubscriptionRecord>): (r: seq<Choice>)
    ensures options == [] ==> r == DefaultSubscriptionChoices()
    ensures options != [] ==> |r| == |options|
    ensures options != [] ==> forall i :: 0 <= i < |options| ==>
      && r[i].value == IntToString(options[i].months) + "months"
      && r[i].caption == IntToString(options[i].months) + " months"
      && r[i].price == options[i].basePrice + options[i].priceAdjustment
      && r[i].selected == options[i].isSelected
      && r[i].recommended == options[i].isRecommended
  {
    if options == [] then DefaultSubscriptionChoices()
    else seq(|options|, i requires 0 <= i < |options| => SubscriptionChoice(options[i]))
  }

  /** `formatInsuranceOptions`. */
  function FormatInsuranceOptions(options: seq<InsuranceRecord>): (r: seq<Choice>)
    ensures options == [] ==> r == DefaultInsuranceChoices()
    ensures options != [] ==> |r| == |options|
    ensures options != [] ==> forall i :: 0 <= i < |options| ==>
      && r[i].caption == options[i].name
      && r[i].value == InsuranceValue(options[i].id, options[i].name)
      && (r[i].description == "Included" <==> options[i].priceAdjustment <= 0)
      && r[i].price == options[i].priceAdjustment
      && r[i].selected == options[i].isSelected
      && r[i].recommended == options[i].isRecommended
  {
    if options == [] then DefaultInsuranceChoices()
    else seq(|options|, i requires 0 <= i < |options| => InsuranceChoice(options[i]))
  }

  /** `formatMileageOptions`. */
  function FormatMileageOptions(options: seq<MileageRecord>): (r: seq<Choice>)
    ensures options == [] ==> r == DefaultMileageChoices()
    ensures options != [] ==> |r| == |options|
    ensures options != [] ==> forall i :: 0 <= i < |options| ==>
      && r[i].caption == FormatNumber(options[i].miles) + " km"
      && r[i].value == IntToString(options[i].miles)
      && r[i].price == options[i].priceAdjustment
      && r[i].selected == options[i].isSelected
      && r[i].recommended == options[i].isRecommended
      && r[i].description != ""
  {
    if options == [] then DefaultMileageChoices()
    else seq(|options|, i requires 0 <= i < |options| => MileageChoice(options[i]))
  }

  /**
   * Subscription lengths with distinct month counts get distinct keys, so
   * selection keeps exactly one of them selected.
   */
  lemma {:induction false} SubscriptionKeysUnique(options: seq<SubscriptionRecord>)
    requires forall i, j :: 0 <= i < j < |options| ==> options[i].months != options[j].months
    ensures UniqueValues(FormatSubscriptionOptions(options))
  {
    var r := FormatSubscriptionOptions(options);
    if options != [] {
      forall i, j | 0 <= i < j < |r| ensures r[i].value != r[j].value {
        if r[i].value == r[j].value {
          var a, b := IntToString(options[i].months), IntToString(options[j].months);
          assert a + "months" == b + "months";
          assert a == (a + "months")[..|a + "months"| - 6];
          assert b == (b + "months")[..|b + "months"| - 6];
          IntToStringInjective(options[i].months, options[j].months);
        }
      }
    }
  }

  /** Mileage allowances with distinct distances get distinct keys. */
  lemma {:induction false} MileageKeysUnique(options: seq<MileageRecord>)
    requires forall i, j :: 0 <= i < j < |options| ==> options[i].miles != options[j].miles
    ensures UniqueValues(FormatMileageOptions(options))
  {
    var r := FormatMileageOptions(options);
    if options != [] {
      forall i, j | 0 <= i < j < |r| ensures r[i].value != r[j].value {
        if r[i].value == r[j].value {
          IntToStringInjective(options[i].miles, options[j].miles);
        }
      }
    }
  }

  function CountSelectedSubscriptions(options: seq<SubscriptionRecord>): nat
  {
    if options == [] then 0
    else (if options[0].isSelected then 1 else 0) + CountSelectedSubscriptions(options[1..])
  }

  /** A non-empty configured list keeps exactly as many selected options as the records have. */
  lemma {:induction false} FormatKeepsSelectionCount(options: seq<SubscriptionRecord>)
    requires options != []
    ensures CountSelected(FormatSubscriptionOptions(options)) == CountSelectedSubscriptions(options)
  {
    var r := FormatSubscriptionOptions(options);
    if |options| > 1 {
      FormatKeepsSelectionCount(options[1..]);
      assert r[1..] == FormatSubscriptionOptions(options[1..]);
    }
  }
}
