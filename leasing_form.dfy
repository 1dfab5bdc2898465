/**
 * The enqueued page script (assets/js/subscription-form.js): the page keeps
 * the records the server sent in `window.leasingFormData`, renders one card
 * per formatted option, and on a click marks the card, flags the chosen
 * record in the data and recomputes the total from the marked cards. On
 * submit it means to build a WhatsApp link from the marked cards' captions
 * unless the security token is missing; as written, the caption lookup
 * fails as soon as a card is marked.
 */
module LeasingForm {
  import opened Text
  import opened Records
  import opened Selection
  import opened Catalog

  /** The subscription price used when no subscription card is marked. */
  const FallbackBasePrice: int := 1795

  /** The number the link goes to when the vehicle has none configured. */
  const DefaultWhatsAppNumber: string := "923105054025"

  /** The watching counter shown when the data carries none (or zero). */
  const DefaultWatchingCount: nat := 3

  // -----------------------------------------------------------------------
  // `updateSelectedData` on the records

  /** The key the script derives from a subscription record: `option.months + 'months'`. */
  function SubscriptionKey(o: SubscriptionRecord): string
  {
    IntToString(o.months) + "months"
  }

  /** The key of an insurance record: its `id`, else its slugged name. */
  function InsuranceKey(o: InsuranceRecord): string
  {
    InsuranceValue(o.id, o.name)
  }

  /** The key a mileage card carries in `data-value`: the decimal rendering of `miles`. */
  function MileageKey(o: MileageRecord): string
  {
    IntToString(o.miles)
  }

  /** Each subscription record flagged selected exactly when its key is `v`. */
  function SelectSubscriptions(recs: seq<SubscriptionRecord>, v: string): seq<SubscriptionRecord>
  {
    seq(|recs|, i requires 0 <= i < |recs| => recs[i].(isSelected := SubscriptionKey(recs[i]) == v))
  }

  /** Each insurance record flagged selected exactly when its key is `v`. */
  function SelectInsurances(recs: seq<InsuranceRecord>, v: string): seq<InsuranceRecord>
  {
    seq(|recs|, i requires 0 <= i < |recs| => recs[i].(isSelected := InsuranceKey(recs[i]) == v))
  }

  /**
   * Each mileage record flagged selected exactly when the card key of its
   * distance is `v`: the comparison the script evidently intends.
   */
  function SelectMileages(recs: seq<MileageRecord>, v: string): seq<MileageRecord>
  {
    seq(|recs|, i requires 0 <= i < |recs| => recs[i].(isSelected := MileageKey(recs[i]) == v))
  }

  /** A JavaScript value, as far as `===` sees it here: a number or a string. */
  datatype JsValue = Num(n: int) | Str(s: string)

  /** `===`: the same type and the same value; a number never equals a string. */
  predicate StrictEquals(a: JsValue, b: JsValue)
  {
    a == b
  }

  /**
   * The mileage branch as written: `option.miles === value`, where `miles`
   * is the number the server sent and `value` the card's `data-value`
   * string.
   */
  function SelectMileagesAsWritten(recs: seq<MileageRecord>, v: string): seq<MileageRecord>
  {
    seq(|recs|, i requires 0 <= i < |recs| => recs[i].(isSelected := StrictEquals(Num(recs[i].miles), Str(v))))
  }

  /** As written, choosing any mileage card clears the flag of every mileage record. */
  lemma {:induction false} MileageAsWrittenClears(recs: seq<MileageRecord>, v: string)
    ensures |SelectMileagesAsWritten(recs, v)| == |recs|
    ensures forall i :: 0 <= i < |recs| ==> !SelectMileagesAsWritten(recs, v)[i].isSelected
  {
  }

  /**
   * The input that shows it: one 3000 km record, whose card carries
   * `data-value` "3000". Clicking that card leaves the record unselected as
   * written, where the intended comparison selects it.
   */
  lemma {:induction false} MileageAsWrittenCounterexample()
    ensures var recs := [MileageRecord(3000, 0, false, false, "")];
            var v := FormatMileageOptions(recs)[0].value;
            && v == "3000"
            && !SelectMileagesAsWritten(recs, v)[0].isSelected
            && SelectMileages(recs, v)[0].isSelected
  {
    assert NatToString(3000) == "3000" by {
      assert NatToString(3) == "3";
      assert NatToString(30) == "30";
      assert NatToString(300) == "300";
    }
  }

  /** The records after `updateSelectedData(section, value)`: only the named category changes. */
  function SelectedData(d: VehicleData, section: Category, value: string): VehicleData
  {
    match section
    case Subscription => d.(subscriptionOptions := SelectSubscriptions(d.subscriptionOptions, value))
    case Insurance => d.(insuranceOptions := SelectInsurances(d.insuranceOptions, value))
    case Mileage => d.(mileageOptions := SelectMileages(d.mileageOptions, value))
  }

  /** The `forEach` over the subscription records. */
  method SelectSubscriptionsEach(recs: seq<SubscriptionRecord>, v: string) returns (r: seq<SubscriptionRecord>)
    ensures r == SelectSubscriptions(recs, v)
  {
    r := recs;
    var i := 0;
    while i < |r|
      invariant 0 <= i <= |r| == |recs|
      invariant forall k :: 0 <= k < i ==> r[k] == SelectSubscriptions(recs, v)[k]
      invariant forall k :: i <= k < |r| ==> r[k] == recs[k]
    {
      r := r[i := r[i].(isSelected := SubscriptionKey(r[i]) == v)];
      i := i + 1;
    }
  }

  /** The `forEach` over the insurance records. */
  method SelectInsurancesEach(recs: seq<InsuranceRecord>, v: string) returns (r: seq<InsuranceRecord>)
    ensures r == SelectInsurances(recs, v)
  {
    r := recs;
    var i := 0;
    while i < |r|
      invariant 0 <= i <= |r| == |recs|
      invariant forall k :: 0 <= k < i ==> r[k] == SelectInsurances(recs, v)[k]
      invariant forall k :: i <= k < |r| ==> r[k] == recs[k]
    {
      r := r[i := r[i].(isSelected := InsuranceKey(r[i]) == v)];
      i := i + 1;
    }
  }

  /** The `forEach` over the mileage records, with the intended comparison. */
  method SelectMileagesEach(recs: seq<MileageRecord>, v: string) returns (r: seq<MileageRecord>)
    ensures r == SelectMileages(recs, v)
  {
    r := recs;
    var i := 0;
    while i < |r|
      invariant 0 <= i <= |r| == |recs|
      invariant forall k :: 0 <= k < i ==> r[k] == SelectMileages(recs, v)[k]
      invariant forall k :: i <= k < |r| ==> r[k] == recs[k]
    {
      r := r[i := r[i].(isSelected := MileageKey(r[i]) == v)];
      i := i + 1;
    }
  }

  // -----------------------------------------------------------------------
  // The records and the cards agree

  /** Flagging records by key and formatting them is choosing that key among the formatted options. */
  lemma {:induction false} FormatSelectSubscriptions(recs: seq<SubscriptionRecord>, v: string)
    requires recs != []
    ensures FormatSubscriptionOptions(SelectSubscriptions(recs, v)) == Reselect(FormatSubscriptionOptions(recs), v)
  {
    var flagged := SelectSubscriptions(recs, v);
    var a, b := FormatSubscriptionOptions(flagged), Reselect(FormatSubscriptionOptions(recs), v);
    forall i | 0 <= i < |recs| ensures a[i] == b[i] {
      assert a[i] == SubscriptionChoice(flagged[i]);
      assert b[i] == SubscriptionChoice(recs[i]).(selected := SubscriptionChoice(recs[i]).value == v);
    }
  }

  lemma {:induction false} FormatSelectInsurances(recs: seq<InsuranceRecord>, v: string)
    requires recs != []
    ensures FormatInsuranceOptions(SelectInsurances(recs, v)) == Reselect(FormatInsuranceOptions(recs), v)
  {
    var flagged := SelectInsurances(recs, v);
    var a, b := FormatInsuranceOptions(flagged), Reselect(FormatInsuranceOptions(recs), v);
    forall i | 0 <= i < |recs| ensures a[i] == b[i] {
      assert a[i] == InsuranceChoice(flagged[i]);
      assert b[i] == InsuranceChoice(recs[i]).(selected := InsuranceChoice(recs[i]).value == v);
    }
  }

  lemma {:induction false} FormatSelectMileages(recs: seq<MileageRecord>, v: string)
    requires recs != []
    ensures FormatMileageOptions(SelectMileages(recs, v)) == Reselect(FormatMileageOptions(recs), v)
  {
    var flagged := SelectMileages(recs, v);
    var a, b := FormatMileageOptions(flagged), Reselect(FormatMileageOptions(recs), v);
    forall i | 0 <= i < |recs| ensures a[i] == b[i] {
      assert a[i] == MileageChoice(flagged[i]);
      assert b[i] == MileageChoice(recs[i]).(selected := MileageChoice(recs[i]).value == v);
    }
  }

  /**
   * A click keeps the configured subscription records and the cards in
   * step: when the cards were rendered from the records and keys are
   * unique, the cards after `selectOption` are exactly the cards the
   * records after `updateSelectedData` render to.
   */
  lemma {:induction false} SubscriptionClickInStep(recs: seq<SubscriptionRecord>, j: nat)
    requires recs != [] && j < |recs|
    requires UniqueValues(FormatSubscriptionOptions(recs))
    ensures var cards := Render(FormatSubscriptionOptions(recs));
            var after := Render(FormatSubscriptionOptions(SelectSubscriptions(recs, cards[j].value)));
            |after| == |cards| && forall i :: 0 <= i < |cards| ==> after[i] == cards[i].(marked := i == j, check := i == j)
  {
    var cs := FormatSubscriptionOptions(recs);
    FormatSelectSubscriptions(recs, cs[j].value);
    RenderReselect(cs, j);
  }

  lemma {:induction false} InsuranceClickInStep(recs: seq<InsuranceRecord>, j: nat)
    requires recs != [] && j < |recs|
    requires UniqueValues(FormatInsuranceOptions(recs))
    ensures var cards := Render(FormatInsuranceOptions(recs));
            var after := Render(FormatInsuranceOptions(SelectInsurances(recs, cards[j].value)));
            |after| == |cards| && forall i :: 0 <= i < |cards| ==> after[i] == cards[i].(marked := i == j, check := i == j)
  {
    var cs := FormatInsuranceOptions(recs);
    FormatSelectInsurances(recs, cs[j].value);
    RenderReselect(cs, j);
  }

  /** With the intended comparison, mileage records and cards stay in step as well. */
  lemma {:induction false} MileageClickInStep(recs: seq<MileageRecord>, j: nat)
    requires recs != [] && j < |recs|
    requires UniqueValues(FormatMileageOptions(recs))
    ensures var cards := Render(FormatMileageOptions(recs));
            var after := Render(FormatMileageOptions(SelectMileages(recs, cards[j].value)));
            |after| == |cards| && forall i :: 0 <= i < |cards| ==> after[i] == cards[i].(marked := i == j, check := i == j)
  {
    var cs := FormatMileageOptions(recs);
    FormatSelectMileages(recs, cs[j].value);
    RenderReselect(cs, j);
  }

  // -----------------------------------------------------------------------
  // The total read from the cards

  /** The `data-price` of the first marked card, or `fallback` when none is marked. */
  function MarkedPrice(cards: seq<Card>, fallback: int): (p: int)
    ensures FirstMarked(cards).None? ==> p == fallback
    ensures FirstMarked(cards).Some? ==> p == FirstMarked(cards).value.price
  {
    var c := FirstMarked(cards);
    if c.Some? then c.value.price else fallback
  }

  /**
   * The total `updateTotalPrice` computes: the marked subscription price
   * (1795 when none), plus the marked insurance price and the marked
   * mileage adjustment (0 when none), with no condition on their sign.
   */
  function PageTotal(subscriptionCards: seq<Card>, insuranceCards: seq<Card>, mileageCards: seq<Card>): int
  {
    MarkedPrice(subscriptionCards, FallbackBasePrice) + MarkedPrice(insuranceCards, 0) + MarkedPrice(mileageCards, 0)
  }

  /**
   * On freshly rendered cards the total is that of the options selected in
   * the data: the first selected subscription (or 1795), plus the first
   * selected insurance and mileage prices (or 0).
   */
  lemma {:induction false} PageTotalOfRender(subs: seq<Choice>, ins: seq<Choice>, miles: seq<Choice>)
    ensures PageTotal(Render(subs), Render(ins), Render(miles)) ==
            (if Find(subs).Some? then Find(subs).value.price else FallbackBasePrice)
            + (if Find(ins).Some? then Find(ins).value.price else 0)
            + (if Find(miles).Some? then Find(miles).value.price else 0)
  {
    FirstMarkedOfRender(subs);
    FirstMarkedOfRender(ins);
    FirstMarkedOfRender(miles);
  }

  /**
   * A vehicle with no configured options shows the built-in catalogues and
   * the total 1795 + 0 + 0, as "AED 1,795".
   */
  lemma {:induction false} DefaultPageTotal()
    ensures PageTotal(Render(FormatSubscriptionOptions([])), Render(FormatInsuranceOptions([])),
                      Render(FormatMileageOptions([]))) == 1795
    ensures TotalText(1795) == "AED 1,795"
  {
    DefaultCatalogues();
    PageTotalOfRender(DefaultSubscriptionChoices(), DefaultInsuranceChoices(), DefaultMileageChoices());
    FallbackTotalText();
  }

  // -----------------------------------------------------------------------
  // Submitting

  /**
   * The bold caption of the marked card, or "" when no card is marked: the
   * text the handler means to put in the message. The handler looks it up
   * with `querySelector('.alc-text-lg')`, but the caption element carries
   * the class `sm:alc-text-lg` and nothing in the card carries
   * `alc-text-lg`, so as written the lookup finds nothing.
   */
  function MarkedCaption(cards: seq<Card>): string
  {
    var c := FirstMarked(cards);
    if c.Some? then c.value.caption else ""
  }

  /**
   * How `handleSubmit` ends: reading `.textContent` of a caption lookup
   * that found nothing throws a TypeError; a missing or empty token
   * returns early; otherwise the link is opened. The event's default is
   * prevented first, so only the last case leaves the page.
   */
  datatype Submission = CaptionLookupFails | MissingToken | OpenLink(url: string)

  /** Some card of the three groups carries the selected class. */
  predicate AnyMarked(subscriptionCards: seq<Card>, insuranceCards: seq<Card>, mileageCards: seq<Card>)
  {
    FirstMarked(subscriptionCards).Some? || FirstMarked(insuranceCards).Some? || FirstMarked(mileageCards).Some?
  }

  /** The token `nonceField ? nonceField.value : ''` is empty. */
  predicate TokenMissing(nonceField: Option<string>)
  {
    nonceField.None? || nonceField.value == ""
  }

  /**
   * `handleSubmit` as written: a marked card in any group throws at its
   * caption lookup; with no card marked every caption is "" and the token
   * decides between the early return and the link.
   */
  function SubmissionAsWritten(d: VehicleData, subscriptionCards: seq<Card>, insuranceCards: seq<Card>,
                               mileageCards: seq<Card>, totalText: string, nonceField: Option<string>,
                               encode: string -> string): (r: Submission)
    ensures r.CaptionLookupFails? <==> AnyMarked(subscriptionCards, insuranceCards, mileageCards)
    ensures r.MissingToken? <==> !AnyMarked(subscriptionCards, insuranceCards, mileageCards) && TokenMissing(nonceField)
    ensures r.OpenLink? ==>
      r.url == WhatsAppUrl(Phone(d.whatsappNumber), encode(LeaseMessage(d.vehicleTitle, "", "", "", totalText)))
  {
    if AnyMarked(subscriptionCards, insuranceCards, mileageCards) then CaptionLookupFails
    else if TokenMissing(nonceField) then MissingToken
    else OpenLink(WhatsAppUrl(Phone(d.whatsappNumber), encode(LeaseMessage(d.vehicleTitle, "", "", "", totalText))))
  }

  /**
   * `handleSubmit` as intended: the captions of the marked cards go into
   * the message, and only a missing token stops the link.
   */
  function SubmissionIntended(d: VehicleData, subscriptionCards: seq<Card>, insuranceCards: seq<Card>,
                              mileageCards: seq<Card>, totalText: string, nonceField: Option<string>,
                              encode: string -> string): (r: Submission)
    ensures !r.CaptionLookupFails?
    ensures r.MissingToken? <==> TokenMissing(nonceField)
    ensures r.OpenLink? ==>
      r.url == WhatsAppUrl(Phone(d.whatsappNumber),
                           encode(LeaseMessage(d.vehicleTitle, MarkedCaption(subscriptionCards),
                                               MarkedCaption(insuranceCards), MarkedCaption(mileageCards), totalText)))
  {
    if TokenMissing(nonceField) then MissingToken
    else OpenLink(WhatsAppUrl(Phone(d.whatsappNumber),
                              encode(LeaseMessage(d.vehicleTitle, MarkedCaption(subscriptionCards),
                                                  MarkedCaption(insuranceCards), MarkedCaption(mileageCards),
                                                  totalText))))
  }

  /** The handler as written and as intended agree exactly when no card is marked. */
  lemma {:induction false} SubmissionAgrees(d: VehicleData, subscriptionCards: seq<Card>, insuranceCards: seq<Card>,
                                            mileageCards: seq<Card>, totalText: string, nonceField: Option<string>,
                                            encode: string -> string)
    ensures SubmissionAsWritten(d, subscriptionCards, insuranceCards, mileageCards, totalText, nonceField, encode)
            == SubmissionIntended(d, subscriptionCards, insuranceCards, mileageCards, totalText, nonceField, encode)
            <==> !AnyMarked(subscriptionCards, insuranceCards, mileageCards)
  {
    if !AnyMarked(subscriptionCards, insuranceCards, mileageCards) {
      assert MarkedCaption(subscriptionCards) == "" && MarkedCaption(insuranceCards) == ""
             && MarkedCaption(mileageCards) == "";
    }
  }

  /**
   * On the page of a vehicle with no configured options, where 9 months,
   * standard cover and 3000 km are marked, a submit with a token throws as
   * written, where the intended handler links with those three captions.
   */
  lemma {:induction false} DefaultPageSubmitFails(d: VehicleData, encode: string -> string)
    ensures var s, i, m := Render(FormatSubscriptionOptions([])), Render(FormatInsuranceOptions([])),
                           Render(FormatMileageOptions([]));
      && SubmissionAsWritten(d, s, i, m, "AED 1,795", Some("x"), encode) == CaptionLookupFails
      && SubmissionIntended(d, s, i, m, "AED 1,795", Some("x"), encode)
         == OpenLink(WhatsAppUrl(Phone(d.whatsappNumber),
                                 encode(LeaseMessage(d.vehicleTitle, "9 months", "Standard cover", "3,000 km",
                                                     "AED 1,795"))))
  {
    var s, i, m := Render(FormatSubscriptionOptions([])), Render(FormatInsuranceOptions([])),
                   Render(FormatMileageOptions([]));
    DefaultPageCaptions();
    SubmitWithMarkedCard(d, s, i, m, "AED 1,795", "x", encode);
  }

  /** With a card marked and a token present, as written the submit throws and as intended it links. */
  lemma {:induction false} SubmitWithMarkedCard(d: VehicleData, s: seq<Card>, i: seq<Card>, m: seq<Card>,
                                                totalText: string, nonce: string, encode: string -> string)
    requires MarkedCaption(s) != "" && nonce != ""
    ensures SubmissionAsWritten(d, s, i, m, totalText, Some(nonce), encode) == CaptionLookupFails
    ensures SubmissionIntended(d, s, i, m, totalText, Some(nonce), encode)
            == OpenLink(WhatsAppUrl(Phone(d.whatsappNumber),
                                    encode(LeaseMessage(d.vehicleTitle, MarkedCaption(s), MarkedCaption(i),
                                                        MarkedCaption(m), totalText))))
  {
    assert AnyMarked(s, i, m);
  }

  /** The captions of the cards marked on the page of a vehicle with no configured options. */
  lemma {:induction false} DefaultPageCaptions()
    ensures MarkedCaption(Render(FormatSubscriptionOptions([]))) == "9 months"
    ensures MarkedCaption(Render(FormatInsuranceOptions([]))) == "Standard cover"
    ensures MarkedCaption(Render(FormatMileageOptions([]))) == "3,000 km"
  {
    DefaultCatalogues();
    FirstMarkedOfRender(DefaultSubscriptionChoices());
    FirstMarkedOfRender(DefaultInsuranceChoices());
    FirstMarkedOfRender(DefaultMileageChoices());
  }

  /** The number the link goes to: the configured one, else the default. */
  function Phone(configured: string): (p: string)
    ensures p != ""
    ensures configured != "" ==> p == configured
  {
    if configured != "" then configured else DefaultWhatsAppNumber
  }

  /** The message the link carries, line by line. */
  function LeaseMessage(title: string, subscription: string, insurance: string, mileage: string, total: string): string
  {
    "Hello! I'm interested in leasing a " + title + ".\n\n"
    + "Selected options:\n"
    + "\U{2022} Subscription: " + subscription + "\n"
    + "\U{2022} Insurance: " + insurance + "\n"
    + "\U{2022} Monthly mileage: " + mileage + "\n"
    + "\U{2022} Total monthly price: " + total + "\n\n"
    + "Please contact me to finalize this subscription. Thank you!"
  }

  /** `https://wa.me/${phoneNumber}?text=${encodedMessage}`. */
  function WhatsAppUrl(phone: string, encodedMessage: string): string
  {
    "https://wa.me/" + phone + "?text=" + encodedMessage
  }

  /** The part of `s` after its first `c`, or "" when there is none. */
  function After(s: string, c: char): (r: string)
    ensures |r| <= |s|
  {
    if s == [] then [] else if s[0] == c then s[1..] else After(s[1..], c)
  }

  lemma {:induction false} AfterAppend(a: string, c: char, b: string)
    requires c !in a
    ensures After(a + [c] + b, c) == b
  {
    if a == [] {
      assert a + [c] + b == [c] + b;
    } else {
      assert (a + [c] + b)[1..] == a[1..] + [c] + b;
      AfterAppend(a[1..], c, b);
    }
  }

  /**
   * The link reads back: when the phone number holds no `?`, the query
   * string after the first `?` is `text=` and the encoded message.
   */
  lemma {:induction false} WhatsAppUrlQuery(phone: string, encodedMessage: string)
    requires '?' !in phone
    ensures After(WhatsAppUrl(phone, encodedMessage), '?') == "text=" + encodedMessage
  {
    var head := "https://wa.me/" + phone;
    assert '?' !in "https://wa.me/";
    assert WhatsAppUrl(phone, encodedMessage) == head + ['?'] + ("text=" + encodedMessage);
    AfterAppend(head, '?', "text=" + encodedMessage);
  }

  // -----------------------------------------------------------------------
  // The page

  /** The page after `initLeasingForm`: the data, the three card groups, the counter and the total. */
  class LeasingPage {
    var data: VehicleData
    var subscriptionCards: seq<Card>
    var insuranceCards: seq<Card>
    var mileageCards: seq<Card>
    var watchingCounter: nat
    var totalText: string

    /** The cards of one category (`.alc-<category>-option`). */
    function CardsOf(c: Category): seq<Card>
      reads this
    {
      match c
      case Subscription => subscriptionCards
      case Insurance => insuranceCards
      case Mileage => mileageCards
    }

    /**
     * `initLeasingForm(formData)`: keeps the data, renders the formatted
     * options (the built-in catalogue for an empty list), shows the
     * watching count (3 when absent) and the first total.
     */
    constructor (formData: VehicleData)
      ensures data == formData
      ensures subscriptionCards == Render(FormatSubscriptionOptions(formData.subscriptionOptions))
      ensures insuranceCards == Render(FormatInsuranceOptions(formData.insuranceOptions))
      ensures mileageCards == Render(FormatMileageOptions(formData.mileageOptions))
      ensures watchingCounter == if formData.watchingCount == 0 then DefaultWatchingCount else formData.watchingCount
      ensures totalText == TotalText(PageTotal(subscriptionCards, insuranceCards, mileageCards))
    {
      var subs := Render(FormatSubscriptionOptions(formData.subscriptionOptions));
      var ins := Render(FormatInsuranceOptions(formData.insuranceOptions));
      var miles := Render(FormatMileageOptions(formData.mileageOptions));
      data := formData;
      subscriptionCards, insuranceCards, mileageCards := subs, ins, miles;
      watchingCounter := if formData.watchingCount == 0 then DefaultWatchingCount else formData.watchingCount;
      // the closing `updateTotalPrice()` call
      totalText := TotalText(PageTotal(subs, ins, miles));
    }

    /** `updateSelectedData(section, value)`, with the intended mileage comparison. */
    method UpdateSelectedData(section: Category, value: string)
      modifies this`data
      ensures data == SelectedData(old(data), section, value)
    {
      match section {
      case Subscription =>
        var r := SelectSubscriptionsEach(data.subscriptionOptions, value);
        data := data.(subscriptionOptions := r);
      case Insurance =>
        var r := SelectInsurancesEach(data.insuranceOptions, value);
        data := data.(insuranceOptions := r);
      case Mileage =>
        var r := SelectMileagesEach(data.mileageOptions, value);
        data := data.(mileageOptions := r);
      }
    }

    /** `updateTotalPrice`: the total of the marked cards, written as "AED " and separated digits. */
    method UpdateTotalPrice()
      modifies this`totalText
      ensures totalText == TotalText(PageTotal(subscriptionCards, insuranceCards, mileageCards))
    {
      var selectedSubscription := FirstMarked(subscriptionCards);
      var baseMonthlyPrice := if selectedSubscription.Some? then selectedSubscription.value.price
                              else FallbackBasePrice;
      var selectedInsurance := FirstMarked(insuranceCards);
      var insuranceCost := if selectedInsurance.Some? then selectedInsurance.value.price else 0;
      var selectedMileage := FirstMarked(mileageCards);
      var mileageAdjustment := if selectedMileage.Some? then selectedMileage.value.price else 0;
      var totalPrice := baseMonthlyPrice + insuranceCost + mileageAdjustment;
      assert totalPrice == PageTotal(subscriptionCards, insuranceCards, mileageCards);
      totalText := TotalText(totalPrice);
    }

    /**
     * A click on card `j` of a category: `selectOption`, then
     * `updateSelectedData` with the card's `data-value`, then
     * `updateTotalPrice`. The clicked card is the one marked card of its
     * category and its price is the one the total counts for that
     * category; the other card groups are unchanged.
     */
    method Click(category: Category, j: nat)
      requires j < |CardsOf(category)|
      modifies this`data, this`subscriptionCards, this`insuranceCards, this`mileageCards, this`totalText
      ensures data == SelectedData(old(data), category, old(CardsOf(category))[j].value)
      ensures |CardsOf(category)| == |old(CardsOf(category))|
      ensures forall i :: 0 <= i < |CardsOf(category)| ==>
        CardsOf(category)[i] == old(CardsOf(category))[i].(marked := i == j, check := i == j)
      ensures category != Subscription ==> subscriptionCards == old(subscriptionCards)
      ensures category != Insurance ==> insuranceCards == old(insuranceCards)
      ensures category != Mileage ==> mileageCards == old(mileageCards)
      ensures FirstMarked(CardsOf(category)) == Some(old(CardsOf(category))[j].(marked := true, check := true))
      ensures totalText == TotalText(PageTotal(subscriptionCards, insuranceCards, mileageCards))
    {
      var value := CardsOf(category)[j].value;
      match category {
      case Subscription => subscriptionCards := MarkCard(subscriptionCards, j);
      case Insurance => insuranceCards := MarkCard(insuranceCards, j);
      case Mileage => mileageCards := MarkCard(mileageCards, j);
      }
      ghost var s, i, m := subscriptionCards, insuranceCards, mileageCards;
      UpdateSelectedData(category, value);
      UpdateTotalPrice();
      assert subscriptionCards == s && insuranceCards == i && mileageCards == m;
    }

    /**
     * `handleSubmit` as written: each group's marked card, in order, ends
     * the handler at its caption lookup; with none marked, the token
     * decides.
     */
    method HandleSubmit(nonceField: Option<string>, encode: string -> string) returns (r: Submission)
      ensures r == SubmissionAsWritten(data, subscriptionCards, insuranceCards, mileageCards, totalText,
                                       nonceField, encode)
    {
      var subscriptionText, insuranceText, mileageText := "", "", "";
      if FirstMarked(subscriptionCards).Some? {
        return CaptionLookupFails;
      }
      if FirstMarked(insuranceCards).Some? {
        return CaptionLookupFails;
      }
      if FirstMarked(mileageCards).Some? {
        return CaptionLookupFails;
      }
      var nonce := if nonceField.Some? then nonceField.value else "";
      if nonce == "" {
        return MissingToken;
      }
      var phoneNumber := if data.whatsappNumber != "" then data.whatsappNumber else DefaultWhatsAppNumber;
      var message := LeaseMessage(data.vehicleTitle, subscriptionText, insuranceText, mileageText, totalText);
      r := OpenLink("https://wa.me/" + phoneNumber + "?text=" + encode(message));
    }

    /** `handleSubmit` with the caption lookup finding the bold caption, as intended. */
    method HandleSubmitIntended(nonceField: Option<string>, encode: string -> string) returns (r: Submission)
      ensures r == SubmissionIntended(data, subscriptionCards, insuranceCards, mileageCards, totalText,
                                      nonceField, encode)
    {
      var subscriptionText := MarkedCaption(subscriptionCards);
      var insuranceText := MarkedCaption(insuranceCards);
      var mileageText := MarkedCaption(mileageCards);
      var nonce := if nonceField.Some? then nonceField.value else "";
      if nonce == "" {
        return MissingToken;
      }
      var phoneNumber := if data.whatsappNumber != "" then data.whatsappNumber else DefaultWhatsAppNumber;
      var message := LeaseMessage(data.vehicleTitle, subscriptionText, insuranceText, mileageText, totalText);
      r := OpenLink("https://wa.me/" + phoneNumber + "?text=" + encode(message));
    }
  }

  /** `selectOption` on one card group, with the card `querySelector` then finds. */
  method MarkCard(cards: seq<Card>, j: nat) returns (r: seq<Card>)
    requires j < |cards|
    ensures |r| == |cards|
    ensures forall i :: 0 <= i < |cards| ==> r[i] == cards[i].(marked := i == j, check := i == j)
    ensures FirstMarked(r) == Some(cards[j].(marked := true, check := true))
  {
    r := SelectOption(cards, j);
    FirstMarkedOnly(r, j);
  }
}
