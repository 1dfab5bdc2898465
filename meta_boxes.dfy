/**
 * The vehicle edit screen's meta box on the server
 * (includes/class-meta-boxes.php): `save_meta_box_data` filters and stores
 * the posted option rows, the box falls back to built-in catalogues when a
 * list was never saved, and every stored flag is shown as a yes/no select
 * that posts back as `'yes'` or `'no'`.
 *
 * WordPress's own services are parameters: `wp_verify_nonce` is
 * `verifyNonce`, `sanitize_text_field` is `sanitize`, the `DOING_AUTOSAVE`
 * constant is `doingAutosave` and `current_user_can` is `canEdit`. Post
 * meta is the `VehicleMeta` object.
 */
module MetaBoxes {
  import opened Text
  import opened Records
  import opened Php

  // -----------------------------------------------------------------------
  // The posted form

  /** One posted option row: field name to posted text. */
  type PostedRow = map<Key, string>

  /** A posted value: a plain field, or a list of option rows. */
  datatype Posted = Field(s: string) | List(rows: seq<PostedRow>)

  /**
   * The request keys the save reads: the nonce field, the three scalar
   * fields and the three option lists (`subscription_options`, ...).
   */
  datatype RequestKey = NonceField | BasePriceField | WatchingCountField | WhatsappNumberField | ListField(c: Category)

  /** `$_POST`. */
  type Request = map<RequestKey, Posted>

  /** `sanitize_text_field` of a posted scalar: an array gives '' without being sanitised. */
  function SanitizedField(p: Posted, sanitize: string -> string): (s: string)
    ensures p.Field? ==> s == sanitize(p.s)
    ensures p.List? ==> s == ""
  {
    if p.Field? then sanitize(p.s) else ""
  }

  /** `intval` of a posted scalar: an array gives 0 when empty and 1 otherwise. */
  function FieldIntVal(p: Posted): (n: int)
    ensures p.Field? ==> n == IntVal(p.s)
    ensures p.List? ==> (n == 0 <==> p.rows == [])
  {
    if p.Field? then IntVal(p.s) else if p.rows == [] then 0 else 1
  }

  /** The field without which a row of the category is skipped. */
  function KeyField(c: Category): Key
  {
    match c
    case Subscription => Months
    case Insurance => Name
    case Mileage => Miles
  }

  /** The rows posted for a category, when it was posted as an array. */
  function PostedList(request: Request, c: Category): (r: Option<seq<PostedRow>>)
    ensures r.Some? <==> ListField(c) in request && request[ListField(c)].List?
    ensures r.Some? ==> r.value == request[ListField(c)].rows
  {
    var key := ListField(c);
    if key in request && request[key].List? then Some(request[key].rows) else None
  }

  /**
   * The guards of the save: the nonce field is present and verifies, the
   * request is not an autosave, and the user may edit the post.
   */
  predicate SaveAllowed(request: Request, verifyNonce: Posted -> bool, doingAutosave: bool, canEdit: bool)
  {
    && NonceField in request
    && verifyNonce(request[NonceField])
    && !doingAutosave
    && canEdit
  }

  // -----------------------------------------------------------------------
  // Stored rows

  function SubscriptionRow(months: int, basePrice: int, priceAdjustment: int,
                           isSelected: bool, isRecommended: bool, description: string): Row
  {
    map[Months := Int(months), BasePrice := Int(basePrice),
        PriceAdjustment := Int(priceAdjustment), IsSelected := Bool(isSelected),
        IsRecommended := Bool(isRecommended), Description := Str(description)]
  }

  function InsuranceRow(name: string, priceAdjustment: int,
                        isSelected: bool, isRecommended: bool, description: string): Row
  {
    map[Name := Str(name), PriceAdjustment := Int(priceAdjustment),
        IsSelected := Bool(isSelected), IsRecommended := Bool(isRecommended),
        Description := Str(description)]
  }

  function MileageRow(miles: int, priceAdjustment: int,
                      isSelected: bool, isRecommended: bool, description: string): Row
  {
    map[Miles := Int(miles), PriceAdjustment := Int(priceAdjustment),
        IsSelected := Bool(isSelected), IsRecommended := Bool(isRecommended),
        Description := Str(description)]
  }

  // -----------------------------------------------------------------------
  // Saving one row

  /** A posted flag is set exactly when the posted text is `'yes'`. */
  predicate PostedFlag(row: PostedRow, key: Key)
  {
    key in row && row[key] == "yes"
  }

  /** A posted number; a missing one is 0. */
  function PostedInt(row: PostedRow, key: Key): (n: int)
    ensures key !in row ==> n == 0
  {
    if key in row then IntVal(row[key]) else 0
  }

  /** A posted text, sanitised; a missing one is "". */
  function PostedText(row: PostedRow, key: Key, sanitize: string -> string): (s: string)
    ensures key !in row ==> s == ""
  {
    if key in row then sanitize(row[key]) else ""
  }

  /** A row survives the save when its key field is present and not `empty`. */
  predicate KeepRow(row: PostedRow, key: Key)
  {
    key in row && !PhpEmpty(row[key])
  }

  /** The array `save_meta_box_data` builds from one surviving row. */
  function SavedRow(c: Category, row: PostedRow, sanitize: string -> string): (r: Row)
    requires KeyField(c) in row
    ensures IsSelected in r && IsRecommended in r && PriceAdjustment in r && Description in r
    ensures Bool(PostedFlag(row, IsSelected)) == r[IsSelected]
    ensures Bool(PostedFlag(row, IsRecommended)) == r[IsRecommended]
    ensures PriceAdjustment !in row ==> r[PriceAdjustment] == Int(0)
    ensures Description !in row ==> r[Description] == Str("")
  {
    match c
    case Subscription =>
      SubscriptionRow(IntVal(row[Months]), PostedInt(row, BasePrice),
                      PostedInt(row, PriceAdjustment), PostedFlag(row, IsSelected),
                      PostedFlag(row, IsRecommended), PostedText(row, Description, sanitize))
    case Insurance =>
      InsuranceRow(sanitize(row[Name]), PostedInt(row, PriceAdjustment),
                   PostedFlag(row, IsSelected), PostedFlag(row, IsRecommended),
                   PostedText(row, Description, sanitize))
    case Mileage =>
      MileageRow(IntVal(row[Miles]), PostedInt(row, PriceAdjustment),
                 PostedFlag(row, IsSelected), PostedFlag(row, IsRecommended),
                 PostedText(row, Description, sanitize))
  }

  // -----------------------------------------------------------------------
  // Saving a list: skip rows without a key, keep the order of the rest

  /** The rows that survive, in their posted order. */
  function Kept(rows: seq<PostedRow>, key: Key): (r: seq<PostedRow>)
    ensures |r| <= |rows|
    ensures forall i :: 0 <= i < |r| ==> KeepRow(r[i], key)
  {
    if rows == [] then []
    else
      var last := rows[|rows| - 1];
      Kept(rows[..|rows| - 1], key) + (if KeepRow(last, key) then [last] else [])
  }

  /** The list `save_meta_box_data` stores for a category. */
  function SavedOptions(c: Category, rows: seq<PostedRow>, sanitize: string -> string): (r: seq<Row>)
    ensures |r| == |Kept(rows, KeyField(c))|
  {
    var kept := Kept(rows, KeyField(c));
    seq(|kept|, i requires 0 <= i < |kept| => SavedRow(c, kept[i], sanitize))
  }

  /** Filtering distributes over concatenation, so the survivors keep their relative order. */
  lemma {:induction false} KeptAppend(a: seq<PostedRow>, b: seq<PostedRow>, key: Key)
    ensures Kept(a + b, key) == Kept(a, key) + Kept(b, key)
    decreases |b|
  {
    if b == [] {
      assert a + b == a;
    } else {
      var b' := b[..|b| - 1];
      KeptAppend(a, b', key);
      assert (a + b)[..|a + b| - 1] == a + b';
      assert (a + b)[|a + b| - 1] == b[|b| - 1];
    }
  }

  /** A row is stored exactly when it was posted and has its key field. */
  lemma {:induction false} KeptMembers(rows: seq<PostedRow>, key: Key, row: PostedRow)
    ensures row in Kept(rows, key) <==> row in rows && KeepRow(row, key)
    decreases |rows|
  {
    if rows != [] {
      var init := rows[..|rows| - 1];
      KeptMembers(init, key, row);
      assert rows == init + [rows[|rows| - 1]];
    }
  }

  /** When every row has its key field, all of them are stored, in order. */
  lemma {:induction false} KeptAll(rows: seq<PostedRow>, key: Key)
    requires forall i :: 0 <= i < |rows| ==> KeepRow(rows[i], key)
    ensures Kept(rows, key) == rows
    decreases |rows|
  {
    if rows != [] {
      KeptAll(rows[..|rows| - 1], key);
    }
  }

  lemma {:induction false} SavedOptionsSnoc(c: Category, rows: seq<PostedRow>, row: PostedRow, sanitize: string -> string)
    ensures SavedOptions(c, rows + [row], sanitize)
         == SavedOptions(c, rows, sanitize) + (if KeepRow(row, KeyField(c)) then [SavedRow(c, row, sanitize)] else [])
  {
    assert (rows + [row])[..|rows + [row]| - 1] == rows;
  }

  /** The `foreach` of `save_meta_box_data` for one category, with its `continue`. */
  method SaveOptions(c: Category, rows: seq<PostedRow>, sanitize: string -> string) returns (saved: seq<Row>)
    ensures saved == SavedOptions(c, rows, sanitize)
  {
    saved := [];
    for k := 0 to |rows|
      invariant saved == SavedOptions(c, rows[..k], sanitize)
    {
      var option := rows[k];
      assert rows[..k + 1] == rows[..k] + [option];
      SavedOptionsSnoc(c, rows[..k], option, sanitize);
      if KeyField(c) !in option || PhpEmpty(option[KeyField(c)]) {
        continue;
      }
      saved := saved + [SavedRow(c, option, sanitize)];
    }
    assert rows[..|rows|] == rows;
  }

  // -----------------------------------------------------------------------
  // Post meta

  /** The post meta of one vehicle; a key never saved reads as "" (or 0, or an empty list). */
  class VehicleMeta {
    var basePrice: string
    var watchingCount: int
    var whatsappNumber: string
    var subscriptionOptions: seq<Row>
    var insuranceOptions: seq<Row>
    var mileageOptions: seq<Row>

    /** A vehicle with no saved meta. */
    constructor()
      ensures basePrice == "" && watchingCount == 0 && whatsappNumber == ""
      ensures subscriptionOptions == [] && insuranceOptions == [] && mileageOptions == []
    {
      basePrice, watchingCount, whatsappNumber := "", 0, "";
      subscriptionOptions, insuranceOptions, mileageOptions := [], [], [];
    }
  }

  /** A category's stored list after a permitted save: replaced only when posted as an array. */
  function ListAfterSave(request: Request, c: Category, sanitize: string -> string, before: seq<Row>): seq<Row>
  {
    match PostedList(request, c)
    case Some(rows) => SavedOptions(c, rows, sanitize)
    case None => before
  }

  /** A scalar meta value after a permitted save: replaced only when posted. */
  function TextAfterSave(request: Request, key: RequestKey, sanitize: string -> string, before: string): string
  {
    if key in request then SanitizedField(request[key], sanitize) else before
  }

  /** One category's part of the save: its list is rebuilt only when it was posted as an array. */
  method SaveList(request: Request, c: Category, sanitize: string -> string, before: seq<Row>) returns (after: seq<Row>)
    ensures after == ListAfterSave(request, c, sanitize, before)
  {
    after := before;
    var posted := PostedList(request, c);
    if posted.Some? {
      after := SaveOptions(c, posted.value, sanitize);
    }
  }

  /** `save_meta_box_data`. */
  method SaveMetaBoxData(store: VehicleMeta, request: Request, verifyNonce: Posted -> bool,
                         doingAutosave: bool, canEdit: bool, sanitize: string -> string)
    modifies store
    ensures !SaveAllowed(request, verifyNonce, doingAutosave, canEdit) ==> unchanged(store)
    ensures SaveAllowed(request, verifyNonce, doingAutosave, canEdit) ==>
      && store.basePrice == TextAfterSave(request, BasePriceField, sanitize, old(store.basePrice))
      && store.watchingCount == (if WatchingCountField in request then FieldIntVal(request[WatchingCountField])
                                 else old(store.watchingCount))
      && store.whatsappNumber == TextAfterSave(request, WhatsappNumberField, sanitize, old(store.whatsappNumber))
      && store.subscriptionOptions == ListAfterSave(request, Subscription, sanitize, old(store.subscriptionOptions))
      && store.insuranceOptions == ListAfterSave(request, Insurance, sanitize, old(store.insuranceOptions))
      && store.mileageOptions == ListAfterSave(request, Mileage, sanitize, old(store.mileageOptions))
  {
    if NonceField !in request || !verifyNonce(request[NonceField]) || doingAutosave || !canEdit {
      return;
    }
    var basePrice, watchingCount, whatsappNumber := store.basePrice, store.watchingCount, store.whatsappNumber;
    if BasePriceField in request {
      basePrice := SanitizedField(request[BasePriceField], sanitize);
    }
    if WatchingCountField in request {
      watchingCount := FieldIntVal(request[WatchingCountField]);
    }
    if WhatsappNumberField in request {
      whatsappNumber := SanitizedField(request[WhatsappNumberField], sanitize);
    }
    var subscriptions := SaveList(request, Subscription, sanitize, store.subscriptionOptions);
    var insurances := SaveList(request, Insurance, sanitize, store.insuranceOptions);
    var mileages := SaveList(request, Mileage, sanitize, store.mileageOptions);
    // `update_post_meta` for every key that was posted
    store.basePrice, store.watchingCount, store.whatsappNumber := basePrice, watchingCount, whatsappNumber;
    store.subscriptionOptions, store.insuranceOptions, store.mileageOptions := subscriptions, insurances, mileages;
  }

  // -----------------------------------------------------------------------
  // The meta box: default catalogues and the fields each row posts back

  /** `get_default_subscription_options`. */
  function DefaultSubscriptionRows(): seq<Row>
  {
    [ SubscriptionRow(3, 1995, 50, false, false, "Short term option"),
      SubscriptionRow(6, 1945, 25, false, false, "Medium term option"),
      SubscriptionRow(9, 1895, 0, true, true, "Standard option"),
      SubscriptionRow(12, 1845, -25, false, false, "Long term option") ]
  }

  /** `get_default_insurance_options`. */
  function DefaultInsuranceRows(): seq<Row>
  {
    [ InsuranceRow("Basic", 0, true, false, "Third party coverage"),
      InsuranceRow("Comprehensive", 45, false, true, "Full coverage with higher deductible"),
      InsuranceRow("Premium", 75, false, false, "Full coverage with low deductible") ]
  }

  /** `get_default_mileage_options`. */
  function DefaultMileageRows(): seq<Row>
  {
    [ MileageRow(500, -25, false, false, "Low mileage plan"),
      MileageRow(1000, 0, true, true, "Standard mileage plan"),
      MileageRow(1500, 35, false, false, "High mileage plan"),
      MileageRow(2000, 65, false, false, "Unlimited mileage plan") ]
  }

  function DefaultRows(c: Category): seq<Row>
  {
    match c
    case Subscription => DefaultSubscriptionRows()
    case Insurance => DefaultInsuranceRows()
    case Mileage => DefaultMileageRows()
  }

  /** The rows the box lists for a stored list: the defaults when nothing is stored. */
  function DisplayedRows(c: Category, stored: seq<Row>): seq<Row>
  {
    if stored == [] then DefaultRows(c) else stored
  }

  /** A stored row is shown as selected when its flag is set and truthy. */
  predicate RowSelected(row: Row)
  {
    IsSelected in row && Truthy(row[IsSelected])
  }

  function CountSelectedRows(rows: seq<Row>): (n: nat)
    ensures n <= |rows|
  {
    if rows == [] then 0 else (if RowSelected(rows[0]) then 1 else 0) + CountSelectedRows(rows[1..])
  }

  /** A list whose only selected row is at `k` counts one selected row. */
  lemma {:induction false} OneSelected(rows: seq<Row>, k: nat)
    requires k < |rows|
    requires forall j :: 0 <= j < |rows| ==> (RowSelected(rows[j]) <==> j == k)
    ensures CountSelectedRows(rows) == 1
    decreases |rows|
  {
    if k == 0 {
      NoneSelected(rows[1..]);
    } else {
      OneSelected(rows[1..], k - 1);
    }
  }

  lemma {:induction false} NoneSelected(rows: seq<Row>)
    requires forall j :: 0 <= j < |rows| ==> !RowSelected(rows[j])
    ensures CountSelectedRows(rows) == 0
    decreases |rows|
  {
    if rows != [] {
      NoneSelected(rows[1..]);
    }
  }

  /** The built-in subscription lengths select only 9 months, at 1895. */
  lemma {:induction false} DefaultSubscriptionSelection()
    ensures forall j :: 0 <= j < |DefaultSubscriptionRows()| ==> (RowSelected(DefaultSubscriptionRows()[j]) <==> j == 2)
    ensures DefaultSubscriptionRows()[2][Months] == Int(9) && DefaultSubscriptionRows()[2][BasePrice] == Int(1895)
  {
  }

  /** The built-in insurance tiers select only Basic, at no surcharge. */
  lemma {:induction false} DefaultInsuranceSelection()
    ensures forall j :: 0 <= j < |DefaultInsuranceRows()| ==> (RowSelected(DefaultInsuranceRows()[j]) <==> j == 0)
    ensures DefaultInsuranceRows()[0][Name] == Str("Basic") && DefaultInsuranceRows()[0][PriceAdjustment] == Int(0)
  {
  }

  /** The built-in mileage allowances select only 1000, at no surcharge. */
  lemma {:induction false} DefaultMileageSelection()
    ensures forall j :: 0 <= j < |DefaultMileageRows()| ==> (RowSelected(DefaultMileageRows()[j]) <==> j == 1)
    ensures DefaultMileageRows()[1][Miles] == Int(1000) && DefaultMileageRows()[1][PriceAdjustment] == Int(0)
  {
  }

  /**
   * The box never lists an empty category, and when nothing is stored it
   * lists a built-in catalogue with exactly one row selected.
   */
  lemma {:induction false} DisplayedDefaults(c: Category, stored: seq<Row>)
    ensures |DisplayedRows(c, stored)| > 0
    ensures stored == [] ==> CountSelectedRows(DisplayedRows(c, stored)) == 1
  {
    if stored == [] {
      match c
      case Subscription =>
        DefaultSubscriptionSelection();
        OneSelected(DefaultSubscriptionRows(), 2);
      case Insurance =>
        DefaultInsuranceSelection();
        OneSelected(DefaultInsuranceRows(), 0);
      case Mileage =>
        DefaultMileageSelection();
        OneSelected(DefaultMileageRows(), 1);
    }
  }

  /** An input's value attribute: the stored value in string context, or a fallback when unset. */
  function Shown(row: Row, key: Key, fallback: string): (s: string)
    ensures key !in row ==> s == fallback
  {
    if key in row then StrOf(row[key]) else fallback
  }

  /** A yes/no select: `'yes'` exactly when the stored flag is set and truthy. */
  function YesNo(row: Row, key: Key): (s: string)
    ensures s == "yes" || s == "no"
  {
    if key in row && Truthy(row[key]) then "yes" else "no"
  }

  /** A yes/no select posts back the flag it showed. */
  lemma {:induction false} FlagRoundTrip(row: Row, key: Key, posted: PostedRow)
    requires key in posted && posted[key] == YesNo(row, key)
    ensures PostedFlag(posted, key) <==> key in row && Truthy(row[key])
  {
  }

  /** The fields a listed row posts back (`render_*_option`). */
  function RenderedRow(c: Category, row: Row): (r: PostedRow)
    ensures KeyField(c) in r && IsSelected in r && IsRecommended in r
    ensures r[IsSelected] == YesNo(row, IsSelected)
    ensures r[IsRecommended] == YesNo(row, IsRecommended)
  {
    var common := map[PriceAdjustment := Shown(row, PriceAdjustment, "0"),
                      IsSelected := YesNo(row, IsSelected),
                      IsRecommended := YesNo(row, IsRecommended),
                      Description := Shown(row, Description, "")];
    match c
    case Subscription =>
      common[Months := Shown(row, Months, "")][BasePrice := Shown(row, BasePrice, "")]
    case Insurance => common[Name := Shown(row, Name, "")]
    case Mileage => common[Miles := Shown(row, Miles, "")]
  }

  /**
   * Saving what the box shows gives back the stored subscription row,
   * unless its month count is 0, which `empty` rejects.
   */
  lemma {:induction false} SubscriptionRoundTrip(months: int, basePrice: int, priceAdjustment: int,
                                                 isSelected: bool, isRecommended: bool, description: string,
                                                 sanitize: string -> string)
    requires sanitize(description) == description
    ensures var posted := RenderedRow(Subscription, SubscriptionRow(months, basePrice, priceAdjustment, isSelected, isRecommended, description));
      && (KeepRow(posted, Months) <==> months != 0)
      && SavedRow(Subscription, posted, sanitize)
         == SubscriptionRow(months, basePrice, priceAdjustment, isSelected, isRecommended, description)
  {
    IntTextRoundTrip(months);
    IntTextRoundTrip(basePrice);
    IntTextRoundTrip(priceAdjustment);
  }

  /** The same for an insurance row, whose name must be neither "" nor "0". */
  lemma {:induction false} InsuranceRoundTrip(name: string, priceAdjustment: int,
                                              isSelected: bool, isRecommended: bool, description: string,
                                              sanitize: string -> string)
    requires sanitize(name) == name && sanitize(description) == description
    ensures var posted := RenderedRow(Insurance, InsuranceRow(name, priceAdjustment, isSelected, isRecommended, description));
      && (KeepRow(posted, Name) <==> !PhpEmpty(name))
      && SavedRow(Insurance, posted, sanitize) == InsuranceRow(name, priceAdjustment, isSelected, isRecommended, description)
  {
    IntTextRoundTrip(priceAdjustment);
  }

  /** The same for a mileage row, whose distance must not be 0. */
  lemma {:induction false} MileageRoundTrip(miles: int, priceAdjustment: int,
                                            isSelected: bool, isRecommended: bool, description: string,
                                            sanitize: string -> string)
    requires sanitize(description) == description
    ensures var posted := RenderedRow(Mileage, MileageRow(miles, priceAdjustment, isSelected, isRecommended, description));
      && (KeepRow(posted, Miles) <==> miles != 0)
      && SavedRow(Mileage, posted, sanitize) == MileageRow(miles, priceAdjustment, isSelected, isRecommended, description)
  {
    IntTextRoundTrip(miles);
    IntTextRoundTrip(priceAdjustment);
  }

  /**
   * Saving the whole box unchanged stores the same list, when every shown
   * row survives the save and saves back to itself.
   */
  lemma {:induction false} ResaveList(c: Category, rows: seq<Row>, sanitize: string -> string)
    requires forall i :: 0 <= i < |rows| ==> KeepRow(RenderedRow(c, rows[i]), KeyField(c))
    requires forall i :: 0 <= i < |rows| ==> SavedRow(c, RenderedRow(c, rows[i]), sanitize) == rows[i]
    ensures SavedOptions(c, seq(|rows|, i requires 0 <= i < |rows| => RenderedRow(c, rows[i])), sanitize) == rows
  {
    var posted := seq(|rows|, i requires 0 <= i < |rows| => RenderedRow(c, rows[i]));
    KeptAll(posted, KeyField(c));
    var saved := SavedOptions(c, posted, sanitize);
    forall i | 0 <= i < |rows|
      ensures saved[i] == rows[i]
    {
      assert Kept(posted, KeyField(c))[i] == RenderedRow(c, rows[i]);
    }
  }
}
