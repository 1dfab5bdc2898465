/**
 * The front-end side of the plugin on the server
 * (includes/class-templates.php): which template file renders a vehicle
 * page or the vehicle archive, and `get_vehicle_data`, which reads a
 * vehicle's post meta into the `leasingFormData` object handed to the page
 * script, sanitising every option row and filling defaults.
 *
 * WordPress's services are parameters: `locate_template` is `locate`,
 * `file_exists` is `fileExists`, `LEASING_FORM_PATH` is `pluginDir`,
 * `esc_js` is `escJs`, the post title is `title`, and the value
 * `rand(5, 15)` would draw is `roll`.
 */
module Templates {
  import opened Text
  import opened Records
  import opened Php
  import opened MetaBoxes

  // -----------------------------------------------------------------------
  // Template choice

  /**
   * The template preference shared by both filters: the theme's own
   * template when `locate_template` found one, else the plugin's file when
   * it exists, else whatever WordPress had chosen.
   */
  function Preferred(theme: string, plugin: string, pluginExists: bool, fallback: string): (r: string)
    ensures theme != "" ==> r == theme
    ensures theme == "" && pluginExists ==> r == plugin
    ensures theme == "" && !pluginExists ==> r == fallback
  {
    if theme != "" then theme else if pluginExists then plugin else fallback
  }

  /** `vehicle_single_template`: only a vehicle post is redirected. */
  function SingleTemplate(template: string, postType: string, locate: seq<string> -> string,
                          fileExists: string -> bool, pluginDir: string): (r: string)
  {
    if postType == "vehicle" then
      var plugin := pluginDir + "templates/single-vehicle.php";
      Preferred(locate(["single-vehicle.php"]), plugin, fileExists(plugin), template)
    else template
  }

  /** `vehicle_archive_template`: only the vehicle archive and vehicle category pages are redirected. */
  function ArchiveTemplate(template: string, isVehicleArchive: bool, isVehicleCategory: bool,
                           locate: seq<string> -> string, fileExists: string -> bool, pluginDir: string): (r: string)
  {
    if isVehicleArchive || isVehicleCategory then
      var plugin := pluginDir + "templates/archive-vehicle.php";
      Preferred(locate(["archive-vehicle.php", "taxonomy-vehicle_category.php"]), plugin, fileExists(plugin), template)
    else template
  }

  /**
   * A single page's template is the theme's `single-vehicle.php`, else the
   * plugin's, else the one WordPress chose; pages of other post types keep
   * theirs. Running the filter twice changes nothing more.
   */
  lemma {:induction false} SingleTemplateChoice(template: string, postType: string, locate: seq<string> -> string,
                                               fileExists: string -> bool, pluginDir: string)
    ensures var r := SingleTemplate(template, postType, locate, fileExists, pluginDir);
      && (postType != "vehicle" ==> r == template)
      && (postType == "vehicle" && locate(["single-vehicle.php"]) != "" ==> r == locate(["single-vehicle.php"]))
      && (postType == "vehicle" && locate(["single-vehicle.php"]) == "" ==>
            r == (if fileExists(pluginDir + "templates/single-vehicle.php")
                  then pluginDir + "templates/single-vehicle.php" else template))
      && SingleTemplate(r, postType, locate, fileExists, pluginDir) == r
  {
  }

  /**
   * The archive template is redirected on the vehicle archive and the
   * vehicle category and nowhere else, with the same preference; running
   * the filter twice changes nothing more.
   */
  lemma {:induction false} ArchiveTemplateChoice(template: string, isVehicleArchive: bool, isVehicleCategory: bool,
                                                locate: seq<string> -> string, fileExists: string -> bool, pluginDir: string)
    ensures var r := ArchiveTemplate(template, isVehicleArchive, isVehicleCategory, locate, fileExists, pluginDir);
      && (!isVehicleArchive && !isVehicleCategory ==> r == template)
      && (r != template ==> r == locate(["archive-vehicle.php", "taxonomy-vehicle_category.php"])
                            || r == pluginDir + "templates/archive-vehicle.php")
      && ArchiveTemplate(r, isVehicleArchive, isVehicleCategory, locate, fileExists, pluginDir) == r
  {
  }

  // -----------------------------------------------------------------------
  // Sanitising stored rows for the page

  /** One stored subscription row as the page receives it. */
  function SanitizedSubscription(row: Row, escJs: string -> string): (r: SubscriptionRecord)
    ensures r.months >= 0
  {
    SubscriptionRecord(
      Absint(Get(row, Months, Int(0))),
      IntOf(Get(row, BasePrice, Int(0))),
      IntOf(Get(row, PriceAdjustment, Int(0))),
      Truthy(Get(row, IsSelected, Bool(false))),
      Truthy(Get(row, IsRecommended, Bool(false))),
      escJs(StrOf(Get(row, Description, Str("")))))
  }

  /** One stored insurance row; the server never sends an `id`. */
  function SanitizedInsurance(row: Row, escJs: string -> string): (r: InsuranceRecord)
    ensures r.id == ""
  {
    InsuranceRecord(
      "",
      escJs(StrOf(Get(row, Name, Str("")))),
      IntOf(Get(row, PriceAdjustment, Int(0))),
      Truthy(Get(row, IsSelected, Bool(false))),
      Truthy(Get(row, IsRecommended, Bool(false))),
      escJs(StrOf(Get(row, Description, Str("")))))
  }

  /** One stored mileage row. */
  function SanitizedMileage(row: Row, escJs: string -> string): (r: MileageRecord)
    ensures r.miles >= 0
  {
    MileageRecord(
      Absint(Get(row, Miles, Int(0))),
      IntOf(Get(row, PriceAdjustment, Int(0))),
      Truthy(Get(row, IsSelected, Bool(false))),
      Truthy(Get(row, IsRecommended, Bool(false))),
      escJs(StrOf(Get(row, Description, Str("")))))
  }

  /** A row with no fields at all gives zero counts and prices, unset flags and an empty description. */
  lemma {:induction false} SanitizedMissingFields(escJs: string -> string)
    ensures SanitizedSubscription(map[], escJs) == SubscriptionRecord(0, 0, 0, false, false, escJs(""))
    ensures SanitizedInsurance(map[], escJs) == InsuranceRecord("", escJs(""), 0, false, false, escJs(""))
    ensures SanitizedMileage(map[], escJs) == MileageRecord(0, 0, false, false, escJs(""))
  {
  }

  /**
   * A row as the meta box saves it reaches the page with the same prices,
   * flags and (escaped) text, and with the magnitude of its count.
   */
  lemma {:induction false} SavedRowsReachPage(months: int, basePrice: int, priceAdjustment: int,
                                              isSelected: bool, isRecommended: bool,
                                              name: string, description: string, escJs: string -> string)
    ensures SanitizedSubscription(SubscriptionRow(months, basePrice, priceAdjustment, isSelected, isRecommended, description), escJs)
         == SubscriptionRecord(if months < 0 then -months else months, basePrice, priceAdjustment,
                               isSelected, isRecommended, escJs(description))
    ensures SanitizedInsurance(InsuranceRow(name, priceAdjustment, isSelected, isRecommended, description), escJs)
         == InsuranceRecord("", escJs(name), priceAdjustment, isSelected, isRecommended, escJs(description))
    ensures SanitizedMileage(MileageRow(months, priceAdjustment, isSelected, isRecommended, description), escJs)
         == MileageRecord(if months < 0 then -months else months, priceAdjustment,
                          isSelected, isRecommended, escJs(description))
  {
  }

  /** The `foreach` over the stored subscription rows. */
  method SanitizeSubscriptions(rows: seq<Row>, escJs: string -> string) returns (r: seq<SubscriptionRecord>)
    ensures |r| == |rows|
    ensures forall i :: 0 <= i < |rows| ==> r[i] == SanitizedSubscription(rows[i], escJs)
  {
    r := [];
    if rows != [] {
      for k := 0 to |rows|
        invariant |r| == k
        invariant forall i :: 0 <= i < k ==> r[i] == SanitizedSubscription(rows[i], escJs)
      {
        r := r + [SanitizedSubscription(rows[k], escJs)];
      }
    }
  }

  /** The `foreach` over the stored insurance rows. */
  method SanitizeInsurances(rows: seq<Row>, escJs: string -> string) returns (r: seq<InsuranceRecord>)
    ensures |r| == |rows|
    ensures forall i :: 0 <= i < |rows| ==> r[i] == SanitizedInsurance(rows[i], escJs)
  {
    r := [];
    if rows != [] {
      for k := 0 to |rows|
        invariant |r| == k
        invariant forall i :: 0 <= i < k ==> r[i] == SanitizedInsurance(rows[i], escJs)
      {
        r := r + [SanitizedInsurance(rows[k], escJs)];
      }
    }
  }

  /** The `foreach` over the stored mileage rows. */
  method SanitizeMileages(rows: seq<Row>, escJs: string -> string) returns (r: seq<MileageRecord>)
    ensures |r| == |rows|
    ensures forall i :: 0 <= i < |rows| ==> r[i] == SanitizedMileage(rows[i], escJs)
  {
    r := [];
    if rows != [] {
      for k := 0 to |rows|
        invariant |r| == k
        invariant forall i :: 0 <= i < k ==> r[i] == SanitizedMileage(rows[i], escJs)
      {
        r := r + [SanitizedMileage(rows[k], escJs)];
      }
    }
  }

  // -----------------------------------------------------------------------
  // Scalars

  const DefaultBasePrice := 299
  const DefaultWhatsAppNumber := "923105054025"

  /** The stored base price as a number; an `empty` one (never saved, "" or "0") is 299. */
  function BasePriceOf(stored: string): (p: int)
    ensures PhpEmpty(stored) ==> p == DefaultBasePrice
  {
    if PhpEmpty(stored) then DefaultBasePrice else IntVal(stored)
  }

  /** A price saved as a whole number reads back as itself, except 0, which reads as 299. */
  lemma {:induction false} BasePriceRoundTrip(n: int)
    ensures BasePriceOf(IntToString(n)) == if n == 0 then DefaultBasePrice else n
  {
    IntTextRoundTrip(n);
  }

  /** The stored WhatsApp number, or the built-in one when it is `empty`; never "". */
  function WhatsAppOf(stored: string): (w: string)
    ensures w != ""
    ensures !PhpEmpty(stored) ==> w == stored
  {
    if !PhpEmpty(stored) then stored else DefaultWhatsAppNumber
  }

  /**
   * The stored watching count, or the draw of `rand(5, 15)` when it is 0,
   * through `absint`: never 0, so the page's own fallback of 3 is never used.
   */
  function WatchingCountOf(stored: int, roll: int): (n: nat)
    requires 5 <= roll <= 15
    ensures n >= 1
    ensures stored != 0 ==> n == (if stored < 0 then -stored else stored)
    ensures stored == 0 ==> n == roll
  {
    Absint(Int(if stored != 0 then stored else roll))
  }

  /** `get_vehicle_data`. */
  method GetVehicleData(store: VehicleMeta, vehicleId: int, title: string, roll: int,
                        escJs: string -> string) returns (d: VehicleData)
    requires 5 <= roll <= 15
    ensures d.vehicleId as int == (if vehicleId < 0 then -vehicleId else vehicleId)
    ensures d.vehicleTitle == escJs(title)
    ensures d.basePrice == BasePriceOf(store.basePrice)
    ensures |d.subscriptionOptions| == |store.subscriptionOptions|
    ensures forall i :: 0 <= i < |d.subscriptionOptions| ==>
      d.subscriptionOptions[i] == SanitizedSubscription(store.subscriptionOptions[i], escJs)
    ensures |d.insuranceOptions| == |store.insuranceOptions|
    ensures forall i :: 0 <= i < |d.insuranceOptions| ==>
      d.insuranceOptions[i] == SanitizedInsurance(store.insuranceOptions[i], escJs)
    ensures |d.mileageOptions| == |store.mileageOptions|
    ensures forall i :: 0 <= i < |d.mileageOptions| ==>
      d.mileageOptions[i] == SanitizedMileage(store.mileageOptions[i], escJs)
    ensures d.watchingCount == WatchingCountOf(store.watchingCount, roll) && d.watchingCount >= 1
    ensures d.whatsappNumber == escJs(WhatsAppOf(store.whatsappNumber))
  {
    var subscriptions := SanitizeSubscriptions(store.subscriptionOptions, escJs);
    var insurances := SanitizeInsurances(store.insuranceOptions, escJs);
    var mileages := SanitizeMileages(store.mileageOptions, escJs);
    d := VehicleData(Absint(Int(vehicleId)), escJs(title), BasePriceOf(store.basePrice),
                     subscriptions, insurances, mileages,
                     WatchingCountOf(store.watchingCount, roll), escJs(WhatsAppOf(store.whatsappNumber)));
  }
}
