/**
 * The option records the server stores for a vehicle and hands to the page
 * (`get_vehicle_data` in includes/class-templates.php), the record of all
 * form data the page script keeps in `window.leasingFormData`, and the
 * three pricing categories.
 *
 * Money is kept in whole units (`int`); the server stores floats but every
 * literal price in the plugin is a whole number.
 */
module Records {

  datatype Option<T> = None | Some(value: T)

  /** The three independent choice groups of the configurator. */
  datatype Category = Subscription | Insurance | Mileage

  /** A subscription length: its own monthly price is `basePrice + priceAdjustment`. */
  datatype SubscriptionRecord = SubscriptionRecord(
    months: int,
    basePrice: int,
    priceAdjustment: int,
    isSelected: bool,
    isRecommended: bool,
    description: string)

  /**
   * An insurance tier. `id` is the optional `id` property the page script
   * prefers as the option's key; the empty string stands for "absent" (the
   * script tests it with `||`, for which both are false). The server never
   * writes one, so server records always carry "".
   */
  datatype InsuranceRecord = InsuranceRecord(
    id: string,
    name: string,
    priceAdjustment: int,
    isSelected: bool,
    isRecommended: bool,
    description: string)

  /** A monthly mileage allowance, with a delta on the monthly price. */
  datatype MileageRecord = MileageRecord(
    miles: int,
    priceAdjustment: int,
    isSelected: bool,
    isRecommended: bool,
    description: string)

  /** The object `get_vehicle_data` hands to the page as `leasingFormData`. */
  datatype VehicleData = VehicleData(
    vehicleId: nat,
    vehicleTitle: string,
    basePrice: int,
    subscriptionOptions: seq<SubscriptionRecord>,
    insuranceOptions: seq<InsuranceRecord>,
    mileageOptions: seq<MileageRecord>,
    watchingCount: nat,
    whatsappNumber: string)
}
