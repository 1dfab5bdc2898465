# Vehicle leasing configurator — a verified model

This project models the pricing and option-list logic of a WordPress
vehicle-leasing plugin. A vehicle post stores three option lists:
subscription lengths, insurance covers and monthly mileages. A visitor picks
one option from each list on the vehicle page and sees the monthly total. A
WhatsApp link carries the choice to the dealer.

The model covers these parts of the plugin:

- **Selection** (module `Selection`): the option records of one category and
  the cards rendered from them. It covers choosing a key in the data
  (`updateSelectedData`), marking the clicked card (`selectOption`), and
  finding the selected option or the marked card.
- **Built-in catalogues and formatting** (module `Catalog`): the
  `format*Options` functions of the enqueued page script. Each maps the
  configured records one-for-one or falls back to a literal default list.
- **Text** (module `Text`): decimal rendering, PHP's `intval` on text, the
  thousands separator of `formatNumber` and of the total ("AED 1,795"), and
  the insurance key (the name lower-cased, with whitespace runs replaced by
  `_`).
- **The standalone configurator** (module `StandaloneForm`, subscription-form.js
  at the top of the repository): the `formData` literal, the click handler,
  and the total. That total adds only positive deltas, then takes 50 off the
  9 months + full cover + 5000 km combination.
- **The enqueued page script** (module `LeasingForm`, assets/js/subscription-form.js):
  initialisation from the data the server passes, the click handlers, the
  total read from the marked cards with the 1795 fallback, and `handleSubmit`.
  The handler is modelled twice. As written, it fails as soon as a card is
  marked, because its caption selector matches nothing. As intended, it
  builds the token-guarded WhatsApp link from the marked captions. The
  class's click handlers use the intended mileage comparison; the one
  written in the source is modelled beside it (see "## Findings").
- **The admin list editor** (module `AdminEditor`, assets/js/admin.js): add,
  remove and drag of option rows. After each of these, the
  `type_options[k]` index in every field name is rewritten to the row's
  position, and the rows are renumbered `#1..#n`. It also covers the
  required-field check on submit.
- **The meta box on the server** (modules `Php` and `MetaBoxes`,
  includes/class-meta-boxes.php): the guards of `save_meta_box_data` and its
  filtering and mapping of posted rows. It also covers the default lists, the
  empty-list fallback of the meta box, and the `'yes'`/`'no'` rendering of
  the flags. Proved: saving the rows the box shows stores those rows again,
  when every shown row has a non-zero (or, for insurance, non-empty) key and
  text that `sanitize_text_field` keeps.
- **The page data and template choice** (module `Templates`,
  includes/class-templates.php): `get_vehicle_data` sanitises the stored
  rows and fills in defaults for the base price and the WhatsApp number.
  `vehicle_single_template` and `vehicle_archive_template` choose the
  template.
- **Admin columns** (module `PostTypes`, includes/class-post-types.php):
  inserting three columns after `title`, and the text of the plans column.

WordPress and browser services are parameters of the model. These include
`wp_verify_nonce`, `current_user_can`, `locate_template`, `file_exists`,
`sanitize_text_field`, `esc_js`, `encodeURIComponent` and `rand`. Post meta
is the `MetaBoxes.VehicleMeta` object that the save writes and the page data
reads. Money is whole units (`int`).

## Model

| member | source | states |
|---|---|---|
| Text.NatToStringRoundTrip | assets/js/subscription-form.js:56-57 | the decimal digits a count is rendered with read back to that count |
| Text.IntValRoundTrip | includes/class-meta-boxes.php:214 | `intval` of the decimal text of any integer, negative included, is that integer |
| Text.IntToStringInjective | assets/js/admin.js:65 | distinct integers have distinct decimal texts |
| Text.GroupThousands | assets/js/subscription-form.js:113-115 | digit strings of at most three characters are unchanged; otherwise one comma per full group of three |
| Text.GroupThousandsIsRegex | assets/js/subscription-form.js:114 | the grouping equals the reference definition of the regex: a comma before each full group of three digits counted from the right |
| Text.FormatNumberIsRegex | assets/js/subscription-form.js:113-115 | `formatNumber` of a non-negative number is the regex applied to its decimal text |
| Text.FormatNumberRoundTrip | assets/js/subscription-form.js:113-115 | deleting the commas from `formatNumber(n)` gives the decimal text of n |
| Text.TotalTextRoundTrip | assets/js/subscription-form.js:328-329 | the total text starts with "AED " and the rest, without commas, reads back to the total |
| Text.FallbackTotalText | subscription-form.js:296-297 | 1795 is shown as "AED 1,795" |
| Text.InsuranceValue | assets/js/subscription-form.js:78 | the key is `id` when present; otherwise it has no whitespace and is no longer than the name |
| Text.UnderscoreNoSpace | assets/js/subscription-form.js:78 | a name without whitespace is left alone by the whitespace replacement |
| Text.LowerUnderscore | assets/js/subscription-form.js:78 | lower-casing and replacing whitespace commute |
| Text.InsuranceValueIdempotent | assets/js/subscription-form.js:78 | deriving the key from a derived key changes nothing |
| Selection.Reselect | subscription-form.js:248-262 | every option of the section gets `selected = (value == v)`; the length and everything else is kept |
| Selection.ReselectCount | subscription-form.js:248-262 | after choosing v, the number of selected options is the number of options keyed v |
| Selection.ReselectExactlyOne | subscription-form.js:248-262 | after choosing v, exactly one option is selected if and only if v is a key of the section; otherwise none is |
| Selection.ReselectIdempotent | subscription-form.js:248-262 | choosing the same value twice is choosing it once |
| Selection.ReselectKeepsValues | subscription-form.js:248-262 | choosing keeps every key, so unique keys stay unique |
| Selection.ReselectEach | subscription-form.js:250-252 | the `forEach` loop computes the same list as the specification |
| Selection.Find | subscription-form.js:267 | `find(option => option.selected)` is absent exactly when nothing is selected, else a selected member of the list |
| Selection.FindSelected | subscription-form.js:267 | the position found is the first selected one |
| Selection.FindAfterReselect | subscription-form.js:267-274 | with unique keys, after choosing option k's key the lookup finds option k, selected |
| Selection.Render | subscription-form.js:97-116 | one card per option, in order, with its caption, key and price, marked and checked exactly when selected |
| Selection.FirstMarked | assets/js/subscription-form.js:313 | `querySelector` of the selected class finds a marked card, and finds none exactly when no card is marked |
| Selection.FirstMarkedOnly | assets/js/subscription-form.js:313 | when only card k is marked, the lookup finds card k |
| Selection.FirstMarkedOfRender | assets/js/subscription-form.js:313-322 | on freshly rendered cards, the marked card is the card of the first selected option |
| Selection.RenderReselect | subscription-form.js:121-124 | with unique keys, marking card j agrees with choosing option j's key in the data |
| Selection.SelectOption | subscription-form.js:229-245 | after `selectOption`, the clicked card is the only card with the selected marker and the check mark; the others are otherwise unchanged |
| Catalog.DefaultCatalogues | assets/js/subscription-form.js:45-97 | the built-in lists: 3/6/9 months, standard/full cover, 2000/3000/4000/5000 km, unique keys, exactly one selected in each (9 months, standard, 3000) |
| Catalog.InsuranceDescription | assets/js/subscription-form.js:79 | "+ AED x/month" exactly when the adjustment is positive, else "Included" |
| Catalog.FormatSubscriptionOptions | assets/js/subscription-form.js:45-62 | an empty list gives the defaults; otherwise one option per record, in order, keyed `<months>months` and priced base plus adjustment |
| Catalog.FormatInsuranceOptions | assets/js/subscription-form.js:67-84 | an empty list gives the defaults; otherwise one option per record, in order, keyed by id or derived name |
| Catalog.FormatMileageOptions | assets/js/subscription-form.js:89-108 | an empty list gives the defaults; otherwise one option per record, in order, captioned with the grouped distance |
| Catalog.SubscriptionKeysUnique | assets/js/subscription-form.js:55-61 | records with distinct month counts give options with distinct keys |
| Catalog.MileageKeysUnique | assets/js/subscription-form.js:100-107 | records with distinct distances give options with distinct keys |
| Catalog.FormatKeepsSelectionCount | assets/js/subscription-form.js:59 | formatting keeps the number of selected subscription records |
| StandaloneForm.Surcharge | subscription-form.js:279-286 | a delta is added only when strictly positive; otherwise nothing is |
| StandaloneForm.TotalOf | subscription-form.js:265-293 | the total is absent exactly when the combination check throws; otherwise it is the subscription price plus the positive deltas, less 50 for 9 months + full + 5000 |
| StandaloneForm.TotalWhenComplete | subscription-form.js:289-290 | with one selection in every category, the total never throws |
| StandaloneForm.TotalLowerBound | subscription-form.js:279-293 | the total is never below the subscription price less 50 |
| StandaloneForm.CombinationTotal | subscription-form.js:289-293 | 9 months, full cover and 5000 km add up to 2000 and are shown as 1950 |
| StandaloneForm.InitialMileage | subscription-form.js:11-80 | the literal's mileage list has unique keys and selects only 3000 km |
| StandaloneForm.InitialTotal | subscription-form.js:346-349 | the literal's selections total 1795 |
| StandaloneForm.InitialForm | subscription-form.js:345-349 | the page as loaded shows every list faithfully and the total "AED 1,795" |
| StandaloneForm.Choose | subscription-form.js:121-124 | a click leaves exactly the clicked option selected, keys unique, and the cards equal to the render of the new data |
| StandaloneForm.ClickSection | subscription-form.js:121-124 | one section after a click is shown faithfully and selects the clicked option |
| StandaloneForm.ConfiguratorForm.constructor | subscription-form.js:11-80 | the form starts from the literal lists, shown faithfully, with the total "AED 1,795" |
| StandaloneForm.ConfiguratorForm.UpdateTotalPrice | subscription-form.js:265-298 | the text shows the total when the combination check passes and is left as it was when it throws |
| StandaloneForm.ConfiguratorForm.Click | subscription-form.js:121-125 | the clicked category changes as specified and the other two do not; the page stays faithful, with the right total |
| LeasingForm.MileageAsWrittenClears | assets/js/subscription-form.js:301-304 | as written, a mileage click deselects every record and selects none |
| LeasingForm.MileageAsWrittenCounterexample | assets/js/subscription-form.js:303 | one 3000 km record, clicked: as written it ends up unselected; with the intended comparison it ends up selected |
| LeasingForm.SelectSubscriptionsEach | assets/js/subscription-form.js:292-295 | the loop sets `is_selected` to "`months + 'months'` equals the value" on every record |
| LeasingForm.SelectInsurancesEach | assets/js/subscription-form.js:296-300 | the loop sets `is_selected` to "derived key equals the value" on every record |
| LeasingForm.SelectMileagesEach | assets/js/subscription-form.js:301-304 | the loop sets `is_selected` to "distance equals the value", with the comparison as intended |
| LeasingForm.FormatSelectSubscriptions | assets/js/subscription-form.js:289-295 | choosing on the records, then formatting, equals choosing on the formatted options |
| LeasingForm.FormatSelectInsurances | assets/js/subscription-form.js:296-300 | the same for insurance records |
| LeasingForm.FormatSelectMileages | assets/js/subscription-form.js:301-304 | the same for mileage records, with the comparison as intended |
| LeasingForm.SubscriptionClickInStep | assets/js/subscription-form.js:156-162 | after a click, the cards equal the render of the updated records: only the clicked card is marked |
| LeasingForm.InsuranceClickInStep | assets/js/subscription-form.js:206-212 | the same for the insurance cards |
| LeasingForm.MileageClickInStep | assets/js/subscription-form.js:255-261 | the same for the mileage cards, with the comparison as intended |
| LeasingForm.MarkedPrice | assets/js/subscription-form.js:313-322 | the price of the marked card, or the fallback when none is marked |
| LeasingForm.PageTotalOfRender | assets/js/subscription-form.js:311-325 | on freshly rendered cards the total is the selected subscription price (1795 if none) plus the selected insurance and mileage prices (0 if none), whatever their sign |
| LeasingForm.DefaultPageTotal | assets/js/subscription-form.js:18-39 | a vehicle with no configured options shows "AED 1,795" |
| LeasingForm.Phone | assets/js/subscription-form.js:382 | the configured number, else the default one; never empty |
| LeasingForm.AfterAppend | assets/js/subscription-form.js:395 | the text after the first `?` of a string whose prefix has none is the suffix |
| LeasingForm.WhatsAppUrlQuery | assets/js/subscription-form.js:394-395 | the query of the link is `text=` followed by the encoded message |
| LeasingForm.LeasingPage.constructor | assets/js/subscription-form.js:18-40 | the cards are the render of the formatted data, the counter is the watching count or 3, and the total is shown. The count is the number `get_vehicle_data` computes; it is at least 1 (Templates.WatchingCountOf), so the fallback is never reached. The model does not follow `wp_localize_script` in turning the number into text, under which a 0 would arrive as the truthy "0" |
| LeasingForm.LeasingPage.UpdateSelectedData | assets/js/subscription-form.js:289-306 | only the named category of the data changes; mileage uses the intended comparison (the as-written update is MileageAsWrittenClears) |
| LeasingForm.LeasingPage.UpdateTotalPrice | assets/js/subscription-form.js:311-330 | the text is "AED " plus the grouped total of the marked cards |
| LeasingForm.LeasingPage.Click | assets/js/subscription-form.js:156-162 | only the clicked card of the category is marked; the other categories' cards are kept; the data and total follow (the mileage data with the intended comparison) |
| LeasingForm.SubmissionAsWritten | assets/js/subscription-form.js:335-355 | as written, the handler throws exactly when some card is marked; with none marked, it returns early exactly when the token is missing or empty; otherwise the link carries empty captions |
| LeasingForm.SubmissionIntended | assets/js/subscription-form.js:335-405 | as intended, the handler never throws; there is no link exactly when the token is missing or empty; otherwise the link goes to the configured or default number and its message carries the marked captions |
| LeasingForm.SubmissionAgrees | assets/js/subscription-form.js:343-345 | the handler as written and as intended agree exactly when no card is marked |
| LeasingForm.SubmitWithMarkedCard | assets/js/subscription-form.js:343-355 | with a card marked and a token present, as written the handler throws, while as intended it links with the marked captions |
| LeasingForm.DefaultPageCaptions | assets/js/subscription-form.js:18-39 | on a vehicle with no configured options, the marked captions are "9 months", "Standard cover" and "3,000 km" |
| LeasingForm.DefaultPageSubmitFails | assets/js/subscription-form.js:343-345 | on the page of a vehicle with no configured options and with a token, as written the submit throws, while as intended it links with "9 months", "Standard cover", "3,000 km" and "AED 1,795" |
| LeasingForm.LeasingPage.HandleSubmit | assets/js/subscription-form.js:335-405 | the handler as written: its outcome is the as-written submission of the page's cards, total and token |
| LeasingForm.LeasingPage.HandleSubmitIntended | assets/js/subscription-form.js:335-405 | the handler with the caption lookup corrected: its outcome is the intended submission of the page's cards, total and token |
| LeasingForm.MarkCard | assets/js/subscription-form.js:268-284 | after marking, the lookup of the selected class finds the clicked card |
| AdminEditor.DigitRunShape | assets/js/admin.js:71 | the digit run read after the prefix consists of digits and stops at a non-digit |
| AdminEditor.MatchShape | assets/js/admin.js:71 | a match of the pattern is the prefix, one or more digits, then `]` |
| AdminEditor.MatchFree | assets/js/admin.js:71 | the position of the first match, or the end when there is none |
| AdminEditor.SplitAtFirstMatch | assets/js/admin.js:71 | the rewrite copies the text before the first match |
| AdminEditor.NoNewMatch | assets/js/admin.js:71 | the rewrite never creates a match that straddles a replaced index |
| AdminEditor.RewriteIdempotent | assets/js/admin.js:62-76 | rewriting with the same index twice is rewriting once |
| AdminEditor.RewriteNoMatch | assets/js/admin.js:70-73 | a name without the pattern is left untouched |
| AdminEditor.RewriteIndices | assets/js/admin.js:71 | after the rewrite, every index the pattern finds in the name is the new index, as many as before |
| AdminEditor.RewriteSkeleton | assets/js/admin.js:71 | the rewrite leaves the rest of the name unchanged |
| AdminEditor.ReindexedPositions | assets/js/admin.js:62-76 | row i shows `#(i+1)`, row numbers are distinct, every index in row i's names is i, and the names are otherwise unchanged |
| AdminEditor.ReindexIdempotent | assets/js/admin.js:62-76 | a second re-indexing pass changes nothing |
| AdminEditor.RenameEach | assets/js/admin.js:68-74 | the inner `each` renames every named field of a row |
| AdminEditor.ReindexEach | assets/js/admin.js:63-75 | the outer `each` re-indexes every row to its position |
| AdminEditor.ReplaceAllAbsent | assets/js/admin.js:37 | template text without the placeholder is inserted unchanged |
| AdminEditor.Moved | assets/js/admin.js:53-55 | a drag keeps the number of rows |
| AdminEditor.MovedPermutes | assets/js/admin.js:53-55 | a drag only reorders: the same multiset of rows, with the dragged row at its target |
| AdminEditor.CheckedErrors | assets/js/admin.js:81-112 | a list is complete exactly when no required input gets the `error` class; names and values are unchanged; checking again changes nothing |
| AdminEditor.CheckEach | assets/js/admin.js:85-92 | the loop marks exactly the empty required inputs and clears `valid` exactly when one is empty |
| AdminEditor.CheckList | assets/js/admin.js:85-92 | the same over every row of a list |
| AdminEditor.OptionsEditor.constructor | assets/js/admin.js:30-32 | the editor starts from the three given lists |
| AdminEditor.OptionsEditor.SetRows | assets/js/admin.js:39 | one list is replaced and the other two are kept |
| AdminEditor.OptionsEditor.UpdateOptionIndexes | assets/js/admin.js:62-76 | the list of the category is re-indexed and the other two are kept |
| AdminEditor.OptionsEditor.AddOption | assets/js/admin.js:35-41 | the template is instantiated with the old row count, appended, and the list is re-indexed; it grows by one |
| AdminEditor.OptionsEditor.RemoveOption | assets/js/admin.js:44-47 | exactly the clicked row is removed and the rest are re-indexed; it shrinks by one |
| AdminEditor.OptionsEditor.MoveOption | assets/js/admin.js:50-56 | the dragged list is re-indexed in its new order |
| AdminEditor.OptionsEditor.Submit | assets/js/admin.js:81-115 | every list is checked, and the form is valid exactly when all three lists are complete |
| Php.IntOf | includes/class-templates.php:140 | integers read as themselves and booleans as 0 or 1 |
| Php.Absint | includes/class-templates.php:139 | the magnitude of `intval`, never negative |
| Php.Get | includes/class-templates.php:139-145 | `??` gives the stored value when the key is present, else the default |
| Php.IntTextRoundTrip | includes/class-meta-boxes.php:214 | echoing an integer and reading it back with `intval` gives the integer; the text is `empty` exactly for 0 |
| MetaBoxes.PostedList | includes/class-meta-boxes.php:205 | a category is saved only when it was posted as an array |
| MetaBoxes.PostedInt | includes/class-meta-boxes.php:215-216 | a missing price field becomes 0 |
| MetaBoxes.PostedText | includes/class-meta-boxes.php:219 | a missing description becomes `''` |
| MetaBoxes.SavedRow | includes/class-meta-boxes.php:213-220 | a flag is true exactly when the posted value is `'yes'`; missing prices become 0 and a missing description `''` |
| MetaBoxes.Kept | includes/class-meta-boxes.php:208-211 | every row that survives has its key field present and not `empty` |
| MetaBoxes.KeptAppend | includes/class-meta-boxes.php:208-221 | surviving rows keep their relative order |
| MetaBoxes.KeptMembers | includes/class-meta-boxes.php:208-211 | a row survives exactly when it was posted and its key field is present and not `empty` |
| MetaBoxes.KeptAll | includes/class-meta-boxes.php:208-211 | when every key field is filled, no row is dropped |
| MetaBoxes.SavedOptions | includes/class-meta-boxes.php:206-221 | one stored row per surviving posted row |
| MetaBoxes.SaveOptions | includes/class-meta-boxes.php:206-221 | the `foreach` with `continue` stores the specified list |
| MetaBoxes.SaveList | includes/class-meta-boxes.php:205-224 | a category posted as an array is replaced by its saved rows; otherwise it is kept |
| MetaBoxes.SanitizedField | includes/class-meta-boxes.php:190-202 | a posted text is sanitised; a posted array is stored as `''` |
| MetaBoxes.FieldIntVal | includes/class-meta-boxes.php:196 | a posted text is read by `intval`; a posted array reads as 0 exactly when it is empty |
| MetaBoxes.SaveMetaBoxData | includes/class-meta-boxes.php:168-267 | nothing changes unless the nonce is present and valid, the save is not an autosave and the user may edit; otherwise each posted field and list is saved and the rest are kept |
| MetaBoxes.DefaultSubscriptionSelection | includes/class-meta-boxes.php:589-624 | among the default subscription rows only 9 months (1895) is selected |
| MetaBoxes.DefaultInsuranceSelection | includes/class-meta-boxes.php:629-653 | among the default insurance rows only Basic (0) is selected |
| MetaBoxes.DefaultMileageSelection | includes/class-meta-boxes.php:658-689 | among the default mileage rows only 1000 (0) is selected |
| MetaBoxes.DisplayedDefaults | includes/class-meta-boxes.php:51-61 | the meta box never shows an empty list, and an empty stored list shows defaults with exactly one selected row |
| MetaBoxes.Shown | includes/class-meta-boxes.php:273-278 | a missing field is shown with its fallback |
| MetaBoxes.YesNo | includes/class-meta-boxes.php:276-277 | a flag is rendered as `'yes'` or `'no'` |
| MetaBoxes.FlagRoundTrip | includes/class-meta-boxes.php:276-277 | saving the rendered `'yes'`/`'no'` gives back the stored flag's truth value |
| MetaBoxes.RenderedRow | includes/class-meta-boxes.php:272-278 | the rendered row posts its key field and both flags as `'yes'`/`'no'` |
| MetaBoxes.SubscriptionRoundTrip | includes/class-meta-boxes.php:272-278 | saving a rendered subscription row gives the row back, and it survives exactly when its month count is not 0 |
| MetaBoxes.InsuranceRoundTrip | includes/class-meta-boxes.php:334-339 | saving a rendered insurance row gives the row back, and it survives exactly when its name is not `empty` |
| MetaBoxes.MileageRoundTrip | includes/class-meta-boxes.php:389-394 | saving a rendered mileage row gives the row back, and it survives exactly when its distance is not 0 |
| MetaBoxes.ResaveList | includes/class-meta-boxes.php:205-224 | saving a shown list unchanged stores the same list, when every shown row keeps its key and saves back to itself |
| Templates.Preferred | includes/class-templates.php:37-47 | the theme template if found, else the plugin template if it exists, else the given one |
| Templates.SingleTemplateChoice | includes/class-templates.php:30-51 | vehicles get the theme's, else the plugin's, else the given template; other post types keep theirs; applying the filter again changes nothing |
| Templates.ArchiveTemplateChoice | includes/class-templates.php:56-75 | only the vehicle archive and category are redirected, and only to the theme's or the plugin's archive template; applying the filter again changes nothing |
| Templates.SanitizedSubscription | includes/class-templates.php:138-145 | the month count passes through `absint`, so it is never negative |
| Templates.SanitizedInsurance | includes/class-templates.php:152-158 | the page data carries no insurance `id` |
| Templates.SanitizedMileage | includes/class-templates.php:165-171 | the distance passes through `absint`, so it is never negative |
| Templates.SanitizedMissingFields | includes/class-templates.php:139-170 | missing fields become counts 0, prices 0, flags false and an escaped `''` |
| Templates.SavedRowsReachPage | includes/class-templates.php:135-173 | a row as saved reaches the page with the same prices and flags, escaped text and the magnitude of its count |
| Templates.SanitizeSubscriptions | includes/class-templates.php:135-147 | the stored list is mapped one-to-one, in order |
| Templates.SanitizeInsurances | includes/class-templates.php:149-160 | the stored list is mapped one-to-one, in order |
| Templates.SanitizeMileages | includes/class-templates.php:162-173 | the stored list is mapped one-to-one, in order |
| Templates.BasePriceOf | includes/class-templates.php:130-132 | an `empty` base price becomes 299 |
| Templates.BasePriceRoundTrip | includes/class-templates.php:130-132 | a stored number reads back as itself, except 0, which becomes 299 |
| Templates.WhatsAppOf | includes/class-templates.php:183 | the stored number when not `empty`, else 923105054025; never empty |
| Templates.WatchingCountOf | includes/class-templates.php:182 | the stored count, or the roll of `rand(5, 15)` when it is 0, through `absint`; never 0, so the page's fallback of 3 is never used |
| Templates.GetVehicleData | includes/class-templates.php:123-185 | the page data: the id's magnitude, the escaped title, the base price with its default, each list mapped one-to-one, the count and the number with their defaults; the count is at least 1 |
| PostTypes.Put | includes/class-post-types.php:94 | assigning a key grows the array by at most one column |
| PostTypes.PutAbsent | includes/class-post-types.php:94 | assigning a new key appends it at the end |
| PostTypes.AddCustomColumns | includes/class-post-types.php:89-104 | the `foreach` builds the specified column list |
| PostTypes.NoTitleUnchanged | includes/class-post-types.php:92-103 | without a `title` column the output equals the input |
| PostTypes.ColumnsAfterTitle | includes/class-post-types.php:93-101 | with `title` and none of the three new keys, the input columns keep their order, followed right after `title` by `vehicle_image`, `subscription_plans` and `shortcode`; the length grows by 3 |
| PostTypes.PlansDashMojibake | includes/class-post-types.php:125 | as written, an empty list shows three characters starting with U+00E2 rather than an em dash |
| PostTypes.PlansTextCounts | includes/class-post-types.php:119-126 | an empty list shows one em dash; otherwise the text starts with the count ("1 plan" for one) and agrees with the code as written |

## Left out

- DOM and HTML: cards are values in a sequence (caption, key, price, the selected class and the check mark). Markup, CSS classes, SVG, tooltips, the grid class and the "Recommended" tag are not modelled.
- Floating point: `parseFloat`, `floatval`, `(float)` and `toLocaleString` are modelled on whole units (`int`). Every literal default is a whole number.
- `encodeURIComponent`, `sanitize_text_field` and `esc_js` are function parameters. Their internals are not modelled.
- WordPress services are parameters, and their behaviour is not modelled. These are `wp_verify_nonce`, `current_user_can`, `DOING_AUTOSAVE`, `locate_template`, `file_exists`, `get_the_title` and the plugin directory.
- Post meta is the `MetaBoxes.VehicleMeta` object, and hooks and filters are not modelled. `get_post_meta` returning `''` for an unset integer key is modelled as 0.
- `rand(5, 15)` for the watching count is the `roll` parameter.
- `console.*`, `window.open`, `alert`, jQuery `sortable` and `animate`, and the scroll to the first error are left out. `HandleSubmit` returns its outcome instead of opening the link.
- The submit handler of the standalone script only logs and alerts, so it is not modelled.
- The section names `'subscriptionOptions'`, `'insuranceOptions'` and `'mileageOptions'` are the `Category` enumeration. Any other section name does nothing in the source.
- Translations (`__`, `_e`, `_n`) are English only. The plural rule of `_n` is "1 plan" against "n plans".
- Posted data: an array posted to a scalar field is modelled by what `sanitize_text_field` and `intval` return for it: `''`, and 0 or 1. A posted row that is not an array is not modelled.
- MetaBoxes.ResaveList: re-saving the box gives back the stored list only under its two conditions. Two cases fall outside them. First, a vehicle that was never saved shows the built-in catalogue, so its first save stores that catalogue. Second, a months or miles value that `intval` reads as 0 (months posted as "0.5") is stored as 0, and the next save then drops that row (MetaBoxes.SubscriptionRoundTrip, MetaBoxes.MileageRoundTrip). Text that `sanitize_text_field` changes is also not stored as shown.
- MetaBoxes.PostedInt: `intval` of text is modelled on an optional sign followed by leading digits. Leading whitespace and other prefixes PHP accepts are not modelled.
- LeasingForm.LeasingPage.UpdateSelectedData: the source skips a category whose list is missing from the page data. The server always sends all three lists, so the model has them always present. The mileage records are updated with the intended comparison, not the `===` written in the source. The as-written update, which deselects every mileage record, is LeasingForm.MileageAsWrittenClears. `is_selected` is read only when the page is set up, so the difference changes no card, total or link.
- LeasingForm.LeasingPage.Click: its update of the data is UpdateSelectedData's, so a mileage click selects the clicked record (the intended comparison) rather than clearing every record as the source's `===` does.
- LeasingForm.LeasingPage.HandleSubmit: the token field is a parameter. templates/leasing-form.php renders no element with id `leasing_form_nonce`, so on that template the token is always missing.
- Text.InsuranceValue: `\s` is JavaScript's full white-space class, but lower-casing covers only the capitals of ASCII and Latin-1. Other capitals are kept, including U+0130, which `toLowerCase` turns into two code units (so there the source's key can be longer than the name).
- AdminEditor.OptionsEditor.MoveOption: jQuery UI's drag is modelled as one move from one position to another. Its pointer mechanics are not modelled.
- AdminEditor.OptionsEditor.AddOption: the template row is a value, not markup. Of the placeholder replacement, the model proves only that text without the placeholder is inserted unchanged.
- The plugin bootstrap, asset registration, shortcode, post-type labels and the view templates are not part of this model.

## Findings

| source | as written | input that shows it | evidently intended | confidence | as-written member | corrected member |
|---|---|---|---|---|---|---|
| assets/js/subscription-form.js:303 | `option.miles === value` compares the record's number with the card's `data-value` string, so it is never true; `is_selected` is read only when the page is set up (lines 59, 82 and 104), so no card, total or link changes | one mileage record of 3000 km, clicked | the clicked mileage record becomes the selected one, as for the other two categories | not executed | LeasingForm.MileageAsWrittenCounterexample | LeasingForm.MileageClickInStep |
| assets/js/subscription-form.js:343-345 | a marked card's caption is looked up with `querySelector('.alc-text-lg')`, but the caption element's class is `sm:alc-text-lg` (lines 147, 197 and 246), so the lookup is null and reading `textContent` throws after `preventDefault` | the page of a vehicle with no configured options (9 months, standard cover and 3000 km marked), submitted with a token | the message carries the captions of the marked cards | not executed | LeasingForm.DefaultPageSubmitFails | LeasingForm.SubmissionIntended |
| includes/class-post-types.php:125 | the dash is the UTF-8 bytes of an em dash read as Windows-1252 and re-encoded, so the column shows "â€”" | a vehicle with no subscription options | a single em dash (U+2014) | not executed | PostTypes.PlansDashMojibake | PostTypes.PlansTextCounts |
