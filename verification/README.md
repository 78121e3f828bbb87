# Photo-print storefront, modelled in Dafny

A model of the single-page storefront in `App.tsx`: a shop that sells
printed photographs. A customer opens a product, uploads a photo, picks a
print format (eight fixed sizes or a custom one), crops the photo to the
format's aspect ratio by dragging a rectangle, optionally retouches it with
colour filters or through a chat with an image-generation service, chooses
a paper and a project name, and adds the print to the cart. The cart leads
to a checkout form (home delivery or pickup), a card-payment form and an
order confirmation; placed orders are listed in an order history.

The model has one module per part of the program:

| module | file | what it covers |
|---|---|---|
| `JsText` | `js_text.dfy` | the JavaScript string operations the program relies on: `trim`, digit filters, `substring`, number rendering, `toUpperCase` |
| `CropGeometry` | `crop_geometry.dfy` | the initial crop rectangle, the drag, the mapping to natural pixels (exact reals) |
| `Formats` | `formats.dfy` | the format table, labels, prices, the "WxH" identifiers |
| `PhotoEditing` | `photo_editor.dfy` | the filter editor (class `PhotoEditor`) and its CSS filter expression |
| `AIEditing` | `ai_editor.dfy` | the AI chat editor (class `AIEditSession`) and how a reply is read |
| `Customizer` | `customizer.dfy` | the product customizer (class `ProductCustomizer`) |
| `Cart` | `cart.dfy` | cart lines, the quantity buttons, removal, subtotal |
| `Checkout` | `checkout.dfy` | the checkout form (class `CheckoutView`), its validation, shipping and totals |
| `Payment` | `payment.dfy` | the card-payment form (class `PaymentView`) and its input formatters |
| `Storefront` | `storefront.dfy` | the application shell (class `App`): navigation, cart life cycle, orders |

Stateful React components are classes whose fields are the component's
state and whose methods are its event handlers; the pure computations are
functions with lemmas. Money is whole euro cents (`0.70` is `70`).
Geometry is exact real arithmetic. Images are opaque data-URL strings.
Clocks, random draws, the browser's date formatting, the size of the
displayed image, the availability of a canvas context, the rasterisation of
a canvas and the image-generation service's answer are parameters of the
operations that use them.

## Model

| member | source | states |
|---|---|---|
| JsText.TrimStart | App.tsx:1474 | the result is a suffix of the input not starting with whitespace, and everything dropped is whitespace |
| JsText.TrimEnd | App.tsx:1474 | the result is a prefix of the input not ending with whitespace, and everything dropped is whitespace |
| JsText.Trim | App.tsx:1793 | `trim` is empty exactly when the input is all ECMAScript whitespace; otherwise it neither starts nor ends with whitespace; it is always a slice of the input |
| JsText.KeepDigits | App.tsx:697-698 | the digit filter yields only digits, no longer than its input, and leaves a digit string unchanged |
| JsText.KeepDigitsSingle | App.tsx:697-698 | a single character is kept exactly when it is a digit |
| JsText.KeepDigitsAt | App.tsx:697-698 | every character of the input is kept, in its place, exactly when it is a digit |
| JsText.KeepDigitsAppend | App.tsx:697-698 | filtering distributes over concatenation |
| JsText.IndexOf | App.tsx:924 | the first occurrence of a character: no earlier occurrence, and the character is at the index found |
| JsText.Prefix | App.tsx:698 | `substring(0, n)` keeps the first `min(n, length)` characters |
| JsText.NatToString | App.tsx:186 | a number renders as a non-empty digit string without a leading zero |
| JsText.NatToStringRoundTrip | App.tsx:186 | reading back the digits of a rendered number gives the number |
| JsText.NatToStringInjective | App.tsx:2011 | distinct numbers render differently |
| JsText.UpperChar | App.tsx:714 | lower-case ASCII letters and the Latin-1 letters with a one-unit upper case map to that upper case (32 below, 'ÿ' to U+0178, 'µ' to U+039C); the division sign and everything else are unchanged |
| JsText.UpperCase | App.tsx:714 | upper-casing is character by character and keeps the length |
| CropGeometry.InitialRect | App.tsx:1354-1370 | the initial rectangle has the format's aspect ratio, lies inside the displayed image, spans it fully along one side and is centred |
| CropGeometry.FullHeight | App.tsx:1359-1361 | for an image wider than the format, the full-height rectangle fits and has the format's ratio |
| CropGeometry.FullWidth | App.tsx:1362-1364 | for an image no wider than the format, the full-width rectangle fits and has the format's ratio |
| CropGeometry.InitialRectIsLargest | App.tsx:1357-1365 | no rectangle of the format's ratio that fits the image is wider or taller than the initial one |
| CropGeometry.Clamp | App.tsx:1410-1411 | `max(0, min(v, hi))` lies in `[0, max(0, hi)]` and is `v` when `v` is in range |
| CropGeometry.Drag | App.tsx:1401-1415 | a drag keeps the rectangle's size, keeps it inside the image when it fits, and follows the pointer exactly while in range |
| CropGeometry.DragWithoutMotionKeepsRect | App.tsx:1394-1415 | pressing and moving without displacement leaves the rectangle where it was |
| CropGeometry.DragIsClampedTranslation | App.tsx:1394-1415 | a drag is the clamped translation of the rectangle by the pointer's displacement since mouse-down |
| CropGeometry.NaturalRegion | App.tsx:1440-1446 | the copied region is the crop rectangle scaled per axis to natural pixels and stays inside the natural image |
| CropGeometry.NaturalRegionKeepsAspect | App.tsx:1440-1446 | for an undistorted display the copied region keeps the crop rectangle's aspect ratio |
| Formats.Find | App.tsx:1330 | `find` returns the first entry with the identifier, or nothing when no entry has it |
| Formats.TableIdsUnique | App.tsx:1314-1324 | no two formats share an identifier |
| Formats.Price | App.tsx:1333 | a format's price is positive exactly when the identifier is in the table, 0 otherwise |
| Formats.PriceOfEveryEntry | App.tsx:1314-1324 | every table entry is priced at its listed price (custom: 1.50) |
| Formats.Label | App.tsx:1326-1331 | the custom label reads "Personalizado (", the typed width, "x", the typed height, " cm)", position by position; an unknown identifier labels itself |
| Formats.LabelOfFixedFormat | App.tsx:1326-1331 | a fixed format is labelled by its identifier followed by " cm" |
| Formats.CustomLabelDeterminesDimensions | App.tsx:1328 | two custom labels are equal only for equal dimensions |
| Formats.FindInTable | App.tsx:1330 | looking up entry `i`'s identifier finds entry `i` |
| Formats.FixedFormatDims | App.tsx:1351 | every fixed identifier splits at "x" into two positive whole numbers, those of the table |
| PhotoEditing.With | App.tsx:2006-2008 | `updateSetting` replaces one adjustment and keeps the others |
| PhotoEditing.DefaultsFilterString | App.tsx:1996-2003 | the default settings render as the identity filter |
| PhotoEditing.FilterStringInjective | App.tsx:2010-2012 | the filter expression determines all six settings |
| PhotoEditing.PhotoEditor.UpdateSetting | App.tsx:2091-2118 | a slider sets its adjustment within 0..200 and leaves the rest |
| PhotoEditing.PhotoEditor.Reset | App.tsx:2064-2066 | reset restores the default settings |
| PhotoEditing.PhotoEditor.Save | App.tsx:2014-2028 | saving bakes the current filter into the image, nothing without a drawing context; with default settings the filter is the identity |
| AIEditing.Prompt | App.tsx:1818 | the prompt embeds the instruction verbatim at a fixed place |
| AIEditing.PromptInjective | App.tsx:1818 | distinct instructions give distinct prompts |
| AIEditing.DataUrl | App.tsx:1830 | the data URL embeds the MIME type and the base64 data |
| AIEditing.FirstImageIsFirst | App.tsx:1827-1832 | the scan finds an image exactly when some part has one, and then it is the first such part's |
| AIEditing.ScanParts | App.tsx:1827-1832 | the loop over the parts stops at the first inline image |
| AIEditing.Classify | App.tsx:1826-1847 | a thrown call, an empty candidate list or a first candidate without content is an error; an image is the first inline image of the first candidate's parts; otherwise there is no image |
| AIEditing.ReplyText | App.tsx:1837-1846 | the success text is shown exactly for a new image |
| AIEditing.ReadReply | App.tsx:1826-1847 | the reply is read, with the loop over the parts, exactly as `Classify` says |
| AIEditing.AppendMessage | App.tsx:1795-1846 | appending the right speaker keeps the transcript alternating and counts a success only for the success text |
| AIEditing.PendingIffUserLast | App.tsx:1792-1799 | a request is pending exactly when the customer spoke last |
| AIEditing.AIEditSession.constructor | App.tsx:1777-1781 | the session opens with an empty transcript and the history holding the original image |
| AIEditing.AIEditSession.SetInput | App.tsx:1972-1976 | typing changes only the instruction, and only while no request is in flight |
| AIEditing.AIEditSession.Send | App.tsx:1792-1822 | a blank instruction or a pending request sends nothing; otherwise the instruction joins the transcript, the box clears and the current image is sent |
| AIEditing.AIEditSession.Dispatch | App.tsx:1795-1822 | the accepted path: transcript, cleared box, loading, request for the current image |
| AIEditing.AIEditSession.Complete | App.tsx:1824-1849 | one reply is appended, loading ends, and a new image becomes current and joins the history |
| AIEditing.AIEditSession.SelectHistory | App.tsx:1913-1916 | choosing a version makes it current and keeps the history |
| AIEditing.AIEditSession.Save | App.tsx:1870 | the saved image is the current one, a version in the history |
| Customizer.CropTarget | App.tsx:1341-1352 | the target dimensions are positive; they exist for fixed formats and for custom ones only when both dimensions are positive |
| Customizer.FixedIdDims | App.tsx:1351 | every fixed format's identifier yields two positive numbers |
| Customizer.ApplyCropGuardAdmitsNegative | App.tsx:1425-1429 | the guard as written accepts width 15 and height -5, for which no crop rectangle is ever computed |
| Customizer.CorrectedApplyCropGuard | App.tsx:1347 | the corrected guard accepts exactly the dimensions the crop rectangle is computed for, and is stronger than the guard as written |
| Customizer.StartRect | App.tsx:1354-1370 | the crop rectangle lies inside the displayed image and is the initial rectangle when the image has been laid out |
| Customizer.ProductCustomizer.constructor | App.tsx:1292-1312 | the customizer opens on 11x15 with an empty form, no image, no flags and an empty rectangle |
| Customizer.ProductCustomizer.UploadLoaded | App.tsx:1380-1391 | a loaded upload becomes the uncropped working image and clears its flag; every other piece of state is unchanged |
| Customizer.ProductCustomizer.RemoveImage | App.tsx:1601 | removing the image leaves nothing to crop; every other piece of state is unchanged |
| Customizer.ProductCustomizer.InitCropRect | App.tsx:1336-1371 | the rectangle is recomputed for the target the state held, or left alone without an image or a valid target; fixed formats get their ratio; nothing else changes |
| Customizer.ProductCustomizer.MouseDown | App.tsx:1394-1399 | a drag starts only on an uncropped image, remembering the grab offset; nothing else changes |
| Customizer.ProductCustomizer.MouseMove | App.tsx:1401-1415 | while dragging the rectangle follows the pointer, clamped to the image and keeping its size; nothing else changes |
| Customizer.ProductCustomizer.MouseUp | App.tsx:1417-1419 | releasing ends the drag and changes nothing else |
| Customizer.ProductCustomizer.ApplyCropClick | App.tsx:1421-1434 | the click starts a crop exactly when there is an image, its element and, for the custom format, two positive dimensions; the started crop keeps the image and the rectangle of that moment, and no state changes |
| Customizer.ProductCustomizer.CropLoaded | App.tsx:1435-1455 | once the image loads, with a drawing context, the kept rectangle scaled to natural pixels is rendered from the kept image into the new, cropped working image, or the blank canvas when the displayed image has a zero side, whatever changed since the click; without a context nothing changes |
| Customizer.ProductCustomizer.NewCrop | App.tsx:1636 | a new crop returns to choosing a rectangle and changes nothing else |
| Customizer.ProductCustomizer.SelectFormat | App.tsx:1670 | choosing a format records it and undoes the crop; nothing else changes |
| Customizer.ProductCustomizer.SetCustomWidth | App.tsx:1687 | editing the custom width records it and undoes the crop; nothing else changes |
| Customizer.ProductCustomizer.SetCustomHeight | App.tsx:1697 | editing the custom height records it and undoes the crop; nothing else changes |
| Customizer.ProductCustomizer.SelectPaper | App.tsx:1723-1737 | choosing a paper records it and clears its flag; nothing else changes |
| Customizer.ProductCustomizer.SetProjectName | App.tsx:1755 | typing a project name records it and clears its flag; nothing else changes |
| Customizer.ProductCustomizer.StartEditing | App.tsx:1642 | the filter editor opens on a cropped image; nothing else changes |
| Customizer.ProductCustomizer.SaveEdits | App.tsx:1459-1462 | the filtered image replaces the working image, which stays cropped, and the page returns; nothing else changes |
| Customizer.ProductCustomizer.CancelEditing | App.tsx:1516 | cancelling the filter editor returns to the page and changes nothing else |
| Customizer.ProductCustomizer.RequestAI | App.tsx:1517 | the filter editor hands over to the AI editor; nothing else changes |
| Customizer.ProductCustomizer.SaveAI | App.tsx:1465-1468 | the AI-edited image replaces the working image, which stays cropped, and the page returns; nothing else changes |
| Customizer.ProductCustomizer.CancelAI | App.tsx:1505 | cancelling the AI editor returns to the page and changes nothing else |
| Customizer.ProductCustomizer.AddToCartClick | App.tsx:1470-1498 | the three flags are set from the form and nothing else changes; a line labelled from the format and the typed dimensions, at the format's positive price and quantity 1, is emitted exactly when nothing is flagged and custom dimensions are filled in |
| Cart.Matching | App.tsx:152-164 | the lines selected by an id are exactly the cart's lines carrying that id |
| Cart.Bump | App.tsx:155-156 | a quantity button sets the quantity to `max(1, q + delta)` and changes nothing else |
| Cart.UpdateQty | App.tsx:152-160 | the lines with the id get the bumped quantity; all other lines, the length and the order stay |
| Cart.UpdateQtyKeepsInvariant | App.tsx:152-160 | the quantity buttons keep every quantity positive and the ids in place |
| Cart.Remove | App.tsx:162-164 | removal drops exactly the lines with the id, none of which remain |
| Cart.RemoveMembers | App.tsx:162-164 | a line is kept exactly when it was in the cart and does not carry the id |
| Cart.RemoveAppend | App.tsx:162-164 | removal works line by line, keeping the order |
| Cart.RemoveAbsent | App.tsx:162-164 | removing an id absent from the cart changes nothing |
| Cart.RemoveIdempotent | App.tsx:162-164 | removing twice is removing once |
| Cart.RemoveKeepsInvariant | App.tsx:162-164 | removal keeps quantities positive |
| Cart.SubtotalAppend | App.tsx:180 | the subtotal of joined carts is the sum of subtotals |
| Cart.SubtotalNonNegative | App.tsx:180 | the subtotal is non-negative, and positive for a non-empty cart of priced lines |
| Cart.IncrementRaisesSubtotal | App.tsx:152-160 | "+" raises the subtotal by the line's unit price |
| Cart.RemoveLowersSubtotal | App.tsx:162-164 | removing lines lowers the subtotal by exactly their cost |
| Cart.CartPageTotal | App.tsx:1155-1157 | the 3.99 estimate is added only to a non-empty cart, the only case in which the total is shown |
| Checkout.CartEstimateBetweenCharges | App.tsx:1155-1157 | for a non-empty cart the cart page's total lies strictly between the pickup and the delivery charge: 3.99 above the one, 1.01 below the other |
| Checkout.With | App.tsx:904 | editing a field replaces that field only |
| Checkout.EmailOkMatchesPattern | App.tsx:923-924 | the e-mail check, decided at the first '@', accepts exactly the strings the pattern matches |
| Checkout.FirstAt | App.tsx:923-924 | an '@' preceded by no '@' is the first one |
| Checkout.EmailHasOneAt | App.tsx:923-924 | an accepted address has exactly one '@' |
| Checkout.FormErrors | App.tsx:913-929 | the postcode and notes fields are never flagged |
| Checkout.FormErrorsExact | App.tsx:913-929 | a field is flagged exactly when it fails its check; address and city only for delivery |
| Checkout.ShippingCents | App.tsx:944-945 | shipping is 5.00 for delivery and free exactly for pickup |
| Checkout.OrderTotal | App.tsx:944-946 | the total is never below the subtotal and equals it exactly for pickup |
| Checkout.CheckoutView.constructor | App.tsx:878-891 | the form opens empty, for delivery, with no flags |
| Checkout.CheckoutView.SetDeliveryType | App.tsx:975-985 | the delivery radio buttons change only the delivery type |
| Checkout.CheckoutView.InputChange | App.tsx:893-911 | phone and DNI keep only digits and ignore input beyond nine; other fields take the text; the field's flag clears |
| Checkout.CheckoutView.ValidateAndProceed | App.tsx:913-942 | the flags are exactly the failed checks, and the form proceeds, with its data and delivery type, exactly when none failed |
| Payment.GroupKeepsDigits | App.tsx:700 | grouping the card number only inserts spaces |
| Payment.GroupLayout | App.tsx:700 | spaces sit exactly at every fifth position, never at the end |
| Payment.GroupLength | App.tsx:700 | grouping adds one space per complete group followed by more digits |
| Payment.CardNumberDigits | App.tsx:697-701 | the card number keeps the first 16 digits typed, grouped, at most 19 characters |
| Payment.CardNumberIdempotent | App.tsx:697-701 | reformatting a formatted card number changes nothing |
| Payment.ExpiryDigits | App.tsx:702-709 | the expiry keeps the first four digits typed |
| Payment.ExpirySlash | App.tsx:702-709 | the expiry has a '/' exactly when two digits were typed, only at index 2, digits everywhere else, and at most five characters |
| Payment.ExpiryIdempotent | App.tsx:702-709 | reformatting a formatted expiry changes nothing |
| Payment.ExpirySlashReappears | App.tsx:702-709 | deleting the slash after the month puts it straight back |
| Payment.FormatCvv | App.tsx:710-712 | the CVV holds the first four digits typed |
| Payment.FormatCardName | App.tsx:713-714 | the holder's name is the upper-cased input, same length, and stable under upper-casing |
| Payment.UpperCaseIdempotent | App.tsx:714 | upper-casing twice is upper-casing once |
| Payment.PaymentView.constructor | App.tsx:686-691 | the payment form opens empty |
| Payment.PaymentView.PaymentChange | App.tsx:693-718 | the edited field takes its normalised value, the others keep theirs, and every field stays a fixed point of its formatter |
| Storefront.Back | App.tsx:115-138 | back never leads to the customizer, the payment page or a confirmation, and stays at home |
| Storefront.Forward | App.tsx:140-175 | the forward steps leave exactly the product, cart and checkout pages |
| Storefront.BackUndoesForward | App.tsx:115-175 | back undoes each forward step of the purchase flow |
| Storefront.BackReachesHome | App.tsx:115-138 | at most three presses of back reach the home page |
| Storefront.Shown | App.tsx:340-393 | a page is rendered as requested, or the landing page when the product, checkout data or order it needs is missing |
| Storefront.Listed | App.tsx:130 | `find` on the order list succeeds exactly when an order has that id |
| Storefront.OrderNumber | App.tsx:186 | the order number is between 1000 and 9999 |
| Storefront.OrderId | App.tsx:186 | the order id is "#YBZ" followed by the four digits of the order number |
| Storefront.TotalDependsOnDeliveryOnlyByShipping | App.tsx:944-946 | two recorded orders for the same items have equal totals exactly for the same delivery choice, and delivery costs 5.00 more than pickup |
| Storefront.BackFromFreshConfirmation | App.tsx:129-134 | back from a just-placed order's confirmation leads to the order list |
| Storefront.App.constructor | App.tsx:101-106 | the application opens on the home page with nothing selected, an empty cart and no orders |
| Storefront.App.RoutingShowsCurrentView | App.tsx:340-393 | in every reachable state the routing renders the current page |
| Storefront.App.ProductClick | App.tsx:108-113 | opening a product selects it and shows its page |
| Storefront.App.GoBack | App.tsx:115-138 | back follows `Back`, forgetting the product when leaving the product page or the cart |
| Storefront.App.StartCustomizing | App.tsx:140-143 | the product page leads to the customizer |
| Storefront.App.AddToCart | App.tsx:145-150 | the customized line is appended with a clock-based id, the subtotal grows by its price and the cart shows |
| Storefront.App.UpdateCartQty | App.tsx:152-160 | the cart becomes `UpdateQty` of the old cart; "+" adds the line's unit price to the subtotal |
| Storefront.App.RemoveFromCart | App.tsx:162-164 | the cart becomes `Remove` of the old cart and the subtotal drops by the removed lines' cost |
| Storefront.App.GoHome | App.tsx:357 | the logo and "continue shopping" show the home page with nothing selected |
| Storefront.App.ShowCart | App.tsx:324 | the header's cart button shows the cart |
| Storefront.App.ShowOrders | App.tsx:318 | the orders buttons show the order list |
| Storefront.App.LeaveOrders | App.tsx:387 | the order list's back button shows the home page |
| Storefront.App.ProceedToCheckout | App.tsx:166-169 | a non-empty cart proceeds to checkout |
| Storefront.App.ProceedToPayment | App.tsx:171-175 | the checkout data is kept and the payment page shows |
| Storefront.App.ConfirmPayment | App.tsx:177-201 | without checkout data nothing happens; otherwise the order holds the cart at subtotal plus shipping, heads the history, is shown, and the cart and checkout data are cleared |
| Storefront.App.ReturnToHome | App.tsx:203-210 | everything but the order history is reset |
| Storefront.App.ViewOrderDetails | App.tsx:212-216 | a listed order is shown on the confirmation page |

The invariants the classes keep (`Valid`) are: for the application, positive
quantities, a selected product on the product and customizer pages, a
non-empty cart on the checkout and payment pages, checkout data on the
payment page, an order on the confirmation page, and every order's total
equal to its subtotal plus shipping; for the customizer, a table format, a
known paper, well-formed number fields, at most one editor open and only
over a cropped image; for the AI session, an alternating transcript whose
length is odd exactly while loading, and one history entry per announced
success; for the payment form, every field a fixed point of its formatter;
for the checkout form, phone and DNI of at most nine digits.

## Left out

- Rendering and layout: the landing, product-detail, order-list and
  confirmation pages are display only; the mobile-simulator switch,
  scrolling and the `CustomSlider` widget are not modelled.
- Rasterisation: drawing on a canvas and `toDataURL` are a parameter
  (`render`) or the `Bake` request; the canvas's truncation of the source
  region to whole pixels is not modelled.
- Reading the uploaded file (`FileReader`) is not modelled; `UploadLoaded`
  receives its result.
- The image-generation call and the split of the data URL into MIME type
  and base64 data (App.tsx:1801-1822) are outside the model: `Send` hands
  out a `Request` and `Complete` receives the call's result. The reply is
  modelled down to the fields the editor reads (`candidates`, `content`,
  `parts`, `inlineData`); a reply whose fields have the wrong JSON type is
  not modelled.
- The 100 ms timer that re-runs `initCropRect` after the image, the format
  or the custom size changes (App.tsx:1373-1378) is not modelled; callers
  invoke `InitCropRect` directly.
- `Date.now()`, `Math.random()` and the locale-formatted dates are
  parameters of `AddToCart` and `ConfirmPayment`.
- Floating point: prices are whole cents and geometry uses exact reals, so
  rounding of `price * quantity` and of the scale factors is not modelled.
- `parseFloat` on the custom size fields is abstracted into `DimInput`,
  which carries the text and the number read from it; a number field holds
  either nothing or a number.
- `Customizer.ProductCustomizer.ApplyCropClick` uses the corrected
  custom-size guard (see Findings), not the guard as written. The click and
  the image's load are two steps, `ApplyCropClick` and `CropLoaded`; what
  happens in between is whatever handlers the caller runs. For a displayed image
  with a zero side `CropLoaded` yields the blank canvas (`"data:,"`, the data URL of
  a canvas without pixels); the non-finite scale factors themselves are
  not modelled.
- `Customizer.StartRect` gives an empty rectangle at the centre for an image
  with a zero side, which is what the division by zero yields in the
  browser; NaN and infinities themselves are not modelled.
- JsText.UpperChar: covers ASCII and the Latin-1 characters whose upper
  case is one code unit (including 'ÿ' and 'µ'); other scripts, and "ß",
  whose upper case is two letters, are left as they are.
- The CVV input's `maxLength={3}` (App.tsx:793) is a browser limit on
  typing; the model follows the handler, which keeps up to four digits.
- The e-mail input's own browser-side sanitisation is not modelled; the
  check is the pattern of App.tsx:923.
- The payment form's contents are not consulted when the payment is
  confirmed (App.tsx:177-201), and the model does not link them.
- PhotoEditing.PhotoEditor.UpdateSetting: only brightness, contrast and
  saturation have a slider (App.tsx:2091-2118), so sepia, grayscale and
  hue-rotate stay at their defaults in every reachable state.
- The AI session starts with an empty transcript, as the code does
  (App.tsx:1777); no greeting is modelled.

## Findings

| source | as written | input that shows it | evidently intended | confidence | as-written member | corrected member |
|---|---|---|---|---|---|---|
| App.tsx:1425-1429 | the custom-size guard of `handleApplyCrop` only rejects a width or height that parses to 0 or NaN | width "15", height "-5": the guard passes and the crop uses the rectangle left from an earlier format, since `initCropRect` (App.tsx:1347) never computed one for these dimensions | both dimensions greater than zero, as `initCropRect` requires | not executed | Customizer.ApplyCropGuardAdmitsNegative | Customizer.CorrectedApplyCropGuard |
