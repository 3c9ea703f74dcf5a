# Storefront state and form logic, modelled in Dafny

This project models the application state and form logic of a browser storefront. The
storefront lists products and lets a user buy one or resell it with a margin, enter a
shipping address, keep an order history, and sign in to a profile stored in the browser.
Modelled here:

- **The store** (`App`, from `App.tsx`). It holds the catalogue, the order ledger
  (newest first), the accounts, the signed-in user and the saved payout accounts. It also
  holds the two browser storage keys it writes:
  - `spark-users` in local storage, as a `StoredUsers` value;
  - `spark-currentUsername` in session storage, as an `Option<string>`.

  It covers loading the accounts (seeding the default account, or giving old records a
  username), restoring the session, login, logout, profile update with the saved-account
  upsert, placing an order, adding a listing, the admin password gate and the
  case-insensitive search.
- **The address form** (`AddAddressModal`). It covers the phone and PIN code rules,
  per-keystroke validation, the submit guard with its blank-field loop, the field name shown
  in the alert, and the reset on close.
- **The checkout dialog** (`ResellModal`). It covers the initial margin, the price rule, the
  `parseInt` reading of the margin, the address step and the order request.
- **The product detail view** (`ProductDetailModal`). It covers the image carousel index,
  which wraps around, the related-products strip, and what happens to the index when a
  related product is opened in the same dialog.
- **The sign-in, profile and new-listing forms** (`AuthModal`, `ProfileModal`,
  `AddProductModal`). For each, the model covers the submit guard, the payload it hands
  on, and its reset.

Helper modules: `Optional` (the Option type), `Seqs` (array `find`/`filter`), `Strings`
(`trim`, ASCII `toLowerCase`, `includes`, `parseInt`) and `Types` (the records of `types.ts`).

Each component whose handlers update state is a class. Its methods state the whole new state.
Pure rules (migration, lookups, filters, validators, the price rule, merges) are functions.
Lemmas prove the properties that relate them. A React effect (the final-price effect, the
reset-on-close effects, with or without their 300 ms `setTimeout`) is modelled as running at
once. Wherever the source would call `alert`, a form returns the alert text. Wherever it calls
a parent callback (`onSave`, `onPlaceOrder`, `onAddProduct`), a form returns the payload as a
value; `MissingAddress`, `FormatErrors`, `Alert` or `Rejected` means the callback is not called.
The sign-in form's `Submit` calls the store's `Login` directly, because it needs the boolean it returns.

Two comparisons follow JavaScript's equality on optional values. First, login compares the
stored password with the one given, so an account stored without a password would match a
login that gives none. The sign-in form always sends a password, so this cannot happen from
the form. Second, the profile update matches accounts on the signed-in username, with the same
`===` semantics. The migration gives a username to a record whose username is missing or
empty, not only missing.

## Model

| member | source | states |
|---|---|---|
| `Seqs.FindFirst` | App.tsx:157 | The index found satisfies the predicate and no earlier element does; None exactly when no element satisfies it (the `find`/`findIndex` contract). |
| `Seqs.Filter` | App.tsx:225-229 | The result is an order-preserving subsequence of the input. Each element occurs in it as often as in the input if it satisfies the predicate, and not at all otherwise. |
| `Seqs.FilterAll` | App.tsx:225-229 | A filter whose predicate holds for every element returns the input unchanged. |
| `Strings.ToLower` | App.tsx:227 | Same length, and each character is lowered on its own, so no upper-case ASCII letter is left. |
| `Strings.Contains` | App.tsx:227 | `hay.includes(needle)` holds exactly when `needle` occurs in `hay` at some offset. |
| `Strings.Trim` | components/AuthModal.tsx:33 | `s.trim()` is a contiguous middle part of `s`. Only whitespace is cut away on either side, and a non-empty result neither starts nor ends with whitespace. |
| `Strings.IsBlank` | components/AddAddressModal.tsx:73 | `!s.trim()` holds exactly when every character of `s` is JavaScript whitespace. |
| `Strings.ParseInt` | components/ResellModal.tsx:29 | NaN (None) exactly when no digit follows the leading whitespace and one optional sign. A negative result comes only from a leading minus. |
| `Strings.ParseIntPrefix` | components/ResellModal.tsx:29 | `parseInt` reads the decimal rendering of any integer back, even with non-digit text after it (prefix semantics). |
| `Strings.ParseIntRoundTrip` | components/ResellModal.tsx:29 | `parseInt(String(n), 10) == n` for every integer `n`. |
| `App.Migrate` | App.tsx:43-48 | Length is kept. A record changes exactly when its username is missing or empty and its phone is non-empty, and then only its username changes, to the phone. No record needs migrating afterwards. The list is unchanged exactly when no record needed it. |
| `App.MigrateIdempotent` | App.tsx:43-48 | Migrating twice equals migrating once. |
| `App.LoadUsers` | App.tsx:33-60 | Missing, unreadable or empty storage gives exactly `[InitialUser]` and a write. Otherwise the list is the migrated records, written back exactly when some record needed migrating. The list is never empty. |
| `App.LoadSyncsStorage` | App.tsx:38-58 | After loading, the `spark-users` key holds exactly the in-memory account list, whichever branch was taken. |
| `App.LegacyRecordGetsPhoneAsUsername` | App.tsx:43-46 | A stored record with phone "9998887770" and no username loads with username "9998887770". |
| `App.LoginIndex` | App.tsx:157 | Finds an account exactly when one has an equal username and an equal password. The index found is such an account, and no earlier account is. |
| `App.MergeProfile` | App.tsx:176 | `{...current, ...incoming}`: every key of the incoming record wins. The optional username and password fall back to the current record when the incoming one lacks them. |
| `App.MergeIdempotent` | App.tsx:176 | Merging a record into itself is the identity, and re-applying the same edits changes nothing more. |
| `App.ReplaceByUsername` | App.tsx:178-180 | Length is kept. Each record whose username equals the key becomes the profile, and every other record is unchanged. |
| `App.ReplacePlacesProfile` | App.tsx:178-183 | If the signed-in user is in the list, the merged profile is in the list after the replacement (so the signed-in user stays an account). |
| `App.UpsertAccount` | App.tsx:185-205 | If some account has the profile's phone, the first one gets the new name and UPI id and keeps its id and phone; nothing else changes and the length is kept. Otherwise exactly one account is appended at the end. |
| `App.UpsertKeepsPhonesDistinct` | App.tsx:185-205 | If no two accounts share a phone before the upsert, none do after it. Afterwards some account carries the profile's phone, name and UPI id. |
| `App.UpsertIdempotent` | App.tsx:185-205 | Saving the same profile twice gives the same accounts as saving it once, whatever id the second call would use. |
| `App.MakeOrder` | App.tsx:118-125 | The order's shipping address is the request's address. Its product, price, type and margin are copied from the request (`RequestOf` recovers the request). Its id and date are the ones given. |
| `App.MakeProduct` | App.tsx:129-133 | The new listing has the given id, and all its other fields come from the form data. |
| `App.SearchProducts` | App.tsx:225-229 | Keeps products whose lower-cased name contains the lower-cased term. The result is an order-preserving subsequence with each product's multiplicity, and is no longer than the catalogue. |
| `App.SearchEmptyTerm` | App.tsx:225-229 | An empty search term returns the whole catalogue unchanged. |
| `App.App.FilteredProducts` | App.tsx:225-229 | The products shown are, in catalogue order, exactly the catalogue products whose name matches the current term; with an empty term, the whole catalogue. |
| `App.App.constructor` | App.tsx:25-92 | Initial state: accounts loaded as `LoadUsers` says and storage updated to match; nobody signed in; session marker as found; empty ledger; the two default saved accounts; every dialog closed. |
| `App.App.RestoreSession` | App.tsx:65-78 | A non-empty session marker signs in the first stored account with that username. Without such an account nothing changes. The store stays valid. |
| `App.App.Login` | App.tsx:156-165 | Returns true exactly when some account has an equal username and an equal password. On success the signed-in user is the first such account, the session marker is its username, and the sign-in dialog closes. On failure no state changes. |
| `App.App.Logout` | App.tsx:167-171 | Afterwards nobody is signed in, the marker is gone and the profile dialog is closed. The new state does not depend on the old one, so logging out twice equals logging out once. |
| `App.App.UpdateProfile` | App.tsx:173-208 | A no-op when nobody is signed in. Otherwise every account with the signed-in username becomes the merged profile and the others are unchanged. The length is kept, storage equals the new list, the signed-in user is the merged profile, and the saved accounts are upserted. Keeps the store's invariant. |
| `App.App.PlaceOrder` | App.tsx:118-127 | The ledger becomes the new order followed by the old ledger, unchanged and in order. |
| `App.App.AddProduct` | App.tsx:129-136 | The catalogue becomes the new listing followed by the old catalogue, and the listing form closes. |
| `App.App.CheckAdminPassword` | App.tsx:215-223 | Only "Cj@jaat11" clears the error, closes the prompt and opens the management panel. Any other input sets the retry message and changes nothing else. |
| `App.App.SetSearchTerm` | App.tsx:237 | The search box sets the term the catalogue is filtered by. |
| `AddAddressModal.IsValidPhone` | components/AddAddressModal.tsx:36 | The phone rule holds exactly when the string matches the anchored pattern "one of 6-9, then nine digits", read position by position. |
| `AddAddressModal.IsValidPinCode` | components/AddAddressModal.tsx:41 | The PIN rule holds exactly when the string matches the anchored pattern of six digits. |
| `AddAddressModal.ValidatorExamples` | components/AddAddressModal.tsx:35-43 | "9876543210" passes the phone rule, "1234567890" and "98765432" fail it. "560001" passes the PIN rule, "5600" and "56000A" fail it. |
| `AddAddressModal.ValidateField` | components/AddAddressModal.tsx:33-46 | Empty for any field other than `phone` and `pinCode`. For those two, empty exactly when the value follows the rule, and otherwise that field's fixed message. |
| `AddAddressModal.FieldOrderCoversAll` | components/AddAddressModal.tsx:70-72 | The submit loop visits every field of the address. |
| `AddAddressModal.WithValue` | components/AddAddressModal.tsx:53 | Setting one field gives it the new value and leaves every other field as it was. |
| `AddAddressModal.Humanize` | components/AddAddressModal.tsx:74 | The field name shown has no capital letters left. It is at least as long as the key and at most twice as long (one space per capital). |
| `AddAddressModal.HumanizeInverse` | components/AddAddressModal.tsx:74 | Removing the inserted spaces from the field name shown gives back the lower-cased key. |
| `AddAddressModal.HumanizeLowercase` | components/AddAddressModal.tsx:74 | A key with only lower-case letters ("name", "city") is shown as it is. |
| `AddAddressModal.HumanizePinCode` | components/AddAddressModal.tsx:74 | "pinCode" is shown as "pin code". |
| `AddAddressModal.HumanizeHouseNo` | components/AddAddressModal.tsx:74 | "houseNo" is shown as "house no". |
| `AddAddressModal.FindBlankField` | components/AddAddressModal.tsx:72-78 | Finds the first blank field in key order, or reports that no field is blank after trimming. |
| `AddAddressModal.AddressForm.constructor` | components/AddAddressModal.tsx:13-22 | The form starts with all seven fields empty and no errors. |
| `AddAddressModal.AddressForm.Close` | components/AddAddressModal.tsx:24-31 | Closing resets all seven fields to "" and clears the errors. |
| `AddAddressModal.AddressForm.InputChange` | components/AddAddressModal.tsx:48-57 | Only the named field changes. A change to `name` leaves the errors alone. Any other field also gets its error entry set to `validateField` of the new value. |
| `AddAddressModal.AddressForm.Submit` | components/AddAddressModal.tsx:59-80 | Format errors are shown exactly when the phone or the PIN breaks its rule; then both error entries are set and nothing is saved. Otherwise the alert is raised exactly when some field is blank, and it names the first blank field in key order. The address goes to `onSave`, unchanged, exactly when both rules hold and no field is blank. |
| `ResellModal.InitialMargin` | components/ResellModal.tsx:15 | The margin starts at 100 when reselling and 0 when buying. |
| `ResellModal.FinalPrice` | components/ResellModal.tsx:20-26 | Price plus margin when reselling; the price alone when buying, whatever the margin. |
| `ResellModal.ParseMargin` | components/ResellModal.tsx:28-31 | The margin is the `parseInt` value of the input, or 0 when that is NaN. |
| `ResellModal.MarginRoundTrip` | components/ResellModal.tsx:28-31 | Typing any integer, negative ones included, makes it the margin: there is no floor. |
| `ResellModal.MarginExamples` | components/ResellModal.tsx:28-31 | "", "abc" and "-" give 0. "25.7" gives 25, "-40" gives -40 and "1e3" gives 1. |
| `ResellModal.BuildRequest` | components/ResellModal.tsx:38-45 | The request carries the product, the address and the mode as its type. The margin is present exactly when reselling, and the price follows the price rule. |
| `ResellModal.RecordedOrderPricing` | components/ResellModal.tsx:38-45 | The store records a well-priced request as follows: a purchase costs the product price and has no margin; a resale costs the product price plus its margin. |
| `ResellModal.Checkout.constructor` | components/ResellModal.tsx:14-26 | The dialog opens with the initial margin, the price rule applied, no address and the address form closed. |
| `ResellModal.Checkout.MarginChange` | components/ResellModal.tsx:28-31 | The margin becomes the parsed input and the shown price follows the price rule again. |
| `ResellModal.Checkout.OpenAddressForm` | components/ResellModal.tsx:116-120 | Either address button opens the address form. |
| `ResellModal.Checkout.SaveAddress` | components/ResellModal.tsx:48-51 | The address is kept and the address form closes. |
| `ResellModal.Checkout.PlaceOrderClick` | components/ResellModal.tsx:33-46 | Without an address the alert "Please enter your address" is raised, nothing is sent and the dialog stays open. With one, `BuildRequest`'s request, at the shown price, goes to `onPlaceOrder` and the dialog closes. |
| `ProductDetailModal.NextIndex` | components/ProductDetailModal.tsx:21 | From any index, even one past the end, the next index is in `[0, n)`. From an index in range it is one more, or 0 after the last image. |
| `ProductDetailModal.PrevIndex` | components/ProductDetailModal.tsx:25 | From any index, even one past the end, the previous index is in `[0, n)`. From an index in range it is one less, or the last image before the first. |
| `ProductDetailModal.StepsAreInverse` | components/ProductDetailModal.tsx:20-26 | "next" then "prev", or "prev" then "next", returns to the starting index. |
| `ProductDetailModal.StepForward` | components/ProductDetailModal.tsx:21 | Pressing "next" any number of times keeps the index in range. |
| `ProductDetailModal.FullCycle` | components/ProductDetailModal.tsx:21 | Pressing "next" n times returns to the starting index. |
| `ProductDetailModal.RelatedProducts` | components/ProductDetailModal.tsx:28-30 | Never contains the viewed product's id and has at most 6 entries. It keeps catalogue order and is the first min(6, k) of the k other products. |
| `ProductDetailModal.ShownImage` | components/ProductDetailModal.tsx:42 | The carousel shows image `i` of the product exactly when `i` is below the number of images; past the end it shows nothing (`undefined`). |
| `ProductDetailModal.ClickImage` | components/ProductDetailModal.tsx:46-58 | An arrow or a dot never changes the product. Without arrows and dots (one image or none) a click changes nothing. With them, the index afterwards names an image, or nothing changed. |
| `ProductDetailModal.StepAsWritten` | App.tsx:94-96 | A related-product click swaps the product and keeps the index, because the dialog is not remounted. Any other click is `ClickImage`. |
| `ProductDetailModal.StepKeyed` | App.tsx:262-271 | The corrected step: a related-product click shows the new product from its first image. Any other click is `ClickImage`. |
| `ProductDetailModal.StaleIndexAfterRelatedClick` | components/ProductDetailModal.tsx:18-22 | As written, two "next" presses on a three-image product followed by a click on a one-image product leave index 2 on that product. The index is out of range, no image is shown, and the product has no arrows or dots to recover with. |
| `ProductDetailModal.KeyedKeepsIndexInRange` | components/ProductDetailModal.tsx:18-26 | With the reset, any sequence of clicks keeps the index naming an image (or 0). |
| `ProductDetailModal.KeyedAlwaysShowsImage` | components/ProductDetailModal.tsx:42 | With the reset, whatever was clicked, a product that has images shows one. |
| `ProductDetailModal.DetailView.constructor` | components/ProductDetailModal.tsx:18 | The carousel starts at image 0. |
| `ProductDetailModal.DetailView.NextImage` | components/ProductDetailModal.tsx:20-22 | From any index, including one left over from a previous product, the index moves by `NextIndex` and lands in range. With arrows shown, this is `StepAsWritten` for "next". |
| `ProductDetailModal.DetailView.PrevImage` | components/ProductDetailModal.tsx:24-26 | From any index the index moves by `PrevIndex` and lands in range. With arrows shown, this is `StepAsWritten` for "prev". |
| `ProductDetailModal.DetailView.SelectImage` | components/ProductDetailModal.tsx:56 | A dot selects its own image. |
| `ProductDetailModal.DetailView.ViewProduct` | App.tsx:94-96 | A related card opened in the dialog replaces the product and keeps `currentImageIndex`, as `StepAsWritten` says. |
| `ProductDetailModal.DetailView.ViewProductKeyed` | App.tsx:262-271 | The corrected product change: the new product is shown from image 0, so the index is in range, as `StepKeyed` says. |
| `ProductDetailModal.DetailView.Related` | components/ProductDetailModal.tsx:28-30 | The strip for the product on show: at most 6 catalogue products, none with that product's id. |
| `AuthModal.CanSubmit` | components/AuthModal.tsx:33 | The form submits exactly when the username has a non-whitespace character and the password is non-empty. |
| `AuthModal.LoginForm.constructor` | components/AuthModal.tsx:13-16 | Starts with empty username, password and error, and the password hidden. |
| `AuthModal.LoginForm.Close` | components/AuthModal.tsx:18-28 | Closing resets the username, password, error and show-password flag. |
| `AuthModal.LoginForm.SetUsername` | components/AuthModal.tsx:59 | The username input sets the username. |
| `AuthModal.LoginForm.SetPassword` | components/AuthModal.tsx:65 | The password input sets the password. |
| `AuthModal.LoginForm.ToggleShowPassword` | components/AuthModal.tsx:66 | The eye button flips whether the password is shown. |
| `AuthModal.LoginForm.Submit` | components/AuthModal.tsx:30-41 | A blank username or empty password shows "Please enter username and password." and leaves the store untouched. Otherwise the untrimmed username and the password go to the store's login. Success leaves the error "", signs in the first matching account, makes the session marker that username and closes the sign-in dialog. Failure shows "Invalid username or password." and leaves the store untouched. The old error never survives. |
| `ProfileModal.WithField` | components/ProfileModal.tsx:26-29 | An input change sets only its own field (name or UPI id). Username, phone, picture and password are untouched. |
| `ProfileModal.SaveMerge` | components/ProfileModal.tsx:44-47 | Only the picture may change. A non-empty preview replaces it, and otherwise the draft is returned as it is. |
| `ProfileModal.EditsKeepIdentity` | components/ProfileModal.tsx:85-93 | No sequence of edits in the editable inputs changes username, phone or password (phone is read-only). |
| `ProfileModal.SavedProfileKeepsIdentity` | components/ProfileModal.tsx:42-48 | Whatever edits and picture are chosen, the profile the store keeps after saving has the account's username, phone and password. So the session marker and the saved-account key remain valid. |
| `ProfileModal.ProfileEditor.constructor` | components/ProfileModal.tsx:15-16 | The draft starts as the account and there is no preview. |
| `ProfileModal.ProfileEditor.Open` | components/ProfileModal.tsx:19-24 | Opening resets the draft to the incoming profile and clears the preview. |
| `ProfileModal.ProfileEditor.InputChange` | components/ProfileModal.tsx:26-29 | Only the named field of the draft changes. |
| `ProfileModal.ProfileEditor.ImageLoaded` | components/ProfileModal.tsx:36 | A picture that has been read becomes the preview. |
| `ProfileModal.ProfileEditor.Save` | components/ProfileModal.tsx:42-49 | Sends the draft with the picture taken from the preview when that is non-empty, and from the draft otherwise. Name, UPI id and phone are unchanged. |
| `AddProductModal.CanSubmit` | components/AddProductModal.tsx:47 | The listing is submitted exactly when the name and the description each have a non-whitespace character, the price text is non-empty, and there is a non-empty image. |
| `AddProductModal.ListingForm.constructor` | components/AddProductModal.tsx:13-16 | The form starts empty with no image. |
| `AddProductModal.ListingForm.Close` | components/AddProductModal.tsx:19-31 | Closing resets name, description, price and the preview. |
| `AddProductModal.ListingForm.SetName` | components/AddProductModal.tsx:100 | The name input sets the name. |
| `AddProductModal.ListingForm.SetDescription` | components/AddProductModal.tsx:105 | The description input sets the description. |
| `AddProductModal.ListingForm.SetPrice` | components/AddProductModal.tsx:114 | The price input sets the price text. |
| `AddProductModal.ListingForm.ImageLoaded` | components/AddProductModal.tsx:39 | An image that has been read becomes the preview. |
| `AddProductModal.ListingForm.Submit` | components/AddProductModal.tsx:45-57 | Rejected with the fixed alert exactly when the trimmed name or trimmed description is empty, the price is empty, or there is no image. Otherwise name and description go out untrimmed, and the image list is exactly the one-element list of the preview. |

## Findings

| source | as written | input that shows it | evidently intended | confidence | as-written member | corrected member |
|---|---|---|---|---|---|---|
| App.tsx:262-271 | The detail dialog is rendered without a `key`, so a click on a related product only swaps the `product` prop and `currentImageIndex` (components/ProductDetailModal.tsx:18) keeps its value. | A product with 3 images, "next" pressed twice (index 2), then a click on a related product with 1 image (every listing added through the form has exactly one). Index 2 is past the end, `imageUrls[2]` is `undefined`, and with one image there are no arrows or dots to recover with. | A newly opened product is shown from its first image, as `key={viewingProduct.id}` on the dialog would do. | not executed | `ProductDetailModal.StaleIndexAfterRelatedClick` | `ProductDetailModal.KeyedKeepsIndexInRange` |

## Left out

- Rendering, styling, icons and the dialogs that only display data or forward callbacks: `Header`, `OrdersModal`, `BankDetailModal`, `ManagementModal`, `PasswordPromptModal`, `ProductCard` (its share button is the browser Share API) and `CartSidebar` (not used by the app). The open/close flags that only show a dialog (`handleOpenBuyModal`, `handleProfileClick` and the like) are left out for the same reason. `handleProductClick` opens the detail view; inside an open detail view it swaps the product, which `ProductDetailModal.DetailView.ViewProduct` models.
- Browser storage and JSON: the two keys are fields of the store. A value that does not parse, or that parses to something other than an array, is the abstract `Unreadable`. The real `JSON.stringify` comparison before the migration write is modelled as "some record changed", which is what it detects.
- `App.Migrate`: a stored record without a `phone` key is modelled with phone "", which the migration treats the same way (both are falsy). Elsewhere a missing phone and an empty phone are not told apart.
- `Date.now()` and `new Date().toISOString()`: ids and timestamps are parameters.
- `FileReader`: reading a chosen picture is asynchronous. Only the state write its callback makes is modelled (`ImageLoaded`); the file-input reset after closing the listing form is left out too.
- `AddProductModal.ListingForm.Submit`: `parseFloat(price)` is floating point. The numeric price is a parameter, and prices are whole rupees throughout.
- `Strings.ParseInt`: JavaScript numbers are doubles, so very large inputs lose precision in `parseInt`. The model reads them exactly.
- `Strings.ToLower`: `toLowerCase` is full Unicode. The model lowers ASCII letters only, which affects the search on non-ASCII names.
- `ResellModal.Checkout.constructor`: before the final-price effect first runs, the dialog shows a price of 0 for one render. The model starts with the effect already applied.
- `ProductDetailModal.DetailView.NextImage`: with no images JavaScript's `% 0` gives NaN. The arrows are only rendered for two or more images, so the model requires at least one (the same holds for `PrevImage`).
- `alert` and `console.error` are returned values or dropped; the login `setTimeout` reset runs at once.
