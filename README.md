# Product dashboard client: a verified model

This project is a Dafny model of the client logic of a small React product
dashboard. It proves properties of that logic.

- **Sign-in.** The six-cell one-time-code page (`Otp`) and the registration
  page (`Register`).
- **Routing.** The route table with its two guards, `PublicRoute` and
  `ProtectedRoute` (`Routing`).
- **Uploads.** The item service's `prepareData`, which sends an item as JSON
  or, when it holds a picked file, as ordered multipart entries
  (`ItemService`).
- **Product modals.** The shared product form, its six validation rules and
  its payload (`ProductForm`), plus the add and edit modals (`AddProduct`,
  `EditProduct`). The edit modal mixes stored image URLs with `blob:`
  previews of new files.
- **Item pages.** The item form (`ItemForm`) and the create- and edit-item
  pages (`CreateItem`, `EditItem`).
- **Lists.** The product list with its search, its modals and its publish
  toggle (`Products`), the dashboard's published/unpublished tabs
  (`Dashboard`), and the product card's ownership rule and image dots
  (`ProductCard`).
- **Shared values.** `Base` holds the JavaScript helpers used everywhere:
  `||` on strings, `trim`, `toLowerCase`, `includes`, `join` and `filter`.
  `Session` holds the signed-in user and the login response. `Catalog`
  holds the stored product record and the status toggle.

Modelling conventions:

- **Service calls** are parameters. Each is a `Reply<T>`: either
  `Resolved(value)` or `Rejected(Thrown(message, errors))`. A missing or
  empty `message` is `""`, because both are falsy.
- **Number inputs** are `Option<int>`, where `None` is the empty input.
  `parseInt`/`parseFloat` of the empty input is `NaN`.
- **Handlers that change component state** are methods of one class per
  component. Each is tied to a pure function that specifies it.
- **Records** (`Object.keys` order) are sequences of (key, value) pairs.
- **Paths** are segment sequences; `/` is `[]` and `/products/` is
  `["products", ""]`. The router reads a path without its trailing slashes
  and without regard to case; `hideNavbar` compares the raw pathname.

A few facts about the code that shape the model:

- The OTP cells accept any single character, not only digits.
- A submit is refused when the joined code is not 6 characters long. With
  cells of at most one character, that means any empty cell.
- There is no single-flight guard besides the `loading` flag.
- The session store is reached only through `login(user, token)`, and its
  own state is not modelled.

## Model

| member | source | states |
|---|---|---|
| Routing.PublicRoute | src/App.js:19-31 | loading shows the loading view; a signed-in user is redirected to "/"; anyone else sees the page |
| Routing.ProtectedRoute | src/components/Auth/ProtectedRoute.js:6-18 | loading shows the loading view; a signed-out user is redirected to "/login"; once loaded it renders exactly when PublicRoute would not |
| Routing.Matches | src/App.js:47-100 | a `<Route path>` pattern against a normalised path: same length, literal segments equal, `:param` segments anything |
| Routing.Lookup | src/App.js:47-103 | the route the router picks, a matching row of best rank or nothing for `*` |
| Routing.Trimmed | src/App.js:47-103 | trailing empty segments (trailing slashes) dropped, nothing else: a prefix of the path that ends in a non-empty segment |
| Routing.Normal | src/App.js:47-103 | the router's reading of a pathname: trailing slashes ignored, each segment lower-cased |
| Routing.CanonicalNormal | src/App.js:47-103 | a path is its own normal form exactly when it is lower case without a trailing slash |
| Routing.NormalIdempotent | src/App.js:47-103 | normalising twice is normalising once |
| Routing.LowerCaseCanonical | src/App.js:47-103 | a lower-case path without a trailing slash is read as is |
| Routing.ShowNormal | src/App.js:47-103 | case and trailing slashes never change what is shown |
| Routing.MatchesAt | src/App.js:47-103 | a matching pattern has the path's length and equals it on every literal segment |
| Routing.LookupChoosesBestMatch | src/App.js:47-103 | the router finds a row iff some row matches; the row found matches and no matching row ranks higher |
| Routing.Show | src/App.js:47-103 | the path is matched case-insensitively and without its trailing slashes; an unmatched path goes to "/login" at once, even while loading; a matched one shows loading while the session loads |
| Routing.LookupBest | src/App.js:47-103 | a matching row that outranks every other matching row is the one chosen |
| Routing.LookupOnly | src/App.js:47-103 | when exactly one row matches, that row is chosen |
| Routing.PublicOnlyPaths | src/App.js:49-63 | "/login", "/otp" and "/register" are public-only and show Login, OTP and Register |
| Routing.LandingPath | src/App.js:66-70 | "/" is the protected dashboard |
| Routing.ProtectedPaths | src/App.js:71-100 | "/products", "/items" and "/users" are protected |
| Routing.ItemDetailPath | src/App.js:81-85 | "/items/:id" is the protected item page for every id except "create" |
| Routing.CreateItemPath | src/App.js:81-90 | "/items/create" matches both item rows, and the static row wins |
| Routing.EditItemPath | src/App.js:91-95 | "/items/:id/edit" is the protected edit page for every id |
| Routing.MatchingRowsAgreeOnGuard | src/App.js:47-100 | all rows matching one path carry the same guard |
| Routing.LoginShows | src/App.js:49-53 | once loaded, "/login" shows the login page to a signed-out user and sends a signed-in one to "/" |
| Routing.LandingShows | src/App.js:66-70 | once loaded, "/" shows the dashboard to a signed-in user and sends a signed-out one to "/login" |
| Routing.OneRedirectAway | src/App.js:19-103 | after loading, a path renders, or redirects to "/login", or (signed in only) to "/" |
| Routing.NoRedirectLoop | src/App.js:19-103 | after loading, at most two redirects from any path reach a rendered page |
| Routing.HideNavbar | src/App.js:36-41 | the five exact pathnames "/login", "/otp", "/register", "/" and "/products" |
| Routing.HideNavbarPages | src/App.js:36-41 | the navbar is hidden exactly on the canonical (lower case, no trailing slash) paths of the Login, OTP, Register, Dashboard and Products routes |
| Routing.ProductsShows | src/App.js:71-75 | once loaded, "/products" shows Products to a signed-in user and sends a signed-out one to "/login" |
| Routing.CapitalisedLogin | src/App.js:49-53 | "/Login" is the login route, so it waits for the session like "/login" |
| Routing.ProductsSpelling | src/App.js:36-41 | any other spelling of "/products" (case, trailing slashes) shows Products with the navbar |
| Routing.CapitalisedProducts | src/App.js:36-41 | "/Products" shows Products with the navbar, which "/products" hides |
| Routing.SlashedProducts | src/App.js:36-41 | "/products/" shows Products with the navbar, which "/products" hides |
| Base.Or | src/pages/OTP.js:91 | `s \|\| fallback` is s or the fallback, and non-empty when either is |
| Base.ErrorText | src/components/Products/AddProductModal.js:108-113 | the `msg`s of an `errors` array joined with ", " when one came back (a single `msg` alone); otherwise the message, or else the fallback, never empty when the fallback is not |
| Base.OrEmpty | src/components/Products/EditProductModal.js:26-28 | `n \|\| ''` keeps a number exactly when it is present and not 0 |
| Base.Trim | src/components/Products/AddProductModal.js:64 | `trim` gives a slice of the input, empty iff the input is all white space, with no white space at either end |
| Base.TrimsToEmpty | src/components/Products/AddProductModal.js:64 | `!s.trim()` holds iff every character is white space |
| Base.LowerTwice | src/pages/Products.js:109 | lower-casing is idempotent |
| Base.RemoveAt | src/components/Products/AddProductModal.js:52-53 | `filter((_, i) => i !== index)` drops exactly that position and keeps the order of the rest |
| Base.JoinWithAppend | src/components/Products/AddProductModal.js:109 | joining one more part appends one separator and that part |
| Base.ConcatFull | src/pages/OTP.js:72-74 | single-character cells join to 6 characters iff no cell is empty |
| Base.FilterMembers | src/pages/Products.js:107 | a filter keeps exactly the elements that satisfy its predicate |
| Base.FilterAllOrNone | src/services/itemService.js:9-22 | a filter keeps everything when all elements pass, and nothing when none does |
| Base.FilterConcat | src/pages/Dashboard.js:26-32 | filtering distributes over concatenation, so order is kept |
| Otp.Submit | src/pages/OTP.js:70-95 | a code with an empty cell is refused locally; otherwise exactly one login request with the email and the 6-character code is sent. Acceptance hands `data` to `login` and goes to "/"; a resolved but unaccepted reply shows 'Invalid OTP. Please try again.', and a thrown reply shows its message or else 'Please enter a valid OTP' |
| Otp.Pasted | src/pages/OTP.js:59-66 | the first six pasted characters overwrite the first cells, one character each; the other cells keep their values |
| Otp.PasteFillsCode | src/pages/OTP.js:56-68 | pasting 6 or more characters fills every cell, and the next code sent is the first 6 pasted characters |
| Otp.ConcatSingles | src/pages/OTP.js:72 | cells holding one character each join to the string of those characters |
| Otp.PasteAsWritten | src/pages/OTP.js:58 | reading `e.clipboard` fails for every event the browser dispatches |
| Otp.PasteCorrected | src/pages/OTP.js:56-68 | the paste read from `clipboardData` keeps six cells |
| Otp.PasteAsWrittenDropsCode | src/pages/OTP.js:56-68 | as written, a real paste pastes nothing; corrected, it makes the next submit send the pasted code |
| Otp.Tick | src/pages/OTP.js:25-34 | one second of the resend countdown: down by one while positive, and 0 stays 0 |
| Otp.TicksCount | src/pages/OTP.js:25-34 | after k ticks the countdown reads t-k, or 0 once k reaches t, and reaches 0 exactly then |
| Otp.OtpPage.constructor | src/pages/OTP.js:11-17 | six empty cells, the email from the navigation state or "", a 20-second countdown, resend unavailable |
| Otp.OtpPage.MissingEmailRedirect | src/pages/OTP.js:19-23 | without an email the page sends the user to "/login" |
| Otp.OtpPage.HandleChange | src/pages/OTP.js:36-48 | a value longer than one character changes nothing; otherwise only that cell changes, the error clears, and a non-empty value moves focus forward |
| Otp.OtpPage.HandleKeyDown | src/pages/OTP.js:50-54 | Backspace on an empty cell other than the first moves focus back; the cells never change |
| Otp.OtpPage.HandlePaste | src/pages/OTP.js:56-68 | the cells become PasteCorrected of the old cells, and focus goes to the last filled cell |
| Otp.OtpPage.HandleSubmit | src/pages/OTP.js:70-95 | request, login, navigation and error are exactly those of Submit on the current cells |
| Otp.OtpPage.JoinCells | src/pages/OTP.js:72 | `otp.join('')` is the concatenation of the cells |
| Otp.OtpPage.OnTick | src/pages/OTP.js:25-34 | the countdown drops by one while positive, and resend is available exactly at 0 |
| Otp.OtpPage.HandleResend | src/pages/OTP.js:97-109 | no call while the countdown runs; success clears the cells and restarts at 20; failure only sets the error, keeping the countdown |
| ItemService.FileImages | src/components/Products/AddProductModal.js:98 | picked files become images, one per file, in order |
| ItemService.Get | src/services/itemService.js:5-19 | `itemData[key]`: the value of the first field with that key, `undefined` when there is none |
| ItemService.HasFiles | src/services/itemService.js:5 | `itemData.images && itemData.images.some(img => img instanceof File)` |
| ItemService.GetAt | src/services/itemService.js:5 | `record[key]` is the value of the first field with that key |
| ItemService.GetAbsent | src/services/itemService.js:5 | `record[key]` is undefined when no field has that key |
| ItemService.HasFilesAt | src/services/itemService.js:5 | `hasFiles` is decided by the `images` field alone: a list holding a File |
| ItemService.PrepareData | src/services/itemService.js:4-26 | without files the record itself is sent; with files, the form entries of every field in key order with the multipart header |
| ItemService.FormEntries | src/services/itemService.js:9-22 | the `FormData` entries of a record: one per image under `images`, one per other field that is not null or undefined, in key order |
| ItemService.FormEntriesConcat | src/services/itemService.js:9-22 | the entries of consecutive fields follow each other, so key order is kept |
| ItemService.NoFieldNoEntries | src/services/itemService.js:9-22 | no entry appears under a key that no field has |
| ItemService.FilterAround | src/services/itemService.js:9-22 | fields with other keys around one field add nothing under its key |
| ItemService.FieldEntriesKeyed | src/services/itemService.js:10-21 | a field's entries all sit under its own key |
| ItemService.EntriesOfField | src/services/itemService.js:9-22 | the entries under one key are exactly what that key's field contributes |
| ItemService.ImagesInOrder | src/services/itemService.js:10-18 | `images` gives one entry per image, in order, File or URL alike |
| ItemService.OtherFieldOnce | src/services/itemService.js:19-21 | any other key gives one entry with its value, or none when the value is null or undefined |
| ProductForm.ValueOf | src/components/Products/AddProductModal.js:6-16 | stock and prices are number inputs; the other fields are text |
| ProductForm.With | src/components/Products/AddProductModal.js:21-26 | `handleChange` sets the named field and leaves every other field and the images alone |
| ProductForm.ClearOnChange | src/components/Products/AddProductModal.js:27-33 | only the edited field's error is blanked; the other errors and the set of keys stay |
| ProductForm.Fails | src/components/Products/AddProductModal.js:64-81 | the condition of each field's rule: a blank name or brand, no type, a missing or non-positive number |
| ProductForm.Validate | src/components/Products/AddProductModal.js:61-85 | the errors hold exactly the failing fields, each with its message, and the form is accepted iff none fails |
| ProductForm.Rule | src/components/Products/AddProductModal.js:64-81 | one rule of `validate` run in its turn leaves the errors holding exactly the failing fields checked so far |
| ProductForm.Complete | src/components/Products/AddProductModal.js:83-84 | after the six rules the errors are empty iff the form passes |
| ProductForm.Advance | src/components/Products/AddProductModal.js:64-81 | each rule adds its own field exactly when it fails |
| ProductForm.Payload | src/components/Products/AddProductModal.js:96-103 | the form spread with the parsed numbers, the given images and status, for a form that passed validation |
| ProductForm.PayloadShape | src/components/Products/AddProductModal.js:96-103 | the payload has distinct keys, the given images, the form's numbers and the given status, and is multipart iff an image is a File |
| AddProduct.Capped | src/components/Products/AddProductModal.js:38 | `slice(0, 10)` keeps the first ten files, or all of them |
| AddProduct.CreatePayload | src/components/Products/AddProductModal.js:96-103 | the create payload: the picked files as images and status 'unpublished' |
| AddProduct.CreatePayloadShape | src/components/Products/AddProductModal.js:96-103 | a created product is always 'unpublished', carries the picked files in order, and is multipart iff a file was picked |
| AddProduct.AddProductModal.constructor | src/components/Products/AddProductModal.js:6-19 | the initial form, no errors, no files |
| AddProduct.AddProductModal.HandleChange | src/components/Products/AddProductModal.js:21-34 | only the named field changes, and only its error is blanked |
| AddProduct.AddProductModal.HandleImageChange | src/components/Products/AddProductModal.js:36-47 | the files become (old ++ new) cut to ten, with one preview per kept file |
| AddProduct.AddProductModal.RemoveImage | src/components/Products/AddProductModal.js:49-59 | the same position leaves both lists, which stay equally long |
| AddProduct.AddProductModal.HandleSubmit | src/components/Products/AddProductModal.js:87-117 | an invalid form sends nothing and its errors are exactly the failing fields with their messages, no stale submit error; a valid one is sent once through prepareData; success is reported, and a failure shows ErrorText with 'Failed to create product' |
| EditProduct.FromProduct | src/components/Products/EditProductModal.js:21-33 | the product's name, type, brand, description and images copied; a number kept, with its stored value, iff present and not 0; exchange eligibility kept when set, and never empty |
| EditProduct.LoadedFormValid | src/components/Products/EditProductModal.js:24-31 | the loaded form passes the six rules iff the product does, so a 0 that becomes '' is still rejected |
| EditProduct.Pair | src/components/Products/EditProductModal.js:58-61 | one entry per file, with its preview |
| EditProduct.FindFile | src/components/Products/EditProductModal.js:124-125 | `find` gives the file of the first entry showing the URL, or nothing when no entry shows it |
| EditProduct.ResolveOne | src/components/Products/EditProductModal.js:122-128 | a `blob:` URL becomes its picked file, or is dropped when none was picked for it; any other URL is kept |
| EditProduct.Resolve | src/components/Products/EditProductModal.js:122-128 | `finalImages` never has more elements than `images` |
| EditProduct.ResolveKeepsStoredUrls | src/components/Products/EditProductModal.js:122-128 | the URLs sent are exactly the stored (non-blob, non-empty) URLs, in order |
| EditProduct.UrlsConcat | src/components/Products/EditProductModal.js:122-128 | the URLs of two image runs follow each other |
| EditProduct.ResolveStoredOnly | src/components/Products/EditProductModal.js:122-128 | a list of stored URLs only is sent unchanged |
| EditProduct.ResolveAppend | src/components/Products/EditProductModal.js:56-68 | adding files with fresh previews appends exactly those files, in order, to what is sent |
| EditProduct.ResolveConcat | src/components/Products/EditProductModal.js:122-128 | resolution works element by element, keeping order |
| EditProduct.ResolveUnaffected | src/components/Products/EditProductModal.js:124 | entries whose previews no image shows change nothing |
| EditProduct.FindFirst | src/components/Products/EditProductModal.js:124 | `find` returns the first entry showing the URL |
| EditProduct.ResolveFresh | src/components/Products/EditProductModal.js:122-128 | each fresh preview resolves to its own file |
| EditProduct.EditProductModal.constructor | src/components/Products/EditProductModal.js:21-37 | mounting loads the product's form and forgets picked files |
| EditProduct.EditProductModal.Load | src/components/Products/EditProductModal.js:21-37 | a new product replaces the form and empties the picked files; errors stay |
| EditProduct.EditProductModal.HandleChange | src/components/Products/EditProductModal.js:39-51 | only the named field changes, and only its error is blanked |
| EditProduct.EditProductModal.HandleImageChange | src/components/Products/EditProductModal.js:56-72 | files and previews are appended to both lists, in order, with no cap |
| EditProduct.EditProductModal.RemoveImageFixed | src/components/Products/EditProductModal.js:75-84 | exactly that position leaves the images; the files showing it are dropped only when it is a blob URL |
| EditProduct.EditProductModal.HandleSubmit | src/components/Products/EditProductModal.js:112-150 | an invalid form sends nothing and its errors are exactly the failing fields with their messages, no stale submit error; a valid one is sent once to this product with its images resolved; a failure shows ErrorText with 'Failed to update product' |
| Register.WithField | src/pages/Register.js:22-28 | only the named field changes |
| Register.Rejects | src/pages/Register.js:35-63 | the condition of each check: blank name, name over 100 characters, email failing the pattern, password under 6 characters, passwords differing |
| Register.FirstRejecting | src/pages/Register.js:35-63 | the check reported is the first in order that rejects the form, and there is none iff no check rejects it |
| Register.CheckOrder | src/pages/Register.js:35-63 | name blank, then name over 100, then email, then password under 6, then mismatch, in that order |
| Register.RejectionView | src/pages/Register.js:74-87 | field messages joined with ", " when sent; the "already registered" notice iff the message mentions an existing account; otherwise the message, or else 'Registration failed. Please try again.' |
| Register.RegisterPage.constructor | src/pages/Register.js:13-20 | an empty form, not loading, no error |
| Register.RegisterPage.HandleChange | src/pages/Register.js:22-28 | the form becomes WithField of the old form |
| Register.RegisterPage.HandleSubmit | src/pages/Register.js:30-91 | the first failing check is shown and nothing is sent; otherwise the form without its confirmation is sent once; an accepted reply signs in and goes to "/"; loading always ends down |
| ItemForm.ValueOf | src/pages/CreateItem.js:14-26 | stock and prices are number inputs; the other fields are text |
| ItemForm.With | src/pages/CreateItem.js:28-34 | `handleChange` sets the named field and leaves every other field alone |
| ItemForm.ImagesOf | src/pages/CreateItem.js:60 | the images sent are the URL typed in, or none when it is empty |
| ItemForm.Parsed | src/pages/CreateItem.js:52-54 | an empty number input parses to NaN, a present one to its value |
| CreateItem.Missing | src/pages/CreateItem.js:43-44 | `requiredFields.filter(field => !formData[field])` |
| CreateItem.MissingExactly | src/pages/CreateItem.js:43-44 | a field is missing iff it is required and empty; nothing is missing iff every required field is filled |
| CreateItem.Keys | src/pages/CreateItem.js:43 | the keys of the fields, in order |
| CreateItem.MissingSpelled | src/pages/CreateItem.js:43-44 | the missing fields in the order productName, productType, sellingPrice, mrp, quantityStock, brandName |
| CreateItem.ItemData | src/pages/CreateItem.js:49-61 | the create payload built from the form, numbers parsed, the URL input as the image list |
| CreateItem.ItemDataShape | src/pages/CreateItem.js:49-61 | the record has distinct keys, copies the text fields, has no `imageInput`, holds at most the typed URL, and always goes out as JSON |
| CreateItem.MissingErrorAsWritten | src/pages/CreateItem.js:44-47 | as written: a missing field shows the caught error's message or else 'Failed to create item', never the field names |
| CreateItem.MissingErrorCorrected | src/pages/CreateItem.js:44-47 | an error is raised iff a required field is missing |
| CreateItem.MissingFieldsNotReported | src/pages/CreateItem.js:46 | two forms missing different fields show the same error as written, but different messages once corrected |
| CreateItem.OneMissing | src/pages/CreateItem.js:46 | with one field missing, the message names its key |
| CreateItem.CreateItemPage.constructor | src/pages/CreateItem.js:12-26 | the initial form, not loading, no error |
| CreateItem.CreateItemPage.HandleChange | src/pages/CreateItem.js:28-34 | the form becomes With of the old form |
| CreateItem.CreateItemPage.AddItem | src/pages/CreateItem.js:36-70 | with a field missing nothing is sent and the missing fields are named; otherwise the record goes out once as JSON; success goes to "/products" and a failure shows the message or 'Failed to create item' |
| EditItem.FromItem | src/pages/EditItem.js:41-53 | name, type, brand and description copied; the URL input is the first stored image or ""; status and exchange eligibility kept when set and never empty; a number is kept, with its stored value, iff present and not 0 |
| EditItem.UpdateData | src/pages/EditItem.js:75-82 | the form spread (`imageInput` included), numbers parsed, the URL input as the image list appended |
| EditItem.UpdateDataShape | src/pages/EditItem.js:75-82 | the update has distinct keys, still carries `imageInput` beside the list made from it, has the parsed numbers, and always goes out as JSON |
| EditItem.SaveUntouched | src/pages/EditItem.js:41-82 | saving a loaded item untouched keeps at most its first image, turns a stored 0 into NaN and a missing status into 'unpublished' |
| EditItem.EditItemPage.constructor | src/pages/EditItem.js:12-28 | the page opens loading, on the initial form |
| EditItem.EditItemPage.FetchItem | src/pages/EditItem.js:34-59 | a loaded item replaces the form; a failure keeps it and shows the message or 'Failed to fetch item'; loading ends either way |
| EditItem.EditItemPage.HandleChange | src/pages/EditItem.js:61-67 | the form becomes With of the old form |
| EditItem.EditItemPage.HandleSubmit | src/pages/EditItem.js:69-91 | the update goes out once, unchecked, as JSON under the page's id; success goes to "/products" and a failure shows the message or 'Failed to update item' |
| Catalog.Toggled | src/pages/Products.js:97 | the new status is 'unpublished' iff the old one is 'published', and 'published' otherwise |
| Catalog.ToggleTwice | src/pages/Products.js:97 | on the two known statuses, toggling twice restores the status |
| Catalog.ToggleToast | src/pages/Products.js:99 | 'Product Published Successfully' for the status 'published', 'Product Unpublished Successfully' for any other |
| Products.MatchesSearch | src/pages/Products.js:110-114 | the lower-cased name, brand or type contains the lower-cased term |
| Products.FilteredProducts | src/pages/Products.js:107-115 | every product for an empty term, otherwise those matching it, in order |
| Products.SearchExactly | src/pages/Products.js:107-115 | a product is listed iff it is loaded and the term is empty or matches its name, brand or type; an empty term lists everything as loaded |
| Products.SearchKeepsOrder | src/pages/Products.js:107-115 | the search keeps the products' order |
| Products.SearchIgnoresCase | src/pages/Products.js:109 | the case of the term does not matter |
| Products.MissingFieldsNeverMatch | src/pages/Products.js:110-114 | a product with no name, brand or type is listed only while the term is empty |
| Products.ProductsPage.constructor | src/pages/Products.js:17-23 | no products, loading, no error, no modal open, an empty term |
| Products.ProductsPage.FetchProducts | src/pages/Products.js:29-42 | the loaded list replaces the old one; a failure keeps it and shows the message or 'Failed to fetch products' |
| Products.ProductsPage.HandleAddProduct | src/pages/Products.js:44-46 | opens the add modal |
| Products.ProductsPage.HandleCloseAddModal | src/pages/Products.js:48-50 | closes the add modal and nothing else |
| Products.ProductsPage.HandleProductAdded | src/pages/Products.js:52-56 | a successful add closes its modal, toasts and reloads |
| Products.ProductsPage.HandleEditProduct | src/pages/Products.js:58-60 | opens the edit modal on that product |
| Products.ProductsPage.HandleCloseEditModal | src/pages/Products.js:62-64 | closes the edit modal and nothing else |
| Products.ProductsPage.HandleProductUpdated | src/pages/Products.js:66-70 | a successful update closes its modal, toasts and reloads |
| Products.ProductsPage.HandleDeleteClick | src/pages/Products.js:72-74 | the product becomes the pending delete |
| Products.ProductsPage.HandleDeleteConfirm | src/pages/Products.js:76-89 | with nothing pending it does nothing; otherwise that id is deleted once and nothing is pending afterwards, on success or failure; a failure is shown as error and toast |
| Products.ProductsPage.HandleDeleteCancel | src/pages/Products.js:91-93 | clears the pending delete and nothing else |
| Products.ProductsPage.HandleToggleStatus | src/pages/Products.js:95-105 | asks for the toggled status of that product and toasts the new status; a failure sets the error and toasts it |
| Dashboard.OnTab | src/pages/Dashboard.js:27-30 | 'published' on the published tab; 'unpublished' or no status on the other |
| Dashboard.TabProducts | src/pages/Dashboard.js:26-32 | the loaded products on the active tab, in order |
| Dashboard.TabExactly | src/pages/Dashboard.js:26-32 | a product is on a tab iff it was loaded and its status belongs to the tab: 'published', or 'unpublished' or missing |
| Dashboard.TabsDisjoint | src/pages/Dashboard.js:26-32 | no product is on both tabs, and any other status is on neither |
| Dashboard.TabKeepsOrder | src/pages/Dashboard.js:26 | each tab keeps the loaded order |
| Dashboard.TabsCount | src/pages/Dashboard.js:26-32 | the tabs together list at most every product once, and exactly all of them when every status is known or missing |
| Dashboard.ToggleMovesTab | src/pages/Dashboard.js:44 | toggling a product on one tab moves it to the other |
| Dashboard.DeleteUrlAsWritten | src/pages/Dashboard.js:56-59 | as written the object is interpolated into the URL of src/services/itemService.js:69, giving "/items/[object Object]" for every product |
| Dashboard.DeleteUrlCorrected | src/services/itemService.js:69 | the delete URL is "/items/" followed by the product's id |
| Dashboard.DeleteTargetsCollide | src/pages/Dashboard.js:56-59 | as written, every product is deleted under the same URL; corrected, different ids give different URLs |
| Dashboard.DashboardPage.constructor | src/pages/Dashboard.js:11-13 | the published tab, no products, loading |
| Dashboard.DashboardPage.SetActiveTab | src/pages/Dashboard.js:15-18 | the tab changes, and products reload only when it actually changed |
| Dashboard.DashboardPage.FetchProducts | src/pages/Dashboard.js:20-40 | the active tab's share of the loaded products replaces the list; a failure leaves it |
| Dashboard.DashboardPage.HandleToggleStatus | src/pages/Dashboard.js:42-50 | asks for the toggled status of that product and reloads on success |
| Dashboard.DashboardPage.HandleEdit | src/pages/Dashboard.js:52-54 | leaves for "/products" |
| Dashboard.DashboardPage.HandleDelete | src/pages/Dashboard.js:56-65 | nothing is requested without confirmation; the list reloads after a successful delete |
| ProductCard.HasCreator | src/components/Products/ProductCard.js:81 | `product.createdBy` is truthy: a populated record, or a non-empty raw id |
| ProductCard.UserKey | src/components/Products/ProductCard.js:83 | `currentUser.id \|\| currentUser._id` |
| ProductCard.ShowActions | src/components/Products/ProductCard.js:81-84 | a signed-in user, a creator, and either the admin role or the user's own id as the creator's |
| ProductCard.CreatorKey | src/components/Products/ProductCard.js:83 | `createdBy._id \|\| createdBy` is a non-empty id, or nothing for a record without one |
| ProductCard.ActionsVisibility | src/components/Products/ProductCard.js:81-84 | no actions without a user and a creator; an admin sees them on every product with a creator; anyone else iff the creator's id is theirs |
| ProductCard.CreatorFormsAgree | src/components/Products/ProductCard.js:83 | a populated creator and the same creator as a raw id give the same answer |
| ProductCard.StatusLabel | src/components/Products/ProductCard.js:87-90 | the button reads "Unpublish" iff the product is published |
| ProductCard.LabelNamesToggle | src/components/Products/ProductCard.js:87-90 | the label names the status a click asks for |
| ProductCard.DotCount | src/components/Products/ProductCard.js:18-30 | dots appear only with more than one image, one per image |
| ProductCard.ProductCardView.constructor | src/components/Products/ProductCard.js:5-6 | the first image, or the placeholder, is shown |
| ProductCard.ShownAt | src/components/Products/ProductCard.js:11-17 | the placeholder iff there are no images; an index past the end draws an image with no `src`; otherwise the image at the index |
| ProductCard.KeptIndex | src/components/Products/ProductCard.js:5-17 | the corrected index after a new product: never past the end, and unchanged while it still points at an image |
| ProductCard.StaleIndexAsWritten | src/components/Products/ProductCard.js:5-30 | a mounted card left on its third image that is handed the product with one image draws a broken image and no dots |
| ProductCard.StaleIndexCorrected | src/components/Products/ProductCard.js:5-17 | with the corrected index the card always draws the placeholder or one of the new images |
| ProductCard.ProductCardView.Shown | src/components/Products/ProductCard.js:11-17 | the placeholder iff the product has no images, a broken image iff the index is past the end, otherwise one of the product's images |
| ProductCard.ProductCardView.ReceiveAsWritten | src/pages/Products.js:156-164 | a new product handed to a mounted card replaces its product and leaves the image index as it was |
| ProductCard.ProductCardView.Receive | src/pages/Products.js:156-164 | the corrected prop update: the new product, with the index reset when it no longer points at an image, so nothing broken is drawn |
| ProductCard.ProductCardView.SelectDot | src/components/Products/ProductCard.js:25-28 | a dot click shows the image under that dot |

## Left out

- The session context and identity service (persistence, restoration,
  logout) are not part of this model. Pages see the session only as
  `loading`/`isAuthenticated` and as calls to `login(user, token)`.
- All network calls, toasts and timers are inputs or outputs:
  - a call's outcome is a `Reply` parameter;
  - a toast is a returned value;
  - a countdown second is one `OnTick` call;
  - "reload the list" is a returned flag.
- Concurrency is not modelled. Each handler runs to completion, so
  interleaved replies are out of scope. The product card's stale image
  index, which needs two overlapping fetches, is modelled only on the card
  (`ProductCard.ProductCardView.ReceiveAsWritten`).
- The dashboard's failure paths only call `console.error`
  (src/pages/Dashboard.js:36, 48 and 62). Logging is not modelled, so those
  failures leave the page state as the model states it and nothing more.
- JSX rendering, CSS, focus handling beyond the index of the focused OTP
  cell, `window.confirm`, and the `Navbar`, `DashboardLayout`, `Items`,
  `ItemDetail`, `Users`, `Login` and `DeleteProductModal` components are
  not modelled. These are presentational, or not part of this model.
- Numbers are integers. `parseFloat` fractions, numeric strings in text
  inputs, and `Number` formatting are not modelled.
- `toLowerCase` is modelled for ASCII letters only. String lengths count
  Dafny characters rather than UTF-16 code units.
- The email pattern of the register page is a function parameter
  (`emailOk`). The regular expression itself is not modelled.
- `FormData` turns appended values into strings, and JSON turns `NaN`
  into `null`. Neither conversion is modelled; `NaN` is kept as a value.
- `URL.createObjectURL` is a parameter supplying the previews, and
  `revokeObjectURL` is never called by the source.
- A malformed reply is not modelled: one without `data`, a non-array
  `images`, or an `errors` that is not an array. Missing text fields are
  `""` and missing image lists are `[]`.
- `Object.keys` order is the order in which keys are written. Integer-like
  keys never occur.
- CreateItem's unused `images` form key is not modelled, because
  `itemData` never reads it.
- Products.ProductsPage.FetchProducts: `response.data || []` is read as the
  list itself. A missing list is the empty list.
- Dashboard.DashboardPage.HandleDelete is modelled with the corrected URL
  only. The URL as written is in `Dashboard.DeleteUrlAsWritten`.
- Catalog.ToggleTwice holds only for the two known statuses. Any other
  status toggles to 'published' and stays there.
- CreateItem.CreateItemPage.AddItem is modelled with the corrected check
  only: its error names the missing fields. As written, `new Error(...)`
  builds the imported `Error` component and never carries that text; that
  half is `CreateItem.MissingErrorAsWritten`.
- Otp.OtpPage.HandlePaste is modelled with the corrected read of
  `clipboardData` only. As written, `e.clipboard` is undefined and the
  paste throws; that half is `Otp.PasteAsWritten`.
- Routing.Normal covers case and trailing slashes only. Percent-encoded
  characters and repeated slashes inside a pathname are not modelled.

## Findings

| source | as written | input that shows it | evidently intended | confidence | as-written member | corrected member |
|---|---|---|---|---|---|---|
| src/pages/OTP.js:58 | `handlePaste` reads `e.clipboard.getData('text')` after `preventDefault()`. A paste event has no `clipboard` property, so it throws and the pasted code is lost | any browser paste of "123456" into a cell | read `e.clipboardData.getData('text')` and fill the cells | not executed | Otp.PasteAsWrittenDropsCode | Otp.OtpPage.HandlePaste |
| src/pages/CreateItem.js:46 | `new Error(...)` uses the page's imported `Error` UI component (line 7), not the global constructor. The error caught never carries the "Missing required fields: …" text | a form missing only its product name, and one missing only its brand name | throw an error whose message names the missing fields | not executed | CreateItem.MissingFieldsNotReported | CreateItem.CreateItemPage.AddItem |
| src/pages/Dashboard.js:56-59 | `handleDelete(id)` receives the product object, because the card calls `onDelete(product)`, and puts it into the URL. Every delete goes to "/items/[object Object]" | deleting any product from the dashboard | delete "/items/" + the product's `_id` | not executed | Dashboard.DeleteTargetsCollide | Dashboard.DashboardPage.HandleDelete |
| src/components/Products/ProductCard.js:5-14 | `currentImageIndex` is state of a card keyed by the product's `_id`, and `images[currentImageIndex]` is read without a bound check. A refetch normally unmounts the grid while `loading` is set (src/pages/Products.js:30 and :122, src/pages/Dashboard.js:22 and :85), so a card remounts at index 0. When two fetches overlap, the first reply ends `loading` and mounts the grid, and the second reply hands the mounted cards their new products with the index kept | on the products page, click a card's publish toggle; while its status request is pending, open product Y (three images) in the edit modal, which is rendered outside the loading gate (src/pages/Products.js:179-184), and save Y with one image. The toggle's refetch (src/pages/Products.js:100) is answered before the edit is stored, so it mounts the grid with Y's three images; click Y's third dot; the edit's refetch (src/pages/Products.js:69) then replies: `src` is undefined, and with one image no dot is drawn to recover | reset the index when it no longer points at an image | not executed | ProductCard.StaleIndexAsWritten | ProductCard.ProductCardView.Receive |
