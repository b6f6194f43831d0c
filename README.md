# ReMarket client core, modelled in Dafny

ReMarket is an Android marketplace client: users register, log in, browse and
search products, and publish new ones. This project models the parts of the
app whose behaviour is fully written out in its Kotlin sources:

- the Room DAO over the local `products` table (`ProductDao`): REPLACE upserts
  (single and batch), the point lookup, the visible-products query (tombstones
  filtered out, newest first), the unsynced-products query, delete by ids and
  wipe. The table is a class holding a `map` from primary key to row;
- the product records (`ProductDto` from the API, `ProductEntity` in the
  table, `Product` in the UI) and the conversions between them, including the
  comma-joined image list stored in the table;
- the home screen's case-insensitive search filter and the view-model state
  that keeps the filtered list in step with the loaded list and the query;
- the login form (e-mail and password validators, field updates, the
  validation step of the login button, navigation events, and how the
  sign-in's end updates the state and the token);
- the registration form (digit-only DNI and phone, the ordered guards of the
  register button, the network check, and how the registration's end updates
  the state);
- the create-product form (setters, image list, price text, the ordered
  validation, the submission state) and `CreateProductUseCase`'s mapping of
  the repository's answer;
- `TokenManager`, the single slot holding the current authentication token.

Kotlin's library functions the logic rests on (`isBlank`, `isWhitespace`,
`isDigit`, `contains(ignoreCase = true)`, `split(",")`, `joinToString(",")`)
are written out in module `Text`. A Kotlin `Double` is a `real` and a nullable
`T?` is `Option<T>`; the sealed class `Resource` is the datatype
`Idle | Loading | Success(data) | Error(message)`.

View models run their coroutines on the main dispatcher, which starts a
launched coroutine at once, so the first state change inside `launch`
(`isLoading = true`, `state = Loading`) happens within the click handler; the
model puts it there. What follows in the coroutine waits on foreign calls
(identity provider, image host, REST API): the model receives how that call
ended as a parameter of a separate method (`OnSignInFinished`,
`OnRegistrationFinished`, `OnSubmitFinished`, `OnProductsLoaded`).

No reconciler exists to model. `SyncWorker.kt:22-35` pushes local changes
and then pulls server changes through `syncPendingChanges` and
`refreshProducts`, and `MainActivity.kt:27` calls `triggerManualSyncFromUI`,
but `IProductRepository.kt` declares none of these, and `ProductRepository.kt`
reads products straight from the network. The model therefore stops at the
table's own semantics.

The home screen's use case `GetProductsUseCase.kt:13-14` declares a stream of
`Resource<List<Product>>` but returns the repository's stream of
`List<Product>` (`IProductRepository.kt:10`), and `HomeViewModel.kt:38-42` uses
each emission as a `List<Product>`; `Home.HomeViewModel.OnProductsLoaded`
follows the repository's type and takes a plain list.

## Model

| member | source | states |
|---|---|---|
| ProductModel.DtoToDomain | app/src/main/java/com/example/remarket/data/model/ProductDto.kt:26-42 | Every field of the API record is copied; the image list keeps its elements and order; box and invoice come from `boxImageUrl` and `invoiceUrl` |
| ProductModel.DtoToDomainInjective | app/src/main/java/com/example/remarket/data/model/ProductDto.kt:26-42 | The direct mapping loses nothing: two API records with the same domain product are equal |
| LocalEntity.NewEntity | app/src/main/java/com/example/remarket/data/local/ProductEntity.kt:9-31 | A row built without sync arguments is not synced, not tombstoned, and stamped with the current time |
| LocalEntity.EntityToDomain | app/src/main/java/com/example/remarket/data/local/ProductEntity.kt:33-49 | The domain product read from a row never has an empty image URL, and keeps the row's id, box and invoice |
| LocalEntity.DtoToEntity | app/src/main/java/com/example/remarket/data/local/ProductEntity.kt:51-70 | A server record is stored synced and not tombstoned, with its id and business fields copied, `box`/`invoiceUri` from the URL fields, and the image URLs joined with commas |
| LocalEntity.ImagesRoundTrip | app/src/main/java/com/example/remarket/data/local/ProductEntity.kt:42-60 | If no image URL is empty or holds a comma, storing a record and reading it back gives the same image list |
| LocalEntity.ImagesThroughTable | app/src/main/java/com/example/remarket/data/local/ProductEntity.kt:42-60 | In general, the image list read back is each URL split on its commas, empty pieces dropped, concatenated in order |
| LocalEntity.ImagesRoundTripDropsEmptyUrl | app/src/main/java/com/example/remarket/data/local/ProductEntity.kt:42-60 | The round trip is lossy: `["", "u"]` comes back as `["u"]` |
| LocalEntity.ImagesRoundTripSplitsCommaUrl | app/src/main/java/com/example/remarket/data/local/ProductEntity.kt:42-60 | The round trip is lossy: `["a,b"]` comes back as `["a", "b"]` |
| LocalEntity.CachedPathAgreesWithDirectPath | app/src/main/java/com/example/remarket/data/local/ProductEntity.kt:33-70 | With plain image URLs, the product read from the table equals the product mapped directly from the API record |
| LocalEntity.EntityToDomainIgnoresSyncMetadata | app/src/main/java/com/example/remarket/data/local/ProductEntity.kt:33-49 | Rows differing only in `isSynced`, `lastModified` or `deletedLocally` give the same domain product |
| ProductDao.UpsertAll | app/src/main/java/com/example/remarket/data/local/ProductDao.kt:14-15 | Batch REPLACE keeps every row under its own id, and the table's ids afterwards are the old ids plus the batch's ids |
| ProductDao.UpsertAllUntouched | app/src/main/java/com/example/remarket/data/local/ProductDao.kt:14-15 | An id that no element of the batch carries keeps its row, or stays absent |
| ProductDao.UpsertAllLastWins | app/src/main/java/com/example/remarket/data/local/ProductDao.kt:14-15 | For an id repeated in the batch, the last element carrying it is the row stored |
| ProductDao.ListedRowsCount | app/src/main/java/com/example/remarket/data/local/ProductDao.kt:11-12 | A query result has exactly as many entries as the rows it selects |
| ProductDao.ProductTable.GetAllProducts | app/src/main/java/com/example/remarket/data/local/ProductDao.kt:11-12 | Returns every row with `deletedLocally` false, each once and as stored, and no other, ordered by `lastModified` descending |
| ProductDao.ProductTable.InsertAll | app/src/main/java/com/example/remarket/data/local/ProductDao.kt:14-15 | The table becomes the old table with each element upserted in order (a loop of single upserts) |
| ProductDao.ProductTable.DeleteAll | app/src/main/java/com/example/remarket/data/local/ProductDao.kt:17-18 | The table becomes empty |
| ProductDao.ProductTable.GetProductById | app/src/main/java/com/example/remarket/data/local/ProductDao.kt:20-21 | Returns the row stored under the id, tombstoned or not, and null only when no row has that id |
| ProductDao.ProductTable.InsertOrUpdateProduct | app/src/main/java/com/example/remarket/data/local/ProductDao.kt:23-24 | The row is stored under its id, replacing any previous one; every other row is unchanged |
| ProductDao.ProductTable.GetUnsyncedProducts | app/src/main/java/com/example/remarket/data/local/ProductDao.kt:26-27 | Returns every row with `isSynced` false, tombstoned ones included, each once and as stored, and no other |
| ProductDao.ProductTable.DeleteProductsByIds | app/src/main/java/com/example/remarket/data/local/ProductDao.kt:29-30 | Removes exactly the rows whose id is listed; unknown ids are ignored and other rows are unchanged |
| ProductDao.DeleteAllEmptiesQueries | app/src/main/java/com/example/remarket/data/local/ProductDao.kt:17-27 | After a wipe, the visible query and the unsynced query return nothing and the lookup returns null |
| Session.TokenManager.constructor | app/src/main/java/com/example/remarket/data/network/TokenManager.kt:8-9 | A new manager holds no token |
| Session.TokenManager.SaveToken | app/src/main/java/com/example/remarket/data/network/TokenManager.kt:11-13 | The slot holds the given token, whatever it held before |
| Session.TokenManager.GetToken | app/src/main/java/com/example/remarket/data/network/TokenManager.kt:15-17 | Returns the slot's content and changes nothing |
| Session.TokenManager.ClearToken | app/src/main/java/com/example/remarket/data/network/TokenManager.kt:19-21 | The slot becomes empty |
| Session.SaveSaveGetClearGet | app/src/main/java/com/example/remarket/data/network/TokenManager.kt:11-21 | After two saves the second token is read back (last write wins); after clearing, null is read back |
| CreateProductUseCase.Invoke | app/src/main/java/com/example/remarket/domain/usecase/CreateProductUseCase.kt:12-18 | Success maps to success, an error keeps its message, Idle and Loading become the "Estado desconocido" error; the result is never Idle or Loading |
| Text.DigitsOf | app/src/main/java/com/example/remarket/ui/auth/register/RegisterViewModel.kt:81-82 | Digit filtering keeps only digits and never lengthens its input |
| Text.DigitsOfAppend | app/src/main/java/com/example/remarket/ui/auth/register/RegisterViewModel.kt:81-82 | Digit filtering distributes over concatenation, so it keeps exactly the digits, in their order |
| Text.DigitsOfAllDigits | app/src/main/java/com/example/remarket/ui/auth/register/RegisterViewModel.kt:81-82 | Input made only of digits is kept as it is |
| Text.DigitsOfIdempotent | app/src/main/java/com/example/remarket/ui/auth/register/RegisterViewModel.kt:81-82 | Filtering digits twice is the same as once |
| Text.Split | app/src/main/java/com/example/remarket/data/local/ProductEntity.kt:42 | Splitting always yields at least one piece (the empty string yields one empty piece) |
| Text.DropEmpty | app/src/main/java/com/example/remarket/data/local/ProductEntity.kt:42 | Dropping empties leaves only non-empty elements, all taken from the input |
| Text.SplitAppend | app/src/main/java/com/example/remarket/data/local/ProductEntity.kt:42 | A comma separates the pieces of the text before it from those after it |
| Text.SplitNoComma | app/src/main/java/com/example/remarket/data/local/ProductEntity.kt:42 | Text without a comma splits into itself |
| Text.DropEmptyAppend | app/src/main/java/com/example/remarket/data/local/ProductEntity.kt:42 | Dropping empties distributes over concatenation |
| Text.Join | app/src/main/java/com/example/remarket/data/local/ProductEntity.kt:60 | `joinToString(",")`: every character of the joined text is a comma or a character of one of the elements |
| Text.SplitJoin | app/src/main/java/com/example/remarket/data/local/ProductEntity.kt:42-60 | Joining with commas, splitting and dropping empties re-splits each element and loses its empty pieces |
| Text.SplitPiecesOfPlainElements | app/src/main/java/com/example/remarket/data/local/ProductEntity.kt:42-60 | Non-empty, comma-free elements are their own pieces |
| Text.SplitJoinRoundTrip | app/src/main/java/com/example/remarket/data/local/ProductEntity.kt:42-60 | Join then split then drop empties is the identity on non-empty, comma-free strings |
| Text.ContainsIgnoreCase | app/src/main/java/com/example/remarket/ui/home/HomeViewModel.kt:65-67 | `contains(q, ignoreCase = true)`: some region of the text equals the query character by character ignoring case; the empty query is found in any text, and a query longer than the text never is |
| Text.CharEqualsIgnoreCaseIsUpperEquality | app/src/main/java/com/example/remarket/ui/home/HomeViewModel.kt:65-67 | Two characters are equal ignoring case exactly when their upper-case forms agree |
| Text.ContainsExactOccurrence | app/src/main/java/com/example/remarket/ui/home/HomeViewModel.kt:65-67 | An exact occurrence of the query is found by the case-insensitive search |
| Text.ContainsIgnoreCaseOfUpperQuery | app/src/main/java/com/example/remarket/ui/home/HomeViewModel.kt:65-67 | Upper-casing the query does not change whether it is found |
| Text.UpperAllKeepsBlankness | app/src/main/java/com/example/remarket/ui/home/HomeViewModel.kt:63 | Upper-casing neither makes a query blank nor non-blank |
| Home.Filter | app/src/main/java/com/example/remarket/ui/home/HomeViewModel.kt:62-68 | `filter(list, q)`: the whole list for a blank query, otherwise the matching products; the result is never longer than the list and holds only products of the list |
| Home.KeepMatching | app/src/main/java/com/example/remarket/ui/home/HomeViewModel.kt:64-68 | Filtering never lengthens the list |
| Home.FilterBlankIsIdentity | app/src/main/java/com/example/remarket/ui/home/HomeViewModel.kt:62-63 | A blank query returns the list unchanged |
| Home.KeepMatchingMembers | app/src/main/java/com/example/remarket/ui/home/HomeViewModel.kt:64-68 | A product is kept exactly when it is in the list and its brand, model or storage contains the query ignoring case |
| Home.KeepMatchingIsSubsequence | app/src/main/java/com/example/remarket/ui/home/HomeViewModel.kt:64-68 | The kept products appear in the list's order |
| Home.FilterIsSubsequence | app/src/main/java/com/example/remarket/ui/home/HomeViewModel.kt:62-68 | The filtered list is an order-preserving subsequence of the list, for any query |
| Home.FilterSoundAndComplete | app/src/main/java/com/example/remarket/ui/home/HomeViewModel.kt:62-68 | For a non-blank query: every kept product matches (soundness) and every matching product is kept (completeness) |
| Home.KeepMatchingAppend | app/src/main/java/com/example/remarket/ui/home/HomeViewModel.kt:64-68 | Filtering a concatenation filters each part and concatenates the results |
| Home.KeepMatchingOfMatching | app/src/main/java/com/example/remarket/ui/home/HomeViewModel.kt:64-68 | A list whose products all match is kept whole |
| Home.FilterIdempotent | app/src/main/java/com/example/remarket/ui/home/HomeViewModel.kt:62-68 | Filtering the filtered list with the same query changes nothing |
| Home.KeepMatchingUpperQuery | app/src/main/java/com/example/remarket/ui/home/HomeViewModel.kt:64-68 | Matching with the upper-cased query keeps the same products |
| Home.FilterIgnoresQueryCase | app/src/main/java/com/example/remarket/ui/home/HomeViewModel.kt:62-68 | The filter gives the same result for a query and its upper-case form |
| Home.HomeViewModel.constructor | app/src/main/java/com/example/remarket/ui/home/HomeViewModel.kt:29-36 | Starts from the default state with loading started, and the filtered list consistent |
| Home.HomeViewModel.LoadProducts | app/src/main/java/com/example/remarket/ui/home/HomeViewModel.kt:34-36 | Loading starts and the error is cleared; nothing else changes; the filtered list stays consistent |
| Home.HomeViewModel.OnProductsLoaded | app/src/main/java/com/example/remarket/ui/home/HomeViewModel.kt:38-46 | The emitted list becomes the products, is filtered with the current query, and loading stops; query and error are kept |
| Home.HomeViewModel.OnProductsFailed | app/src/main/java/com/example/remarket/ui/home/HomeViewModel.kt:47-49 | Loading stops and the failure's message is recorded; the lists are kept |
| Home.HomeViewModel.OnSearchQueryChanged | app/src/main/java/com/example/remarket/ui/home/HomeViewModel.kt:53-60 | The query is replaced and the loaded list refiltered with it; products, loading flag and error are kept |
| Home.HomeViewModel.OnLogout | app/src/main/java/com/example/remarket/ui/home/HomeViewModel.kt:69-72 | Logging out clears the saved token |
| Login.ValidateEmail | app/src/main/java/com/example/remarket/ui/auth/login/LoginViewModel.kt:133-138 | An address is accepted exactly when it has an '@', a '.' and at least five characters; the non-blank test never decides on its own |
| Login.ValidatePassword | app/src/main/java/com/example/remarket/ui/auth/login/LoginViewModel.kt:140-142 | A password is accepted exactly when it has at least six characters, one of which is not whitespace |
| Login.BlankPasswordRejected | app/src/main/java/com/example/remarket/ui/auth/login/LoginViewModel.kt:140-142 | A whitespace-only password, such as six spaces, is rejected |
| Login.LongPasswordWithVisibleCharAccepted | app/src/main/java/com/example/remarket/ui/auth/login/LoginViewModel.kt:140-142 | Six or more characters with one non-whitespace character are accepted |
| Login.ShortestValidEmail | app/src/main/java/com/example/remarket/ui/auth/login/LoginViewModel.kt:133-138 | `a@b.c` is accepted, and no address shorter than five characters is |
| Login.LoginViewModel.constructor | app/src/main/java/com/example/remarket/ui/auth/login/LoginViewModel.kt:36-40 | Starts from the default form state and no navigation event |
| Login.LoginViewModel.OnEmailChanged | app/src/main/java/com/example/remarket/ui/auth/login/LoginViewModel.kt:42-48 | Stores the e-mail, clears the error and recomputes its validity; nothing else changes |
| Login.LoginViewModel.OnPasswordChanged | app/src/main/java/com/example/remarket/ui/auth/login/LoginViewModel.kt:50-56 | Stores the password, clears the error and recomputes its validity; nothing else changes |
| Login.LoginViewModel.TogglePasswordVisibility | app/src/main/java/com/example/remarket/ui/auth/login/LoginViewModel.kt:58-62 | Flips only the visibility flag |
| Login.ToggleTwiceRestores | app/src/main/java/com/example/remarket/ui/auth/login/LoginViewModel.kt:58-62 | Toggling twice restores the whole state |
| Login.LoginViewModel.OnLoginClicked | app/src/main/java/com/example/remarket/ui/auth/login/LoginViewModel.kt:64-82 | Both validity flags are recomputed; with an invalid field the "verifica que todos los campos" message is set and loading does not start; otherwise loading starts with the error cleared |
| Login.LoginViewModel.OnSignInFinished | app/src/main/java/com/example/remarket/ui/auth/login/LoginViewModel.kt:84-117 | On success the token (or "" when null) is saved, login succeeds and navigation goes home; a missing user or a failure stops loading with its message and leaves token and navigation alone |
| Login.LoginViewModel.OnForgotPasswordClicked | app/src/main/java/com/example/remarket/ui/auth/login/LoginViewModel.kt:121-123 | The navigation event becomes "forgot password" |
| Login.LoginViewModel.ClearNavigationEvent | app/src/main/java/com/example/remarket/ui/auth/login/LoginViewModel.kt:125-127 | The navigation event becomes null |
| Login.LoginViewModel.ClearErrorMessage | app/src/main/java/com/example/remarket/ui/auth/login/LoginViewModel.kt:129-131 | Only the error message is cleared |
| Register.RegisterViewModel.constructor | app/src/main/java/com/example/remarket/ui/auth/register/RegisterViewModel.kt:48-76 | All fields start empty and the UI state at its defaults |
| Register.RegisterViewModel.OnFirstNameChanged | app/src/main/java/com/example/remarket/ui/auth/register/RegisterViewModel.kt:79 | Stores the value verbatim; no other field changes |
| Register.RegisterViewModel.OnLastNameChanged | app/src/main/java/com/example/remarket/ui/auth/register/RegisterViewModel.kt:80 | Stores the value verbatim; no other field changes |
| Register.RegisterViewModel.OnDniChanged | app/src/main/java/com/example/remarket/ui/auth/register/RegisterViewModel.kt:81 | Stores exactly the digits of the value, in order; no other field changes |
| Register.RegisterViewModel.OnPhoneChanged | app/src/main/java/com/example/remarket/ui/auth/register/RegisterViewModel.kt:82 | Stores exactly the digits of the value, in order; no other field changes |
| Register.RegisterViewModel.OnEmailChanged | app/src/main/java/com/example/remarket/ui/auth/register/RegisterViewModel.kt:83 | Stores the value verbatim; no other field changes |
| Register.RegisterViewModel.OnPasswordChanged | app/src/main/java/com/example/remarket/ui/auth/register/RegisterViewModel.kt:84 | Stores the value verbatim; no other field changes |
| Register.RegisterViewModel.OnConfirmPasswordChanged | app/src/main/java/com/example/remarket/ui/auth/register/RegisterViewModel.kt:85 | Stores the value verbatim; no other field changes |
| Register.RegisterViewModel.OnDniFrontImageSelected | app/src/main/java/com/example/remarket/ui/auth/register/RegisterViewModel.kt:88-90 | Stores the URI verbatim; no other field changes |
| Register.RegisterViewModel.OnDniBackImageSelected | app/src/main/java/com/example/remarket/ui/auth/register/RegisterViewModel.kt:92-94 | Stores the URI verbatim; no other field changes |
| Register.RegisterViewModel.OnRegisterClicked | app/src/main/java/com/example/remarket/ui/auth/register/RegisterViewModel.kt:97-108 | Mismatched passwords, a blank e-mail, password, first name, last name or DNI (not phone), or a blank photo URI change nothing; without network only the "No hay conexión" message is set; otherwise loading starts with the error cleared |
| Register.MismatchedPasswordsBlockRegistration | app/src/main/java/com/example/remarket/ui/auth/register/RegisterViewModel.kt:99 | Mismatched passwords stop registration with no state change whatever the other fields and the network |
| Register.RegisterViewModel.OnRegistrationFinished | app/src/main/java/com/example/remarket/ui/auth/register/RegisterViewModel.kt:110-171 | Loading always stops; success marks registration done; an error, a timeout or an upload failure sets its message |
| Register.RegisterViewModel.ClearErrorMessage | app/src/main/java/com/example/remarket/ui/auth/register/RegisterViewModel.kt:173-175 | Only the error message is cleared |
| CreateProduct.Validate | app/src/main/java/com/example/remarket/ui/product/create/CreateProductViewModel.kt:75-84 | `validate()`: the message for the first invalid field in the order brand, model, storage, price, IMEI, or none; any message is one of the five field messages |
| CreateProduct.ValidateAcceptsExactly | app/src/main/java/com/example/remarket/ui/product/create/CreateProductViewModel.kt:75-84 | The form passes exactly when brand, model, storage and IMEI are non-blank and the price is positive; description and images are not required |
| CreateProduct.ValidateReportsFirstFailure | app/src/main/java/com/example/remarket/ui/product/create/CreateProductViewModel.kt:75-84 | Each message is reported exactly when its field is the first invalid one in the order brand, model, storage, price, IMEI |
| CreateProduct.CreateProductViewModel.constructor | app/src/main/java/com/example/remarket/ui/product/create/CreateProductViewModel.kt:25-56 | Fields start empty, the price at zero, no images, and the state `Idle` |
| CreateProduct.CreateProductViewModel.OnBrandChanged | app/src/main/java/com/example/remarket/ui/product/create/CreateProductViewModel.kt:58 | Sets only the brand |
| CreateProduct.CreateProductViewModel.OnModelChanged | app/src/main/java/com/example/remarket/ui/product/create/CreateProductViewModel.kt:59 | Sets only the model |
| CreateProduct.CreateProductViewModel.OnStorageChanged | app/src/main/java/com/example/remarket/ui/product/create/CreateProductViewModel.kt:60 | Sets only the storage |
| CreateProduct.CreateProductViewModel.OnPriceChanged | app/src/main/java/com/example/remarket/ui/product/create/CreateProductViewModel.kt:61 | Sets only the price |
| CreateProduct.CreateProductViewModel.OnPriceTextChanged | app/src/main/java/com/example/remarket/ui/product/create/CreateProductViewModel.kt:62-65 | Always stores the text; the price takes the parsed value when the text parses and keeps its old value otherwise |
| CreateProduct.CreateProductViewModel.OnImeiChanged | app/src/main/java/com/example/remarket/ui/product/create/CreateProductViewModel.kt:66 | Sets only the IMEI |
| CreateProduct.CreateProductViewModel.OnDescriptionChanged | app/src/main/java/com/example/remarket/ui/product/create/CreateProductViewModel.kt:67 | Sets only the description |
| CreateProduct.CreateProductViewModel.AddImage | app/src/main/java/com/example/remarket/ui/product/create/CreateProductViewModel.kt:68 | Appends the URI after the earlier images, which are unchanged |
| CreateProduct.CreateProductViewModel.SetBoxImage | app/src/main/java/com/example/remarket/ui/product/create/CreateProductViewModel.kt:69 | Sets only the box photo |
| CreateProduct.CreateProductViewModel.SetInvoiceImage | app/src/main/java/com/example/remarket/ui/product/create/CreateProductViewModel.kt:70 | Sets only the invoice photo |
| CreateProduct.CreateProductViewModel.Submit | app/src/main/java/com/example/remarket/ui/product/create/CreateProductViewModel.kt:85-94 | A validation failure sets `Error` with that exact message and never enters `Loading`; a valid form enters `Loading` |
| CreateProduct.CreateProductViewModel.OnSubmitFinished | app/src/main/java/com/example/remarket/ui/product/create/CreateProductViewModel.kt:134-145 | Ends in `Success` or `Error`: success follows the repository's success, its error message is kept, an upload failure gets the "Error subiendo imágenes" message; the `TODO()` branches are unreachable |

## Left out

- The reconciler, the sync worker and the repository's offline-first read and write paths: they are not in the code (see above). `SyncWorker.kt`, `ReMarketApp.kt`, the repositories, the network clients, dependency wiring and all screens are not part of this model.
- `util/Resource.kt` is not part of this model; the shape of `Resource` is taken from its uses.
- Room's live re-emission of `getAllProducts` after each write: queries are snapshots. Storage failures are not modelled.
- `System.currentTimeMillis()`: the time is the parameter `now`.
- Kotlin `Double`: modelled as `real`, so NaN, infinities and rounding are left out (the form only compares the price with zero).
- CreateProduct.CreateProductViewModel.OnPriceTextChanged: `String.toDoubleOrNull` is the parameter `parse`, not a model of Kotlin's number syntax.
- Text.IsDigit: only the ASCII digits `0`-`9`; Kotlin's `isDigit` also accepts other Unicode decimal digits, which `DigitsOf` would therefore drop.
- Text.UpperChar and Text.LowerChar: case mapping covers ASCII letters and the Latin-1 letters whose case partner is also in Latin-1 (so not `ÿ` or `µ`); other scripts compare by exact equality.
- Login.ValidateEmail, Login.ValidatePassword and Login.ShortestValidEmail: string lengths count characters, whereas Kotlin counts UTF-16 units, so a character outside the Basic Multilingual Plane counts once here and twice in the app (three such emoji make a password the app accepts and the model rejects); the login view model's OnEmailChanged, OnPasswordChanged and OnLoginClicked inherit this.
- Home.HomeViewModel.OnLogout: the identity provider's `signOut()` is not modelled; only the token slot is cleared.
- Sign-in with the identity provider, image upload, account and product creation on the server, the 30-second timeout and the connectivity check: their results are parameters (`SignInOutcome`, `RegistrationOutcome`, `SubmitOutcome`, `networkAvailable`).
- CreateProduct.CreateProductViewModel.OnSubmitFinished: the `onSuccess` callback (navigation) and logging are not modelled; an exception message is taken as already interpolated (Kotlin prints a null message as `null`).
- Register.RegisterViewModel.OnRegistrationFinished: as above, an exception message is taken as already interpolated.
- Concurrent interleaving of coroutines: the model runs handlers one at a time, in the order the main dispatcher would.
- `ProductDetailViewModel.kt` and the favourite/report flows: presentation glue over repository streams.
