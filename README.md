# ALIF marketplace backend — a Dafny model

This project models the request-handling core of the ALIF marketplace backend. The backend
is a set of Next.js API routes over a Supabase (PostgREST) database, with Stripe as its
payment processor. The model covers:

- the request gates `withAuth`, `withMethods`, `withAdminAuth` and `withAdminRole`, and the
  way routes combine them;
- the request-body schemas and `validateBody`;
- the file-upload helpers and the two upload routes;
- the ads, offers and claims collection routes (listing with pagination, creation);
- the Stripe payment-intent and Connect-account routes and the Stripe webhook;
- the closed enumerations of the database types.

Each of these files becomes one Dafny module:

| module | models |
|---|---|
| `Database` | the enumerations of `types/database.ts` and the rows of its tables |
| `Store` | a `Db` class whose fields are the tables, plus the PostgREST reads and writes the routes use |
| `Paging` | newest-first listing and the `range` window with its total |
| `Strings` | ASCII lower-casing, JavaScript `parseInt` and the digit helpers behind it |
| `Validation` | the zod schemas |
| `Middleware`, `AdminMiddleware` | the gates |
| `Storage`, `Upload` | the upload helpers and routes |
| `Ads`, `Offers`, `Claims`, `PaymentIntent`, `ConnectAccount`, `Webhook` | the routes |

Each route that writes to the database appears twice:

- a pure function from a snapshot of the tables (`Tables`) to the answer and the new tables;
- a method on `Store.Db` whose `ensures` equates its answer and the new state with that function.

Lemmas about the pure functions carry the properties. These include:

- the order of the checks and their status codes;
- that a refusal writes nothing;
- which rows a success appends or updates, and that every other table is unchanged;
- that a listing shows only rows the caller may see and that every such row is on some page;
- that at most one pending offer exists per ad and buyer;
- that a second payment-intent request reuses the recorded intent;
- that a second Connect-account request is refused.

Each outside service is a parameter:

- the identity provider;
- JWT verification;
- Stripe's answers;
- the storage service;
- JavaScript's `Number(...)` on query strings;
- the clock;
- generated ids;
- whether the store accepts a write.

## Model

| member | source | states |
|---|---|---|
| Database.ParseOfferStatus | types/database.ts:14 | a string parses to an offer status exactly when it is that status's name |
| Database.ParseOrderStatus | types/database.ts:15 | a string parses to an order status exactly when it is that status's name |
| Database.ParsePaymentStatus | types/database.ts:16 | a string parses to a payment status exactly when it is that status's name |
| Database.ParseDeliveryStatus | types/database.ts:17 | a string parses to a delivery status exactly when it is that status's name |
| Database.ParseClaimStatus | types/database.ts:18 | a string parses to a claim status exactly when it is that status's name |
| Database.ParseClaimType | types/database.ts:19 | a string parses to a claim type exactly when it is that type's name |
| Database.ParseAdType | types/database.ts:10 | a string parses to an ad type (`Enchère`, `Achat Direct`) exactly when it is its name |
| Database.ParseMerchandiseType | types/database.ts:11 | a string parses to a merchandise type exactly when it is its name |
| Database.ParseAvailability | types/database.ts:12 | a string parses to an availability exactly when it is its name |
| Database.ParseCategory | types/database.ts:13 | a string parses to a category exactly when it is its name |
| Database.ParseAdminRole | lib/api/admin-middleware.ts:9 | a string parses to an admin role (`Executif`, `Admin`, `Member`) exactly when it is its name |
| Database.OfferStatusClosed | types/database.ts:14 | there are exactly the 4 offer statuses of the union |
| Database.OrderStatusClosed | types/database.ts:15 | there are exactly the 8 order statuses of the union |
| Database.PaymentStatusClosed | types/database.ts:16 | there are exactly the 6 payment statuses of the union |
| Database.DeliveryStatusClosed | types/database.ts:17 | there are exactly the 7 delivery statuses of the union |
| Database.ClaimStatusClosed | types/database.ts:18 | there are exactly the 5 claim statuses of the union |
| Store.Db.constructor | types/database.ts:29-500 | a new store holds the given tables and column defaults |
| Store.Matching | types/database.ts:29-500 | a filtered read returns only rows of the table that satisfy the filter, and every such row |
| Store.CountNone | types/database.ts:29-500 | no row satisfying the filter means a count of zero |
| Store.MatchingAppend | types/database.ts:29-500 | appending a row extends the filtered read and its count by that row exactly when it matches |
| Store.Single | types/database.ts:29-500 | `.single()` yields a row exactly when exactly one row matches, and that row is the only match |
| Store.UpdateWhere | types/database.ts:29-500 | `.update(..).eq(..)` rewrites exactly the matching rows and keeps the length and the order |
| Store.UpdateNothing | types/database.ts:29-500 | an update that matches no row leaves the table unchanged |
| Store.MapRows | types/database.ts:29-500 | applying a change to every row keeps the length and changes each row |
| Store.MatchingAfterUpdate | types/database.ts:29-500 | an update that keeps rows matching maps the matches and keeps their count |
| Store.SingleAfterUpdate | types/database.ts:29-500 | after such an update, `.single()` finds the updated version of the row it found before |
| Store.SingleAfterMap | types/database.ts:29-500 | rewriting every row with a function that keeps the filter's column, `.single()` finds the rewritten version of the row it found before, and nothing when it found nothing |
| Store.CountAtMostOne | types/database.ts:29-500 | a table where no two rows match has at most one match |
| Store.AtMostOneAppend | types/database.ts:29-500 | appending a row keeps at most one match when the table had no match or the row does not match |
| Paging.NewestFirst | pages/api/public/offers/index.ts:23 | the listing order is the reverse of insertion order, row for row |
| Paging.CeilDiv | pages/api/public/ads/index.ts:71 | `Math.ceil(total / limit)`: the least page count whose pages hold the total |
| Paging.Window | pages/api/public/ads/index.ts:36 | `.range(offset, offset + limit - 1)` returns at most `limit` consecutive rows starting at the offset |
| Paging.Paginate | pages/api/public/offers/index.ts:11-50 | a page exists exactly for a valid page and limit, with the total, the page count and the window at `(page - 1) * limit` |
| Paging.PageAt | pages/api/public/offers/index.ts:13-24 | a page holds its number, its limit, the total and the newest-first window |
| Paging.PagesCoverListing | pages/api/public/offers/index.ts:13-24 | the row at position `i` of the listing is on page `i / limit + 1`, which is within the page count |
| Paging.PositionOnPage | pages/api/public/offers/index.ts:13-24 | position `i` splits into a page and an offset within the limit, and the page is within the page count |
| Paging.PageRowsSelected | pages/api/public/offers/index.ts:23-24 | every row on a page is a row of the filtered listing |
| Paging.ListedRowsSelected | pages/api/public/offers/index.ts:11-50 | a listed page holds at most `limit` rows, all from the filtered listing |
| Paging.EveryRowListed | pages/api/public/offers/index.ts:23-24 | every row of the filtered listing is on some page |
| Paging.QueryNumber | pages/api/public/offers/index.ts:11-12 | a missing or empty query parameter takes its default, and any other is passed to `Number` |
| Paging.ListingOf | pages/api/public/offers/index.ts:35-50 | answer 200 with the page for a valid page and limit, and 400 without a page otherwise |
| Paging.DefaultWindow | pages/api/public/offers/index.ts:11-12 | with no query, the listing is page 1 of 20 rows |
| Strings.LowerChar | pages/api/public/ads/index.ts:53-55 | upper-case ASCII letters become lower case and every other character is kept |
| Strings.Lower | pages/api/public/ads/index.ts:53-55 | lower-casing works character by character and keeps the length |
| Strings.LowerKeepsOthers | pages/api/public/ads/index.ts:53-55 | a character that is not a letter occurs in the lowered string exactly when it occurs in the original |
| Strings.LowerIdempotent | lib/upload/storage.ts:60-62 | lower-casing twice is lower-casing once |
| Strings.LowerAppend | lib/upload/storage.ts:60-62 | lower-casing distributes over concatenation |
| Strings.OrElse | pages/api/public/stripe/create-connect-account.ts:38 | `a \|\| b` on strings: the value when it is present and non-empty, the fallback otherwise |
| Strings.Utf16Length | lib/api/validation.ts:13-24 | a string's length in UTF-16 code units is between its length and twice its length |
| Strings.DigitChar | lib/upload/storage.ts:66 | a digit below ten is written as the decimal digit of that value |
| Strings.DigitValue | pages/api/public/ads/index.ts:104-105 | a character's digit value is below ten exactly for decimal digits |
| Strings.NatToString | lib/upload/storage.ts:66 | the decimal rendering of a number is non-empty, has no leading zero and reads back as the number |
| Strings.TrimStart | pages/api/public/ads/index.ts:104-105 | `parseInt` drops exactly the leading white space |
| Strings.DigitPrefix | pages/api/public/ads/index.ts:104-105 | `parseInt` reads the longest prefix of digits |
| Strings.Signed | pages/api/public/ads/index.ts:104-105 | a sign negates the magnitude, and no magnitude gives no number |
| Strings.DigitPrefixOfDigits | pages/api/public/ads/index.ts:104-105 | digits followed by a non-digit have exactly those digits as their prefix |
| Strings.UnsignedValueOfDecimal | pages/api/public/ads/index.ts:104-105 | a rendered number followed by a non-digit reads back as that number |
| Strings.ParseIntUnsigned | pages/api/public/ads/index.ts:104-105 | `parseInt` of a string starting with a digit is its unsigned value |
| Strings.DigitIsNotSpace | pages/api/public/ads/index.ts:104-105 | a decimal digit is neither white space nor a sign |
| Strings.ParseIntMinus | pages/api/public/ads/index.ts:104-105 | `parseInt` of `-` followed by digits is the negated value |
| Strings.ParseIntOfDecimal | pages/api/public/ads/index.ts:104-105 | `parseInt` reads a rendered number, signed or not, followed by any non-digit text |
| Strings.NotBlankOrSign | pages/api/public/ads/index.ts:104-105 | a rendered number starts with a decimal digit |
| Strings.ParseIntNoDigits | pages/api/public/ads/index.ts:104-105 | text starting with neither a sign nor a digit gives `NaN` (no number) |
| Validation.ValidateBody | lib/api/validation.ts:125-136 | success exactly when the schema accepts, with its data; otherwise the first issue's message, or `Données invalides` when parsing throws |
| Validation.StringOf | lib/api/validation.ts:13-24 | a string field passes exactly when it is a string meeting its length and format rules; other values get `invalid_type` |
| Validation.NumberOf | lib/api/validation.ts:89-94 | a number field passes exactly when it is a number meeting its rules; a non-positive one gets the field's own message |
| Validation.IntegerOf | lib/api/validation.ts:89-94 | an integer field passes with a value of at least 1 exactly when its number passes |
| Validation.EnumOf | lib/api/validation.ts:102-113 | an enum field passes exactly when it is a string naming a member |
| Validation.StringsOf | lib/api/validation.ts:116-122 | an array of strings passes with those strings in order |
| Validation.BoolOf | lib/api/validation.ts:26-37 | a boolean field passes exactly when it is a boolean |
| Validation.Required | lib/api/validation.ts:13-24 | a missing required key fails as `Required`, and a present one is parsed |
| Validation.Optional | lib/api/validation.ts:26-37 | a missing optional key passes as absent, and a present one passes or fails as its parser does |
| Validation.WithDefault | lib/api/validation.ts:40-74 | a missing key with a default takes the default, and a present one is parsed |
| Validation.ParseCreateOffer | lib/api/validation.ts:89-94 | an offer body passes exactly when valid; a malformed `ad_id` gets `ID annonce invalide` |
| Validation.ParseOfferDecisionStatus | lib/api/validation.ts:96-99 | only `accepted`, `rejected` and `cancelled` are decisions, and never `pending` |
| Validation.ParseUpdateOffer | lib/api/validation.ts:96-99 | an offer update passes exactly with a decision status and an optional string `seller_response`; the result carries that status and the given `seller_response` (none when absent) |
| Validation.ParseUpdateOrderStatus | lib/api/validation.ts:102-113 | an order-status update passes exactly when `status` names an order status |
| Validation.ParseCreateClaim | lib/api/validation.ts:116-122 | a claim body passes exactly when valid; the result carries the given order, type, subject and description, and the given photos in order (empty when absent) |
| Validation.ParseAddress | lib/api/validation.ts:4-10 | an address passes exactly when its four required strings and optional extra line are valid |
| Validation.EmailOf | lib/api/validation.ts:15 | an e-mail field passes exactly when it is a string the e-mail check accepts |
| Validation.ParseRegistration | lib/api/validation.ts:13-24 | a registration passes exactly when valid; the result carries every given key (e-mail, password, names, telephone, company fields, none when absent), with `is_only_buyer` false by default |
| Validation.ParseUserPatch | lib/api/validation.ts:26-37 | a profile patch passes exactly when each present key is valid; each field of the result is the given value (the parsed address for the two addresses), none when absent; the empty object patches nothing |
| Validation.Key | lib/api/validation.ts:40-76 | the same key is required in the creation schema and optional in its `.partial()` |
| Validation.KeyWithDefault | lib/api/validation.ts:40-76 | the creation schema fills the default and `.partial()` leaves a missing key absent |
| Validation.ParseAdHead | lib/api/validation.ts:41-51 | the ad's title, other information, photos, type, auction duration and merchandise type pass exactly when valid; each field of the result is the given value (the named member for the two enumerations), none when absent, and photos default to empty in a complete body |
| Validation.ParseAdPrices | lib/api/validation.ts:52-58 | the ad's weight, best-before date, availability and prices pass exactly when valid; each field of the result is the given value, none when absent, and availability defaults to `Immediate` in a complete body |
| Validation.ParseAdTail | lib/api/validation.ts:59-73 | the ad's quantities, pallets, files and category pass exactly when valid; each field of the result is the given value (the whole number for the counts), none when absent, and additional files default to empty in a complete body |
| Validation.ParseAdKeys | lib/api/validation.ts:40-76 | every key of an ad body passes exactly when valid, a complete body fills every field, and the result is what each key carries (`ReadAdKeys`), defaults filled in only for a complete body |
| Validation.ParseCreateAd | lib/api/validation.ts:40-74 | an ad creation body passes exactly when valid; each of the nineteen columns is the given value, photos and additional files default to empty and availability to `Immediate` |
| Validation.ParseUpdateAd | lib/api/validation.ts:76 | an ad patch passes exactly when each present key is valid; each field is the given value and an absent key stays absent, with no default filled in |
| Validation.CreateAdBodyIsUpdate | lib/api/validation.ts:40-76 | every valid creation body is a valid patch, and so is the empty object |
| Validation.CompleteKeysArePartial | lib/api/validation.ts:40-76 | keys valid for creation are valid for the patch |
| Validation.ParseSearch | lib/api/validation.ts:78-86 | a search passes exactly when valid, with `page >= 1` and `1 <= limit <= 100`; category, type, prices and search text are the given values (none when absent), page defaults to 1 and limit to 20 |
| Middleware.Call | lib/api/middleware.ts:16-17 | calling a middleware wraps its argument, calling an async function yields a promise, and calling a promise throws |
| Middleware.Combine | lib/api/middleware.ts:57-59 | the seedless `reduce` throws on no middleware and is the middleware itself for one |
| Middleware.BearerToken | lib/api/middleware.ts:21-25 | a token exists exactly for a header starting with `Bearer `, and it is the rest of the header |
| Middleware.BearerRoundTrip | lib/api/middleware.ts:21-25 | the token of `Bearer ` followed by a token is that token |
| Middleware.BearerCaseSensitive | lib/api/middleware.ts:21-23 | a lower-case `bearer`, a bare `Bearer` and a missing header give no token |
| Middleware.AdminFor | lib/api/admin-middleware.ts:32-55 | an admin is attached exactly for a verified token whose id is the one matching row, and that row is active |
| Middleware.WithAuthGate | lib/api/middleware.ts:16-44 | 401 without a token or without a user, 500 when the provider throws, else the handler runs with the user set |
| Middleware.WithMethodsGate | lib/api/middleware.ts:46-55 | 405 exactly when the method is not allowed, else the handler runs on the same request |
| Middleware.ServeKeepsUser | lib/api/middleware.ts:33-38 | no gate removes a user that is already attached |
| Middleware.ServeAuthSetsUser | lib/api/middleware.ts:16-44 | whatever `withAuth` wraps runs only for a resolved token and with a user attached |
| Middleware.CombineWrapsFirst | lib/api/middleware.ts:57-59 | for two or more middlewares, the last wraps the rest, the first is innermost, and applying the result to a handler yields a promise |
| AdminMiddleware.WithAdminAuthGate | lib/api/admin-middleware.ts:20-61 | 401 unless the token names one active admin row, else the handler runs with that admin attached |
| AdminMiddleware.AdminAuthRefusals | lib/api/admin-middleware.ts:25-36 | a missing `Bearer ` header, or a token that fails verification, is answered 401 |
| AdminMiddleware.InactiveAdminRefused | lib/api/admin-middleware.ts:39-47 | an inactive admin is refused with 401 |
| AdminMiddleware.AdminRowUnique | lib/api/admin-middleware.ts:39-43 | when `.single()` found an admin, it is every row with that id |
| AdminMiddleware.WithAdminRoleGate | lib/api/admin-middleware.ts:63-72 | no admin throws, a listed role reaches the handler and any other role gets 403 |
| AdminMiddleware.CombineAdminPair | lib/api/admin-middleware.ts:74-76 | combining `withAdminAuth` and `withAdminRole(roles)` is `withAdminRole(roles)(withAdminAuth)` |
| AdminMiddleware.AdminUsersPostAsWritten | pages/api/admin/admin-users/index.ts:100-104 | as written, every POST to the admin-users route throws before any gate runs |
| AdminMiddleware.CommissionsExportAsWritten | pages/api/admin/commissions/custom.ts:85 | as written, the custom-commission route exports a promise, so every request to it throws |
| AdminMiddleware.AdminForHeaderOnly | lib/api/admin-middleware.ts:20-58 | the admin `withAdminAuth` finds depends on the `Authorization` header alone, not on what earlier gates attached |
| AdminMiddleware.ComposeReachedIffAllAdmit | lib/api/admin-middleware.ts:20-76 | a chain of gates composed first-outermost lets a request reach the handler exactly when every gate admits it and every role check follows the authentication that sets `req.admin`; the handler sees the request's method and header |
| AdminMiddleware.ComposedAdminGate | lib/api/admin-middleware.ts:20-76 | the intended composition reaches the handler exactly for an active admin of an allowed role, and answers 401 or 403 otherwise |
| AdminMiddleware.AdminUsersPostCorrected | pages/api/admin/admin-users/index.ts:98-107 | once corrected, an `Executif` reaches the admin-creation handler and every other admin gets 403 |
| AdminMiddleware.LogAdminActivity | lib/api/admin-middleware.ts:79-101 | an accepted insert appends exactly one log row holding every argument, metadata included, and an ignored failure changes nothing |
| Storage.SizeLimits | lib/upload/storage.ts:79-80 | the limits are 5 MiB for images and 10 MiB for files |
| Storage.LastSegment | lib/upload/storage.ts:60-62 | the text after the last dot is a dot-free suffix |
| Storage.LastSegmentNoDot | lib/upload/storage.ts:60-62 | a name without a dot is its own last segment |
| Storage.LastSegmentAfterDot | lib/upload/storage.ts:60-62 | the last segment of text, a dot and a dot-free tail is that tail |
| Storage.GetFileExtension | lib/upload/storage.ts:60-62 | the extension is the lower-cased, dot-free text after the last dot, or the whole name without a dot |
| Storage.FileExtensionCases | lib/upload/storage.ts:60-62 | the empty name and a name ending in a dot have no extension, and a dot-free name is its own extension |
| Storage.GenerateUniqueFileName | lib/upload/storage.ts:64-69 | the generated path starts with the user's folder and keeps the original's extension |
| Storage.GeneratedShape | lib/upload/storage.ts:64-69 | the path starts with its prefix and ends with the dot and extension |
| Storage.ExtensionOfGenerated | lib/upload/storage.ts:64-69 | appending a dot and an extension gives a name with that extension |
| Storage.ImageTypes | lib/upload/storage.ts:71-84 | exactly JPEG, JPG, PNG and WebP are image types; the empty type and GIF are refused |
| Storage.DocumentTypes | lib/upload/storage.ts:71-84 | exactly PDF, Excel (`xls` and `xlsx`) and CSV are document types; the empty type and PNG are refused |
| Storage.SizeBoundInclusive | lib/upload/storage.ts:86-88 | a size equal to the limit is accepted and one byte more is refused |
| Upload.Bucket | pages/api/public/upload/image.ts:58 | images go to profile pictures for `profile` and to ad photos otherwise; documents go to listings for `listing` and to ad documents otherwise |
| Upload.Admit | pages/api/public/upload/image.ts:22-58 | 405 for a method other than POST, 500 for a broken form, 400 with no file or a refused type or size, else the bucket and the generated path |
| Upload.HandleUpload | pages/api/public/upload/image.ts:21-79 | 200 exactly when the file is admitted and stored, 500 with the storage error, else the refusal |
| Upload.ImageLimits | pages/api/public/upload/image.ts:34-49 | a 5 MiB PNG is admitted into ad photos, one byte more is refused, and a missing type is refused |
| Upload.DocumentAdmitted | pages/api/public/upload/document.ts:34-58 | a 10 MiB CSV is admitted: into the listings bucket when its type is `listing`, into the ad-documents bucket when no type is given |
| Upload.DocumentRefused | pages/api/public/upload/document.ts:42-49 | one byte over 10 MiB, or an image type, is refused with 400 |
| Upload.RefusalIgnoresName | pages/api/public/upload/image.ts:22-49 | a refusal does not depend on the clock or the random part of the name |
| Ads.NumberValue | pages/api/public/ads/index.ts:11-19 | a finite `Number` result is a number and `NaN` stays `NaN` |
| Ads.PriceOf | pages/api/public/ads/index.ts:14-15 | a price filter is present exactly when its parameter is non-empty, as its `Number` value |
| Ads.Entry | pages/api/public/ads/index.ts:11-19 | an optional search key appears exactly when it has a value |
| Ads.SearchObject | pages/api/public/ads/index.ts:11-19 | the search object holds page and limit with their defaults, the prices through `Number` exactly when their parameter is non-empty, and the text filters (`category`, `type`, `search`) as given whenever their parameter is given, even empty |
| Ads.AuctionEndDate | pages/api/public/ads/index.ts:102-108 | an end date exists exactly for an auction whose duration parses as an integer, and it is that many hours after now |
| Ads.AdRow | pages/api/public/ads/index.ts:110-126 | the inserted ad carries the fields, the caller as author, the end date and the creation time |
| Ads.HandleAds | pages/api/public/ads/index.ts:9-138 | the answer and the new tables are those of the ads route's specification |
| Ads.CreateAd | pages/api/public/ads/index.ts:77-131 | the answer and the new tables are those of ad creation |
| Ads.Publish | pages/api/public/ads/index.ts:88-131 | the answer and the new tables are those of publishing validated fields |
| Ads.RouteAuthentication | pages/api/public/ads/index.ts:142-147 | only POST is authenticated; a POST without a token gets 401, and a POST that reaches the handler has a user |
| Ads.ListedAdsMatch | pages/api/public/ads/index.ts:10-73 | a listed page comes from a valid search, and every ad on it is active and passes every filter that was given |
| Ads.PageOfMatches | pages/api/public/ads/index.ts:26-73 | for a valid search, every ad on the page is a stored ad that passes the filters |
| Ads.EveryMatchingAdListed | pages/api/public/ads/index.ts:26-58 | conversely, every stored ad that is active and passes each filter the accepted search sets is on some page of the listing |
| Ads.InvalidSearchRefused | pages/api/public/ads/index.ts:21-23 | a limit of 101 or a non-numeric price is answered 400 |
| Ads.DefaultAdWindow | pages/api/public/ads/index.ts:17-18 | with no page or limit, the listing is page 1 of 20 |
| Ads.AuctionOfHours | pages/api/public/ads/index.ts:102-108 | an auction lasting a number of hours ends that many hours after now, whatever non-digit text follows |
| Ads.AuctionEndOf | pages/api/public/ads/index.ts:102-108 | an auction whose duration parses to `h` ends `h` hours after now |
| Ads.NoAuctionEnd | pages/api/public/ads/index.ts:102-108 | a direct purchase, or a duration that is not a number, gets no end date |
| Ads.CreateAdChecks | pages/api/public/ads/index.ts:77-131 | 401 without a user, 400 for an invalid body, else the outcome of publishing the fields |
| Ads.PublishChecks | pages/api/public/ads/index.ts:88-131 | 403 exactly for a buyer-only user, 500 for an end date past the largest date, 400 when the insert fails, else 201 with exactly one ad appended; a refusal writes nothing |
| Ads.FarAuctionFails | pages/api/public/ads/index.ts:102-108 | an auction of more than 2 400 000 000 hours gives an invalid date and a 500 |
| Offers.OfferRow | pages/api/public/offers/index.ts:98-119 | the inserted offer names the ad, its author as seller, the caller as buyer, the price and quantity, and a message only when non-empty |
| Offers.HandleOffers | pages/api/public/offers/index.ts:8-137 | the answer and the new tables are those of the offers route's specification |
| Offers.CreateOfferChecks | pages/api/public/offers/index.ts:54-134 | 400 for an invalid body, 404 for an unknown ad, and 201 exactly for an active ad of someone else with enough stock and no pending offer of the caller; a refusal writes nothing |
| Offers.CreatedOffer | pages/api/public/offers/index.ts:98-133 | a created offer is one row and one `new_offer` notification to the seller, and nothing else changes |
| Offers.WholeStockAllowed | pages/api/public/offers/index.ts:81-83 | an offer for the whole stock is accepted |
| Offers.PriceNotCompared | pages/api/public/offers/index.ts:54-119 | the offered price is never compared with the ad's prices |
| Offers.CreateOfferKeepsPendingUnique | pages/api/public/offers/index.ts:86-96 | creation keeps at most one pending offer per ad and buyer |
| Offers.ListedOffersAreTheCallers | pages/api/public/offers/index.ts:9-51 | every listed offer is one the caller sent or received, and only the side `type` asks for |
| Offers.EveryOfferListed | pages/api/public/offers/index.ts:23-33 | every offer on the requested side is on some page |
| Offers.OtherMethodsRefused | pages/api/public/offers/index.ts:136 | other methods get 405 and change nothing |
| Claims.OtherParty | pages/api/public/claims/index.ts:96-103 | the seller is told when the buyer files, the buyer otherwise |
| Claims.ClaimRow | pages/api/public/claims/index.ts:69-93 | the inserted claim carries the body and the caller as claimant |
| Claims.HandleClaims | pages/api/public/claims/index.ts:8-112 | the answer and the new tables are those of the claims route's specification |
| Claims.CreateClaimChecks | pages/api/public/claims/index.ts:46-108 | 400, 404 and 403 in that order; 201 exactly for a party to the order when the insert succeeds; a refusal writes nothing |
| Claims.CreatedClaim | pages/api/public/claims/index.ts:69-108 | a filed claim is one row and one `new_claim` notification to the other party, and nothing else changes |
| Claims.ListedClaimsAreVisible | pages/api/public/claims/index.ts:9-43 | every listed claim was filed by the caller or concerns an order the caller bought or sold |
| Claims.PartyClaimListed | pages/api/public/claims/index.ts:25-27 | a claim about an order of the caller is on some page, whoever filed it |
| Claims.OtherMethodsRefused | pages/api/public/claims/index.ts:111 | other methods get 405 and change nothing |
| PaymentIntent.ParseOrderRef | pages/api/public/stripe/create-payment-intent.ts:8-10 | the body passes exactly with a UUID `order_id`, else `ID commande invalide` |
| PaymentIntent.Cents | pages/api/public/stripe/create-payment-intent.ts:73-74 | `Math.round(x * 100)` is within half a cent of the amount, rounding halves up, over exact reals (see Left out for doubles) |
| PaymentIntent.CentsExact | pages/api/public/stripe/create-payment-intent.ts:73-74 | a whole number of cents is kept exactly |
| PaymentIntent.RequestFor | pages/api/public/stripe/create-payment-intent.ts:77-89 | the intent asks for the total and the platform fee in cents, in euros, to the seller's account, with the order's ids |
| PaymentIntent.NewPaymentRow | pages/api/public/stripe/create-payment-intent.ts:92-102 | the recorded payment is pending, in `EUR`, with the order's amounts and the intent's id |
| PaymentIntent.RecordedIntent | pages/api/public/stripe/create-payment-intent.ts:57-63 | an intent is reused exactly when one payment row exists for the order and holds a non-empty intent id |
| PaymentIntent.CreatePaymentIntent | pages/api/public/stripe/create-payment-intent.ts:12-113 | the answer and the new tables are those of the payment-intent route's specification |
| PaymentIntent.RefusalsChangeNothing | pages/api/public/stripe/create-payment-intent.ts:12-112 | the status is 200, 400, 403, 404, 405 or 500; only 200 carries an intent, and every other status writes nothing |
| PaymentIntent.CreatePaymentIntentChecks | pages/api/public/stripe/create-payment-intent.ts:12-89 | the checks in order: 405 for another method, 400 for a body without a UUID order id, 404 for an unknown order, 403 for another buyer's order, 400 for an order not awaiting payment, 500 without a seller row, 400 when the seller has no connected account; past them 200 exactly when the processor answers, fetching the recorded intent or creating one |
| PaymentIntent.ValidationFlagIgnored | pages/api/public/stripe/create-payment-intent.ts:26-54 | the seller's `validated_by_stripe`, although selected, never changes the answer, the intent or any table |
| PaymentIntent.OnlyBuyerOfPendingOrderPays | pages/api/public/stripe/create-payment-intent.ts:26-54 | a 200 means a POST for a found order, whose buyer is the caller, awaiting payment, and whose seller has an account |
| PaymentIntent.ForeignOrderRefused | pages/api/public/stripe/create-payment-intent.ts:40-42 | an order of another buyer is refused with 403 and nothing is written |
| PaymentIntent.RecordedIntentReused | pages/api/public/stripe/create-payment-intent.ts:57-70 | with a recorded intent, nothing is written and a 200 returns the retrieved intent |
| PaymentIntent.NewIntentRecorded | pages/api/public/stripe/create-payment-intent.ts:72-108 | without one, a 200 creates the intent for the amounts in cents and appends exactly its payment row |
| PaymentIntent.OrdersUntouched | pages/api/public/stripe/create-payment-intent.ts:12-112 | only the payments change, by at most one appended row |
| PaymentIntent.SecondRequestReuses | pages/api/public/stripe/create-payment-intent.ts:57-108 | after a first success, a second request writes nothing and the intent is recorded for the order |
| PaymentIntent.CentsExamples | pages/api/public/stripe/create-payment-intent.ts:73-74 | 12.345 gives 1235, 12.344 gives 1234 and 99.99 gives 9999 |
| ConnectAccount.AccountRequestFor | pages/api/public/stripe/create-connect-account.ts:28-42 | a non-empty company name makes a company with that name; otherwise an individual named by first and last name; the contacts are the user's |
| ConnectAccount.CreateConnectAccount | pages/api/public/stripe/create-connect-account.ts:6-67 | the answer and the new tables are those of the Connect-account route's specification |
| ConnectAccount.NothingWrittenWithoutAccount | pages/api/public/stripe/create-connect-account.ts:7-48 | 200 exactly with an account and a link, and the tables change only after the processor has created an account |
| ConnectAccount.AccountIdStored | pages/api/public/stripe/create-connect-account.ts:44-62 | the account id is stored on the caller alone, even when the link then fails, and `validated_by_stripe` is left as it was |
| ConnectAccount.SecondAccountRefused | pages/api/public/stripe/create-connect-account.ts:23-25 | after a stored account, a second request gets 400 and changes nothing |
| ConnectAccount.BusinessProfile | pages/api/public/stripe/create-connect-account.ts:36-38 | examples of the business type and name with and without a company name |
| Webhook.HandleWebhook | pages/api/public/stripe/webhook.ts:22-184 | the answer and the new tables are those of the webhook's specification |
| Webhook.OnSucceeded | pages/api/public/stripe/webhook.ts:50-109 | the new tables are those of `payment_intent.succeeded` |
| Webhook.OnFailed | pages/api/public/stripe/webhook.ts:111-143 | the new tables are those of `payment_intent.payment_failed` |
| Webhook.RefusedRequestsChangeNothing | pages/api/public/stripe/webhook.ts:22-46 | 405 for a method other than POST, 400 for a missing or rejected signature, and no refusal writes anything |
| Webhook.VerifiedEventAcknowledged | pages/api/public/stripe/webhook.ts:49-179 | every verified event is answered 200 |
| Webhook.SucceededMarksPaymentAndOrder | pages/api/public/stripe/webhook.ts:54-70 | the intent's payment rows become `succeeded` with the charge and the time, the order's rows become `payment_received`, the other rows are kept, no table besides payments, orders, deliveries and notifications changes, and the last two are kept when the order is not found afterwards |
| Webhook.SucceededOpensDelivery | pages/api/public/stripe/webhook.ts:73-105 | with the order found, one pending delivery and the buyer's and the seller's notifications are appended |
| Webhook.SucceededReplayOpensSecondDelivery | pages/api/public/stripe/webhook.ts:50-109 | replaying the event opens a second delivery for the same order |
| Webhook.SucceededWithoutPayment | pages/api/public/stripe/webhook.ts:54-63 | with no payment for the intent, nothing changes and the answer is 200 |
| Webhook.SucceededOnSeveralPaymentsRolledBack | pages/api/public/stripe/webhook.ts:54-63 | with several payments for the intent, the singular update is rolled back and no table changes |
| Webhook.SucceededOnceIdempotent | pages/api/public/stripe/webhook.ts:50-109 | the redelivery-safe handling of `payment_intent.succeeded` changes nothing on a second delivery of the event, and on a first one does all the written handler does |
| Webhook.FailedTouchesOnlyPayment | pages/api/public/stripe/webhook.ts:111-143 | the intent's payments become `failed`; every other table is kept except the notifications, which gain one `payment_failed` notice to the order's buyer exactly when one payment carries the intent and its order is found |
| Webhook.AccountValidation | pages/api/public/stripe/webhook.ts:145-156 | users of the account are validated only when charges and payouts are both enabled; the flag is never cleared |
| Webhook.TransferMarksPayment | pages/api/public/stripe/webhook.ts:158-173 | an order id in the metadata marks that order's payments as transferred; without one nothing changes |
| Webhook.OtherEventsIgnored | pages/api/public/stripe/webhook.ts:175-179 | any other event type gets 200 and changes nothing |

## Left out

- Concurrency: two requests running at once, and the races between a read and the following write, are not modelled. Every handler runs on one snapshot.
- Response bodies, messages and headers are not modelled beyond the status code and the returned page, intent or account. The one exception is the validation message.
- Errors thrown by the store or by the processor:
  - A thrown `try` block answering 500 is modelled only where the model has an oracle for it (the processor, the identity provider, the upload form).
  - A store read or write that fails is modelled only where the handler checks its result. Where a route handler ignores the result, the write is parameterised as applied or not (`stored`, `accepted`).
  - The webhook's writes (pages/api/public/stripe/webhook.ts:55-70, 81-105, 114-117, 151-154, 165-171) ignore their results and are modelled as always landing. A failing update or insert there is not modelled.
  - Failed notification inserts are not modelled.
- `uploadFile` and `deleteFile` (lib/upload/storage.ts:11-58) are the storage service. `uploadFile` is the `upload` parameter of `Upload.HandleUpload`, and `deleteFile` is not called by any modelled route. Public-URL generation is not modelled.
- Formidable's own `maxFileSize` refusal: a form whose file exceeds the parser limit is modelled as a broken form (`form` is `Err`).
- Reading the raw webhook body, and Stripe's signature check, are the `Verification` parameter. `getRawBody` throwing is not modelled.
- `.single()` on several matching rows is modelled as "no row", as PostgREST reports it. The error value itself is not modelled. On an update (`Webhook.Succeeded`), a singular answer other than one row also rolls the update back, so the tables are kept.
- PostgREST's `or()` string filters and the `%` and `_` wildcards of `ilike` are not modelled:
  - The ads search is a case-insensitive substring test.
  - The claims `or` filter, which names columns of the embedded order, is modelled as the visibility it is meant to express: the claimant, or a party to the order.
- Row-level security for the anonymous client of the ads GET is not modelled; every stored ad is visible to the query.
- Ads.HandleAds: an anonymous POST cannot reach the handler through the route (`Ads.RouteAuthentication`). The handler's own 401 for a missing user is still modelled.
- Floating point is modelled by exact reals. `Number(...)` on query strings is an oracle whose infinite results are not distinguished from other numbers. `Math.round` is `floor(x + 1/2)`.
- PaymentIntent.Cents: rounds the exact product. In doubles the product can fall just below a half, so `Math.round(1.005 * 100)` is 100 while `Cents(1.005)` is 101.
- Strings.Lower: only ASCII letters are case-folded. Other Unicode case mappings are not modelled.
- Strings.ParseIntOfDecimal: `parseInt` is modelled for decimal input and the `0x` prefix. Its loss of precision on more than 15 or so digits is not modelled.
- zod's default wording is kept as the issue code, not its English text. The e-mail check is a parameter, and a UUID is any 8-4-4-4-12 hexadecimal string regardless of its version digit.
- Query parameters given as arrays are not modelled; each is an optional string.
- Paging.Paginate: a page or a limit that is not a whole number at least 1 (for instance `?page=0`, `?limit=0`, `?limit=-5` or `?page=1.5`) is modelled as a store error (400). This is weaker than the source in two ways. First, a fractional page does not always fail: `?page=1.5&limit=20` gives offset `(1.5 - 1) * 20 = 10` and `.range(10, 29)`, so the route answers 200 with a page. With an odd limit the offset itself is fractional (`?page=1.5&limit=15` gives 7.5), and what the store makes of a fractional bound is not modelled. Second, `?limit=0` gives the window `.range(0, -1)`, which PostgREST may answer with an empty page rather than an error.
- Middleware.ServeKeepsUser: states only that an attached user stays attached, not that it is the same user, because an inner `withAuth` replaces it.
- `pages/api/public/offers/[id].ts` and `pages/api/public/orders/[id]/confirm-delivery.ts`, which move offers and orders through their statuses, are not part of this model. Only the schemas they validate with are modelled.
- The `request.ip` of the admin activity log is a parameter, and the clock is the `now` parameter.

## Findings

| source | as written | input that shows it | evidently intended | confidence | as-written member | corrected member |
|---|---|---|---|---|---|---|
| pages/api/admin/admin-users/index.ts:100-104 | the POST branch calls `combineAdminMiddleware(withAdminAuth, withAdminRole(['Executif']))(handler)(req, res)`; the seedless `reduce` makes this `withAdminRole(['Executif'])(withAdminAuth)`, so `(handler)` returns a promise and `(req, res)` calls a promise | any POST, even with a valid token of an active `Executif` | `withAdminAuth` outermost and `withAdminRole(['Executif'])` inside it, so an `Executif` reaches the handler and other admins get 403 | not executed | AdminMiddleware.AdminUsersPostAsWritten | AdminMiddleware.AdminUsersPostCorrected |
| pages/api/admin/commissions/custom.ts:85 | the default export is `combineAdminMiddleware(withAdminAuth, withAdminRole([...]))(handler)`, which for the same reason is a promise, not a request handler | any request to the route | the handler guarded by `withAdminAuth`, then the role check | not executed | AdminMiddleware.CommissionsExportAsWritten | AdminMiddleware.ComposedAdminGate |
| pages/api/public/stripe/webhook.ts:50-109 | every delivery of `payment_intent.succeeded` inserts a delivery row and two notifications, with no check that the payment had already succeeded | the processor redelivers the same event after a first successful handling | a redelivered event changes nothing more | not executed | Webhook.SucceededReplayOpensSecondDelivery | Webhook.SucceededOnceIdempotent |
