# Confeitaria, modelled in Dafny

Confeitaria is a desktop bakery ordering application. The shop has a single shared
shopping cart, an insertion-ordered map from product id to quantity. The cart screen
projects the cart into priced rows and a subtotal. At checkout the screen computes the
subtotal and the delivery fee. The checkout controller then validates the order, writes one
order header, and writes one item per cart entry whose product still resolves. It stops at
the first failed write and never rolls back. Around this pipeline sit:

- the entity factories, which are guard clauses with trimming and blank-to-null normalisation;
- the login and sign-up use cases, with their password arrays zeroed in place;
- the one-field session;
- the admin e-mail whitelist;
- start-up seeding from `areas.csv`;
- the database configuration lookup.

This project models that core and proves what it promises. The modules follow the program:

- `CartSession`: the cart as a class (`Cart`). It has an ordered key sequence and a quantity
  map, and pure functions specify each method.
- `ControllerCart`: adding a product to the cart.
- `Pricing`: the unit price, `base + size + level`.
- `CartView`: cart rows and their subtotal.
- `Checkout`: `confirmOrder` over the store class `OrderStore`.
- `ViewCheckout`: the checkout screen's fields, totals and confirmation logic.
- `OrderItemSummary`: one order line.
- `Session` and `EmailWhitelist`; `AccessRules` holds the home screen's gates.
- `Factories`: all eight entity factories.
- `ControllerLogin` and `ControllerCadastro`: login and sign-up.
- `SeedService` and `DbConnection`: seeding and configuration.
- `Common`, `JavaString` and `Entities`: shared pieces. `Common` has options, results, the
  exception kinds and 32-bit arithmetic. `JavaString` has Java's `trim`, `isBlank` and
  `toLowerCase`. `Entities` has the records.

How the model represents the program:

- Money is integer cents.
- A Java `null` is an `Option`.
- A thrown exception is a `Failure` value that carries the source's message.
- A database table is a map or sequence of rows.
- A repository lookup answers `Found`, `Absent` or `SqlError`.

## Model

| member | source | states |
|---|---|---|
| `CartSession.AddKeepsInv` | confeitaria/src/app/CartSession.java:47-52 | `add` keeps the cart invariant: each key once, the key set equal to the iteration order, every quantity a positive `int` |
| `CartSession.SetKeepsInv` | confeitaria/src/app/CartSession.java:69-76 | `set` keeps the same invariant |
| `CartSession.RemovedKeepsInv` | confeitaria/src/app/CartSession.java:83-86 | `remove` keeps the same invariant |
| `CartSession.QuantitiesStayPositive` | confeitaria/src/app/CartSession.java:47-76 | after `add` or `set`, whatever the input, no quantity is 0 or negative |
| `CartSession.AddTwiceAccumulates` | confeitaria/src/app/CartSession.java:41-51 | two adds of one product add both quantities to what was there |
| `CartSession.SetOverwrites` | confeitaria/src/app/CartSession.java:60-75 | `set` with a positive quantity stores exactly it, and a second `set` overwrites the first |
| `CartSession.SetNonPositiveRemoves` | confeitaria/src/app/CartSession.java:59-74 | `set` with a quantity of 0 or less removes the product and keeps the other lines |
| `CartSession.InvalidInputIsIgnored` | confeitaria/src/app/CartSession.java:48-70 | a null product or a product without id leaves the cart unchanged for `add` and `set`, and an `add` of any quantity of 0 or less leaves it unchanged for every product |
| `CartSession.InsertionOrder` | confeitaria/src/app/CartSession.java:27-76 | a new key goes to the end of the iteration order; an existing key keeps its place |
| `CartSession.RemoveOnlyThatKey` | confeitaria/src/app/CartSession.java:83-86 | `remove(null)` or an absent id changes nothing; otherwise only that key leaves, and the rest keep their quantities and order |
| `CartSession.EmptyIffNoKeys` | confeitaria/src/app/CartSession.java:111-113 | under the invariant, the map is empty exactly when no key is in the order |
| `CartSession.RunKeepsInv` | confeitaria/src/app/CartSession.java:47-94 | every sequence of `add`/`set`/`remove`/`clear` calls keeps the invariant |
| `CartSession.MergeAsWritten` | confeitaria/src/app/CartSession.java:51 | `merge` as Java runs it: the key is present afterwards, no other key is added or changed, the stored quantity is always an `int`, and it is the exact sum whenever that sum fits |
| `CartSession.AddOp` | confeitaria/src/app/CartSession.java:47-52 | a null product, a product without id or a quantity of 0 or less leaves the cart as it was; otherwise only that product's key may be added, and every other quantity is kept |
| `CartSession.SetOp` | confeitaria/src/app/CartSession.java:69-76 | a null product or one without id changes nothing; that product is present afterwards exactly when the quantity is positive, and then holds exactly that quantity; every other key and quantity is kept |
| `CartSession.RemoveOp` | confeitaria/src/app/CartSession.java:83-86 | afterwards the keys are the old ones minus the given id, each with its old quantity |
| `CartSession.EntriesOf` | confeitaria/src/app/CartSession.java:102-104 | one entry per key in iteration order, and every entry is a key of the cart with non-null id and quantity equal to the quantity the cart holds |
| `CartSession.MergeAsWrittenOverflows` | confeitaria/src/app/CartSession.java:51 | as written, adding 1 to a quantity of `Integer.MAX_VALUE` stores `Integer.MIN_VALUE` and breaks the invariant |
| `CartSession.MergedAgreesWithoutOverflow` | confeitaria/src/app/CartSession.java:51 | wherever the sum does not overflow, the corrected merge equals the written one |
| `CartSession.Cart.constructor` | confeitaria/src/app/CartSession.java:27 | the cart starts empty and valid |
| `CartSession.Cart.Add` | confeitaria/src/app/CartSession.java:47-52 | the new cart is `AddOp` of the old one (with the overflow corrected), and stays valid |
| `CartSession.Cart.Set` | confeitaria/src/app/CartSession.java:69-76 | the new cart is `SetOp` of the old one, and stays valid |
| `CartSession.Cart.Remove` | confeitaria/src/app/CartSession.java:83-86 | the new cart is `RemoveOp` of the old one, and stays valid |
| `CartSession.Cart.Clear` | confeitaria/src/app/CartSession.java:92-94 | the cart becomes empty |
| `CartSession.Cart.GetItems` | confeitaria/src/app/CartSession.java:102-104 | one entry per key in iteration order, each with its stored, positive quantity |
| `CartSession.Cart.IsEmpty` | confeitaria/src/app/CartSession.java:111-113 | true exactly when there are no keys, and exactly when the map is empty |
| `Session.SessionState.constructor` | confeitaria/src/app/Session.java:14-18 | at start-up nobody is logged in |
| `Session.SessionState.SetLoggedUser` | confeitaria/src/app/Session.java:26-33 | the field becomes the given user; `null` means logged out |
| `Session.SessionState.GetLoggedUser` | confeitaria/src/app/Session.java:35-41 | returns the field |
| `Session.SessionState.IsLoggedIn` | confeitaria/src/app/Session.java:43-52 | true exactly when a user is held whose e-mail is non-null and not blank |
| `Session.SessionState.Logout` | confeitaria/src/app/Session.java:54-61 | the field becomes `null`, so `isLoggedIn` is false afterwards |
| `Session.LoggedIn` | confeitaria/src/app/Session.java:50-52 | logged in implies a user whose e-mail is present and non-empty; a present e-mail holding a visible ASCII character always counts |
| `Session.LoggedInNeedsEmail` | confeitaria/src/app/Session.java:44-51 | a user with no e-mail, or one of whitespace only, does not count as logged in; an e-mail starting with a visible character does |
| `EmailWhitelist.NormalizeOfNormal` | confeitaria/src/auth/EmailWhitelist.java:17 | a lower-case string with no blanks around it is its own lookup key |
| `EmailWhitelist.ThreeAddresses` | confeitaria/src/auth/EmailWhitelist.java:7-11 | the set holds three distinct addresses |
| `EmailWhitelist.ExactlyThree` | confeitaria/src/auth/EmailWhitelist.java:7-17 | the three listed addresses are allowed as written, and `null` is refused |
| `EmailWhitelist.TrimLower` | confeitaria/src/auth/EmailWhitelist.java:17 | trimming and lower-casing commute |
| `EmailWhitelist.CaseDoesNotMatter` | confeitaria/src/auth/EmailWhitelist.java:17 | two e-mails that differ only in letter case are both allowed or both refused |
| `EmailWhitelist.PaddingDoesNotMatter` | confeitaria/src/auth/EmailWhitelist.java:17 | whitespace around an e-mail does not change the answer |
| `EmailWhitelist.AllowedMeansListed` | confeitaria/src/auth/EmailWhitelist.java:15-18 | allowed exactly when the trimmed, lower-cased e-mail is one of the three addresses |
| `EmailWhitelist.Normalize` | confeitaria/src/auth/EmailWhitelist.java:17 | the lookup key is as long as the trimmed e-mail, has no upper-case ASCII letter, and has no whitespace at either end |
| `EmailWhitelist.IsAllowed` | confeitaria/src/auth/EmailWhitelist.java:15-18 | an allowed e-mail is non-null and not blank after trimming |
| `AccessRules.AdminImpliesShop` | confeitaria/src/view/ViewHome.java:171-213 | the administration screen needs everything the shop needs, and a listed e-mail besides; nobody logged out opens either |
| `AccessRules.LogoutClosesBoth` | confeitaria/src/view/ViewHome.java:171-213 | with the session empty, neither screen opens |
| `AccessRules.CanOpenShop` | confeitaria/src/view/ViewHome.java:171-180 | the shop opens only for a session user whose e-mail is present and non-empty |
| `AccessRules.CanOpenProductAdmin` | confeitaria/src/view/ViewHome.java:195-214 | the administration screen opens only when the shop would open and the user's e-mail is on the whitelist |
| `JavaString.TrimToNull` | confeitaria/src/model/repositories/DBConnection.java:102-106 | blank-to-null: `None` exactly for null or all-blank input, otherwise the trimmed, non-empty string |
| `JavaString.TrimPadded` | confeitaria/src/auth/EmailWhitelist.java:17 | whitespace added at either end does not change `trim()` |
| `JavaString.Trim` | confeitaria/src/auth/EmailWhitelist.java:17 | `trim()` never lengthens the string, leaves no trimmable char at either end, and is empty exactly when every char is trimmable |
| `JavaString.IsBlank` | confeitaria/src/app/Session.java:51 | `isBlank()`: the empty string is blank, and a blank string holds no visible ASCII character |
| `Common.AddInt32` | confeitaria/src/app/CartSession.java:51 | Java `int` addition: always an `int`, congruent to the true sum modulo 2^32, and equal to it when that sum fits |
| `Pricing.UnitPriceOfCompleteProduct` | confeitaria/src/controller/ControllerCartView.java:99-105 | a product with all three prices recorded costs exactly their sum |
| `Pricing.MissingPartsCountAsZero` | confeitaria/src/controller/ControllerCartView.java:100-103 | a missing base price, size, flavor, level or price adds nothing, the same as a price of 0 |
| `Pricing.UnitPriceMonotonic` | confeitaria/src/controller/ControllerCartView.java:104 | raising any part raises the unit price by exactly that amount and never lowers it |
| `Pricing.UnitPriceNonNegative` | confeitaria/src/controller/ControllerCartView.java:99-105 | no negative recorded price means a non-negative unit price |
| `Pricing.UnitPrice` | confeitaria/src/controller/ControllerCartView.java:99-105 | non-negative parts give a non-negative unit price, and a product with no base price, size or flavor costs 0 |
| `ControllerCart.AddProductCheck` | confeitaria/src/controller/ControllerCart.java:26-34 | accepted exactly for a non-null product and a positive quantity; otherwise the first failed check's `ValidationException` message, in the order of the code |
| `ControllerCart.AddProduct` | confeitaria/src/controller/ControllerCart.java:26-37 | a rejected request fails with its check's message and leaves the cart unchanged; an accepted one is exactly `CartSession.add` |
| `ControllerCart.AcceptedAddGrowsLine` | confeitaria/src/controller/ControllerCart.java:36 | an accepted add raises that product's line by the quantity, makes a new line if needed, and leaves the other lines alone |
| `CartView.RowFor` | confeitaria/src/controller/ControllerCartView.java:71-75 | a row carries the id, name and quantity of its entry, the unit price, and total = unit × quantity |
| `CartView.LoadCartData` | confeitaria/src/controller/ControllerCartView.java:58-79 | the loop's result is `View` of the cart's entries in iteration order: rows and subtotal, or the lookup failure that stopped it |
| `CartView.RemoveByProductId` | confeitaria/src/controller/ControllerCartView.java:88-91 | a null id does nothing; otherwise the product leaves the cart and the cart stays valid |
| `CartView.RowsOkIff` | confeitaria/src/controller/ControllerCartView.java:66-69 | loading fails exactly when a usable entry's lookup hits a database error, and the error is `DataAccessException("Erro ao buscar produto do carrinho.")` |
| `CartView.RowsFailureStops` | confeitaria/src/controller/ControllerCartView.java:68 | once a lookup has failed, later entries do not change the result |
| `CartView.RowsFollowCart` | confeitaria/src/controller/ControllerCartView.java:62-76 | the rows are exactly the usable entries whose product is found, in cart order, each priced from its own product |
| `CartView.RowsDistinct` | confeitaria/src/controller/ControllerCartView.java:62-76 | no product appears in two rows |
| `CartView.SubtotalNonNegative` | confeitaria/src/controller/ControllerCartView.java:72-73 | with no negative price in the catalogue, every line total and the subtotal are non-negative |
| `CartView.EmptyCartView` | confeitaria/src/controller/ControllerCartView.java:59-78 | an empty cart gives no rows and a subtotal of 0 |
| `CartView.Rows` | confeitaria/src/controller/ControllerCartView.java:62-76 | the loop fails only with the product-lookup failure, and produces at most one row per entry |
| `CartView.View` | confeitaria/src/controller/ControllerCartView.java:58-79 | the screen data fails only with "Erro ao buscar produto do carrinho.", has at most one row per entry, and its subtotal is the sum of the rows' totals |
| `Checkout.ValidateOrder` | confeitaria/src/controller/ControllerCheckout.java:93-108 | the request passes exactly when the user id is positive, the total is present and not negative, the delivery is not blank, and the cart is not null or empty; every rejection is a `ValidationException` |
| `Checkout.StoredObservations` | confeitaria/src/controller/ControllerCheckout.java:116 | blank observations are stored as `null`; anything else is stored as given, untrimmed |
| `Checkout.ItemFor` | confeitaria/src/controller/ControllerCheckout.java:129-134 | an item carries the new order's id, the cart's id and quantity, and the product's unit price as looked up now |
| `Checkout.OrderStore.constructor` | confeitaria/src/model/repositories/RepositoryOrder.java:43-57 | the tables that `createOrderAndReturnId` and `createOrderItem` write to start empty; the empty start is a modelling convenience, since every method's contract is stated relative to the tables as they were (`old(...)`) |
| `Checkout.OrderStore.ConfirmOrder` | confeitaria/src/controller/ControllerCheckout.java:86-144 | the result, and the header and item rows appended to the tables, are those of `Confirm`; nothing already written is removed |
| `Checkout.OrderStore.WriteItems` | confeitaria/src/controller/ControllerCheckout.java:122-137 | the loop appends exactly the items of `ItemWrites` and stops with its failure; the header table does not change |
| `Checkout.ItemFailureStops` | confeitaria/src/controller/ControllerCheckout.java:134-142 | after a failed item write, later entries change nothing |
| `Checkout.ValidationFirst` | confeitaria/src/controller/ControllerCheckout.java:93-108 | the guards run in the code's order, each with its own message, and a failed guard writes nothing |
| `Checkout.OneHeaderFirst` | confeitaria/src/controller/ControllerCheckout.java:111-117 | a validated request writes one header with the caller's user and total, the clock's time, the trimmed delivery and the normalised observations; a failed insert writes nothing |
| `Checkout.NoKeyNoItems` | confeitaria/src/controller/ControllerCheckout.java:119-142 | without a generated key no item is written and the call fails with "Não foi possível criar o pedido." (or "Erro ao confirmar pedido." on an `SQLException`); a header row inserted without a key stays |
| `Checkout.ItemsFollowCart` | confeitaria/src/controller/ControllerCheckout.java:122-137 | the items are listed cart entries in cart order, each priced afresh; when nothing failed, every listed entry has its item |
| `Checkout.FailureKeepsEarlierItems` | confeitaria/src/controller/ControllerCheckout.java:134-142 | a failing write leaves the header and all earlier items in place, with no rollback, and the failure is that entry's |
| `Checkout.SuccessReturnsKey` | confeitaria/src/controller/ControllerCheckout.java:139 | success returns the generated key, and every listed entry has been written |
| `Checkout.TotalDoesNotAffectItems` | confeitaria/src/controller/ControllerCheckout.java:111-132 | the header total is whatever the caller passed; the items and the result do not depend on it |
| `Checkout.ItemWrites` | confeitaria/src/controller/ControllerCheckout.java:122-137 | the loop writes at most one item per entry, and every item it writes belongs to the given order |
| `Checkout.Confirm` | confeitaria/src/controller/ControllerCheckout.java:86-144 | a rejected request writes nothing and fails with the guard's error; at most one header is written; no header means no items and a failure; success returns the key of the one header written; every item written belongs to that header's key, at most one per cart entry |
| `ViewCheckout.DeliveryFee` | confeitaria/src/view/ViewCheckout.java:359-373 | the fee is the area's fee of the logged-in user's address, and 0 when the person, the address or the area is missing or the query failed |
| `ViewCheckout.SubtotalFailureStops` | confeitaria/src/view/ViewCheckout.java:335-340 | once a lookup has thrown, the loop's result is the failure whatever follows |
| `ViewCheckout.ComputeSubtotalFromCart` | confeitaria/src/view/ViewCheckout.java:321-345 | the loop returns `Subtotal` of the cart's entries: the sum of unit × quantity over the products found, or 0 after an `SQLException` |
| `ViewCheckout.CheckoutScreen.constructor` | confeitaria/src/view/ViewCheckout.java:96-118 | the screen stays open exactly when someone is logged in and the cart is not empty; only then are the totals computed, with "delivery" selected |
| `ViewCheckout.CheckoutScreen.RecalcTotals` | confeitaria/src/view/ViewCheckout.java:300-307 | a fresh subtotal, and the delivery fee only while "delivery" is selected, 0 otherwise |
| `ViewCheckout.CheckoutScreen.ChooseDelivery` | confeitaria/src/view/ViewCheckout.java:300-302 | switching between delivery and pickup recomputes the totals: pickup has no fee |
| `ViewCheckout.CheckoutScreen.OnConfirm` | confeitaria/src/view/ViewCheckout.java:424-457 | an empty cart changes nothing; otherwise exactly `Confirm` of the screen's last totals, "ENTREGA"/"RETIRADA" and the trimmed observations is written; the cart is cleared and the screen closed only on success |
| `ViewCheckout.CheckoutScreen.PlaceOrder` | confeitaria/src/view/ViewCheckout.java:430-443 | the request carries the user's id, the screen's subtotal plus fee, "ENTREGA" or "RETIRADA", the trimmed observations and the cart's entries; the id or failure returned and the rows written are those of `Confirm`; the cart is not touched |
| `ViewCheckout.CheckoutScreen.SubmitCart` | confeitaria/src/view/ViewCheckout.java:436-456 | the outcome and the rows written are those of `Confirm` on that request; only a confirmed order clears the cart and closes the screen, a failure leaves the cart and the screen as they were, and the totals are never touched |
| `ViewCheckout.SubtotalFailsIff` | confeitaria/src/view/ViewCheckout.java:329-341 | the subtotal loop fails exactly when some entry's lookup throws |
| `ViewCheckout.SubtotalMatchesItems` | confeitaria/src/view/ViewCheckout.java:321-345 | when every entry is usable and every write succeeds, the subtotal equals the sum of the stored items' price × quantity |
| `ViewCheckout.SubtotalMatchesCartView` | confeitaria/src/view/ViewCheckout.java:321-345 | for a cart's entries, the checkout subtotal equals the cart screen's subtotal |
| `ViewCheckout.HeaderTotalMatchesItems` | confeitaria/src/view/ViewCheckout.java:433-444 | with the same catalogue throughout and every item written, the header total is the items' sum plus the fee |
| `ViewCheckout.TotalCanDisagreeWithItems` | confeitaria/src/view/ViewCheckout.java:433-444 | a price change between showing the total and writing the order stores a header total (20.00) that differs from the items' sum (30.00) |
| `ViewCheckout.Subtotal` | confeitaria/src/view/ViewCheckout.java:321-345 | an empty cart, or a cart where any lookup throws, gives a subtotal of 0 |
| `ViewCheckout.RequestFrom` | confeitaria/src/view/ViewCheckout.java:430-444 | the request carries the user's id and the cart's entries, and passes the controller's validation exactly when the user id is positive, subtotal plus fee is not negative and the cart has an entry (both delivery labels always pass) |
| `ViewCheckout.LabelKept` | confeitaria/src/view/ViewCheckout.java:430 | "ENTREGA" and "RETIRADA" are non-empty and unchanged by `trim()` |
| `ViewCheckout.ConfirmEffect` | confeitaria/src/view/ViewCheckout.java:424-457 | an empty cart shows "Carrinho vazio." and changes nothing; no session changes nothing; the screen closes exactly on a confirmed order, which empties the cart, and otherwise the cart is kept; at most one header is written, none means no items, and a confirmed order's id is that header's key |
| `OrderItemSummary.OrderItemSummary.Total` | confeitaria/src/model/entities/OrderItemSummary.java:89-93 | price × quantity when both are present, and 0 when either is `null` |
| `OrderItemSummary.SummaryOf` | confeitaria/src/model/entities/OrderItemSummary.java:43-47 | a stored item's summary carries its name, quantity and price at the moment of the order |
| `OrderItemSummary.SummariesAddUpToItems` | confeitaria/src/model/entities/OrderItemSummary.java:89-93 | the line totals of an order's summaries add up to the stored items' total |
| `Factories.TrimToNullIdempotent` | confeitaria/src/model/factories/AddressFactory.java:53-55 | normalising a value the factory already normalised changes nothing |
| `Factories.TrimmedNotBlank` | confeitaria/src/model/factories/AreaFactory.java:35-44 | a non-empty trimmed name passes the blank check again and is its own trim |
| `Factories.CreateAddress` | confeitaria/src/model/factories/AddressFactory.java:41-60 | accepted exactly with an area, a non-blank street and a CEP that is blank or 8 characters after trimming; otherwise the first failed guard's message in order; the street is trimmed; CEP, complement and reference are blank-to-null and trimmed |
| `Factories.AddressRoundTrip` | confeitaria/src/model/factories/AddressFactory.java:41-60 | rebuilding an address from its own fields gives the same address |
| `Factories.CepOnlyMeasured` | confeitaria/src/model/factories/AddressFactory.java:49-55 | the CEP is only measured: any 8 kept characters pass, other non-blank lengths fail, and a blank CEP is stored as `null` |
| `Factories.CreatePerson` | confeitaria/src/model/factories/PersonFactory.java:36-57 | accepted exactly with a non-blank first name, a non-blank e-mail containing "@" and ".com", and an address; each rejection has its own message in order; names and e-mail are trimmed, a blank last name is `null` |
| `Factories.PersonRoundTrip` | confeitaria/src/model/factories/PersonFactory.java:36-57 | rebuilding a person from its own fields gives the same person |
| `Factories.CreateUser` | confeitaria/src/model/factories/UserFactory.java:40-63 | accepted exactly with a non-blank first name, a valid e-mail, a password of at least 4 characters and a hash that does not throw; every failure is a `ValidationException` with its own message, the hash failure included |
| `Factories.CreateArea` | confeitaria/src/model/factories/AreaFactory.java:34-47 | accepted exactly with a non-blank name and a fee that is present and not negative, giving the trimmed name; otherwise the first failed guard's message |
| `Factories.AreaRoundTrip` | confeitaria/src/model/factories/AreaFactory.java:34-47 | rebuilding an area from its own fields gives the same area, and its fee is not negative |
| `Factories.CreateSize` | confeitaria/src/model/factories/SizeFactory.java:33-50 | accepted exactly with a non-blank name, yield and weight and a price that is present and not negative; the strings are trimmed; otherwise the first failed guard's message |
| `Factories.SizeRoundTrip` | confeitaria/src/model/factories/SizeFactory.java:33-50 | rebuilding a size from its own fields gives the same size |
| `Factories.CreateFlavor` | confeitaria/src/model/factories/FlavorFactory.java:35-47 | accepted exactly with a non-blank name and a level; the name is trimmed and the description is blank-to-null |
| `Factories.FlavorRoundTrip` | confeitaria/src/model/factories/FlavorFactory.java:35-47 | rebuilding a flavor from its own fields gives the same flavor |
| `Factories.CreateFlavorLevel` | confeitaria/src/model/factories/FlavorLevelFactory.java:30-41 | accepted exactly with a non-blank name and a price that is present and not negative; the name is trimmed |
| `Factories.FlavorLevelRoundTrip` | confeitaria/src/model/factories/FlavorLevelFactory.java:30-41 | rebuilding a level from its own fields gives the same level |
| `Factories.CreateProduct` | confeitaria/src/model/factories/ProductFactory.java:41-64 | accepted exactly with a non-blank name, a flavor, a size and a base price that is present and not negative; the messages come in the code's order; the name is trimmed and the description is blank-to-null |
| `Factories.ProductRoundTrip` | confeitaria/src/model/factories/ProductFactory.java:41-64 | rebuilding a product from its own fields gives the same product |
| `ControllerLogin.LoginCheck` | confeitaria/src/controller/ControllerLogin.java:69-75 | the input passes exactly when the e-mail is not blank and the password array is non-null and non-empty; otherwise "E-mail é obrigatório." first, then "Senha é obrigatória." |
| `ControllerLogin.Authenticate` | confeitaria/src/controller/ControllerLogin.java:55-89 | (intended handlers) succeeds exactly when the user exists and the typed password's hash equals the stored hash, returning that user; an unknown e-mail or a mismatch is `AuthenticationException`; a database error, and only that, is "Erro ao acessar o banco durante o login."; a hash failure is the "Erro inesperado" `DataAccessException` |
| `ControllerLogin.AuthenticateAsWritten` | confeitaria/src/controller/ControllerLogin.java:77-91 | as written, every failure inside the `try` surfaces as a `DataAccessException` |
| `ControllerLogin.ZeroFill` | confeitaria/src/controller/ControllerLogin.java:93 | every char of the array becomes '\0' |
| `ControllerLogin.Login` | confeitaria/src/controller/ControllerLogin.java:66-95 | the result is `LoginResult` (intended handlers); input rejected before the `try` leaves the caller's array unchanged; once in the `try`, the array is cleared on every exit |
| `ControllerLogin.LoginResult` | confeitaria/src/controller/ControllerLogin.java:66-95 | (intended handlers) success means an e-mail and a password were given, the user is filed under the trimmed e-mail, and its stored hash equals the typed password's hash; input refused by the checks is a `ValidationException` |
| `ControllerLogin.LoginResultAsWritten` | confeitaria/src/controller/ControllerLogin.java:66-95 | as written, no input makes `login` throw `AuthenticationException`; input refused by the checks is still a `ValidationException` |
| `ControllerLogin.PaddingIgnored` | confeitaria/src/controller/ControllerLogin.java:69-72 | whitespace around the e-mail does not change the outcome |
| `ControllerLogin.SuccessIsThatUser` | confeitaria/src/controller/ControllerLogin.java:78-86 | with users filed under their own e-mail, a successful login returns the user of the trimmed typed e-mail, and its stored hash is the typed password's hash |
| `ControllerLogin.UnknownLooksLikeWrong` | confeitaria/src/controller/ControllerLogin.java:79-84 | an unknown e-mail and a wrong password give the same error |
| `ControllerLogin.AsWrittenDiffersOnlyOnBadCredentials` | confeitaria/src/controller/ControllerLogin.java:79-91 | the written code and the intended one differ exactly on bad credentials, where the written code throws `DataAccessException("Erro inesperado ao realizar login: E-mail ou senha inválidos.")` |
| `ControllerLogin.UnknownEmailAsWritten` | confeitaria/src/controller/ControllerLogin.java:79-91 | an unregistered e-mail with no blanks around it (such as "ana@doces.com") yields that `DataAccessException` as written, and `AuthenticationException` as intended |
| `ControllerCadastro.RegisterCheck` | confeitaria/src/controller/ControllerCadastro.java:135-152 | the form passes exactly with a non-blank first name, a non-blank e-mail containing "@" and ".com", a password of 4 or more characters, a positive area id and a non-blank street; otherwise the first failed check's `ValidationException`, in the code's order |
| `ControllerCadastro.UserStep` | confeitaria/src/controller/ControllerCadastro.java:218-223 | the user row points at the new person key and is stored only when it is built and the insert answers `true`; success exactly when it is stored |
| `ControllerCadastro.PersonStep` | confeitaria/src/controller/ControllerCadastro.java:210-216 | the person row carries the key the insert returned and points at the stored address; the user follows only after it |
| `ControllerCadastro.Persist` | confeitaria/src/controller/ControllerCadastro.java:197-224 | rows are linked address ← person ← user by their returned keys; each stored row implies the earlier ones are stored; success exactly when the user row is stored |
| `ControllerCadastro.RegisterOutcome` | confeitaria/src/controller/ControllerCadastro.java:129-174 | success exactly when the user row is stored, with the person and address links above |
| `ControllerCadastro.AccountStore.constructor` | confeitaria/src/controller/ControllerCadastro.java:197-224 | the address, person and user tables that `persistUser` writes to start empty; the empty start is a modelling convenience, since every method's contract is stated relative to the tables as they were (`old(...)`) |
| `ControllerCadastro.AccountStore.SaveUser` | confeitaria/src/controller/ControllerCadastro.java:218-223 | the result is `UserStep`'s; only the user table grows, by the row it stored |
| `ControllerCadastro.AccountStore.SavePerson` | confeitaria/src/controller/ControllerCadastro.java:210-223 | the result is `PersonStep`'s; the person and user tables grow by the rows it stored |
| `ControllerCadastro.AccountStore.PersistUser` | confeitaria/src/controller/ControllerCadastro.java:197-224 | the result is `Persist`'s; each table grows by exactly the row it stored, and nothing is removed |
| `ControllerCadastro.AccountStore.Attempt` | confeitaria/src/controller/ControllerCadastro.java:134-168 | the result is `RegisterOutcome`'s; each table grows by exactly the row it stored |
| `ControllerCadastro.AccountStore.Register` | confeitaria/src/controller/ControllerCadastro.java:129-174 | as `Attempt`, and a non-null password array is all '\0' afterwards, whatever the outcome |
| `ControllerCadastro.StoresOnlyWhenReached` | confeitaria/src/controller/ControllerCadastro.java:154-163 | no row is stored unless the checks pass, the e-mail is free and the area exists |
| `ControllerCadastro.RejectedFormTouchesNothing` | confeitaria/src/controller/ControllerCadastro.java:135-152 | a rejected form stores nothing, and the answer does not depend on the database |
| `ControllerCadastro.TakenEmailConflicts` | confeitaria/src/controller/ControllerCadastro.java:154-156 | an e-mail on file gives `ConflictException("E-mail já cadastrado no sistema.")` before the area is read, and stores nothing |
| `ControllerCadastro.UnknownAreaNotFound` | confeitaria/src/controller/ControllerCadastro.java:158-161 | an area id with no row gives `NotFoundException("O bairro selecionado é inválido.")` and stores nothing |
| `ControllerCadastro.SuccessStoresLinkedRows` | confeitaria/src/controller/ControllerCadastro.java:163-224 | success stores one address with the chosen area and the trimmed street; one person with the address's key and the trimmed name and e-mail; one user with the person's key, the same e-mail and the password's hash |
| `ControllerCadastro.NoAddressKeyStopsEarly` | confeitaria/src/controller/ControllerCadastro.java:204-207 | no key for the address means no person and no user are inserted |
| `ControllerCadastro.LaterFactoriesAccept` | confeitaria/src/controller/ControllerCadastro.java:135-218 | once the form passed, the person and user factories cannot reject it; only the hash can fail |
| `ControllerCadastro.NoPersonKeyLeavesAddress` | confeitaria/src/controller/ControllerCadastro.java:212-215 | no key for the person gives "Erro ao salvar dados pessoais..." and no user; the address row stays |
| `ControllerCadastro.UserNotCreatedLeavesRows` | confeitaria/src/controller/ControllerCadastro.java:219-223 | `createUser` answering `false` gives "Erro crítico ao criar o usuário de login."; the address and person rows stay, with no rollback |
| `ControllerCadastro.ReachedMeansPersist` | confeitaria/src/controller/ControllerCadastro.java:154-163 | past the checks, the free e-mail and the area lookup, `register` is `persistUser` with the trimmed name and e-mail |
| `ControllerCadastro.UserRefused` | confeitaria/src/controller/ControllerCadastro.java:221-222 | a built user whose insert answers `false` fails with the "Erro crítico" message and stores no user |
| `SeedService.Fields` | confeitaria/src/services/SeedService.java:96 | at least one field, and no field contains the separator |
| `SeedService.DropTrailingEmpty` | confeitaria/src/services/SeedService.java:96 | the result is a prefix of the fields whose last field, if any, is non-empty |
| `SeedService.JavaSplit` | confeitaria/src/services/SeedService.java:96 | no part contains the separator |
| `SeedService.FieldsJoin` | confeitaria/src/services/SeedService.java:96 | joining the fields with the separator gives back the string |
| `SeedService.FieldsOfPlain` | confeitaria/src/services/SeedService.java:96 | a string without the separator is one field |
| `SeedService.FieldsAfterPlain` | confeitaria/src/services/SeedService.java:96 | a separator-free prefix followed by the separator is the first field |
| `SeedService.SplitTwo` | confeitaria/src/services/SeedService.java:96-97 | `a;b` splits into exactly `[a, b]` when b is non-empty |
| `SeedService.SplitTrailingSeparator` | confeitaria/src/services/SeedService.java:96-97 | `a;` splits into `[a]` (or nothing for an empty a), so fewer than two parts |
| `SeedService.CommaToDot` | confeitaria/src/services/SeedService.java:104 | same length, no comma left, each comma turned into a point and every other char kept |
| `SeedService.BlankOrCommentSkipped` | confeitaria/src/services/SeedService.java:92-94 | a line blank after trimming, or one starting with `#`, is skipped |
| `SeedService.AcceptedNameIsClean` | confeitaria/src/services/SeedService.java:99-100 | an accepted line's area name is non-empty and trimmed |
| `SeedService.TwoFieldLine` | confeitaria/src/services/SeedService.java:92-107 | `name;fee` is accepted as the trimmed name with the fee read from the trimmed text, comma made a point; an unparseable fee skips the line |
| `SeedService.ParseOfTwoParts` | confeitaria/src/services/SeedService.java:96-107 | a trimmed line that is not a comment and splits into two parts is read from those parts |
| `SeedService.TrailingSemicolonSkipped` | confeitaria/src/services/SeedService.java:96-97 | `name;` has fewer than two parts and is skipped |
| `SeedService.ParseAreaLine` | confeitaria/src/services/SeedService.java:91-107 | a line blank after trimming is skipped, and an accepted line has a non-empty name |
| `SeedService.ParsedLines` | confeitaria/src/services/SeedService.java:91-107 | one parse per line, in file order |
| `SeedService.SeedDatabase.constructor` | confeitaria/src/services/SeedService.java:61-65 | the tables are the given ones |
| `SeedService.SeedDatabase.FindByName` | confeitaria/src/services/SeedService.java:109-110 | true exactly when some area has that name |
| `SeedService.SeedDatabase.SeedAreasFromCsv` | confeitaria/src/services/SeedService.java:86-142 | a file found nowhere gives "Erro ao ler areas.csv: Arquivo areas.csv não encontrado..." and changes nothing; otherwise the areas are those the line-by-line loop leaves; levels and sizes untouched |
| `SeedService.SeedDatabase.ReadAreaLine` | confeitaria/src/services/SeedService.java:91-113 | one CSV line: a line that parses to a name absent from the table adds one area with that name and fee, and any other line leaves the areas as they were; levels and sizes untouched |
| `SeedService.SeedDatabase.SeedFlavorLevelsIfEmpty` | confeitaria/src/services/SeedService.java:153-160 | an empty table gets Tradicional (10.00) and Especial (20.00); a non-empty one is left alone; nothing else changes |
| `SeedService.SeedDatabase.SeedSizesIfEmpty` | confeitaria/src/services/SeedService.java:170-180 | an empty table gets the five sizes Mine, PP, P, M, G with their descriptions and prices; a non-empty one is left alone; nothing else changes |
| `SeedService.SeedDatabase.SeedAll` | confeitaria/src/services/SeedService.java:61-65 | areas, then levels, then sizes; a failure of the areas step changes no table |
| `SeedService.AreasOnlyAppend` | confeitaria/src/services/SeedService.java:109-112 | the loop only appends: existing rows stay as they were |
| `SeedService.KeepsName` | confeitaria/src/services/SeedService.java:109-112 | an area name present stays present |
| `SeedService.LinesCovered` | confeitaria/src/services/SeedService.java:109-112 | after the loop every accepted line's name is in the table |
| `SeedService.CoveredLinesChangeNothing` | confeitaria/src/services/SeedService.java:109-110 | lines whose names are all present insert nothing |
| `SeedService.AreasIdempotent` | confeitaria/src/services/SeedService.java:86-117 | reading the same file twice is reading it once |
| `SeedService.SeedDefaultsIdempotent` | confeitaria/src/services/SeedService.java:61-65 | a second `seedDefaults` with the same file inserts nothing |
| `SeedService.StepKeepsDistinct` | confeitaria/src/services/SeedService.java:109-112 | one iteration keeps area names distinct |
| `SeedService.NamesStayDistinct` | confeitaria/src/services/SeedService.java:86-117 | seeding never creates two areas with the same name |
| `SeedService.InsertedFromLines` | confeitaria/src/services/SeedService.java:112 | every inserted area has no id and the name and fee of an accepted line |
| `SeedService.MissingFileStopsSeeding` | confeitaria/src/services/SeedService.java:61-141 | a missing file fails with that message, so no level or size is seeded |
| `SeedService.EmptyTablesGetDefaults` | confeitaria/src/services/SeedService.java:153-180 | empty levels and sizes tables receive exactly the 2 levels and 5 sizes with their prices, in order |
| `SeedService.NonEmptyTablesKept` | confeitaria/src/services/SeedService.java:109-173 | levels and sizes tables with rows are left as they were; existing areas are kept |
| `SeedService.SeedDefaults` | confeitaria/src/services/SeedService.java:61-65 | fails exactly when the file is found nowhere, with that message; after a run the levels and sizes tables are never empty, and a table that had rows is left as it was |
| `SeedService.DefaultRows` | confeitaria/src/services/SeedService.java:153-180 | the defaults are the 2 levels Tradicional (10.00) and Especial (20.00) and the 5 sizes, Mine at 130.00 and the rest at 20.00 |
| `DbConnection.Value` | confeitaria/src/model/repositories/DBConnection.java:70-106 | a present value is the trimmed, non-empty setting; absent exactly when the key is missing or blank |
| `DbConnection.Resolve` | confeitaria/src/model/repositories/DBConnection.java:58-96 | a configuration exactly when name, user and password are present; otherwise "Configuração do banco incompleta em" the source; host and port default to localhost and 5432 |
| `DbConnection.EnvironmentWins` | confeitaria/src/model/repositories/DBConnection.java:31-63 | with any variable set, the environment alone decides and the file is never read |
| `DbConnection.FileWhenNoEnvironment` | confeitaria/src/model/repositories/DBConnection.java:34-87 | with no variable set: no file gives "Banco não configurado..."; an unreadable file and an incomplete one give the "Erro ao ler configurações do banco em src/db.properties: " prefix |
| `DbConnection.BlankIsMissing` | confeitaria/src/model/repositories/DBConnection.java:102-106 | a blank value counts as missing; present values are trimmed |
| `DbConnection.ConfigIsComplete` | confeitaria/src/model/repositories/DBConnection.java:31-96 | a configuration found has trimmed, non-blank name, user and password from the chosen source, and its host and port or the defaults |
| `DbConnection.MissingRequired` | confeitaria/src/model/repositories/DBConnection.java:61-96 | a missing required setting gives the "incompleta" error of the chosen source, prefixed when it came from the file |
| `DbConnection.DefaultsInUrl` | confeitaria/src/model/repositories/DBConnection.java:22-59 | for any environment where host and port are unset or blank and name, user and password are set (whatever the properties file says), the configuration uses `localhost` and `5432` with the trimmed values, and the URL is `jdbc:postgresql://localhost:5432/` plus the trimmed name |
| `DbConnection.LoadFromEnv` | confeitaria/src/model/repositories/DBConnection.java:47-63 | no configuration exactly when none of the five variables is set; a failure is the "incompleta" error naming the environment; a configuration has non-empty name, user and password |
| `DbConnection.LoadFromPropertiesFile` | confeitaria/src/model/repositories/DBConnection.java:65-87 | no configuration exactly when the file does not exist; every failure carries the "Erro ao ler configurações do banco em src/db.properties: " prefix; a configuration has non-empty name, user and password |
| `DbConnection.LoadConfig` | confeitaria/src/model/repositories/DBConnection.java:31-45 | with any variable set the environment alone decides; with none and no file it is "Banco não configurado..."; a configuration found has all five settings non-empty |
| `DbConnection.Url` | confeitaria/src/model/repositories/DBConnection.java:22 | the URL starts with `jdbc:postgresql://` followed by the host, ends with the database name, and is 20 characters longer than host, port and name together |

## Left out

- Swing: dialogs, labels, layout and the other screens are not modelled. The checkout screen's
  inputs are parameters: the delivery radio button, the observation text, and the logged-in
  session.
- JDBC: repositories and `DBConnection.getConnection` / `DriverManager` are not modelled.
  Tables are maps or sequences. The replies of the inserts and lookups are datatypes given as
  parameters.
- Money: `double` money is modelled as integer cents. SQL `DECIMAL(10,2)` rounding and `%.2f`
  formatting are not modelled.
- Fee parsing: `Double.parseDouble` in seeding is the partial function `parseFee`.
- Strings: a Dafny `char` is a Unicode scalar value, not a UTF-16 code unit as a Java `char`
  is. Text inside the Basic Multilingual Plane measures the same in both; a character outside
  it counts as one here and as two in Java. `toLowerCase` is ASCII-only, which is exact for the
  whitelist in a non-Turkish locale.
- Factories.CreateUser: the password-length check (`length < 4`) counts code points, so a
  password outside the Basic Multilingual Plane measures shorter than Java measures it (two
  emoji are 4 Java chars and accepted there, 2 here and refused).
- ControllerCadastro.RegisterCheck: the same password-length check, counted in code points
  with the same consequence.
- Factories.CreateAddress: the CEP-length check (`length() != 8`) counts code points, so a CEP
  with characters outside the Basic Multilingual Plane measures shorter than Java measures it.
- `EncryptionService.hashPassword` is a deterministic function parameter.
  `EncryptionService.java:52-56` never fills its salt array, so hashing the same password
  always gives the same string. The PBKDF2 provider itself is a foreign call.
- `ControllerShop`, `ControllerMyOrders` and `ControllerProductAdmin` are not modelled. They
  are thin wrappers over the lookups and factories modelled here.
- Unit price: the copies of `computeUnitPrice` in the checkout controller, the cart view, the
  checkout screen, the product details screen and the product list are one function,
  `Pricing.UnitPrice`.
- Timestamps: `Timestamp`/`Instant.now()` is the parameter `now`.
- Checkout screen session: `ViewCheckout.onConfirm` dereferences a null logged user and
  throws `NullPointerException`. The model turns that into the outcome `NoSession`, with the
  cart left as it was.
- Checkout screen person: the person lookup behind the delivery fee is one parameter, so a
  person missing, an address missing and a SQL error are cases of that parameter.
- Checkout header: a header insert that fails with a SQL error is modelled as storing no
  header row.
- Sign-up keys: a `null` key from an insert is taken to mean that nothing was stored.
- Sign-up catch-all: the `catch (Exception)` "Erro inesperado durante o cadastro" in
  `register` has no path in the model. Every failure the model can produce is a typed
  exception or a SQL error.
- Seeding: a database error while seeding, and a `null` list from `findAll`, are not
  modelled. The file is the sequence of lines `readLine` returns, and a file found nowhere
  is `None`.
- Concurrency: the static cart and session are used from the Swing thread only, so no
  locking is modelled.
- The exception classes are not part of this model. `AuthenticationException` is taken to be
  neither a `SQLException` nor a subclass of one, so `catch (Exception)` in `login` catches it.
- CartSession.Cart.GetItems: returns a snapshot of the entries, where the source returns a
  live unmodifiable view of the map. The two differ only for a caller that holds the view
  across a later change to the cart, and no caller in the core does: each one reads the view
  and is done with it before the cart changes.
- CartSession.Cart.Add: stated for the corrected behaviour. An add whose sum would overflow an
  `int` leaves the cart unchanged. The code as written wraps around; see Findings.
- ControllerLogin.Login: stated for the intended handlers. An authentication failure reaches
  the caller as `AuthenticationException`. The code as written converts it; see Findings.

## Findings

| source | as written | input that shows it | evidently intended | confidence | as-written member | corrected member |
|---|---|---|---|---|---|---|
| confeitaria/src/app/CartSession.java:51 | `items.merge(id, quantity, Integer::sum)` adds with 32-bit wrap-around | a cart holding quantity 2147483647 for a product, then `add(product, 1)`; it stores -2147483648, a non-positive quantity | a quantity stays positive, so an overflowing add is refused | not executed | `CartSession.MergeAsWrittenOverflows` | `CartSession.Cart.Add` |
| confeitaria/src/controller/ControllerLogin.java:79-91 | the `AuthenticationException` thrown inside the `try` is caught by `catch (Exception e)` and rethrown as `DataAccessException` | `login("ana@doces.com", "1234")` with no such user; it throws `DataAccessException("Erro inesperado ao realizar login: E-mail ou senha inválidos.")` | bad credentials reach the caller as `AuthenticationException`, as the method's `@throws` says | not executed | `ControllerLogin.UnknownEmailAsWritten` | `ControllerLogin.Login` |
