# farm2bazaar frontend — a Dafny model of its session and dashboard logic

farm2bazaar is a marketplace where farmers list produce and retailers buy it.
Its React frontend keeps the login session in memory and in three browser
cookies (`token`, `user`, `userRole`). An axios interceptor adds the bearer
token to every request sent through the shared `api` instance. The sign-in
page picks a farmer or retailer form from the `role` query value. The sidebar
and the dashboard choose links and panels from the session's state and role.
The product list validates purchases typed into dialogs. The dashboard panels
turn backend rows into tables and charts.

This project models that logic in Dafny and proves properties about it:

- `Json` — `JSON.stringify` and `JSON.parse` on JSON values. A user profile
  goes into a cookie and comes back unchanged (`Parse(Stringify(v)) == Some(v)`).
- `JsNumber` — `Number()`/`isNaN` and radix-less `parseInt` on strings, as
  the purchase validator uses them.
- `AuthContext` — the session store as a class (`Session`) over a cookie jar
  (`CookieJar`), and the request interceptor.
- `Signin` — the role/tab logic of the page, and each sign-in form's submit
  handler.
- `Sidebar` and `Dashboard` — the link list, the open/closed flag, and which
  panels a role unlocks.
- `ProductList` — the view's state as a class. Each handler is a method whose
  confirmation/prompt answers and backend reply are inputs. The purchase
  validator is a function.
- `Categories` and `Charts` — the `[...new Set(...)]` category list and the
  category filter the graph views share, and the chart data shape.
- `RetailerAnalytics`, `FarmerMarketPriceGraph`, `ProductProfitAnalysis` and
  `RetailerMarketPriceGraph` — the dashboard panels, each a class over its
  state plus pure functions for what it computes. They include the
  category-spending `reduce` as a loop proved against its specification.

Backend calls are not performed. Each request a handler would send is
returned as a `Request` value. The reply (`Ok(data)` or `Failed(message)`)
is a parameter. Handlers that show a loading state between request and
reply are split into a `Start…` and a `Finish…` method. `null` users are
`JNull`. `undefined` and JavaScript's NaN are `None`.

## Model

| member | source | states |
|---|---|---|
| Json.Get | src/AuthContext.jsx:33 | reading `obj.key` on a parsed profile finds a value exactly when some member has that key; the value found belongs to a member with that key, and no later member has that key |
| Json.Lookup | src/AuthContext.jsx:33 | a repeated key resolves to its last member: the value found is that of a member with the key, and no later member has the key, as `JSON.parse` keeps the last duplicate |
| Json.ParseStringify | src/AuthContext.jsx:33-43 | the profile `login` writes with `JSON.stringify` is read back unchanged by `JSON.parse` on restore, for every JSON value |
| Json.StringifyNonEmpty | src/AuthContext.jsx:43 | the stringified profile is never empty, so the `user` cookie is always truthy after a login |
| Json.Stringify | src/AuthContext.jsx:43 | `JSON.stringify` writes a string between double quotes, an array between brackets and an object between braces |
| Json.Parse | src/AuthContext.jsx:33 | `JSON.parse` refuses text with nothing but white space in it, so a blank `user` cookie takes the restore to its catch branch (the full round trip is `ParseStringify`) |
| Json.SkipWhitespace | src/AuthContext.jsx:33 | the parser's white-space skip never lengthens the text and leaves text that starts with a non-blank unchanged |
| Json.SkipWhitespaceSuffix | src/AuthContext.jsx:33 | the skip leaves exactly the suffix after the leading JSON white space: it does not start with white space, and every character dropped before it is white space |
| Chars.RadixRun | Components/ProductList.jsx:112-116 | the run of digits the number readers take is a digit prefix of the text, and the character after it (if any) is not a digit |
| Chars.NatToStringValue | src/AuthContext.jsx:43 | the decimal text `JSON.stringify`/`String` writes for a natural number denotes that number |
| Chars.NatToStringHead | src/AuthContext.jsx:43 | the decimal text of a number starts with '0' exactly when the number is zero (no leading zeros) |
| Chars.RadixRunAppend | Components/ProductList.jsx:116 | digits followed by other text: the digit run covers all the digits and then continues into the text |
| JsNumber.TrimStart | Components/ProductList.jsx:112-116 | dropping leading ECMAScript white space leaves a suffix of the text that does not start with white space |
| JsNumber.TrimEnd | Components/ProductList.jsx:112 | dropping trailing white space leaves a prefix of the text that does not end with white space |
| JsNumber.ReadDigits | Components/ProductList.jsx:116 | a number is read exactly when the text starts with a digit of the radix |
| JsNumber.TrimVisible | Components/ProductList.jsx:112 | text that starts and ends with a visible character is its own trim |
| JsNumber.IsNumericString | Components/ProductList.jsx:112 | text that `Number()` reads as a number is blank after trimming or starts, after trimming, with a decimal digit, a sign, a point or the `I` of `Infinity` |
| JsNumber.IsNaN | Components/ProductList.jsx:112 | `isNaN` is true only for text with something visible in it: blank text is the number 0 |
| JsNumber.ParseInt | Components/ProductList.jsx:112-116 | radix-less `parseInt` reads a number only when something follows the leading white space |
| JsNumber.ParseIntSign | Components/ProductList.jsx:112-116 | a negative number read by `parseInt` comes only from a minus sign right after the leading white space |
| JsNumber.ReadDigitsPrefix | Components/ProductList.jsx:116 | digits followed by something that is not a digit are read as exactly those digits |
| JsNumber.ParseUnsignedDecimal | Components/ProductList.jsx:116 | a run of decimal digits is read whole |
| JsNumber.ParseIntDigits | Components/ProductList.jsx:116 | `parseInt` of a run of decimal digits is the number they denote |
| JsNumber.NegativeParseInt | Components/ProductList.jsx:112-116 | `parseInt` of a minus sign before readable digits is the negated number |
| JsNumber.ParseIntOfDecimal | Components/ProductList.jsx:112-116 | `parseInt` reads back the decimal text of every integer, negative ones included |
| JsNumber.DecimalIsNumeric | Components/ProductList.jsx:112 | the decimal text of every integer is not NaN to `isNaN` |
| JsNumber.TrimStartSkipsWhiteSpace | Components/ProductList.jsx:112-116 | leading white space is dropped whatever follows it |
| JsNumber.ParseIntSkipsWhiteSpace | Components/ProductList.jsx:116 | white space before an answer does not change what `parseInt` reads |
| JsNumber.ParseIntPrefix | Components/ProductList.jsx:116 | `parseInt` reads the digit prefix and ignores whatever text follows it |
| JsNumber.PositiveParseInt | Components/ProductList.jsx:116 | unsigned text that starts with a visible character is read by `parseInt` as its unsigned part reads it |
| JsNumber.WhiteSpaceIsNumeric | Components/ProductList.jsx:112-116 | every answer made of white space only, the empty one included, is a number to `isNaN` (zero) but NaN to `parseInt` |
| JsNumber.PointFractionIsNumeric | Components/ProductList.jsx:112-116 | every answer that is a point followed by decimal digits is a number to `isNaN` but NaN to `parseInt` |
| JsNumber.EmptyIsNumeric | Components/ProductList.jsx:112 | example: the empty answer is a number to `isNaN` (0) but NaN to `parseInt` |
| JsNumber.FractionIsNumeric | Components/ProductList.jsx:112 | example: ".5" is a number to `isNaN` but NaN to `parseInt` |
| JsNumber.InfinityIsNumeric | Components/ProductList.jsx:112 | example: "Infinity" is a number to `isNaN` but NaN to `parseInt` |
| JsNumber.ExponentExample | Components/ProductList.jsx:112-116 | example: "1e3" is a number to `isNaN`, while `parseInt` stops at the `e` and reads 1 |
| JsNumber.TrailingTextExample | Components/ProductList.jsx:112-116 | example: "12abc" is NaN to `isNaN`, while `parseInt` reads 12 |
| JsNumber.HexExample | Components/ProductList.jsx:112-116 | example: "0x10" is 16 to both readers |
| AuthContext.CookieJar.constructor | src/AuthContext.jsx:27-29 | the jar starts with the cookies the browser already holds |
| AuthContext.CookieJar.Get | src/AuthContext.jsx:27-29 | `Cookies.get` gives a value exactly when the cookie is present, and then its stored value |
| AuthContext.CookieJar.Set | src/AuthContext.jsx:42-44 | `Cookies.set` stores the value with its expiry under the name and leaves every other cookie alone |
| AuthContext.CookieJar.Remove | src/AuthContext.jsx:51-53 | `Cookies.remove` deletes that one cookie and leaves every other cookie alone |
| AuthContext.WithAuthorization | src/AuthContext.jsx:13-19 | a truthy token sets `Authorization` to `Bearer <token>` and keeps every other header as it was; a missing or empty token leaves the headers untouched |
| AuthContext.Intercept | src/AuthContext.jsx:13-19 | the interceptor rewrites the request's headers as `WithAuthorization` says for the current token cookie |
| AuthContext.Session.constructor | src/AuthContext.jsx:22-24 | a new session is signed out: not logged in, null user, null role |
| AuthContext.Session.Restore | src/AuthContext.jsx:26-36 | without all three truthy cookies nothing changes; with them the session is logged in as the parsed user and stored role; a user cookie that is not JSON throws after `isLoggedIn` is already set |
| AuthContext.Session.Login | src/AuthContext.jsx:38-45 | the session holds the user and role, and the three cookies hold the token, the stringified user and the role, each for 7 days, every other cookie kept |
| AuthContext.Session.Logout | src/AuthContext.jsx:47-54 | the session is signed out and exactly the three session cookies are gone |
| AuthContext.StartWithout | src/AuthContext.jsx:22-36 | a start-up without a full set of truthy session cookies stays signed out and does not crash |
| AuthContext.LogoutTwice | src/AuthContext.jsx:47-54 | logging out is idempotent |
| AuthContext.LoginThenLogout | src/AuthContext.jsx:38-54 | login then logout signs the session out, removes the session cookies and leaves every other cookie as it was |
| AuthContext.ReloadAfterLogin | src/AuthContext.jsx:26-45 | after a login with a non-empty role and token, a reload restores the same user and role without crashing |
| AuthContext.RequestAfterLogin | src/AuthContext.jsx:13-45 | after a login with a non-empty token, every request sent through the shared `api` instance carries `Bearer <token>` |
| AuthContext.RequestAfterLogout | src/AuthContext.jsx:13-54 | after a logout, requests sent through `api` leave with their headers untouched |
| Signin.RoleParam | Pages/Signin.jsx:9 | the page's role is the `role` query value when it is non-empty, "farmer" otherwise; it is never empty |
| Signin.FormFor | Pages/Signin.jsx:46-47 | the farmer form shows exactly on the "farmer" tab, the retailer form exactly on the "retailer" tab, and no form for any other tab value |
| Signin.SigninPage.constructor | Pages/Signin.jsx:9-11 | the tab starts as the role the query selects |
| Signin.SigninPage.Rerender | Pages/Signin.jsx:14-16 | a render whose role differs from the last one resets the tab to it; an unchanged role keeps the tab the user picked |
| Signin.SigninPage.ClickFarmerTab | Pages/Signin.jsx:24 | the Farmer button selects the farmer tab |
| Signin.SigninPage.ClickRetailerTab | Pages/Signin.jsx:34 | the Retailer button selects the retailer tab |
| Signin.LoginError | Pages/Signin.jsx:84-91 | a failed login shows the backend's description when it is truthy and the generic message otherwise; the message is never empty |
| Signin.LoginRequest | Pages/Signin.jsx:74-77 | each form posts its credentials to its own endpoint: the farmer form to `/login-farmer`, the retailer form (lines 166-169) to `/login-retailer` |
| Signin.SignInForm.constructor | Pages/Signin.jsx:69-72 | a form starts with no error and no success message |
| Signin.SignInForm.HandleSubmit | Pages/Signin.jsx:69-92 | both messages are cleared and the farmer or retailer login request is sent; success logs the session in under the form's role with the returned account and token, shows the welcome and redirects home; failure sets the login error and changes neither session nor cookies |
| Signin.RetailerSignIn | Pages/Signin.jsx:161-184 | opening the page for the retailer role and signing in leaves a retailer session holding the returned account, with a redirect home |
| Sidebar.LoggedInNavItems | Components/Sidebar.jsx:30-41 | Profile and Dashboard always come first; Products is added exactly for a farmer, Shopping exactly for a retailer, and nothing for any other role |
| Sidebar.GetLoggedInNavItems | Components/Sidebar.jsx:30-41 | the push-based builder yields exactly the list `LoggedInNavItems` specifies |
| Sidebar.NavItems | Components/Sidebar.jsx:117 | while logged out the links are Home, Signup and Signin (`loggedOutNavItems`, lines 24-28) and neither Profile nor Dashboard; while logged in Profile and Dashboard appear and Home, Signup and Signin do not |
| Sidebar.Menu | Components/Sidebar.jsx:117-155 | one link per nav item for the session's state, in order, with distinct captions, and a Logout entry exactly when logged in |
| Sidebar.SidebarState.constructor | Components/Sidebar.jsx:7 | the sidebar starts closed |
| Sidebar.SidebarState.Toggle | Components/Sidebar.jsx:50 | the menu button flips the open flag |
| Sidebar.SidebarState.KeyDown | Components/Sidebar.jsx:12-16 | Escape closes the sidebar; any other key leaves it as it was |
| Sidebar.SidebarState.ClickOverlay | Components/Sidebar.jsx:87 | clicking the overlay closes the sidebar |
| Sidebar.SidebarState.ClickLink | Components/Sidebar.jsx:121 | following a link closes the sidebar and navigates to that link's target |
| Sidebar.SidebarState.HandleLogout | Components/Sidebar.jsx:18-22 | the Logout button signs out, removes the session cookies, closes the sidebar and navigates to `/signin` |
| Sidebar.LogoutShowsLoggedOutMenu | Components/Sidebar.jsx:18-28 | after a logout from the sidebar the menu is Home, Signup and Signin, with no Logout entry |
| Dashboard.DashboardView | Pages/Dashboard.jsx:18-72 | logged out: the login prompt; logged in: the seven farmer panels for a farmer, the five retailer panels for a retailer, in page order, and the role-not-recognized notice otherwise; no role sees the other role's panels |
| Dashboard.SidebarAgreesWithDashboard | Pages/Dashboard.jsx:43-72 | the sidebar offers a role-specific third link exactly when the dashboard shows panels |
| Records.HasField | Components/ProductList.jsx:21 | `user && user.key` is truthy only for an object user that has the key, and never for a null user |
| Records.Throws | Components/ProductList.jsx:48 | reading `user.key` throws only for a null user, and such a user is falsy, so the guarded `user && user.key` reads never throw |
| ProductList.FetchRequest | Components/ProductList.jsx:16-26 | the farmer's own products in farmer mode when the user has an id, else the available products when the user has an aadhar number, else no request at all |
| ProductList.CheckQuantity | Components/ProductList.jsx:110-120 | a cancelled or NaN answer, or one `parseInt` reads as zero or less, is invalid; a positive integer above the stock is insufficient stock, in both directions; an accepted quantity `parseInt` reads is within 1..stock; and every answer `isNaN` lets through whose `parseInt` is NaN or within 1..stock is accepted with that quantity |
| ProductList.AcceptsUpToStock | Components/ProductList.jsx:110-120 | every whole number from 1 up to the stock, typed in decimal, is accepted as itself |
| ProductList.RefusesAboveStock | Components/ProductList.jsx:117-119 | every positive whole number above the stock is refused as insufficient stock |
| ProductList.RefusesNonPositive | Components/ProductList.jsx:112-114 | zero and negative numbers are refused as invalid whatever the stock |
| ProductList.BlankAnswerPasses | Components/ProductList.jsx:112-120 | every quantity answer of white space only, the empty one included, passes both checks and goes on with a NaN quantity, whatever the stock |
| ProductList.FractionAnswerPasses | Components/ProductList.jsx:112-120 | every quantity answer that is a point followed by digits (".5") passes both checks and goes on with a NaN quantity, whatever the stock |
| ProductList.EmptyAnswerPasses | Components/ProductList.jsx:112-120 | example: an empty quantity answer passes both checks and goes on with a NaN quantity |
| ProductList.PaymentGiven | Components/ProductList.jsx:122-126 | a cancelled payment dialog and an empty answer are refused; any other text is taken as the payment type |
| ProductList.PurchaseAlert | Components/ProductList.jsx:141 | a failed purchase alerts the backend's error when it is truthy and the generic message otherwise; never empty |
| ProductList.RowActions | Components/ProductList.jsx:204-237 | a farmer's row has Edit and Delete, plus Mark Sold Out exactly when the product is in stock with a positive quantity; a retailer's row has only Buy |
| ProductList.DisplayName | Components/ProductList.jsx:193 | a row shows `name`, or `product_name` when `name` is empty |
| ProductList.Rows | Components/ProductList.jsx:191-241 | one row per product, in order, with its shown name and its buttons |
| ProductList.ProductListView.constructor | Components/ProductList.jsx:5-14 | the view starts loading, with no products, no error, no form open and no banner |
| ProductList.ProductListView.Render | Components/ProductList.jsx:145-175 | the loading text while loading, then a truthy error alone, then the list: "No products found." exactly when it is empty, otherwise its rows; the Add button exactly in farmer mode; the banner exactly when shown |
| ProductList.ProductListView.StartFetch | Components/ProductList.jsx:16-26 | loading starts and the error clears, and the request `FetchRequest` chooses is sent; with none to send the list empties and loading ends |
| ProductList.ProductListView.FinishFetch | Components/ProductList.jsx:26-32 | the reply replaces the list, a failure keeps it and sets the fetch error, and loading ends either way |
| ProductList.ProductListView.OpenAddProduct | Components/ProductList.jsx:157-164 | the Add button opens the add form and changes nothing else |
| ProductList.ProductListView.CancelAddProduct | Components/ProductList.jsx:313 | Cancel closes the add form and keeps what was typed |
| ProductList.ProductListView.StartEdit | Components/ProductList.jsx:207 | Edit copies the product into the edit form |
| ProductList.ProductListView.CancelEdit | Components/ProductList.jsx:396 | Cancel closes the edit form |
| ProductList.ProductListView.SubmitNewProduct | Components/ProductList.jsx:44-58 | the form is posted for the user's id; success shows the banner, closes and resets the form and refetches; a failure or a null user sets the add error and keeps list, forms and banner |
| ProductList.ProductListView.SubmitUpdate | Components/ProductList.jsx:65-78 | the edited product is patched under its id; success shows the banner, closes the edit form and refetches; a failure sets the update error and keeps the rest |
| ProductList.ProductListView.DeleteProductAction | Components/ProductList.jsx:80-93 | a declined confirmation does nothing; otherwise the delete is sent, success shows the banner and refetches, and a failure sets the delete error |
| ProductList.ProductListView.MarkSoldOutAction | Components/ProductList.jsx:95-108 | a declined confirmation does nothing; otherwise the sold-out request is sent, success shows the banner and refetches, and a failure sets the sold-out error |
| ProductList.ProductListView.PurchaseAction | Components/ProductList.jsx:110-143 | a refused quantity or a missing payment type raises its alert and changes nothing; otherwise one purchase for the user's aadhar number with the quantity `parseInt` read is sent; success shows the banner and refetches; failure sets the error and alerts the backend's message |
| ProductList.EmptyListShowsNoProducts | Components/ProductList.jsx:16-33 | a farmer whose list comes back empty sees "No products found.", not an error |
| ProductList.FailedRefreshKeepsList | Components/ProductList.jsx:16-33 | a failed fetch shows the fetch error and keeps the list it had |
| ProductList.BuyWholeStock | Components/ProductList.jsx:110-137 | buying the whole stock is accepted and sends one purchase for exactly that quantity |
| Categories.Dedup | Components/Dashboard/FarmerMarketPriceGraph.jsx:23 | `[...new Set(xs)]` holds the same values as `xs`, each once |
| Categories.FirstIndex | Components/Dashboard/FarmerMarketPriceGraph.jsx:23 | the position of a value's first occurrence |
| Categories.FirstIndexExtend | Components/Dashboard/FarmerMarketPriceGraph.jsx:23 | appending does not move a value's first occurrence |
| Categories.DedupFirstOccurrenceOrder | Components/Dashboard/FarmerMarketPriceGraph.jsx:23 | the de-duplicated values keep the order of their first occurrences |
| Categories.ProductCategories | Components/Dashboard/ProductProfitAnalysis.jsx:19 | the categories offered are distinct and are exactly the categories of the products |
| Categories.InCategory | Components/Dashboard/FarmerMarketPriceGraph.jsx:81 | exactly the products of that category |
| Categories.InCategoryAppend | Components/Dashboard/FarmerMarketPriceGraph.jsx:81 | the filter keeps list order |
| Categories.FilteredProducts | Components/Dashboard/ProductProfitAnalysis.jsx:53 | nothing until a category is selected, then exactly that category's products |
| Categories.ProductNames | Components/Dashboard/FarmerMarketPriceGraph.jsx:112 | the product picker offers each product by its name, in list order |
| Categories.OfferedCategoryHasProducts | Components/Dashboard/FarmerMarketPriceGraph.jsx:81-112 | every non-empty category offered has a product to pick |
| RetailerAnalytics.CategoryColumn | Components/Dashboard/RetailerAnalytics.jsx:25-32 | the category of each purchase row, in order |
| RetailerAnalytics.TotalAmount | Components/Dashboard/RetailerAnalytics.jsx:23 | the `reduce` from 0 over the rows' amounts: no rows spend 0, and rows with no negative amount never total below 0 |
| RetailerAnalytics.Spending | Components/Dashboard/RetailerAnalytics.jsx:25-32 | the spending object's keys are the categories in order of first purchase, each once, and each value is the amount spent on that category |
| RetailerAnalytics.AddRowStep | Components/Dashboard/RetailerAnalytics.jsx:25-32 | one reduce step on the spending of some rows gives the spending of those rows plus one more |
| RetailerAnalytics.AddRowWellFormed | Components/Dashboard/RetailerAnalytics.jsx:26-30 | a reduce step keeps the object's keys distinct and each one valued |
| RetailerAnalytics.CategoryTotalAbsent | Components/Dashboard/RetailerAnalytics.jsx:26-28 | a category no row has has total zero, the start value the reduce gives a new key |
| RetailerAnalytics.AddToCategory | Components/Dashboard/RetailerAnalytics.jsx:25-31 | the reduce callback creates a missing category at zero and adds the row's amount to it |
| RetailerAnalytics.CategorySpending | Components/Dashboard/RetailerAnalytics.jsx:25-32 | the reduce over the rows, run in order, produces exactly the spending object `Spending` specifies |
| RetailerAnalytics.SpendingStep | Components/Dashboard/RetailerAnalytics.jsx:25-32 | the spending of a longer prefix is one reduce step on the shorter one |
| RetailerAnalytics.Values | Components/Dashboard/RetailerAnalytics.jsx:68 | `Object.values` lists each key's value in key order |
| RetailerAnalytics.SumTotalsStep | Components/Dashboard/RetailerAnalytics.jsx:23-32 | one more row adds its amount once to the per-category sums, if its category is listed |
| RetailerAnalytics.SumTotalsAppend | Components/Dashboard/RetailerAnalytics.jsx:23-32 | listing one more category adds that category's total |
| RetailerAnalytics.SpendingAddsUp | Components/Dashboard/RetailerAnalytics.jsx:23-32 | the per-category amounts add up to the total amount spent |
| RetailerAnalytics.SumValues | Components/Dashboard/RetailerAnalytics.jsx:68 | the values of a spending object sum to the totals of its keys |
| RetailerAnalytics.Summarize | Components/Dashboard/RetailerAnalytics.jsx:22-38 | the number of purchases is the number of rows, the amount spent is their sum, and the spending object is `Spending` of the rows |
| RetailerAnalytics.Pie | Components/Dashboard/RetailerAnalytics.jsx:63-68 | one slice per category, labelled in key order and sized by its value, in one "Amount Spent" series |
| RetailerAnalytics.PieOfRows | Components/Dashboard/RetailerAnalytics.jsx:63-68 | the pie of some purchases has one slice per category bought, in order of first purchase, each sized by that category's spending, and the slices add up to the total spent |
| RetailerAnalytics.RetailerAnalyticsView.constructor | Components/Dashboard/RetailerAnalytics.jsx:11-13 | the panel starts loading with no figures and no error, and stored figures are well formed (`Valid`) |
| RetailerAnalytics.RetailerAnalyticsView.Fetch | Components/Dashboard/RetailerAnalytics.jsx:15-49 | only a user with an aadhar number asks for the rows; the figures are computed from the reply; a failure sets the error; loading ends after any request; the invariant `Valid` is kept |
| RetailerAnalytics.RetailerAnalyticsView.Render | Components/Dashboard/RetailerAnalytics.jsx:51-68 | loading first, then a truthy error, then "no data" exactly when there are no figures, then the figures and the pie |
| RetailerAnalytics.LoadedPanelAddsUp | Components/Dashboard/RetailerAnalytics.jsx:15-68 | a retailer whose purchases load sees their count, their total, and a pie whose slices add up to that total |
| FarmerMarketPriceGraph.ProfitChart | Components/Dashboard/FarmerMarketPriceGraph.jsx:50-69 | one label per sale, its transaction date, with that sale's market price and selling price at the same index in the two series |
| FarmerMarketPriceGraph.FarmerMarketPriceGraphView.constructor | Components/Dashboard/FarmerMarketPriceGraph.jsx:10-16 | no chart, not loading, no error, nothing loaded or picked |
| FarmerMarketPriceGraph.FarmerMarketPriceGraphView.LoadProducts | Components/Dashboard/FarmerMarketPriceGraph.jsx:18-32 | a user with an id asks for the farmer's products; the reply gives the products and their distinct categories; a failure changes nothing |
| FarmerMarketPriceGraph.FarmerMarketPriceGraphView.SelectCategory | Components/Dashboard/FarmerMarketPriceGraph.jsx:92-95 | picking a category clears the product picked |
| FarmerMarketPriceGraph.FarmerMarketPriceGraphView.SelectProduct | Components/Dashboard/FarmerMarketPriceGraph.jsx:107 | picking a product keeps the category |
| FarmerMarketPriceGraph.FarmerMarketPriceGraphView.StartGenerate | Components/Dashboard/FarmerMarketPriceGraph.jsx:34-47 | without both picks the error asks for them and nothing is sent; otherwise loading starts and the graph request for the user's id, category and product is sent; a null user throws into the failure message |
| FarmerMarketPriceGraph.FarmerMarketPriceGraphView.FinishGenerate | Components/Dashboard/FarmerMarketPriceGraph.jsx:50-78 | a non-empty reply is charted, an empty one clears the chart, a failure sets the error and keeps the chart; loading ends |
| FarmerMarketPriceGraph.FarmerMarketPriceGraphView.Render | Components/Dashboard/FarmerMarketPriceGraph.jsx:81-142 | the category options, the products of the selected category, the product picker enabled exactly once a category is picked, the button disabled exactly while loading, a truthy error and the chart |
| FarmerMarketPriceGraph.PickCategoryThenGenerate | Components/Dashboard/FarmerMarketPriceGraph.jsx:34-38 | right after a category is picked, generating asks for both picks and sends nothing |
| ProductProfitAnalysis.MarkOf | Components/Dashboard/ProductProfitAnalysis.jsx:116 | a row is marked as a profit exactly when its profit or loss is zero or more |
| ProductProfitAnalysis.Table | Components/Dashboard/ProductProfitAnalysis.jsx:96-121 | one table row per analysis row, in order, with its mark |
| ProductProfitAnalysis.ProductProfitAnalysisView.constructor | Components/Dashboard/ProductProfitAnalysis.jsx:6-12 | no analysis, not loading, no error, nothing loaded or picked |
| ProductProfitAnalysis.ProductProfitAnalysisView.LoadProducts | Components/Dashboard/ProductProfitAnalysis.jsx:14-28 | a user with an id asks for the farmer's products; the reply gives the products and their distinct categories; a failure changes nothing |
| ProductProfitAnalysis.ProductProfitAnalysisView.SelectCategory | Components/Dashboard/ProductProfitAnalysis.jsx:64-67 | picking a category clears the product picked |
| ProductProfitAnalysis.ProductProfitAnalysisView.SelectProduct | Components/Dashboard/ProductProfitAnalysis.jsx:79 | picking a product keeps the category |
| ProductProfitAnalysis.ProductProfitAnalysisView.StartAnalysis | Components/Dashboard/ProductProfitAnalysis.jsx:30-43 | without both picks the error asks for them and nothing is sent; otherwise loading starts and the analysis request for the user's id, category and product is sent; a null user throws into the failure message |
| ProductProfitAnalysis.ProductProfitAnalysisView.FinishAnalysis | Components/Dashboard/ProductProfitAnalysis.jsx:44-50 | the reply becomes the analysis as it is, a failure sets the error and keeps the analysis, and loading ends |
| ProductProfitAnalysis.ProductProfitAnalysisView.Render | Components/Dashboard/ProductProfitAnalysis.jsx:53-125 | the pickers and their options, the button disabled exactly while loading, a truthy error, and the table exactly when the analysis has rows |
| ProductProfitAnalysis.AnalyseAndShow | Components/Dashboard/ProductProfitAnalysis.jsx:30-125 | a successful analysis shows the reply's rows (no table when there are none), clears the error and re-enables the button |
| RetailerMarketPriceGraph.PriceChart | Components/Dashboard/RetailerMarketPriceGraph.jsx:21-40 | one label per purchase, its product name, with that purchase's market and purchase price per unit at the same index in the two series |
| RetailerMarketPriceGraph.PriceChartAppend | Components/Dashboard/RetailerMarketPriceGraph.jsx:22-24 | the chart keeps purchase order |
| RetailerMarketPriceGraph.RetailerMarketPriceGraphView.constructor | Components/Dashboard/RetailerMarketPriceGraph.jsx:10-12 | no chart, loading, no error |
| RetailerMarketPriceGraph.RetailerMarketPriceGraphView.Fetch | Components/Dashboard/RetailerMarketPriceGraph.jsx:14-52 | only a user with an aadhar number asks for the rows; a non-empty reply is charted, an empty one leaves the chart, a failure sets the error; loading ends after any request |
| RetailerMarketPriceGraph.RetailerMarketPriceGraphView.Render | Components/Dashboard/RetailerMarketPriceGraph.jsx:54-83 | loading first, then a truthy error, then the chart, then the no-data text |
| RetailerMarketPriceGraph.FirstLoad | Components/Dashboard/RetailerMarketPriceGraph.jsx:14-83 | a retailer with no purchases sees the no-data text, one with purchases sees their chart, and a user without an aadhar number keeps seeing the loading text |

## Left out

- Markup, styling, icons and chart options are not modelled. Only what each view shows is: texts, rows, options, enabled flags and chart data.
- Network I/O, the backend base URL and axios itself are not modelled. A request is a `Request` value; the reply is an input.
- Concurrency between handlers is not modelled: overlapping in-flight requests, replies arriving out of order, and effects re-running on a changed `user`/`api`.
- Cookie expiry: the 7-day `expires` is stored with each cookie, but time passing is not modelled.
- Browser dialogs (`window.confirm`, `prompt`) are inputs. `alert` is an output value.
- The sign-in redirect is modelled as its target (`/`). The one-second `setTimeout` delay is not modelled.
- The `SuccessMessage` component's own timer is not modelled.
- Signin.SignInForm.HandleSubmit: assumes a successful login reply carries the account record and the token. A reply missing them is not modelled.
- React's crash on a bad `user` cookie is modelled only as `Restore` returning `crashed`. The error boundary and unmounting that follow are not modelled.
- Form field change handlers (`handleAddProductChange`, `handleEditProductChange`) are not modelled. The add and edit forms are taken as filled in.
- Numbers are integers. Prices, amounts and profits are `int`, and `toFixed(2)` formatting is not modelled.
- `toLocaleDateString` is not modelled: chart labels are the raw `transaction_date` text.
- `parseInt` on digit strings too long for a double is not modelled. The model reads them exactly, whereas JavaScript rounds them.
- Json.Parse: fractions, exponents and `\uD800`-style surrogate escapes are rejected. A user profile written by `JSON.stringify` from the model's values never contains them.
- Json.Stringify: `undefined`, functions and symbols are not values here. Object keys keep insertion order; JavaScript's moving of integer-like keys to the front is not modelled.
- Requests made with the bare `axios` (the sign-in and sign-up forms, and the history, stock-bought and most-sold-category panels) or with `fetch` (the stock-sold panel) skip the interceptor and carry no bearer token. Only requests through the shared `api` instance are modelled as intercepted.
- Json.Get: a repeated key resolves to its last member, as `JSON.parse` leaves it. Inherited properties (`constructor`, `__proto__`) are not modelled.
- RetailerAnalytics.Spending: the spending object is an ordered key list with values. The ordering rules of JavaScript objects for integer-like keys are not modelled.
- RetailerAnalytics.Spending: a category whose name is an `Object.prototype` property (`constructor`, `toString`, `valueOf`, `hasOwnProperty`, `__proto__`, …) is not modelled. The accumulator is a plain `{}`, and in the program such a name finds the inherited property: the amount is joined onto the function's text as a string, or, for `__proto__`, the key is never created. The model treats every category name as an own key.
- RetailerAnalytics.AddToCategory: for the same reason, the `!acc[category]` test on an inherited property is not modelled; every missing name starts at zero.
- RetailerAnalytics.PieOfRows: the slices add up to the total spent only for categories that are not `Object.prototype` property names; for `__proto__` the program drops that category's amount from the pie.
- The dashboard panels other than the four above, the sign-up page and the static pages are not modelled. The dashboard is modelled only as which panels it shows.
