# Small-business dashboard: relay, tab dispatch, inventory and sales ledger

This project models the parts of a small-business dashboard (a single-page
React app) that hold logic:

- **The diagnostic relay** the home page installs when it mounts. It wraps
  `console.log`, `console.warn` and `console.error`. Each call is still printed,
  and it is also posted to the embedding parent frame as
  `{type: "iframe-console", level, args}`. The relay also replaces
  `window.onerror` and `window.onunhandledrejection` with handlers that post the
  same kind of message.
- **The tab dispatch** `renderContent`, which maps the active tab id to at most
  one view.
- **The inventory panel:** a clamped stock adjustment, a three-way stock status,
  the low-stock alert list and the total stock value.
- **The sales ledger:** submitting a sale, the form toggles, and the summary cards.

Modules, one per source file, plus one shared module:

- `Common` (common.dfy): `Option` and `Sum`. `Sum` is the left fold
  `xs.reduce((s, x) => s + f(x), 0)`. The module also has the fold's lemmas:
  concatenation, prepending, non-negativity, bounds, and replacing one element.
- `Relay` (relay.dfy): `app/page.tsx`, lines 18-89.
  - A JavaScript value is a `Value` tree. `Unserialisable` objects (with the properties they can be read for) stand for what
    `JSON.stringify` throws on.
  - `String(a)` is a parameter `show`.
  - `window.parent` is a `Parent`. It is either `Absent` or `Present(fault)`,
    where `fault(m)` is the exception `postMessage(m)` throws, if any.
  - A console slot holds a `ConsoleFn`: the browser's function, or a wrapper
    around what the slot held before.
  - `Effects` is the ordered trace of printed lines and delivered messages that
    one call produces.
  - Class `Window` holds the three console slots, the two hook slots and the
    trace. Its methods are proved against `Effects`, `ErrorEventArgs` and
    `RejectionArgs`.
- `Page` (page.dfy): `renderContent` and the `activeTab` state of `app/page.tsx`.
- `Inventory` (inventory.dfy): `components/inventory/InventoryManager.tsx`.
- `Sales` (sales.dfy): `components/sales/SalesTracker.tsx`.

Money is integer cents. The threshold `currentStock >= maxStock * 0.8` is
written `5 * currentStock >= 4 * maxStock`.

Behaviour of the code worth noting:

- The two global handlers post `{message, stack}` with **no** `name`
  (app/page.tsx:66, 77). The console sanitiser does include `name`
  (`ErrorSummaryDropsName`).
- The two global handlers have no try/catch. If `postMessage` throws, the
  exception leaves the handler (`PostOutcome.Threw`); one leaving the rejection
  handler then reaches `window.onerror`. Only the console wrappers
  recover from it locally.
- A non-`Error` rejection reason is posted raw, serialisable or not.
- Installing twice is not harmless: the effect has no guard, so every console
  call is then posted twice (`DoubleInstallPostsTwice`).

## Model

| member | source | states |
|---|---|---|
| `Relay.Sanitise` | app/page.tsx:27-41 | An `Error` becomes exactly `{message, stack, name}`. A serialisable non-error passes through unchanged. Anything else becomes `String(a)`. The result is always serialisable and never a raw `Error`. |
| `Relay.SanitiseArgs` | app/page.tsx:27 | The sanitised arguments are one-to-one with the inputs: same length, same order, element `i` is the sanitised argument `i`. |
| `Relay.SanitiseArgsIdempotent` | app/page.tsx:27-41 | Sanitising already-sanitised arguments changes nothing. |
| `Relay.PostResult` | app/page.tsx:43-51 | A post is delivered iff a parent exists and its `postMessage` does not throw. It throws iff a parent exists and `postMessage` throws, carrying that exception. With no parent, nothing is attempted. |
| `Relay.ConsoleMessage` | app/page.tsx:43-47 | The wrapper's message is tagged `"iframe-console"`, has the wrapper's own level, and carries one serialisable, non-`Error` argument per input argument. |
| `Relay.Serialisable` | app/page.tsx:35-36 | `JSON.stringify` succeeds exactly on values with no unserialisable leaf; an `Error` serialises. Characterised by `Relay.Sanitise` (every output is serialisable) and `Relay.SanitiseArgsIdempotent`. |
| `Relay.Truthy` | app/page.tsx:66 | JavaScript truthiness for the `error ? … : null` test. Characterised by `Relay.ErrorEventArgs` (`null` exactly when the error is falsy). |
| `Relay.GetProp` | app/page.tsx:66 | Property access `error.message` / `error.stack` on a thrown value: an `Error`'s own fields, the properties of a plain object, and also those of an object `JSON.stringify` rejects; `undefined` when the value has no such property. Characterised by `Relay.ErrorEventArgs` (the truthy non-`Error` case) and `Relay.ErrorSummaryDropsName`. |
| `Relay.ErrorSummary` | app/page.tsx:66-77 | The `{message, stack}` shape both global handlers post. Characterised by `Relay.ErrorSummaryDropsName`, `Relay.ErrorEventArgs` and `Relay.RejectionArgs`. |
| `Relay.Effects` | app/page.tsx:22-52 | The ordered trace of one console call through any stack of wrappers: original first, then the post, then at most one failure report through the original. Characterised by `Relay.NativeOutputFirst`, `Relay.OriginalRunsFirst`, `Relay.EffectsPostWellFormed`, `Relay.InstalledWrapperEffects` and `Relay.DoubleInstallPostsTwice`, and realised by `Relay.Window.RunWrapper`. |
| `Relay.NativeOutputFirst` | app/page.tsx:22-24 | However many wrappers are stacked, the first event of a console call is the browser printing the caller's unmodified arguments. |
| `Relay.OriginalRunsFirst` | app/page.tsx:22-52 | Everything the original function does for the caller's arguments happens before the wrapper's own post attempt: the original's trace is a prefix of the wrapper's. |
| `Relay.EffectsPostWellFormed` | app/page.tsx:43-47 | At any nesting depth, every message the console wrappers deliver carries the tag `"iframe-console"` and only serialisable arguments. |
| `Relay.InstalledWrapperEffects` | app/page.tsx:19-53 | The installed wrapper over the browser's function has three cases. With no parent it only prints. On delivery it prints, then delivers `{iframe-console, its own level, sanitised args}`. On a throwing post it prints, then prints `"Failed to postMessage:"` with the exception exactly once through the original, with no post and no retry. |
| `Relay.DoubleInstallPostsTwice` | app/page.tsx:18-22 | Running the unguarded effect twice wraps twice: one call then prints once and delivers the same message twice. |
| `Relay.ErrorSummaryDropsName` | app/page.tsx:66-77 | For an `Error`, the handlers' `{message, stack}` equals the sanitiser's first two fields. It has no `name`, while the sanitiser's shape does. |
| `Relay.ErrorEventArgs` | app/page.tsx:56-67 | `onerror` posts `[msg, url, line, col, x]` in that order. `x` is `null` exactly when the error argument is falsy. For an `Error`, `x` is `{message, stack}`. |
| `Relay.RejectionArgs` | app/page.tsx:74-84 | The rejection handler posts `["Unhandled Promise Rejection:", r]`. `r` is `{message, stack}` for an `Error` reason and the raw reason otherwise. |
| `Relay.UnserialisableErrorEventArgs` | app/page.tsx:66 | A thrown object that JSON rejects (a cyclic one with a `message` property) is still read for its properties: `onerror` posts its message and `undefined` for its missing stack. |
| `Relay.ErrorEventMessage` | app/page.tsx:57-70 | The `{type: "iframe-console", level: "error", args}` object `onerror` posts. Characterised by `Relay.ErrorEventArgs`, `Relay.ErrorEventExample` and the ensures of `Relay.Window.RaiseError`. |
| `Relay.RejectionMessage` | app/page.tsx:80-87 | The `{type: "iframe-console", level: "error", args}` object the rejection handler posts. Characterised by `Relay.RejectionArgs` and the ensures of `Relay.Window.RejectUnhandled`. |
| `Relay.ErrorEventExample` | app/page.tsx:56-70 | The global error ("X", "u", 10, 2, `Error("boom")`) relays as level `error` with `["X", "u", 10, 2, {message: "boom", stack}]`. |
| `Relay.Window.constructor` | app/page.tsx:19-20 | Before the effect runs, each console slot holds the browser's own function, both hooks hold what the page had, and the trace is empty. |
| `Relay.Window.Install` | app/page.tsx:19-88 | The `forEach` loop replaces each level's slot with a wrapper around exactly what it held. Both hooks are overwritten rather than chained. Nothing is printed or posted. |
| `Relay.Window.Call` | app/page.tsx:22-52 | `console[level](...args)` appends exactly `Effects` of that slot's function to the trace. |
| `Relay.Window.Invoke` | app/page.tsx:22-52 | Running a slot's function (browser function or wrapper) appends exactly its `Effects`. |
| `Relay.Window.RunWrapper` | app/page.tsx:22-52 | The wrapper body first calls the original, then posts the sanitised arguments, and on failure calls the original once more. Its trace is exactly `Effects` of the wrapper. |
| `Relay.Window.Post` | app/page.tsx:44-47 | `window.parent?.postMessage` returns `PostResult` and appends the message iff it was delivered. |
| `Relay.Window.RaiseError` | app/page.tsx:56-71 | Once installed, an uncaught error posts the `onerror` message. A throwing post escapes the handler as `Threw`. Before installation nothing is relayed. |
| `Relay.Window.RejectUnhandled` | app/page.tsx:74-88 | Once installed, an unhandled rejection posts the rejection message. A throwing post escapes as `Threw`. Before installation nothing is relayed. |
| `Page.RenderContent` | app/page.tsx:97-198 | Returns a view exactly for the five ids (dashboard, offers, sales, inventory, marketing) and `null` for every other string. The view returned is the one whose id was given. |
| `Page.RenderContentInverse` | app/page.tsx:97-198 | Dispatch and tab id are inverse: each view is rendered by its own id and by no other. |
| `Page.QuickActionsLeaveDashboard` | app/page.tsx:119-146 | Each of the dashboard's four quick actions switches to a tab that renders a view other than the dashboard. |
| `Page.Home.constructor` | app/page.tsx:15 | The page opens on `dashboard`, which renders the dashboard view. |
| `Page.Home.Content` | app/page.tsx:209 | `renderContent()` in the current state, i.e. `RenderContent(activeTab)`. Characterised by `Page.Home.constructor` (the dashboard at first) and `Page.Home.SetActiveTab` (a view iff the tab is one of the five ids). |
| `Page.Home.SetActiveTab` | app/page.tsx:204 | Switching sets the active tab. Something renders iff the tab is one of the five ids. |
| `Inventory.StatusOf` | components/inventory/InventoryManager.tsx:83-87 | Status is low iff `currentStock <= minStock`. It is high iff not low and `5*currentStock >= 4*maxStock`. It is normal otherwise. The three statuses partition all items, and low takes precedence over high. |
| `Inventory.StatusLabel` | components/inventory/InventoryManager.tsx:209-210 | Each status has its own badge text, and each text belongs to exactly one status. |
| `Inventory.StatusColor` | components/inventory/InventoryManager.tsx:89-95 | Each status has its own badge variant, and each variant belongs to exactly one status. |
| `Inventory.ClampAtZero` | components/inventory/InventoryManager.tsx:78 | `Math.max(0, n)` is at least `n`, equal to `n` when `n` is non-negative, and 0 when `n` is negative. |
| `Inventory.StockUpdated` | components/inventory/InventoryManager.tsx:76-80 | The update keeps the list's length and order. Items with other ids are unchanged. Each item with the id is the same item with only `currentStock` set to `max(0, old + change)`. |
| `Inventory.UpdateUnknownIdIsNoOp` | components/inventory/InventoryManager.tsx:76-80 | Updating an id no item has leaves the inventory unchanged. |
| `Inventory.UpdateKeepsStockNonNegative` | components/inventory/InventoryManager.tsx:78 | If all stock is non-negative before an update, it is non-negative after. |
| `Inventory.CanDecrement` | components/inventory/InventoryManager.tsx:240 | The minus button is enabled iff the stock is not 0. Characterised by `Inventory.DecrementAtZeroIsNoOp`: where it is disabled, pressing it would change nothing anyway. |
| `Inventory.DecrementAtZeroIsNoOp` | components/inventory/InventoryManager.tsx:236-243 | Decrementing an item at 0 (the case where the minus button is disabled) leaves the inventory unchanged. |
| `Inventory.IncrementDecrementRoundTrip` | components/inventory/InventoryManager.tsx:236-250 | Plus, then minus, restores the inventory whenever the item's stock was not negative. |
| `Inventory.DecrementIncrementRoundTrip` | components/inventory/InventoryManager.tsx:236-250 | Minus, then plus, restores the inventory whenever the item's stock was positive. |
| `Inventory.LowStockItems` | components/inventory/InventoryManager.tsx:72 | The alert list holds exactly the items of the inventory whose status is low, and is no longer than the inventory. |
| `Inventory.LowStockConcat` | components/inventory/InventoryManager.tsx:72 | The filter distributes over concatenation, so it keeps the inventory's order. |
| `Inventory.LowStockIdempotent` | components/inventory/InventoryManager.tsx:72 | Filtering the alert list again changes nothing. |
| `Inventory.AlertCountIsLowCount` | components/inventory/InventoryManager.tsx:138-164 | The alert count shown equals the number of items badged "Low Stock". The restocking card shows iff at least one item is low. |
| `Inventory.TotalValue` | components/inventory/InventoryManager.tsx:73 | The left-fold sum of `currentStock * price`. Characterised by `Inventory.TotalValueNonNegative`, `Inventory.TotalValueAfterUpdate` and `Inventory.MockInventorySummary`. |
| `Inventory.TotalValueNonNegative` | components/inventory/InventoryManager.tsx:73 | The sum of `currentStock * price` is non-negative when every stock and price is. |
| `Inventory.TotalValueAfterUpdate` | components/inventory/InventoryManager.tsx:73-80 | Updating the one item with a given id changes the total value by exactly the change in that item's stock value. |
| `Inventory.MockInventorySummary` | components/inventory/InventoryManager.tsx:22-73 | On the starting inventory, coffee and croissants are the alerts and the stock is worth 61914 cents. |
| `Inventory.InventoryManager.constructor` | components/inventory/InventoryManager.tsx:70 | The panel starts with the mock inventory. |
| `Inventory.InventoryManager.UpdateStock` | components/inventory/InventoryManager.tsx:75-81 | `updateStock` replaces the state with `StockUpdated` of the previous state. |
| `Sales.CustomerName` | components/sales/SalesTracker.tsx:68 | A non-empty entered name is kept. An empty one becomes "Walk-in Customer". The result is never empty. |
| `Sales.NewSale` | components/sales/SalesTracker.tsx:64-71 | The new sale carries the parsed amount and item count, the customer rule's name, and the form's payment method. |
| `Sales.TodayTotal` | components/sales/SalesTracker.tsx:58 | The left-fold sum of sale amounts (the revenue card). Characterised by `Sales.PrependUpdatesSummary`, `Sales.AverageOrderValueBounds` and `Sales.MockSalesSummary`. |
| `Sales.TodayItems` | components/sales/SalesTracker.tsx:59 | The left-fold sum of item counts (the items card). Characterised by `Sales.PrependUpdatesSummary`, `Sales.AverageItemsBounds` and `Sales.MockSalesSummary`. |
| `Sales.PrependUpdatesSummary` | components/sales/SalesTracker.tsx:58-73 | Prepending a sale raises revenue by its amount, items by its item count, and the transaction count by one. |
| `Sales.AverageItems` | components/sales/SalesTracker.tsx:116 | Divides only when there are sales: the divisor is then the sale count (positive) and the dividend is the items total. Otherwise it shows 0. |
| `Sales.AverageOrderValue` | components/sales/SalesTracker.tsx:128 | Divides only when there are sales: the divisor is then the sale count (positive) and the dividend is the revenue. Otherwise it shows 0. |
| `Sales.AverageItemsBounds` | components/sales/SalesTracker.tsx:116 | If every sale's item count lies in `[lo, hi]`, the average items per sale lies in `[lo, hi]`. |
| `Sales.AverageOrderValueBounds` | components/sales/SalesTracker.tsx:128 | If every amount lies in `[lo, hi]`, the average order value lies in `[lo, hi]`. |
| `Sales.MockSalesSummary` | components/sales/SalesTracker.tsx:21-59 | On the starting list, revenue is 14774 cents, 9 items were sold, and there are 3 transactions. |
| `Sales.WithField` | components/sales/SalesTracker.tsx:157-186 | Editing one form field replaces that field and no other. |
| `Sales.SalesTracker.constructor` | components/sales/SalesTracker.tsx:49-56 | The tracker starts with the mock sales, the form hidden, and the empty form (payment "Card"). |
| `Sales.SalesTracker.HandleSubmit` | components/sales/SalesTracker.tsx:61-76 | Submitting makes the list `[newSale] + previous`, resets the form and hides it. Revenue and items grow by exactly the new sale's amount and item count. |
| `Sales.SalesTracker.ToggleForm` | components/sales/SalesTracker.tsx:87 | "Add Sale" flips `showForm` and changes nothing else. |
| `Sales.SalesTracker.CancelForm` | components/sales/SalesTracker.tsx:196 | Cancel hides the form and changes nothing else. |
| `Sales.SalesTracker.EditField` | components/sales/SalesTracker.tsx:157-186 | An `onChange` handler updates one form field. The list and the form's visibility stay as they were. |

## Left out

- Rendering is not modelled. That covers all JSX, Tailwind classes, framer-motion variants, icons and the `ErrorBoundary`, which is presentation only. `ErrorBoundary`'s source is not part of this model.
- The real browser objects are not modelled: the console, the event objects, and the `"*"` target origin of `postMessage`. Only what the relay does with them is modelled.
- `JSON.stringify` is reduced to the `Serialisable` predicate. Only `Unserialisable` leaves make it throw. Functions, symbols and BigInts are not among the modelled values.
- `String(a)` is the parameter `show`. The runtime's string conversion is outside the model.
- `Relay.Sanitise`: `String(a)` is assumed not to throw. In the source it runs inside the `catch` block with no enclosing `try` (app/page.tsx:39), so for a value it cannot convert (a cyclic object without a prototype, say) the exception escapes the wrapper after the browser has printed and before any post. That escaping path is not modelled.
- Structured-clone failures of `postMessage` are not modelled as such. They, and everything else that makes the post throw, are folded into the parent's `fault` function. `fault` is deterministic per message.
- An `Error`'s `stack` is always a string here. An engine that leaves it `undefined` is not modelled.
- `Relay.Window.RaiseError`: the relay's `onerror` returns `undefined`, not `true`, so the browser still prints its own "Uncaught …" report to the console. That report is not recorded in the trace, which holds only the post.
- `Relay.Window.RejectUnhandled`: the relay's handler never calls `event.preventDefault()`, so the browser still prints its own "Uncaught (in promise) …" report. As for `RaiseError`, that report is not recorded in the trace.
- `Relay.Window.RaiseError`: what the hook held before installation (the browser default or an earlier handler) is not modelled. Before `Install` the model relays nothing and records nothing.
- `Relay.Window.RejectUnhandled`: as for `RaiseError`, the handler that was replaced is not modelled.
- `Relay.Window.RejectUnhandled`: when the post throws (a raw reason that structured clone rejects, such as an object holding a function), the exception leaving the handler is reported by the browser as an `error` event at the window, which runs the relay's own `onerror` and posts a second message. The model stops at `Threw`: that follow-on `RaiseError` is not composed into the trace.
- Numbers are integers. NaN, -0 and fractions do not occur, so truthiness has no NaN case. `parseFloat`/`parseInt` are not modelled: their results are inputs to `HandleSubmit`.
- `Inventory.StatusOf`: `maxStock * 0.8` is compared exactly, as `5 * currentStock >= 4 * maxStock`. Possible floating-point rounding of the product is not modelled.
- `Sales.AverageItems`: the model returns the dividend and the divisor, not the quotient. `toFixed(1)` formatting is not modelled.
- `Sales.AverageOrderValue`: as for `AverageItems`, the quotient and `formatCurrency` are not modelled.
- `Date.now()`-based sale ids, sale times and `lastRestocked` dates are not modelled. They come from the clock.
- `formatCurrency` and `formatTime` from `lib/utils` are not modelled: they only format values for display, and the model renders nothing.
- The offer templates (clipboard, `navigator.share`, timers) are not modelled: they are asynchronous browser I/O.
- The navigation bar's mobile-menu toggle is not modelled: it is UI only. Its five tab ids are those that `Page.RenderContent` dispatches on.
- The dashboard statistics, sales chart and marketing tips are not modelled: they only render static arrays.
- The "Reorder" buttons are not modelled: they have no handler.
