# Sales dashboard: navigation, filters and data-access fallback in Dafny

This project models the decision logic of a small sales-reporting dashboard.
The dashboard reads customers, products, orders and order line items from
PostgreSQL and shows them in a reactive web UI. Three pieces are modelled and
proved:

- **Sidebar navigation** (`navigation.dfy`). The session holds the label of
  the active page and five checkbox flags (`beranda`, `pelanggan`, `produk`,
  `pesanan`, `detail_pesanan`).
  - Keys absent from a session are `None`.
  - Initialisation writes only the absent keys. A repair step re-checks the
    home page (Beranda) when every box is clear.
  - Each page's callback makes that page exclusive, but only when its own box
    is checked.
  - The page rendered depends on the stored label alone.
  - `Session` is a class whose methods update the fields in place. Each method
    is tied to a pure function on `SessionState`. The lemmas are stated about
    those functions.
- **Derived columns and row filters** (`filters.dfy`, over `tables.dfy`).
  - Age is whole days divided by 365.
  - Slider bounds are widened when max ≤ min.
  - The customer, product, order and order-detail filters are inclusive range
    masks, with a strict low-stock threshold.
  - A table is a `seq` of row records. Every filter is a boolean mask, so its
    result is a subsequence of its input in the original order.
  - A value coerced to "missing" (`None`) fails every comparison, so it never
    passes a range test.
  - A column with no value at all has no slider bounds (`None`). Converting
    the missing minimum to an integer raises there, so that page stops. This
    is the case in offline mode, when every table is empty.
- **Connection and fetch fallback** (`config.dfy`).
  - Managed (TLS) mode is on iff `DB_HOST` ends with `supabase.co`.
  - Any setup failure records the `"Offline Mode"` sentinel and a warning of
    its kind. Nothing is propagated.
  - Each fetch returns the query's rows, or `[]` on any failure or with no
    cursor.
  - Closing closes the cursor, then the connection, inside one guard.
  - The database is an oracle: the outcome of each setup step and of each
    query is a parameter. Environment variables are a `map`. The fallback
    connection settings are a parameter; no credential appears in the model.

Two behaviours of the code are easy to misread:

- `close_connection` closes the cursor and then the connection inside a single `try` (config.py:163-171). When closing the cursor raises, the connection is not closed (`Config.DataAccess.CloseConnection`).
- The connection and cursor stay unset only when the connect call itself raises. The cursor is created at config.py:43, before the version query at config.py:46. So when the cursor or the version query fails after a successful connect, the `except` branches at config.py:53-78 record the sentinel, but the connection (and, after a failed version query, the cursor) stays set (`Config.OfflineWithOpenCursor`).

## Model

| member | source | states |
|---|---|---|
| `Navigation.Dispatch` | main.py:880-943 | the branch chosen is page `p` exactly when the stored label equals `p`'s label; no branch when it matches none |
| `Navigation.InitKeys` | main.py:783-798 | afterwards every key is present; a present label or flag is kept; an absent label becomes Beranda; an absent flag is true exactly for the page the label names |
| `Navigation.RepairFlags` | main.py:800-804 | afterwards at least one box is checked; with one already checked nothing changes; with none, the label becomes Beranda and its box is checked, other boxes untouched |
| `Navigation.CallbackEffect` | main.py:806-845 | when the page's own box is checked, the page becomes active and its box is the only one checked; otherwise the session is unchanged |
| `Navigation.Rerun` | main.py:783-804 | a script run (init then repair) always leaves every key present and some box checked |
| `Navigation.FreshSessionStartsHome` | main.py:783-798 | a new session starts with label Beranda and only the Beranda box checked |
| `Navigation.ClickCycle` | main.py:807-877 | from a state where page `a` is exclusively on, clicking another page `q` makes `q` exclusively on; clicking `a` itself clears every box but keeps the label, and the next run restores Beranda |
| `Navigation.Session.constructor` | main.py:783-798 | a new session holds no navigation key |
| `Navigation.Session.InitializeKeys` | main.py:783-798 | the new state is `InitKeys` of the old one |
| `Navigation.Session.EnsureOneChecked` | main.py:800-804 | the new state is `RepairFlags` of the old one |
| `Navigation.Session.UpdatePageBeranda` | main.py:807-813 | the new state is the callback effect for Beranda |
| `Navigation.Session.UpdatePagePelanggan` | main.py:815-821 | the new state is the callback effect for Pelanggan |
| `Navigation.Session.UpdatePageProduk` | main.py:823-829 | the new state is the callback effect for Produk |
| `Navigation.Session.UpdatePagePesanan` | main.py:831-837 | the new state is the callback effect for Pesanan |
| `Navigation.Session.UpdatePageDetail` | main.py:839-845 | the new state is the callback effect for Detail Pesanan |
| `Navigation.Session.ShownPage` | main.py:880-943 | the page rendered is `p` exactly when the stored label is `p`'s label, whatever the boxes say |
| `Rows.Day` | main.py:358-360 | the day of a timestamp is the whole number of days containing it |
| `Filters.AgeYears` | main.py:24 | age `a` satisfies 365·a ≤ days since birth < 365·(a+1), and is non-negative for a birth day not in the future |
| `Filters.AgeOf` | main.py:23-24 | the age is missing exactly when the birth date is missing, and otherwise is the floored 365-day year count |
| `Filters.MinMaxInt` | main.py:39-40 | no result exactly when every value is missing; otherwise both bounds are present values and enclose every present value |
| `Filters.MinMaxReal` | main.py:102-103 | as `MinMaxInt`, for a money column |
| `Filters.WidenInt` | main.py:41-43 | the minimum is kept, the maximum becomes strictly larger than it (min + 1 when it was not), and a valid maximum is kept |
| `Filters.WidenReal` | main.py:104-106 | the same widening, by 1000, for money sliders |
| `Filters.IntSliderBounds` | main.py:119-123 | no range when every value is missing; otherwise the lower bound is the column minimum (a present value at or below every present value), and the upper bound is either a present value above it (the column maximum) or, when every present value equals the minimum, the minimum plus one |
| `Filters.RealSliderBounds` | main.py:588-592 | the same for money columns (price, total amount, subtotal), with the minimum plus 1000 when every present value equals the minimum |
| `Filters.AgeFilterSpec` | main.py:53 | `FilterCustomersByAge`: a customer is kept iff it is in the table, has a birth date, and its age lies in the inclusive range; the result is a subsequence of the input |
| `Filters.FullAgeRangeKeepsDated` | main.py:39-53 | `FilterCustomersByAge` with the age slider at its initial range keeps exactly the customers whose birth date is present, in order; customers without one are dropped silently |
| `Filters.ProductFilterSpec` | main.py:144-149 | `FilterProducts`: a product is kept iff price and stock are present and both inside their inclusive ranges; the result is a subsequence of the input |
| `Filters.StockStatus` | main.py:248-250 | the status is "Rendah" iff the stock is present and strictly below the threshold, otherwise "Normal" |
| `Filters.LowStockSpec` | main.py:152 | `LowStock` of `FilterProducts`: the low-stock set equals one pass keeping in-range products with stock below the threshold; a filtered product is in it iff its status is "Rendah" |
| `Filters.OrderFilterSpec` | main.py:396-407 | `FilterOrders`: the two successive order masks equal one mask "date selection (only when both ends are picked) and inclusive amount range"; membership iff; subsequence |
| `Filters.OrderDetailsSinglePass` | main.py:606-627 | `FilterOrderDetails`: the four successive masks equal one pass of their conjunction: product selection (only when non-empty), date range (only when both ends are picked), inclusive quantity and subtotal ranges |
| `Filters.OrderDetailsFilterSpec` | main.py:606-627 | `FilterOrderDetails`: a line item is kept iff it is in the table and meets all four conditions; the result is a subsequence of the input |
| `Filters.FullRangesKeepMeasured` | main.py:565-627 | `FilterOrderDetails` with no product selected, a date selection covering every row and the quantity and subtotal sliders at their initial ranges keeps exactly the line items whose quantity and subtotal are both present, in order |
| `Tables.FilterMembership` | main.py:144-149 | a boolean mask keeps a row iff it was in the table and the mask holds on it |
| `Tables.FilterIsSubsequence` | main.py:53 | a boolean mask only deletes rows: the result is a subsequence of the table |
| `Config.UseManaged` | config.py:17 | managed mode is on iff `DB_HOST` is set and ends with `supabase.co` |
| `Config.ConnectRequestFor` | config.py:19-40 | TLS is requested iff managed mode is on; each setting is its variable when set, else its fallback |
| `Config.UnsetHostIsLocal` | config.py:17-38 | with `DB_HOST` unset, managed mode is off and no TLS is requested, although the fallback host the connect call uses may be a managed host |
| `Config.FirstFailure` | config.py:19-47 | setup fails iff a step raises; the failure is the kind raised by the first raising step (connect, then cursor, then version query) |
| `Config.Setup` | config.py:13-78 | on success the connection, cursor and version are recorded with no warning; any failure records the offline sentinel and a warning of its kind (tips by mode for connection errors); a failed connect leaves connection, cursor and database type unset; a recorded connection requests TLS iff managed |
| `Config.FetchAll` | config.py:84-95 | no cursor or a raising query gives no rows; otherwise the query's rows |
| `Config.OfflineFetchesEmpty` | config.py:53-95 | after a failed connect the version is the sentinel and every fetch yields no rows |
| `Config.OfflineWithOpenCursor` | config.py:42-78 | a version query that raises records the sentinel but leaves connection and cursor set, so fetches can still return rows |
| `Config.DataAccess.constructor` | config.py:13-78 | the globals after construction are `Setup` of the environment, fallbacks and oracle |
| `Config.DataAccess.ViewCustomers` | config.py:84-95 | no cursor or a raising query gives `[]`; otherwise the query's rows |
| `Config.DataAccess.ViewOrdersWithCustomers` | config.py:97-114 | the same contract for the orders-with-customers query |
| `Config.DataAccess.ViewProducts` | config.py:116-127 | the same contract for the products query |
| `Config.DataAccess.ViewOrderDetailsWithInfo` | config.py:129-155 | the same contract for the order-details query |
| `Config.DataAccess.CloseConnection` | config.py:160-171 | no cursor and no connection: no close call and nothing swallowed; the cursor is closed first; the connection is closed iff it is set and the cursor close did not raise; each resource is closed at most once; an error is swallowed iff a close call raised; neither global is modified |

## Left out

- Rendering is not modelled: metrics, tabs, sidebar widgets, tables, charts and download buttons are UI and plotting-library calls.
- CSV export is not modelled. It is a library serialiser.
- Group-by, top-10, mean and sum aggregates are not modelled. They are floating-point numerics over dataframe-library semantics.
- The SQL text, the `ORDER BY` orderings and the inner-join filtering happen inside PostgreSQL. Query results are an opaque oracle, so row order and referential consistency between the four fetches are not stated.
- Loading `.env`, the current time and console diagnostics are I/O. The environment and "today" are parameters. Warnings are recorded as a `Warning` value instead of printed text.
- The literal fallback credentials and host are not reproduced. They are a `Defaults` parameter.
- Money columns are exact `real`s. Float rounding and the conversion of database decimals to floats are not modelled.
- Timestamps are whole seconds and dates are day numbers. Time zones are not modelled.
- Filters.RealSliderBounds: for an all-missing money column the source does not raise (`float(nan)` is NaN), and what the slider widget then does is framework behaviour. The model gives no bounds in that case.
- The low-stock threshold is a free parameter. The number-input widget's own limits (0 to the stock maximum, default 20) are framework validation.
- Streamlit's widget mechanics are represented only by `Navigation.Click`. The widget stores its toggled value, then runs the callback. Reruns and widget-key syncing are otherwise not modelled.
- Navigation.Session.UpdatePageBeranda and the other four callbacks, and EnsureOneChecked, require every navigation key to be present. The callbacks are registered, and the repair runs, only after initialisation has written them.
- Closing a cursor or connection is a call into the driver. `CloseConnection` reports which calls it made; it does not model the closed state of the driver's objects.
