# Expense tracker and tab header, modelled in Dafny

This project models the behaviour of a small React Native app: the expense
tracker screen (`screens/ExpenseTrackerScreen.js`) and the header resolution
of the bottom tab navigator (`navigation/BottomTabNavigator.js`).

- `Wrappers.dfy`: `Option`, where `None` stands for JavaScript's `undefined`
  or, for numbers, `NaN`.
- `JsNumber.dfy`: the JavaScript number behaviour the screen depends on.
  `ParseInt` is `parseInt(s, 10)`: it skips ECMAScript white space and line
  terminators, reads one optional sign, then takes the longest run of decimal
  digits. With no digits it gives `NaN`. `ToJsString` is `String(x)` for an
  integer or `NaN`, and `Plus` is addition that propagates `NaN`.
- `ExpenseTracker.dfy`:
  - the `Expense` record;
  - the pure list computations: `WithAdded` (append by spread) and `WithoutId`
    (`filter`);
  - the header total as the `reduce` it is (`Reduce`, `Total`);
  - the decision taken after every change (`StoreAndScroll`);
  - the screen's state as a class (`ExpenseTrackerScreen`, holding the list,
    the two input fields and the value held in storage);
  - each row's highlight state as a class (`Item`).
- `BottomTabNavigator.dfy`: the route descriptor as datatypes, the focused tab's
  name, and the two `switch`es that map it to a title and to a header-right value.

Four behaviours of the code are easy to misread; the model follows the code:
- Ids can be reused. The new id is the last record's id plus one, so removing
  the last record and adding again can hand out the removed id again
  (`NextIdAfterRemovingLast`, `IdReusedExample`).
- The input fields are not cleared after Add. They keep their values
  (`AddExpense` leaves `title` and `amount` alone).
- An amount with no leading integer makes the whole total `NaN`. It does not
  count as zero (`TotalIsNaN`).
- Bad stored data is not read as an empty list. A stored null becomes an
  empty list, but malformed JSON makes the read throw. Also, when storage
  still holds null as the first change is persisted, the code writes the list
  and then throws on the null's `length` (`StoreAndScroll`'s `PersistThenThrow`).

## Model

| member | source | states |
|---|---|---|
| JsNumber.ParseInt | screens/ExpenseTrackerScreen.js:80 | `parseInt(s, 10)`; its contract is stated by `ParseIntLeadingInteger` and `ParseIntNoDigits`, which together cover every string |
| JsNumber.IntToString | screens/ExpenseTrackerScreen.js:98 | `id.toString()`: starts with a minus sign exactly for a negative id, and `parseInt` reads it back as the id |
| JsNumber.ToJsString | screens/ExpenseTrackerScreen.js:80 | the string form `parseInt` makes of the accumulator, an integer or NaN; `parseInt` reads it back unchanged |
| JsNumber.ParseIntOfNatString | screens/ExpenseTrackerScreen.js:80 | a minus sign or nothing followed by the decimal form of a natural number parses to its signed value |
| JsNumber.TrimStartSpec | screens/ExpenseTrackerScreen.js:80 | the text `parseInt` reads starts after a run of white space and at a character that is not white space |
| JsNumber.DigitRunSpec | screens/ExpenseTrackerScreen.js:80 | the digits `parseInt` reads are a prefix of the text that no further digit extends |
| JsNumber.ParseIntLeadingInteger | screens/ExpenseTrackerScreen.js:80 | white space, an optional sign, digits and a tail that does not start with a digit parse to the signed value of the digits; the tail is ignored |
| JsNumber.ParseIntNoDigits | screens/ExpenseTrackerScreen.js:80 | when no digit follows the white space and the optional sign, the result is NaN |
| JsNumber.ParseIntTruncatesFraction | screens/ExpenseTrackerScreen.js:80 | the amount "12.50" counts as 12 |
| JsNumber.IntToStringInjective | screens/ExpenseTrackerScreen.js:98 | distinct ids have distinct `toString()` keys |
| JsNumber.Plus | screens/ExpenseTrackerScreen.js:80 | the sum is NaN exactly when an operand is NaN, and otherwise the sum of the values |
| ExpenseTracker.NextId | screens/ExpenseTrackerScreen.js:33-35 | the new id is 1 for an empty list and otherwise the last record's id plus one; on a list with increasing ids it exceeds every id present |
| ExpenseTracker.WithAdded | screens/ExpenseTrackerScreen.js:31-41 | an empty title or amount leaves the list unchanged; otherwise the list gains exactly one record at the end, with the next id and the given title and amount, and the earlier records are unchanged; increasing ids stay increasing |
| ExpenseTracker.WithoutId | screens/ExpenseTrackerScreen.js:49 | the remaining records are exactly those of the list whose id differs, and the length drops by the number of records with that id |
| ExpenseTracker.WithoutIdIsSubsequence | screens/ExpenseTrackerScreen.js:49 | Remove keeps the surviving records in their original order |
| ExpenseTracker.WithoutUnknownId | screens/ExpenseTrackerScreen.js:49 | removing an id that no record carries leaves the list unchanged |
| ExpenseTracker.WithoutIdKeepsIdsIncreasing | screens/ExpenseTrackerScreen.js:49 | Remove keeps ids strictly increasing |
| ExpenseTracker.RemovedIdAbsent | screens/ExpenseTrackerScreen.js:49 | no record with the removed id remains |
| ExpenseTracker.KeysUnique | screens/ExpenseTrackerScreen.js:98 | on a list with increasing ids, the list keys `id.toString()` are pairwise distinct |
| ExpenseTracker.NextIdAfterRemovingLast | screens/ExpenseTrackerScreen.js:33-49 | removing the last record leaves the others; the next Add then gets 1 if none is left, otherwise an id no larger than the removed one, and exactly the removed id when that id followed its predecessor's by one |
| ExpenseTracker.IdReusedExample | screens/ExpenseTrackerScreen.js:30-52 | adding two records to an empty list, removing the second and adding a third gives the third id 2, the removed id |
| ExpenseTracker.SumAmounts | screens/ExpenseTrackerScreen.js:80 | one `reduce` step re-parses the accumulator and adds the record's parsed amount, which amounts to adding the amount to the accumulator |
| ExpenseTracker.Reduce | screens/ExpenseTrackerScreen.js:82 | `expenses.reduce(sumAmounts, start)`; its contract is stated by `ReduceIsNaN`, `ReduceSums` and `ReduceSnoc` |
| ExpenseTracker.Total | screens/ExpenseTrackerScreen.js:82 | `expenses.reduce(sumAmounts, { amount: 0 }).amount`; its contract is stated by `TotalIsNaN`, `TotalIsParsedSum` and `TotalAfterAdd` |
| ExpenseTracker.ReduceIsNaN | screens/ExpenseTrackerScreen.js:80-82 | the fold is NaN exactly when its start is NaN or some amount has no leading integer |
| ExpenseTracker.ReduceSums | screens/ExpenseTrackerScreen.js:80-82 | when every amount has a leading integer, the fold adds their sum to its start |
| ExpenseTracker.TotalIsNaN | screens/ExpenseTrackerScreen.js:80-82 | the empty list totals 0, and the total is NaN exactly when some amount has no leading integer |
| ExpenseTracker.TotalIsParsedSum | screens/ExpenseTrackerScreen.js:80-82 | when every amount has a leading integer, the total is the sum of those integers |
| ExpenseTracker.ReduceSnoc | screens/ExpenseTrackerScreen.js:82 | folding a list with one more record at the end is one more step on the previous result |
| ExpenseTracker.TotalAfterAdd | screens/ExpenseTrackerScreen.js:30-82 | a successful Add adds the new amount to the total (or makes it NaN); a rejected Add leaves the total alone |
| ExpenseTracker.CoffeeExample | screens/ExpenseTrackerScreen.js:30-43 | adding "Coffee" for "5" to an empty list gives one record with id 1 and a total of 5 |
| ExpenseTracker.StoreAndScroll | screens/ExpenseTrackerScreen.js:62-73 | storage is left alone exactly when the list is empty; the write is followed by an error exactly when storage held null; the list scrolls exactly when the stored list was strictly shorter |
| ExpenseTracker.ScrollsAfterAdd | screens/ExpenseTrackerScreen.js:64-70 | when storage mirrors the list before the change, a successful Add is written and scrolled to |
| ExpenseTracker.NoScrollAfterRemove | screens/ExpenseTrackerScreen.js:64-70 | when storage mirrors the list before the change, a Remove never scrolls, and it is written unless it emptied the list |
| ExpenseTracker.AddAfterEmptyingDoesNotScroll | screens/ExpenseTrackerScreen.js:64-68 | a Remove that empties the list writes nothing, so the last record stays stored, and the next Add is written without scrolling |
| ExpenseTracker.FirstAddOnFreshInstall | screens/ExpenseTrackerScreen.js:64-68 | with null in storage the first Add is written and then throws, so it does not scroll |
| ExpenseTracker.EmptyingThenAddingDoesNotScroll | screens/ExpenseTrackerScreen.js:30-73 | on a fresh install, Add, Remove, Add runs the effect as write-then-throw, skip, and write without scrolling |
| ExpenseTracker.ExpenseTrackerScreen.constructor | screens/ExpenseTrackerScreen.js:20-21 | the screen starts with no records and the inputs "Expense" and "100"; storage holds what an earlier session left |
| ExpenseTracker.ExpenseTrackerScreen.Rehydrate | screens/ExpenseTrackerScreen.js:25-28 | the list becomes the stored list, or empty when storage holds null |
| ExpenseTracker.ExpenseTrackerScreen.StoreAndScrollEffect | screens/ExpenseTrackerScreen.js:62-73 | the step taken is `StoreAndScroll` of the list and the old stored value; after a write storage mirrors the list, after a skip it keeps its old value, and it never comes to hold an empty list |
| ExpenseTracker.ExpenseTrackerScreen.ChangeTitle | screens/ExpenseTrackerScreen.js:104-109 | typing in the title field replaces the title input and nothing else |
| ExpenseTracker.ExpenseTrackerScreen.ChangeAmount | screens/ExpenseTrackerScreen.js:114-119 | typing in the amount field replaces the amount input and nothing else |
| ExpenseTracker.ExpenseTrackerScreen.AddExpense | screens/ExpenseTrackerScreen.js:30-45 | the list becomes `WithAdded` of the old list and the inputs, the list is replaced exactly when both inputs are non-empty, the new last id is `NextId` of the old list, increasing ids stay increasing, and the inputs are kept |
| ExpenseTracker.ExpenseTrackerScreen.RemoveExpense | screens/ExpenseTrackerScreen.js:47-52 | the list becomes `WithoutId` of the old list, and increasing ids stay increasing |
| ExpenseTracker.Item.constructor | screens/ExpenseTrackerScreen.js:142-143 | a row shows its record and starts un-highlighted |
| ExpenseTracker.Item.HighlightItem | screens/ExpenseTrackerScreen.js:145-147 | a long press, offered only on an un-highlighted row, highlights it |
| ExpenseTracker.Item.NotHighlightItem | screens/ExpenseTrackerScreen.js:149-151 | Cancel, offered only on a highlighted row, clears the highlight |
| ExpenseTracker.Item.PressRemove | screens/ExpenseTrackerScreen.js:153-157 | Remove, shown only on a highlighted row, removes the row's id from the screen's list |
| BottomTabNavigator.ActiveRouteName | navigation/BottomTabNavigator.js:60 | the focused tab is `routes[index].name` of the state, and "Home" when the state, that entry or its name is missing; the result is "Home" or the name of one of the routes |
| BottomTabNavigator.HeaderTitle | navigation/BottomTabNavigator.js:59-70 | Home, Links and ExpenseTracker map to "How to get started", "Links to learn more" and "Expense Tracker"; a title exists exactly for those three names; with no state the title is Home's |
| BottomTabNavigator.HeaderRight | navigation/BottomTabNavigator.js:72-84 | null exactly on Home and Links; on ExpenseTracker the params' `headerRight`, present exactly when params and that field are; otherwise undefined; with no state it is null |
| BottomTabNavigator.TitleAndRightAgree | navigation/BottomTabNavigator.js:59-84 | a name with no title leaves the right-hand side undefined, and a null right-hand side comes with a title |

## Left out

- Storage is a field of the screen holding the stored list, or `None` for null. The asynchronous calls and the JSON round trip are not modelled; a malformed stored value, on which `JSON.parse` throws, is not modelled either.
- The screen does not run the effect or the rehydration by itself: a caller invokes `StoreAndScrollEffect` after a change and `Rehydrate` at mount, as the component's effects do.
- The race between two overlapping persist-and-scroll runs is not modelled, because it is concurrency. Without it, storage still lags the list: a Remove that empties the list writes nothing (`AddAfterEmptyingDoesNotScroll`), and on a fresh install the first write throws (`FirstAddOnFreshInstall`). `ScrollsAfterAdd` and `NoScrollAfterRemove` state the case where storage mirrors the list before the change.
- `StoreAndScroll`: a stored JSON value other than null or an expense array is not modelled.
- Header parameter dispatch (`navigation.dispatch`, `setParams`), `navigation.setOptions`, list rendering and inversion, `scrollToEnd`, and `Platform` are framework calls. They are not modelled. The header-right callback is an opaque `Callback` value.
- Numbers are unbounded integers: the 53-bit precision of JavaScript numbers, `-0`, and the exponent notation of huge numbers when the accumulator is stringified are left out.
- `ParseInt` works on Unicode scalar values, not on UTF-16 code units.
- `BottomTabNavigator.ActiveRouteName`: a non-integer `index` and a state without `routes` (which would throw) are not modelled.
- `ExpenseTracker.Item.PressRemove` and `ExpenseTracker.Item.NotHighlightItem` require the row to be highlighted and `ExpenseTracker.Item.HighlightItem` requires it not to be, because each action is rendered only in that state.
- A route's `rootRouteKey` parameter is not modelled, because the header functions never read it.
- navigation/useLinking.js, configs/theme.js and constants/Colors.js are not part of this model: they hold configuration and constants with no behaviour. `__tests__/App-test.js` is a snapshot test of a file that is not part of this model.
