# Salesforce Lightning account and lead components — a Dafny model

This project models the logic core of three Lightning Web Components.

- **myAccounts**: the account-list card. Its `wiredAccounts` callback stores one page of
  accounts. Each account is enriched with an avatar letter and colour, formatted revenue,
  a rating CSS class and an `isHot` flag. The getters `hasAccounts`, `hasError` and
  `footerText` read that state.
- **accountHealthIndicator**: the account health badge. Its `wiredAccount` callback stores
  the whole record result. The getters `isLoading`, `hasError`, `healthRating`,
  `formattedEvaluatedDate` and `badgeClass` are derived from it.
- **overdueLeads**: the overdue-leads table. Its `wiredLeads` callback stores the leads,
  each with a record-page URL, or an error message. The getters `hasLeads`, `hasNoLeads`
  and `hasError` pick which view shows.

Every component is an immutable `State` datatype. Every callback is a pure transition
function, and every getter is a pure function of the state. `Run` folds a sequence of
callbacks, so properties can be stated over any history of deliveries.

JavaScript semantics are modelled explicitly in `JsValues`:
- truthiness (`undefined`, `null`, `false`, `0` and `""` are falsy; an empty array is truthy);
- the nullish test and the `??`, `||` and `?.` operators;
- property lookup on plain records;
- the string a value becomes inside a template literal.

A wire result's `data` is `Some` when it is truthy, so an empty lead list still counts as
data. `error` is an arbitrary value, and only its truthiness is branched on.

Files:
- `js_values.dfy`: module `JsValues`.
- `decimal.dfy`: module `Decimal`, which prints integers in decimal and parses them back.
- `wire.dfy`: module `Wire`, holding the `{data, error}` result and the `body.message` lookup.
- `my_accounts.dfy`, `account_health_indicator.dfy`, `overdue_leads.dfy`: one module per component.
- `error_messages.dfy`: module `ErrorMessages`, which compares the `??` and `||` error texts.

Where the code differs from its own doc comments, the model follows the code. For example, the doc comment at accountHealthIndicator.js:28-31 says `isLoading` is true only until the adapter first returns. The differences are:
- A wire result can carry data and a truthy error at the same time. The data branch then
  wins in `wiredAccounts` and `wiredLeads`.
- In the health badge, a delivery with neither data nor error puts the badge back into
  loading. The other two components never return to loading.
- In myAccounts, a data callback does not clear an earlier error message.
- In myAccounts, an error whose `body.message` is `""` (or another falsy but non-nullish
  value) stores that value. `hasError` then becomes false, even if an earlier error was showing.

## Model

| member | source | states |
|---|---|---|
| MyAccounts.EnrichAccount | force-app/main/default/lwc/myAccounts/myAccounts.js:75-87 | every original field outside the five added keys is kept unchanged; the result has the enriched shape; avatarLetter is "?" for a falsy Name and otherwise the upper-cased first character; formattedRevenue is "--" for a nullish revenue and the locale formatter's text otherwise; ratingClass is the rating table's class for Rating; isHot holds iff Rating === "Hot" |
| MyAccounts.EnrichAll | force-app/main/default/lwc/myAccounts/myAccounts.js:46 | the mapped list has the same length, and each element is the enrichment of the matching input account |
| MyAccounts.ColorIndex | force-app/main/default/lwc/myAccounts/myAccounts.js:77 | the colour index is always a valid palette position |
| MyAccounts.RatingClass | force-app/main/default/lwc/myAccounts/myAccounts.js:84 | the rating class is always one of the four known classes |
| MyAccounts.RatingClassTable | force-app/main/default/lwc/myAccounts/myAccounts.js:17-21 | Hot, Warm and Cold map to rating-hot, rating-warm and rating-cold; every other primitive maps to rating-default; rating-hot occurs iff the rating is "Hot" |
| MyAccounts.IsHotIffHotRating | force-app/main/default/lwc/myAccounts/myAccounts.js:84-85 | in an enriched record, isHot is true iff Rating is "Hot", and so is ratingClass == rating-hot |
| MyAccounts.AvatarStyleFromPalette | force-app/main/default/lwc/myAccounts/myAccounts.js:76-82 | the colour index is the avatar letter's char code mod 8; avatarStyle is "background-color: " followed by that palette entry |
| MyAccounts.AvatarStyleSamples | force-app/main/default/lwc/myAccounts/myAccounts.js:5-14 | the palette entries for the initials 'A' and 'G' and for '?' |
| MyAccounts.FormattedRevenueDashesIff | force-app/main/default/lwc/myAccounts/myAccounts.js:94-95 | when the locale formatter never prints "--" itself, formattedRevenue is "--" exactly when AnnualRevenue is null or undefined |
| MyAccounts.WiredAccounts | force-app/main/default/lwc/myAccounts/myAccounts.js:42-51 | loading ends on every callback; data sets totalCount, stores exactly the enrichment of each delivered account (an equally long list whose accounts keep their fields), and leaves errorMessage alone; an error keeps accounts and totalCount and stores body.message unless it is nullish, otherwise the default; any other callback changes nothing else |
| MyAccounts.ErrorText | force-app/main/default/lwc/myAccounts/myAccounts.js:48-49 | the stored message is never nullish: body.message when it is not nullish, otherwise the default text |
| MyAccounts.FooterText | force-app/main/default/lwc/myAccounts/myAccounts.js:64-66 | the footer always starts with "Showing " and ends with " Accounts" |
| MyAccounts.HasErrorIffNonEmpty | force-app/main/default/lwc/myAccounts/myAccounts.js:59-61 | for a string message, hasError holds iff the message is non-empty |
| MyAccounts.FooterRoundTrip | force-app/main/default/lwc/myAccounts/myAccounts.js:64-66 | the footer parses back to the number of shown accounts and the printed total |
| MyAccounts.ParseFooterCanonical | force-app/main/default/lwc/myAccounts/myAccounts.js:64-66 | the footer parser accepts only the template's own spelling: a parsed line is exactly "Showing " + the count's shortest decimal + " of " + the total text + " Accounts", so a zero-padded count is rejected |
| MyAccounts.FooterUnique | force-app/main/default/lwc/myAccounts/myAccounts.js:64-66 | any line that parses to a state's shown count and printed total is that state's footer, so the round trip pins the whole text |
| Decimal.NatToStringParseDigits | force-app/main/default/lwc/myAccounts/myAccounts.js:65 | a non-empty digit string without a superfluous leading zero is exactly the decimal spelling of its value |
| MyAccounts.FooterInjective | force-app/main/default/lwc/myAccounts/myAccounts.js:64-66 | two states with the same footer show the same number of accounts and print the same total; for numeric totals the totals are equal |
| MyAccounts.FooterForTwoOf247 | force-app/main/default/lwc/myAccounts/__tests__/myAccounts.test.js:63-72 | after a page of two accounts with total 247, the footer is exactly "Showing 2 of 247 Accounts" |
| MyAccounts.MockErrorRendering | force-app/main/default/lwc/myAccounts/__tests__/myAccounts.test.js:101-111 | the test hands its object to the Apex test adapter as the error's `body`, so `error.body.message` is undefined: the card stores its default text, hasError holds, loading has ended and no accounts show |
| MyAccounts.RunKeepsEnriched | force-app/main/default/lwc/myAccounts/myAccounts.js:42-51 | any sequence of callbacks preserves "every displayed account is enriched" |
| MyAccounts.ReachableAccountsEnriched | force-app/main/default/lwc/myAccounts/myAccounts.js:34-46 | every account the card can ever display carries consistent enrichment fields |
| MyAccounts.RunStopsLoading | force-app/main/default/lwc/myAccounts/myAccounts.js:36-43 | after any non-empty sequence of callbacks, isLoading is false |
| MyAccounts.ErrorSurvivesData | force-app/main/default/lwc/myAccounts/myAccounts.js:44-50 | callbacks with data, or with a falsy error, never change errorMessage, so a later data callback does not clear an error |
| MyAccounts.LastPage | force-app/main/default/lwc/myAccounts/myAccounts.js:44-46 | the page of the latest callback that carried data: some callback carried it and no later callback carried data; none only when no callback carried data; well typed whenever the callbacks were |
| MyAccounts.AccountsFromLastPage | force-app/main/default/lwc/myAccounts/myAccounts.js:44-46 | accounts are exactly the enrichment of the last data callback's accounts and totalCount is its total; with no such callback both are unchanged |
| Decimal.ParseNatToString | force-app/main/default/lwc/myAccounts/myAccounts.js:65 | the decimal count printed in the footer parses back to the count |
| Wire.BodyMessage | force-app/main/default/lwc/overdueLeads/overdueLeads.js:32 | `error?.body?.message` is the body's message when the error is an object whose object body has a message, and undefined in every other case |
| AccountHealthIndicator.BadgeClass | force-app/main/default/lwc/accountHealthIndicator/accountHealthIndicator.js:83-95 | the class is always one of the four badge strings, and it always starts with "slds-badge" |
| AccountHealthIndicator.BadgeClassTable | force-app/main/default/lwc/accountHealthIndicator/accountHealthIndicator.js:83-95 | Good, Average and At Risk select the success, warning and error themes, and each themed class implies its rating; every other rating gives plain "slds-badge" |
| AccountHealthIndicator.HealthRating | force-app/main/default/lwc/accountHealthIndicator/accountHealthIndicator.js:48-53 | null when there is no result or no data; otherwise the record's rating field value |
| AccountHealthIndicator.ErrorExcludesLoading | force-app/main/default/lwc/accountHealthIndicator/accountHealthIndicator.js:32-42 | a truthy hasError implies not loading; not loading implies a result with an error or with data |
| AccountHealthIndicator.LoadingIff | force-app/main/default/lwc/accountHealthIndicator/accountHealthIndicator.js:32-34 | isLoading holds iff there is no truthy error and no data, where a missing result counts as neither |
| AccountHealthIndicator.NoDataViews | force-app/main/default/lwc/accountHealthIndicator/accountHealthIndicator.js:48-63 | with no result, or with no data, healthRating is null, badgeClass is "slds-badge" and the date text is "" |
| AccountHealthIndicator.EvaluatedDateCases | force-app/main/default/lwc/accountHealthIndicator/accountHealthIndicator.js:60-67 | when the date formatter never yields "" or the placeholder: the text is "" iff there is no data, and "Not yet evaluated" iff there is data with a falsy date |
| AccountHealthIndicator.RunKeepsLast | force-app/main/default/lwc/accountHealthIndicator/accountHealthIndicator.js:24-26 | after any deliveries, the stored result is exactly the last one |
| AccountHealthIndicator.EmptyDeliveryReloads | force-app/main/default/lwc/accountHealthIndicator/accountHealthIndicator.js:24-34 | if the last delivery has neither data nor error, the badge is loading again and shows plain "slds-badge" |
| OverdueLeads.RecordUrl | force-app/main/default/lwc/overdueLeads/overdueLeads.js:26 | the URL is "/lightning/r/Lead/", then the printed Id, then "/view" |
| OverdueLeads.WithRecordUrl | force-app/main/default/lwc/overdueLeads/overdueLeads.js:24-27 | the lead keeps every other field and gains exactly the key recordUrl; its URL parses back to the printed Id (the text "undefined" for a lead with no Id) |
| OverdueLeads.ErrorText | force-app/main/default/lwc/overdueLeads/overdueLeads.js:31-32 | the stored message is always truthy: body.message when truthy, otherwise the default |
| OverdueLeads.WiredLeads | force-app/main/default/lwc/overdueLeads/overdueLeads.js:21-34 | loading ends on every callback; data stores an equally long list of leads that keep their fields and gain "/lightning/r/Lead/" + Id + "/view", and clears errorMessage; an error empties the list and stores a truthy message; any other callback changes nothing else |
| OverdueLeads.RecordUrlRoundTrip | force-app/main/default/lwc/overdueLeads/overdueLeads.js:26 | the record URL parses back to the printed Id, and to the Id itself for a string Id |
| OverdueLeads.RecordUrlInjective | force-app/main/default/lwc/overdueLeads/overdueLeads.js:26 | equal record URLs come from Ids that print the same |
| OverdueLeads.NoLeadsExcludesOthers | force-app/main/default/lwc/overdueLeads/overdueLeads.js:40-51 | hasNoLeads implies that hasLeads, hasError and isLoading are all false |
| OverdueLeads.DataClearsError | force-app/main/default/lwc/overdueLeads/overdueLeads.js:23-28 | after any data callback hasError is false, and hasNoLeads holds iff the data is empty |
| OverdueLeads.ErrorCallbackShowsError | force-app/main/default/lwc/overdueLeads/overdueLeads.js:29-33 | after an error callback hasError holds and hasLeads does not, whatever the message |
| OverdueLeads.CallbackSettles | force-app/main/default/lwc/overdueLeads/overdueLeads.js:21-34 | from a state where an error message never sits beside leads, every callback ends loading and keeps that property |
| OverdueLeads.SettledHasOneView | force-app/main/default/lwc/overdueLeads/overdueLeads.js:40-59 | in a settled state, exactly one of hasLeads, hasError and hasNoLeads holds |
| OverdueLeads.RunSettles | force-app/main/default/lwc/overdueLeads/overdueLeads.js:21-34 | any non-empty sequence of callbacks ends in a settled state |
| OverdueLeads.ExactlyOneViewAfterCallbacks | force-app/main/default/lwc/overdueLeads/overdueLeads.js:11-59 | before the first callback none of the three views holds; after any non-empty sequence of callbacks exactly one does |
| ErrorMessages.AccountsKeepMessageIff | force-app/main/default/lwc/myAccounts/myAccounts.js:47-50 | the account list stores the payload's own message iff it is not nullish |
| ErrorMessages.LeadsKeepMessageIff | force-app/main/default/lwc/overdueLeads/overdueLeads.js:29-33 | the leads table stores the payload's own message iff it is truthy |
| ErrorMessages.EmptyMessageContrast | force-app/main/default/lwc/myAccounts/myAccounts.js:47-61 | for an error whose message is "", the account list stores "" and shows no error, while the leads table stores its default and shows it |

Some getters have no contract of their own. Their properties are stated by the rows above:
- MyAccounts.HasAccounts (myAccounts.js:55-57) appears in MockErrorRendering.
- MyAccounts.HasError (myAccounts.js:59-61) appears in HasErrorIffNonEmpty and ErrorSurvivesData.
- MyAccounts.AvatarLetter (myAccounts.js:76) appears in EnrichAccount.
- MyAccounts.AvatarStyle (myAccounts.js:82) appears in AvatarStyleFromPalette and AvatarStyleSamples.
- MyAccounts.FormatCurrency (myAccounts.js:94-95) appears in EnrichAccount and FormattedRevenueDashesIff.
- AccountHealthIndicator.WiredAccount (accountHealthIndicator.js:24-26) appears in RunKeepsLast.
- AccountHealthIndicator.IsLoading (accountHealthIndicator.js:32-34) appears in LoadingIff and ErrorExcludesLoading.
- AccountHealthIndicator.HasError (accountHealthIndicator.js:40-42) appears in ErrorExcludesLoading.
- AccountHealthIndicator.FormattedEvaluatedDate (accountHealthIndicator.js:60-76) appears in NoDataViews and EvaluatedDateCases.
- OverdueLeads.HasLeads, OverdueLeads.HasNoLeads and OverdueLeads.HasError (overdueLeads.js:40-59) appear in NoLeadsExcludesOthers, DataClearsError, ErrorCallbackShowsError, SettledHasOneView and ExactlyOneViewAfterCallbacks.

## Left out

- `Intl.NumberFormat` currency formatting (myAccounts.js:96-100): a locale-dependent library call, passed in as the uninterpreted function `MyAccounts.Locale.formatUsd`. Only its `null` branch is modelled.
- `Intl.DateTimeFormat` date formatting (accountHealthIndicator.js:68-75): the same, passed in as `formatDate`. The `RangeError` it throws on an invalid date is not modelled.
- `toUpperCase`: modelled as an uninterpreted function from one character to one character. JavaScript can expand one character into several (for example 'ß').
- Characters outside the Basic Multilingual Plane: `charAt(0)` can return a lone surrogate, and `charCodeAt` then reads a UTF-16 code unit. Dafny characters are Unicode scalar values.
- MyAccounts.WellTypedAccount: a truthy `Name` must be a string and `Rating` must be a primitive. The source throws on other `Name` values and coerces object ratings with `toString`.
- Prototype keys: `RATING_CLASS_MAP` lookups of keys such as "constructor" reach `Object.prototype`, and the model ignores the prototype chain. Property lookup reads own fields only.
- Numbers: modelled as integers. NaN, fractions and the exponent form JavaScript uses for magnitudes of 1e21 and above are not represented. `-0` prints as "0", as it does in JavaScript.
- Wire adapters, Apex controllers, `getRecord`/`getFieldValue` and the server-side 2–5 clamp of `displayCount`: the fetched data and extracted field values are abstract inputs. `displayCount` is only the fetch parameter of `getAccounts` (myAccounts.js:41) and is not modelled.
- `title` (myAccounts.js:28-29): the card's header text, which is only rendered. It plays no part in the logic.
- `handleNavigate` and NavigationMixin (overdueLeads.js:66-77): platform navigation, which is a side effect.
- The Jest Apex test adapter `createApexTestWireAdapter` from `@salesforce/wire-service-jest-util` (myAccounts.test.js:4, 15) is not part of this model. MyAccounts.MockErrorRendering follows its documented `error(body, status = 400, statusText = "Bad Request")`, which wraps its argument as `{ body, ok: false, status, statusText }`.
- LWC reactivity, shadow-DOM rendering and the Jest harness: the test is used only as a source of expected values. The Jest test's account names are not encoded as records. MyAccounts.FooterForTwoOf247 covers any two-account page, and the avatar colours for 'A' and 'G' are stated through MyAccounts.AvatarStyleSamples.
