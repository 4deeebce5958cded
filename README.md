# Lotto purchase bot, modelled in Dafny

`buyLotto.js` is a script that buys lottery tickets on a web site through a
headless browser and reports to a Slack channel. One run:

1. launches the browser and opens a page;
2. logs in, reads the account block of the main page, parses the deposit
   balance from its third line and posts the user name and balance;
3. throws a `BalanceError` when `1000 * count` exceeds the balance;
4. buys `count` sets through the purchase page and posts a success message;
5. copies the browser's cookies into an HTTP session, fetches the day's
   purchase history, reads three numbers from the first row's link, and opens
   the receipt page they address;
6. reads the purchased number sets and posts them.

One `catch` posts a single notification: the funding prompt with its button
for a `BalanceError`, the error's `toString()` for anything else. One
`finally` closes the browser.

The model has seven modules:

- `Js` holds the JavaScript values the script handles: optional values
  (NaN, `undefined`), `Error` objects, and the outcome of a call that may
  reject.
- `Text` models `split`, `join` and the two `replace` forms.
- `JsNumber` models `parseInt` without a radix and `String(n)`.
- `Balance` covers the balance parse, the funds guard and `BalanceError`.
- `Slack` builds the notification texts and the funding prompt.
- `Receipt` holds the cookie loop, the link's digit runs, the detail
  address and the formatting of the number sets.
- `Workflow` holds the controller.

For the controller, every browser, HTTP and Slack call is an answer read
from an `Env` value:

- `Execution(cfg, env)` is the specification: the sequence of calls one run
  makes and how its promise settles.
- `Workflow.Controller` is the imperative script. It is split into
  `SignIn`, `Buy`, `FetchReceipt`, `OpenReceipt`, `Attempt` (the try block)
  and `Conclude` (catch and finally).
- It keeps a log of calls, a close counter and a purchase flag, and is
  proved to make exactly the calls of `Execution`.
- The lemmas beside it state what the script promises. The browser is
  closed exactly once. No purchase is made unless the guard passed. The
  balance report goes out before the guard. The catch posts exactly one
  message, and it is the funding prompt exactly when the error is a
  `BalanceError`.

Some behaviour of the code that the model keeps as written:

- `launch` and `newPage` (buyLotto.js:82-83) sit before the `try`, so a
  failure there never reaches `browser.close()` (`SetupFailureSkipsFinally`).
- The loop at buyLotto.js:122-124 overwrites the session's Cookie header once
  per cookie, so only the last cookie is sent with the history request
  (`OnlyLastCookie`, `ListingCarriesLastCookie`).
- A missing history row (buyLotto.js:137) is a `TypeError` inside the
  `listing` answer; the code has no distinct not-found error.
- A link without digits makes `match` return `null` (buyLotto.js:138), and
  indexing it is a `TypeError` (`NoReferenceWithoutDigits`).
- An unparsable balance or count is NaN (buyLotto.js:97, 100). Every
  comparison with NaN is false, so the guard lets such a run through to the
  purchase. This holds for every balance line without a decimal digit
  (`NonNumericBalancePasses`).

## Model

| member | source | states |
|---|---|---|
| Js.ErrorText | buyLotto.js:155 | `error.toString()` of an `Error` starts with its name and ends with its message, with ": " between them when both are non-empty |
| Js.ReadPropertyError | buyLotto.js:97 | reading a property of `undefined` (a missing third line) throws a `TypeError` |
| Text.Split | buyLotto.js:95 | `split("\n")` yields at least one piece and no piece holds the separator |
| Text.JoinSplit | buyLotto.js:95 | joining the pieces of a split with the separator gives back the text |
| Text.SplitJoin | buyLotto.js:145-147 | splitting a join of separator-free pieces gives back the pieces |
| Text.Join | buyLotto.js:145-147 | `join(sep)`: the pieces with the separator between neighbours; `JoinSplit` and `SplitJoin` tie it to `Split` |
| Text.RemoveAll | buyLotto.js:97 | `replace(/,/g, "")` leaves no comma, keeps only characters of the text, never lengthens it and leaves comma-free text unchanged |
| Text.RemoveAllAppend | buyLotto.js:97 | deleting every comma distributes over concatenation |
| Text.RemoveFirst | buyLotto.js:97 | `replace("원", "")` removes exactly one character when "원" occurs and changes nothing otherwise, keeping only characters of the text |
| Text.RemoveFirstAt | buyLotto.js:97 | the occurrence `replace("원", "")` deletes is the leftmost one, and only that one |
| JsNumber.ParseInt | buyLotto.js:97 | `parseInt(s)`: leading white space skipped, an optional sign, a "0x" prefix switching to radix 16, the longest digit run, NaN when there is none; its meaning is stated by `ParseIntLeadingDigits`, `ParseIntDecimalText` and `ParseIntRejects` |
| JsNumber.TrimStart | buyLotto.js:97 | `parseInt` skips a suffix-preserving prefix of white space and stops at the first non-space |
| JsNumber.DigitRunLength | buyLotto.js:97 | the digit run `parseInt` reads is all digits and is followed by a non-digit or the end |
| JsNumber.ValueOfNatText | buyLotto.js:98 | the decimal numeral of n denotes n |
| JsNumber.NatText | buyLotto.js:98 | the decimal numeral of a natural number: non-empty and all digits, "0" for zero and without a leading zero otherwise, and `ValueOfNatText` shows it denotes the number |
| JsNumber.DecimalText | buyLotto.js:98 | `String(n)` for an integer: a minus sign before the numeral of a negative number; `ParseIntDecimalText` is its round trip |
| JsNumber.NumberText | buyLotto.js:98 | `${moneyAmount}`: "NaN" for NaN, `String(n)` otherwise; `NumberTextLast` states how it ends |
| JsNumber.ParseIntLeadingDigits | buyLotto.js:97 | `parseInt` reads the leading digits and ignores the rest, with or without a minus sign |
| JsNumber.ParseIntDecimalText | buyLotto.js:97-98 | `parseInt(String(n)) == n` for every integer |
| JsNumber.ParseIntRejects | buyLotto.js:97 | text that starts with no space, sign or digit parses to NaN |
| JsNumber.ParseIntNoDigits | buyLotto.js:97 | text without a single decimal digit parses to NaN, whatever white space and signs it holds |
| JsNumber.ParseMagnitude | buyLotto.js:97 | the unsigned part of `parseInt`: radix 16 after "0x" or "0X", radix 10 otherwise, NaN without a digit; `ParseIntLeadingDigits` and `ParseIntNoDigits` state its meaning |
| JsNumber.NumberTextLast | buyLotto.js:98 | an interpolated number ends in a digit, or in the "N" of "NaN" |
| Balance.ParseBalance | buyLotto.js:97 | the balance parse: every comma deleted, then the first "원", then `parseInt`; `ParseBalanceWonText` is its round trip with the page's format |
| Balance.Underfunded | buyLotto.js:100 | the guard `1000 * parseInt(COUNT) > balance`, false when either side is NaN; `NonNumericBalancePasses` and `GuardRaisesIffUnderfunded` use it |
| Balance.RemoveCommasGrouped | buyLotto.js:97 | deleting the thousands commas leaves the plain numeral |
| Balance.ParseBalanceWonText | buyLotto.js:97 | every balance shown as grouped digits and "원" parses back to that number |
| Balance.ParseBalanceExample | buyLotto.js:97 | "1,234,500원" is read as 1234500 |
| Balance.WonTextOneLine | buyLotto.js:95-97 | a balance text holds no line break, so it is one line of the account block; `AccountBalance` uses it |
| Balance.NonNumericBalancePasses | buyLotto.js:97-100 | every balance line without a decimal digit (a lone "원", a dash, an empty line) is NaN, and the guard never rejects on it whatever the count |
| Balance.Truthy | buyLotto.js:24 | the truthiness of the `code`: `null`, 0 and the empty string are falsy, every other code truthy |
| Balance.CodeText | buyLotto.js:24 | `${this.code}`: "null", the number's decimal text or the string itself |
| Balance.ToString | buyLotto.js:23-25 | `toString()` is the message, followed by " - Code: " and the code exactly when the code is truthy |
| Balance.ToStringBareIff | buyLotto.js:23-25 | the text is the bare message if and only if the code is falsy |
| Balance.DefaultToString | buyLotto.js:18 | `new BalanceError()` reads "An error occurred" |
| Slack.Header | buyLotto.js:35 | the first line of every post: "> ", the time stamp, the bot title and a line break |
| Slack.PlainText | buyLotto.js:35 | `hookSlack`'s text: the header and then the message; `ShownRoundTrip` reads the message back |
| Slack.Shown | buyLotto.js:54 | the text a post shows: the plain text of a message, or the funding notice under the header for the prompt |
| Slack.ButtonOf | buyLotto.js:45-79 | only the funding prompt carries a button, labelled "충전하러 가기" and linking to the funding page |
| Slack.ShownRoundTrip | buyLotto.js:32-37 | every posted text starts with the header of its time stamp, and the message under it reads back unchanged |
| Slack.LoginIsNotPurchase | buyLotto.js:98 | the balance report never reads like the purchase report of buyLotto.js:116 |
| Slack.LoginNotice | buyLotto.js:98 | the balance report's text: the user name and the balance as interpolated, "NaN" included |
| Slack.PurchaseNotice | buyLotto.js:116 | the purchase report's text with the count as given; `LoginIsNotPurchase` keeps it apart from the balance report |
| Slack.NumbersNotice | buyLotto.js:148 | the closing report's text: its heading line and the formatted sets |
| Receipt.HeaderAfter | buyLotto.js:122-124 | the Cookie header after the loop, each cookie replacing the header in turn; `OnlyLastCookie` states its value |
| Receipt.OnlyLastCookie | buyLotto.js:122-124 | after the cookie loop the header is the last cookie's pair, or unchanged when there are none |
| Receipt.HttpSession.constructor | buyLotto.js:121 | a fresh HTTP session has no Cookie header |
| Receipt.CopyCookies | buyLotto.js:122-124 | the loop leaves the session's header at the last cookie's pair, or unchanged for no cookies |
| Receipt.ListingQuery | buyLotto.js:127 | the history request's form body for one day |
| Receipt.ListingQueryFields | buyLotto.js:126-127 | the form body has exactly three fields, and the searched period starts and ends on the given day |
| Receipt.DigitRuns | buyLotto.js:138 | `match(/\d+/g)` yields non-empty runs of decimal digits |
| Receipt.RunsOfLink | buyLotto.js:138 | the digit runs of a link are exactly its numbers, all of them and in order, for any number of numbers between digit-free separators |
| Receipt.ReadReference | buyLotto.js:138-140 | reading the reference fails, with a `TypeError`, exactly when the link has no digit run, which is exactly when it has no digit |
| Receipt.ReferenceOfNumbers | buyLotto.js:138-140 | behind a digit-free prefix, the first three numbers of a link of any length are the order number, barcode and issue number, a missing one `undefined`, no number at all a `TypeError` |
| Receipt.ReferenceOfLink | buyLotto.js:138-140 | a link of three numbers gives them as order number, barcode and issue number |
| Receipt.NoReferenceWithoutDigits | buyLotto.js:138-140 | a link without digits is the `TypeError` of indexing `null` |
| Receipt.NoRunsNoDigits | buyLotto.js:138 | `match(/\d+/g)` finds no run exactly when the link has no digit |
| Receipt.Interpolated | buyLotto.js:140 | `${detailInfo[i]}`: the run itself, or "undefined" past the end of the matches |
| Receipt.DetailUrl | buyLotto.js:140 | the detail page's address with the order number, barcode and issue number interpolated, `undefined` for a missing one |
| Receipt.DetailUrlMissingIssue | buyLotto.js:139-141 | a link with one or two numbers leaves the detail address ending in "undefined" |
| Receipt.FormatItem | buyLotto.js:145 | one number set: its lines joined by ", "; `FormatItemOneLine` states that the result is a single line |
| Receipt.FormatItems | buyLotto.js:144-146 | one formatted line per number set, the i-th from the i-th set |
| Receipt.FormatItemOneLine | buyLotto.js:145 | a formatted set has no line break, and a one-line set is left as it is |
| Receipt.FormatResults | buyLotto.js:147 | `results.join("\n")`: empty for no set, the formatted set alone for one; `ResultLines` splits it back into the sets |
| Receipt.ResultLines | buyLotto.js:143-147 | for at least one set, the result message splits back into the formatted sets, one per line, in order (for none it is the empty text, which splits into one empty line) |
| Workflow.AccountBalance | buyLotto.js:95-98 | an account block whose third line is a balance as the site prints it reads back as that balance, and the login report names the first line and shows that balance |
| Workflow.GuardRejects | buyLotto.js:100 | the guard's condition on the count given and the balance read; `GuardRaisesIffUnderfunded` ties it to the `BalanceError` |
| Workflow.SignInSteps | buyLotto.js:86-102 | the calls of the first part and its error: a failed login, a failed read, a missing third line, a failed balance report, or the guard's `BalanceError`; `SignInShape` states its shape |
| Workflow.PurchaseSteps | buyLotto.js:104-120 | the calls of the second part and its error; `PurchaseShape` states its shape |
| Workflow.ReceiptSteps | buyLotto.js:120-148 | the calls of the third part and its error: the history request, then the receipt's steps once a reference was read; `ReceiptShape` states its shape |
| Workflow.DetailSteps | buyLotto.js:139-148 | the receipt's calls: open the detail page, read the sets, post them |
| Workflow.TryBlock | buyLotto.js:85-148 | the three parts in turn, each only when the one before it did not throw; `TryNeverCloses` and `GuardRaisesIffUnderfunded` are about it |
| Workflow.Finish | buyLotto.js:149-159 | the catch's one notification when the try threw, then the close; the close's error replaces the catch's; `FinishParts` states its shape |
| Workflow.Execution | buyLotto.js:81-160 | one whole run: a set-up failure ends it at once, otherwise the try block and `Finish`; the `Controller` is proved to make exactly its calls |
| Workflow.MessageOf | buyLotto.js:152-156 | a notice is posted as the funding prompt exactly when it is the funding request |
| Workflow.Report | buyLotto.js:152-156 | the catch picks the funding prompt exactly for a `BalanceError`, and the error's `toString()` otherwise |
| Workflow.SignInShape | buyLotto.js:86-102 | the first part never buys, fetches or closes; it raises the `BalanceError` iff the guard rejects, and completes with its three calls iff the guard passes |
| Workflow.PurchaseShape | buyLotto.js:104-120 | the second part starts with the purchase, never fetches or closes, and completes only after reading the cookies |
| Workflow.ReceiptShape | buyLotto.js:120-148 | the third part starts with the history request, never buys or closes, and raises only unclassified errors |
| Workflow.TryNeverCloses | buyLotto.js:85-148 | the try block never closes the browser |
| Workflow.CloseExactlyOnce | buyLotto.js:157-159 | once the page is open, the browser is closed exactly once, as the last call, on every path |
| Workflow.SetupFailureSkipsFinally | buyLotto.js:82-83 | a failing `launch` or `newPage` rejects the run with no close and no notification |
| Workflow.FinishParts | buyLotto.js:149-159 | the catch and finally add at most one notification and the close, neither a purchase nor a fetch |
| Workflow.ExecutionParts | buyLotto.js:81-160 | a run whose page opened is the set-up, the try block's calls, then the catch and finally calls |
| Workflow.NoPurchaseWithoutGuard | buyLotto.js:100-105 | a purchase is attempted only when the run reached the guard and the guard passed |
| Workflow.GuardRaisesIffUnderfunded | buyLotto.js:100-102 | the try block raises the `BalanceError` iff the guard rejects, and no other `BalanceError` |
| Workflow.ReportBeforeGuard | buyLotto.js:98-100 | the balance report is the fifth call and no purchase comes before it |
| Workflow.CatchReportsOnce | buyLotto.js:149-158 | a throwing try block is followed by exactly one notification, the funding prompt iff the error is a `BalanceError`, then the close |
| Workflow.UnderfundedRun | buyLotto.js:95-102 | an underfunded run makes the login, the read, the balance report, the funding prompt and the close, in that order |
| Workflow.UnderfundedNoPurchase | buyLotto.js:98-101 | an underfunded run buys nothing and posts only the balance report and the funding prompt |
| Workflow.CompleteTry | buyLotto.js:85-159 | a try block whose three parts complete is followed by the close alone, and the run resolves |
| Workflow.SignInCompletes | buyLotto.js:86-100 | the first part completes with its three calls when the guard passes |
| Workflow.PurchaseCompletes | buyLotto.js:104-120 | the second part completes with its three calls when they succeed |
| Workflow.ReceiptCompletes | buyLotto.js:120-148 | the third part completes with its four calls when they succeed |
| Workflow.SuccessfulRun | buyLotto.js:81-160 | a run where every step succeeds makes every call in order and resolves |
| Workflow.SuccessfulRunNotices | buyLotto.js:98-148 | a complete run posts exactly the balance report, the purchase report and the numbers, in that order |
| Workflow.FetchFollowsPurchase | buyLotto.js:100-126 | the history request is made only after the first two parts completed |
| Workflow.ListingCarriesLastCookie | buyLotto.js:120-135 | the history request follows the purchase and the cookie read, and carries only the last cookie (or no header) |
| Workflow.Controller.constructor | buyLotto.js:81 | a fresh controller has made no call |
| Workflow.Controller.Emit | buyLotto.js:81-160 | one call appended to the log, with the close counter and purchase flag kept in step |
| Workflow.Controller.SignIn | buyLotto.js:86-102 | makes the calls of the first part and raises its error |
| Workflow.Controller.Buy | buyLotto.js:104-120 | makes the calls of the second part and raises its error |
| Workflow.Controller.FetchReceipt | buyLotto.js:120-148 | copies the cookies, makes the calls of the third part and raises its error |
| Workflow.Controller.OpenReceipt | buyLotto.js:139-148 | opens the receipt, reads and posts its number sets, and raises their error |
| Workflow.Controller.Attempt | buyLotto.js:85-148 | makes the try block's calls, each part only when the one before it did not throw |
| Workflow.Controller.Conclude | buyLotto.js:149-159 | posts the catch's notification, closes the browser, and settles as the close, the catch post or success decides |
| Workflow.Controller.Execute | buyLotto.js:81-160 | makes exactly the calls of `Execution` and settles as it says |
| Workflow.Controller.Run | buyLotto.js:81-160 | the whole script: exactly the calls of `Execution`; on a fresh controller whose page opened one close, and a purchase only after the guard passed |

## Left out

- Browser automation (puppeteer), the selectors, clicks, waits and timeouts
  are not modelled. Each step is one answer of `Env`: it resolves, or it
  rejects with an error.
- The HTTP requests (axios) to the history endpoint and to Slack are not
  modelled either. Each is an `Env` answer. The request headers, the bot
  token, the channel and the JSON payload shapes are left out; a message is
  its text, or the funding prompt with its button.
- HTML parsing (`DOMParser`, `querySelector`, `getAttribute`) is folded into
  the `listing` answer. A missing row's `TypeError` is one of its failures.
- The clock (`dayjs` in Asia/Seoul) is a parameter: the `stamp` of each post
  and the `today` date.
- `process.argv` becomes `Config`. The Slack token and channel are not part
  of this model.
- `console.log(JSON.stringify(error))` in the catch (buyLotto.js:150) is
  assumed not to throw. Console output changes no state of the run, but
  `JSON.stringify` throws on a circular error object, and that would skip the
  catch's notification; the model does not capture that path.
- `new DOMParser()` (buyLotto.js:136) is a browser global that Node does not
  define. The `listing` answer may fail, so a `ReferenceError` there is
  reported by the catch like any other error. Whether the global exists when the script runs is outside the model;
  without it, no run reaches the receipt steps that `SuccessfulRun` describes.
- The asynchronous scheduling is not modelled: every `await` is one step in
  a fixed order.
- JavaScript numbers are unbounded integers here. Rounding above 2^53 and
  exponent notation in `String(n)` are not modelled.
- Strings are sequences of Unicode scalar values rather than UTF-16 code
  units, which changes nothing for the characters the script handles.
- Balance.Code holds `null`, numbers and strings only. The script only ever
  builds `new BalanceError()` with a `null` code.
