/** The purchase workflow of buyLotto.js:81-160: log in, read the balance,
    report it, check the funds, buy, report the purchase, fetch the receipt
    and report the purchased numbers; classify any error in one catch and
    close the browser in one finally.

    Every browser, HTTP and Slack call is a step whose answer comes from an
    `Env`: it resolves (with a value, for the reads) or rejects with an error.
    `Execution` is the trace of calls a run makes and how the run ends, as a
    function of the configuration and those answers; `Controller.Run` is the
    step-by-step controller, proved to make exactly those calls. */
module Workflow {
  import opened Js
  import opened Text
  import opened JsNumber
  import opened Balance
  import opened Slack
  import opened Receipt

  /** The command-line inputs the workflow uses: the account, its password
      and the number of sets to buy, kept as the text it was given. */
  datatype Config = Config(userId: string, password: string, count: string)

  /** A Slack call: the time stamp `getNow()` returned and the outcome of the post. */
  datatype Post = Post(stamp: string, outcome: Outcome)

  /** The outside world's answer to every step of one run. */
  datatype Env = Env(
    launch: Outcome,               // puppeteer.launch
    newPage: Outcome,              // browser.newPage
    login: Outcome,                // login page, credentials, submit and waits
    account: Result<string>,       // innerText of the main page's ul.information
    loginPost: Post,               // the balance report
    purchase: Outcome,             // the purchase page's dialogs and clicks
    purchasePost: Post,            // the purchase report
    cookies: Result<seq<Cookie>>,  // page.cookies()
    today: string,                 // today's date in Seoul, as YYYYMMDD
    listing: Result<string>,       // the history request and the first row's href
    detail: Outcome,               // opening the receipt's detail page
    numbers: Result<seq<string>>,  // innerText of each div.selected li
    numbersPost: Post,             // the closing report
    reportPost: Post,              // the catch block's notification
    close: Outcome)                // browser.close

  /** A notification the run posts, as the data it is made from. */
  datatype Notice =
    | BalanceReport(userName: string, balanceLine: string)  // after login
    | PurchaseReport(count: string)                          // after the purchase
    | NumbersReport(sets: seq<string>)                       // the purchased sets, as the page lists them
    | FundingRequest                                         // the catch, for a BalanceError
    | ErrorReport(error: ErrorValue)                         // the catch, for any other error

  /** The Slack message a notice is posted as: `hookSlackBtn()` for the
      funding request, `hookSlack(text)` with the notice's text otherwise (an
      error interpolates as its `toString()`). */
  function MessageOf(n: Notice): (m: Message)
    ensures m.FundingPrompt? <==> n.FundingRequest?
  {
    match n
    case BalanceReport(userName, balanceLine) => Plain(LoginNotice(userName, ParseBalance(balanceLine)))
    case PurchaseReport(count) => Plain(PurchaseNotice(count))
    case NumbersReport(sets) => Plain(NumbersNotice(FormatResults(sets)))
    case FundingRequest => FundingPrompt
    case ErrorReport(e) => Plain(ErrorText(e))
  }

  /** A call the run makes, in the order it makes them. */
  datatype Event =
    | Launch
    | NewPage
    | Login(userId: string, password: string)
    | ReadAccount
    | Notify(stamp: string, notice: Notice)
    | Purchase(count: string)
    | ReadCookies
    | FetchListing(cookieHeader: Option<string>, date: string)  // posts ListingQuery(date)
    | OpenDetail(reference: ReceiptRef)                          // opens DetailUrl(reference)
    | ReadNumbers
    | Close

  /** What reaches the catch block: the guard's `BalanceError`, or any other error. */
  datatype Thrown = Insufficient(balanceError: BalanceError) | Unclassified(error: ErrorValue)

  /** The calls of the try block and the error it ended with, if any. */
  datatype Segment = Segment(events: seq<Event>, raised: Option<Thrown>)

  /** How the script's promise settles: it resolves, or it rejects (an error
      outside the try block, in the catch block or in the finally block). */
  datatype Ending = Resolved | Rejected(error: ErrorValue)

  datatype Trace = Trace(events: seq<Event>, ending: Ending)

  /** The lines of the account information block. */
  function AccountInfo(env: Env): seq<string>
    requires env.account.Value?
  {
    Split(env.account.value, '\n')
  }

  /** The try block gets as far as the funds guard: the login, the page read
      and the balance report all succeed and the block has a third line. */
  predicate ReachesGuard(env: Env) {
    env.login.Ok? && env.account.Value? && |AccountInfo(env)| >= 3 && env.loginPost.outcome.Ok?
  }

  /** The balance as read from the third line; `None` is NaN. */
  function BalanceRead(env: Env): Option<int>
    requires env.account.Value? && |AccountInfo(env)| >= 3
  {
    ParseBalance(AccountInfo(env)[2])
  }

  /** The balance report: the user's name from the first line and the balance. */
  function LoginReport(env: Env): Notice
    requires env.account.Value? && |AccountInfo(env)| >= 3
  {
    BalanceReport(AccountInfo(env)[0], AccountInfo(env)[2])
  }

  /** An account block of three lines whose third is a balance as the site
      prints it ("1,234,000원") reads back as that balance, and the login
      report names the first line. */
  lemma AccountBalance(env: Env, name: string, second: string, n: nat)
    requires '\n' !in name && '\n' !in second
    requires env.account == Value(name + "\n" + second + "\n" + WonText(n))
    ensures |AccountInfo(env)| == 3 && AccountInfo(env)[0] == name
    ensures BalanceRead(env) == Some(n)
    ensures MessageOf(LoginReport(env)) == Plain(LoginNotice(name, Some(n)))
  {
    var w := WonText(n);
    assert env.account.value == name + ['\n'] + (second + ['\n'] + w);
    SplitAt(name, second + ['\n'] + w, '\n');
    SplitAt(second, w, '\n');
    WonTextOneLine(n);
    SplitWithout(w, '\n');
    ParseBalanceWonText(n);
  }

  /** The guard rejects the run. */
  predicate GuardRejects(cfg: Config, env: Env)
    requires env.account.Value? && |AccountInfo(env)| >= 3
  {
    Underfunded(ParseInt(cfg.count), BalanceRead(env))
  }

  /** The first part of the try block (buyLotto.js:86-100): log in, read
      the account block, report the balance and check the funds. */
  function SignInSteps(cfg: Config, env: Env): Segment {
    var login := Login(cfg.userId, cfg.password);
    if env.login.Threw? then Segment([login], Some(Unclassified(env.login.error)))
    else if env.account.Failed? then Segment([login, ReadAccount], Some(Unclassified(env.account.error)))
    else if |AccountInfo(env)| < 3 then
      Segment([login, ReadAccount], Some(Unclassified(ReadPropertyError("undefined", "replace"))))
    else
      var report := Notify(env.loginPost.stamp, LoginReport(env));
      if env.loginPost.outcome.Threw? then Segment([login, ReadAccount, report], Some(Unclassified(env.loginPost.outcome.error)))
      else if GuardRejects(cfg, env) then Segment([login, ReadAccount, report], Some(Insufficient(DefaultBalanceError)))
      else Segment([login, ReadAccount, report], None)
  }

  /** The second part (buyLotto.js:103-120): buy, report the purchase and
      read the browser's cookies. */
  function PurchaseSteps(cfg: Config, env: Env): Segment {
    var buy := Purchase(cfg.count);
    var report := Notify(env.purchasePost.stamp, PurchaseReport(cfg.count));
    if env.purchase.Threw? then Segment([buy], Some(Unclassified(env.purchase.error)))
    else if env.purchasePost.outcome.Threw? then Segment([buy, report], Some(Unclassified(env.purchasePost.outcome.error)))
    else if env.cookies.Failed? then Segment([buy, report, ReadCookies], Some(Unclassified(env.cookies.error)))
    else Segment([buy, report, ReadCookies], None)
  }

  /** The Cookie header the history request carries once the cookies are copied. */
  function ListingHeader(env: Env): Option<string> {
    if env.cookies.Value? then HeaderAfter(None, env.cookies.value) else None
  }

  /** The third part (buyLotto.js:121-148): fetch the purchase history, read
      the receipt reference, then open the receipt. */
  function ReceiptSteps(env: Env): Segment {
    var fetch := FetchListing(ListingHeader(env), env.today);
    if env.listing.Failed? then Segment([fetch], Some(Unclassified(env.listing.error)))
    else
      var reference := ReadReference(env.listing.value);
      if reference.Failed? then Segment([fetch], Some(Unclassified(reference.error)))
      else
        var d := DetailSteps(env, reference.value);
        Segment([fetch] + d.events, d.raised)
  }

  /** The receipt's own steps (buyLotto.js:140-148): open its detail page,
      read the number sets and report them. */
  function DetailSteps(env: Env, reference: ReceiptRef): Segment {
    var open := OpenDetail(reference);
    if env.detail.Threw? then Segment([open], Some(Unclassified(env.detail.error)))
    else if env.numbers.Failed? then Segment([open, ReadNumbers], Some(Unclassified(env.numbers.error)))
    else
      var report := Notify(env.numbersPost.stamp, NumbersReport(env.numbers.value));
      var raised := if env.numbersPost.outcome.Threw? then Some(Unclassified(env.numbersPost.outcome.error)) else None;
      Segment([open, ReadNumbers, report], raised)
  }

  /** `a` and then, unless `a` threw, `b`. */
  function Chain(a: Segment, b: Segment): Segment {
    if a.raised.Some? then a else Segment(a.events + b.events, b.raised)
  }

  /** The try block of buyLotto.js:85-148. */
  function TryBlock(cfg: Config, env: Env): Segment {
    Chain(SignInSteps(cfg, env), Chain(PurchaseSteps(cfg, env), ReceiptSteps(env)))
  }

  /** The catch block's choice of notification: the funding prompt for a
      `BalanceError`, the error's own text for anything else. */
  function Report(t: Thrown): (n: Notice)
    ensures MessageOf(n).FundingPrompt? <==> t.Insufficient?
    ensures t.Unclassified? ==> MessageOf(n) == Plain(ErrorText(t.error))
  {
    match t
    case Insufficient(_) => FundingRequest
    case Unclassified(e) => ErrorReport(e)
  }

  /** Everything after the set-up, for a try block that made the calls of
      `t`: the catch block's one notification when it threw, then the finally
      block's `browser.close()`. An error thrown by the close replaces any
      error of the catch block. */
  function Finish(env: Env, t: Segment): Trace {
    var pre := [Launch, NewPage] + t.events;
    if t.raised.None? then
      Trace(pre + [Close], if env.close.Threw? then Rejected(env.close.error) else Resolved)
    else
      Trace(pre + [Notify(env.reportPost.stamp, Report(t.raised.value)), Close],
            if env.close.Threw? then Rejected(env.close.error)
            else if env.reportPost.outcome.Threw? then Rejected(env.reportPost.outcome.error)
            else Resolved)
  }

  /** One whole run of buyLotto.js:81-160. `launch` and `newPage` come before
      the try block, so an error there ends the run at once. */
  function Execution(cfg: Config, env: Env): Trace {
    if env.launch.Threw? then Trace([Launch], Rejected(env.launch.error))
    else if env.newPage.Threw? then Trace([Launch, NewPage], Rejected(env.newPage.error))
    else Finish(env, TryBlock(cfg, env))
  }

  function Count<T(==)>(s: seq<T>, x: T): nat
    decreases |s|
  {
    if |s| == 0 then 0 else Count(s[..|s| - 1], x) + (if s[|s| - 1] == x then 1 else 0)
  }

  lemma {:induction false} CountAppend<T>(a: seq<T>, b: seq<T>, x: T)
    ensures Count(a + b, x) == Count(a, x) + Count(b, x)
    decreases |b|
  {
    if |b| == 0 {
      assert a + b == a;
    } else {
      assert (a + b)[..|a + b| - 1] == a + b[..|b| - 1];
      CountAppend(a, b[..|b| - 1], x);
    }
  }

  lemma {:induction false} CountAbsent<T>(s: seq<T>, x: T)
    requires x !in s
    ensures Count(s, x) == 0
    decreases |s|
  {
    if |s| > 0 {
      assert s[..|s| - 1] + [s[|s| - 1]] == s;
      CountAbsent(s[..|s| - 1], x);
    }
  }

  lemma Associate<T>(s: seq<T>, a: seq<T>, b: seq<T>)
    ensures s + a + b == s + (a + b)
  {
  }

  /** Some purchase call was made. */
  predicate Attempted(events: seq<Event>) {
    exists i :: 0 <= i < |events| && events[i].Purchase?
  }

  lemma AttemptedAppend(a: seq<Event>, b: seq<Event>)
    ensures Attempted(a + b) <==> Attempted(a) || Attempted(b)
  {
    if Attempted(a + b) {
      var i :| 0 <= i < |a + b| && (a + b)[i].Purchase?;
      if i >= |a| {
        assert b[i - |a|] == (a + b)[i];
      } else {
        assert a[i] == (a + b)[i];
      }
    }
    if Attempted(a) {
      var i :| 0 <= i < |a| && a[i].Purchase?;
      assert (a + b)[i] == a[i];
    }
    if Attempted(b) {
      var i :| 0 <= i < |b| && b[i].Purchase?;
      assert (a + b)[|a| + i] == b[i];
    }
  }

  /** The purchase history was requested. */
  predicate Fetched(events: seq<Event>) {
    exists i :: 0 <= i < |events| && events[i].FetchListing?
  }

  lemma FetchedAppend(a: seq<Event>, b: seq<Event>)
    ensures Fetched(a + b) <==> Fetched(a) || Fetched(b)
  {
    if Fetched(a + b) {
      var i :| 0 <= i < |a + b| && (a + b)[i].FetchListing?;
      if i >= |a| {
        assert b[i - |a|] == (a + b)[i];
      } else {
        assert a[i] == (a + b)[i];
      }
    }
    if Fetched(a) {
      var i :| 0 <= i < |a| && a[i].FetchListing?;
      assert (a + b)[i] == a[i];
    }
    if Fetched(b) {
      var i :| 0 <= i < |b| && b[i].FetchListing?;
      assert (a + b)[|a| + i] == b[i];
    }
  }

  /** The notices posted, in order. */
  function Notices(events: seq<Event>): seq<Notice>
    decreases |events|
  {
    if |events| == 0 then []
    else
      var last := events[|events| - 1];
      Notices(events[..|events| - 1]) + (if last.Notify? then [last.notice] else [])
  }

  lemma {:induction false} NoticesAppend(a: seq<Event>, b: seq<Event>)
    ensures Notices(a + b) == Notices(a) + Notices(b)
    decreases |b|
  {
    if |b| == 0 {
      assert a + b == a;
    } else {
      assert (a + b)[..|a + b| - 1] == a + b[..|b| - 1];
      NoticesAppend(a, b[..|b| - 1]);
    }
  }

  lemma NoticesOne(e: Event)
    ensures Notices([e]) == if e.Notify? then [e.notice] else []
  {
    assert [e][..0] == [];
  }

  lemma {:induction false} NoticesNone(s: seq<Event>)
    requires forall i :: 0 <= i < |s| ==> !s[i].Notify?
    ensures Notices(s) == []
    decreases |s|
  {
    if |s| > 0 {
      NoticesNone(s[..|s| - 1]);
    }
  }

  /** What `Chain` is made of: the first part alone when it threw, both
      parts otherwise. */
  lemma ChainParts(a: Segment, b: Segment)
    ensures a.raised.Some? ==> Chain(a, b) == a
    ensures a.raised.None? ==> Chain(a, b).events == a.events + b.events && Chain(a, b).raised == b.raised
  {
  }

  /** The first part of the try block never buys, never fetches and never
      closes; it raises the `BalanceError` exactly when the guard rejects the
      run, and ends without an error exactly when the guard lets it through,
      after its three calls. */
  lemma SignInShape(cfg: Config, env: Env)
    ensures var a := SignInSteps(cfg, env);
            !Attempted(a.events) && !Fetched(a.events) && Close !in a.events
            && (forall b :: a.raised == Some(Insufficient(b)) <==>
                  ReachesGuard(env) && GuardRejects(cfg, env) && b == DefaultBalanceError)
            && (a.raised.None? <==> ReachesGuard(env) && !GuardRejects(cfg, env))
            && (a.raised.None? ==>
                  a.events == [Login(cfg.userId, cfg.password), ReadAccount, Notify(env.loginPost.stamp, LoginReport(env))])
  {
    var a := SignInSteps(cfg, env);
    var login := Login(cfg.userId, cfg.password);
    if env.login.Threw? {
      assert a.events == [login];
    } else if env.account.Failed? || |AccountInfo(env)| < 3 {
      assert a.events == [login, ReadAccount];
    } else {
      assert a.events == [login, ReadAccount, Notify(env.loginPost.stamp, LoginReport(env))];
    }
    assert forall k :: 0 <= k < |a.events| ==> a.events[k].Login? || a.events[k].ReadAccount? || a.events[k].Notify?;
  }

  /** The second part starts with the purchase, never fetches or closes, and
      only fails with errors of its steps. */
  lemma PurchaseShape(cfg: Config, env: Env)
    ensures var b := PurchaseSteps(cfg, env);
            |b.events| > 0 && b.events[0] == Purchase(cfg.count)
            && !Fetched(b.events) && Close !in b.events
            && (b.raised.Some? ==> b.raised.value.Unclassified?)
            && (b.raised.None? ==>
                  env.cookies.Value?
                  && b.events == [Purchase(cfg.count), Notify(env.purchasePost.stamp, PurchaseReport(cfg.count)), ReadCookies])
  {
  }

  /** The third part starts with the history request, never buys or closes,
      and only fails with errors of its steps. */
  lemma ReceiptShape(env: Env)
    ensures var c := ReceiptSteps(env);
            |c.events| > 0 && c.events[0] == FetchListing(ListingHeader(env), env.today)
            && !Attempted(c.events) && Close !in c.events
            && (c.raised.Some? ==> c.raised.value.Unclassified?)
  {
  }

  /** The try block never closes the browser. */
  lemma TryNeverCloses(cfg: Config, env: Env)
    ensures Close !in TryBlock(cfg, env).events
  {
    var a, b, c := SignInSteps(cfg, env), PurchaseSteps(cfg, env), ReceiptSteps(env);
    SignInShape(cfg, env);
    PurchaseShape(cfg, env);
    ReceiptShape(env);
    ChainParts(b, c);
    ChainParts(a, Chain(b, c));
  }

  /** Once the page is open, the finally block closes the browser exactly
      once, as the very last call, on every path: success, the guard's
      rejection, a failing step, or a failing notification in the catch. */
  lemma CloseExactlyOnce(cfg: Config, env: Env)
    requires env.launch.Ok? && env.newPage.Ok?
    ensures var ev := Execution(cfg, env).events;
            Count(ev, Close) == 1 && ev[|ev| - 1] == Close
  {
    var t := TryBlock(cfg, env);
    var pre := [Launch, NewPage] + t.events;
    var caught := if t.raised.Some? then [Notify(env.reportPost.stamp, Report(t.raised.value))] else [];
    TryNeverCloses(cfg, env);
    CountAbsent(t.events, Close);
    CountAbsent(caught, Close);
    CountAbsent([Launch, NewPage], Close);
    CountAppend([Launch, NewPage], t.events, Close);
    CountAppend(pre, caught, Close);
    CountAppend(pre + caught, [Close], Close);
    assert Count([Close], Close) == 1 by {
      assert [Close][..0] == [];
    }
    if t.raised.Some? {
      assert Execution(cfg, env).events == pre + caught + [Close];
    } else {
      assert pre + caught == pre;
    }
  }

  /** `launch` and `newPage` lie outside the try block: when either fails,
      nothing else happens and the browser is not closed, even when it was
      already launched. */
  lemma SetupFailureSkipsFinally(cfg: Config, env: Env)
    requires env.launch.Threw? || env.newPage.Threw?
    ensures Close !in Execution(cfg, env).events
    ensures Execution(cfg, env).ending.Rejected?
    ensures Notices(Execution(cfg, env).events) == []
  {
    NoticesNone(Execution(cfg, env).events);
  }

  /** The calls after the set-up for a try block that made the calls of `t`:
      its own calls, then the catch and finally calls, which neither buy nor
      fetch. */
  lemma FinishParts(env: Env, t: Segment)
    ensures var rest := (if t.raised.Some? then [Notify(env.reportPost.stamp, Report(t.raised.value))] else []) + [Close];
            Finish(env, t).events == [Launch, NewPage] + t.events + rest
            && !Attempted(rest) && !Fetched(rest) && !Attempted([Launch, NewPage]) && !Fetched([Launch, NewPage])
  {
    var pre := [Launch, NewPage];
    if t.raised.Some? {
      var n := Notify(env.reportPost.stamp, Report(t.raised.value));
      var rest := [n] + [Close];
      assert rest == [n, Close];
      Associate(pre + t.events, [n], [Close]);
      assert !Attempted(rest) && !Fetched(rest) by { assert forall k :: 0 <= k < |rest| ==> rest[k] == n || rest[k] == Close; }
    } else {
      var rest := [] + [Close];
      assert rest == [Close];
      assert !Attempted(rest) && !Fetched(rest) by { assert forall k :: 0 <= k < |rest| ==> rest[k] == Close; }
    }
    assert !Attempted(pre) && !Fetched(pre) by { assert forall k :: 0 <= k < |pre| ==> pre[k] == Launch || pre[k] == NewPage; }
  }

  /** The events of a run whose page opened: the set-up calls, the try
      block's calls, and the catch and finally calls. */
  lemma ExecutionParts(cfg: Config, env: Env)
    requires env.launch.Ok? && env.newPage.Ok?
    ensures var t := TryBlock(cfg, env);
            var rest := (if t.raised.Some? then [Notify(env.reportPost.stamp, Report(t.raised.value))] else []) + [Close];
            Execution(cfg, env).events == [Launch, NewPage] + t.events + rest
            && !Attempted(rest) && !Fetched(rest) && !Attempted([Launch, NewPage]) && !Fetched([Launch, NewPage])
  {
    var t := TryBlock(cfg, env);
    assert Execution(cfg, env) == Finish(env, t);
    FinishParts(env, t);
  }

  /** A purchase is attempted only after the balance report went out and the
      guard let the run through. */
  lemma NoPurchaseWithoutGuard(cfg: Config, env: Env)
    ensures Attempted(Execution(cfg, env).events) ==>
              env.launch.Ok? && env.newPage.Ok? && ReachesGuard(env) && !GuardRejects(cfg, env)
  {
    var ev := Execution(cfg, env).events;
    if Attempted(ev) {
      if env.launch.Threw? || env.newPage.Threw? {
        assert false;
      }
      var t := TryBlock(cfg, env);
      ExecutionParts(cfg, env);
      var rest := (if t.raised.Some? then [Notify(env.reportPost.stamp, Report(t.raised.value))] else []) + [Close];
      AttemptedAppend([Launch, NewPage] + t.events, rest);
      AttemptedAppend([Launch, NewPage], t.events);
      var a := SignInSteps(cfg, env);
      SignInShape(cfg, env);
      ChainParts(a, Chain(PurchaseSteps(cfg, env), ReceiptSteps(env)));
      AttemptedAppend(a.events, Chain(PurchaseSteps(cfg, env), ReceiptSteps(env)).events);
    }
  }

  /** The guard raises the `BalanceError` exactly when the cost exceeds the
      balance that was read, and no other step raises it. */
  lemma GuardRaisesIffUnderfunded(cfg: Config, env: Env)
    ensures TryBlock(cfg, env).raised == Some(Insufficient(DefaultBalanceError))
        <==> ReachesGuard(env) && GuardRejects(cfg, env)
    ensures forall b :: TryBlock(cfg, env).raised == Some(Insufficient(b)) ==> b == DefaultBalanceError
  {
    var a, b, c := SignInSteps(cfg, env), PurchaseSteps(cfg, env), ReceiptSteps(env);
    SignInShape(cfg, env);
    PurchaseShape(cfg, env);
    ReceiptShape(env);
    ChainParts(b, c);
    ChainParts(a, Chain(b, c));
  }

  /** The balance report goes out before the guard is evaluated, so an
      underfunded run sends it too; no purchase call comes before it. */
  lemma ReportBeforeGuard(cfg: Config, env: Env)
    requires env.launch.Ok? && env.newPage.Ok? && env.login.Ok?
    requires env.account.Value? && |AccountInfo(env)| >= 3
    ensures var ev := Execution(cfg, env).events;
            |ev| > 4 && ev[4] == Notify(env.loginPost.stamp, LoginReport(env))
            && !Attempted(ev[..5])
  {
    var a := SignInSteps(cfg, env);
    var t := TryBlock(cfg, env);
    var three := [Login(cfg.userId, cfg.password), ReadAccount, Notify(env.loginPost.stamp, LoginReport(env))];
    assert a.events == three;
    ChainParts(a, Chain(PurchaseSteps(cfg, env), ReceiptSteps(env)));
    var more := if a.raised.Some? then [] else Chain(PurchaseSteps(cfg, env), ReceiptSteps(env)).events;
    assert t.events == three + more;
    ExecutionParts(cfg, env);
    var rest := (if t.raised.Some? then [Notify(env.reportPost.stamp, Report(t.raised.value))] else []) + [Close];
    var ev := Execution(cfg, env).events;
    var first := [Launch, NewPage] + three;
    Associate([Launch, NewPage], three, more);
    Associate(first, more, rest);
    assert ev == first + (more + rest);
    assert ev[..5] == first;
    SignInShape(cfg, env);
    AttemptedAppend([Launch, NewPage], three);
  }

  /** The notices of the set-up, the calls `ts`, one notice and the close. */
  lemma CatchNotices(ts: seq<Event>, n: Event)
    requires n.Notify?
    ensures Notices([Launch, NewPage] + ts + [n, Close]) == Notices(ts) + [n.notice]
  {
    var pre := [Launch, NewPage] + ts;
    NoticesAppend(pre, [n, Close]);
    NoticesAppend([Launch, NewPage], ts);
    NoticesNone([Launch, NewPage]);
    assert [n, Close] == [n] + [Close];
    NoticesAppend([n], [Close]);
    NoticesOne(n);
    NoticesOne(Close);
  }

  /** After a try block that threw, the catch posts exactly one notice and
      then the browser is closed. */
  lemma CatchCalls(env: Env, t: Segment, th: Thrown)
    requires t.raised == Some(th)
    ensures Finish(env, t).events == [Launch, NewPage] + t.events + [Notify(env.reportPost.stamp, Report(th)), Close]
    ensures Notices(Finish(env, t).events) == Notices(t.events) + [Report(th)]
  {
    CatchNotices(t.events, Notify(env.reportPost.stamp, Report(th)));
  }

  /** When the try block throws, the catch block posts exactly one message:
      the funding prompt for a `BalanceError`, the error's text for anything
      else. Then the browser is closed. */
  lemma CatchReportsOnce(cfg: Config, env: Env, t: Thrown)
    requires env.launch.Ok? && env.newPage.Ok?
    requires TryBlock(cfg, env).raised == Some(t)
    ensures Execution(cfg, env).events
         == [Launch, NewPage] + TryBlock(cfg, env).events + [Notify(env.reportPost.stamp, Report(t)), Close]
    ensures Notices(Execution(cfg, env).events) == Notices(TryBlock(cfg, env).events) + [Report(t)]
    ensures MessageOf(Report(t)) == FundingPrompt <==> t.Insufficient?
  {
    assert Execution(cfg, env) == Finish(env, TryBlock(cfg, env));
    CatchCalls(env, TryBlock(cfg, env), t);
  }

  /** The notices of an underfunded run's calls, whatever the calls carry. */
  lemma UnderfundedCalls(login: Event, l: Event, n: Event)
    requires !login.Notify? && !login.Purchase? && l.Notify? && n.Notify?
    ensures var ev := [Launch, NewPage] + [login, ReadAccount, l] + [n, Close];
            Notices(ev) == [l.notice, n.notice] && !Attempted(ev)
  {
    var s0 := [Launch, NewPage, login, ReadAccount];
    var ev := [Launch, NewPage] + [login, ReadAccount, l] + [n, Close];
    assert ev == s0 + [l] + [n] + [Close];
    NoticesAppend(s0 + [l] + [n], [Close]);
    NoticesAppend(s0 + [l], [n]);
    NoticesAppend(s0, [l]);
    NoticesNone(s0);
    NoticesOne(l);
    NoticesOne(n);
    NoticesOne(Close);
    forall i | 0 <= i < |ev| ensures !ev[i].Purchase? {
      assert ev[i] in {Launch, NewPage, login, ReadAccount, l, n, Close};
    }
  }

  /** An underfunded run: the set-up calls; login, balance read and balance
      report; then the funding prompt and the close. */
  lemma UnderfundedRun(cfg: Config, env: Env)
    requires env.launch.Ok? && env.newPage.Ok? && ReachesGuard(env) && GuardRejects(cfg, env)
    ensures Execution(cfg, env).events
         == [Launch, NewPage]
          + [Login(cfg.userId, cfg.password), ReadAccount, Notify(env.loginPost.stamp, LoginReport(env))]
          + [Notify(env.reportPost.stamp, FundingRequest), Close]
  {
    var a := SignInSteps(cfg, env);
    var three := [Login(cfg.userId, cfg.password), ReadAccount, Notify(env.loginPost.stamp, LoginReport(env))];
    assert a == Segment(three, Some(Insufficient(DefaultBalanceError)));
    ChainParts(a, Chain(PurchaseSteps(cfg, env), ReceiptSteps(env)));
    assert TryBlock(cfg, env) == a;
  }

  /** An underfunded run attempts no purchase; its only notices are the
      balance report and the funding request, and neither reads like the
      purchase report. */
  lemma UnderfundedNoPurchase(cfg: Config, env: Env)
    requires env.launch.Ok? && env.newPage.Ok? && ReachesGuard(env) && GuardRejects(cfg, env)
    ensures !Attempted(Execution(cfg, env).events)
    ensures Notices(Execution(cfg, env).events) == [LoginReport(env), FundingRequest]
    ensures MessageOf(LoginReport(env)) != Plain(PurchaseNotice(cfg.count))
    ensures MessageOf(FundingRequest) != Plain(PurchaseNotice(cfg.count))
  {
    UnderfundedRun(cfg, env);
    UnderfundedCalls(Login(cfg.userId, cfg.password), Notify(env.loginPost.stamp, LoginReport(env)),
                     Notify(env.reportPost.stamp, FundingRequest));
    LoginIsNotPurchase(AccountInfo(env)[0], BalanceRead(env), cfg.count);
  }

  /** The notices of a complete run's calls, whatever the calls carry. */
  lemma CompleteCalls(login: Event, l: Event, buy: Event, p: Event, fetch: Event, open: Event, n: Event)
    requires !login.Notify? && !buy.Notify? && !fetch.Notify? && !open.Notify?
    requires l.Notify? && p.Notify? && n.Notify?
    ensures Notices([Launch, NewPage] + [login, ReadAccount, l] + [buy, p, ReadCookies]
                    + [fetch, open, ReadNumbers, n] + [Close])
         == [l.notice, p.notice, n.notice]
  {
    var s0 := [Launch, NewPage];
    var s1 := [login, ReadAccount, l];
    var s2 := [buy, p, ReadCookies];
    var s3 := [fetch, open, ReadNumbers, n];
    NoticesAppend(s0 + s1 + s2 + s3, [Close]);
    NoticesAppend(s0 + s1 + s2, s3);
    NoticesAppend(s0 + s1, s2);
    NoticesAppend(s0, s1);
    NoticesNone(s0);
    NoticesNone([Close]);
    assert s1 == [login, ReadAccount] + [l];
    NoticesAppend([login, ReadAccount], [l]);
    NoticesNone([login, ReadAccount]);
    assert s2 == [buy] + [p] + [ReadCookies];
    NoticesAppend([buy] + [p], [ReadCookies]);
    NoticesAppend([buy], [p]);
    assert s3 == [fetch, open, ReadNumbers] + [n];
    NoticesAppend([fetch, open, ReadNumbers], [n]);
    NoticesNone([fetch, open, ReadNumbers]);
    NoticesOne(l);
    NoticesOne(buy);
    NoticesOne(p);
    NoticesOne(ReadCookies);
    NoticesOne(n);
  }

  /** A try block whose three parts all complete is followed by the close
      alone, and the run resolves when the close does. */
  lemma CompleteTry(env: Env, a: Segment, b: Segment, c: Segment)
    requires a.raised.None? && b.raised.None? && c.raised.None? && env.close.Ok?
    ensures Finish(env, Chain(a, Chain(b, c)))
         == Trace([Launch, NewPage] + a.events + b.events + c.events + [Close], Resolved)
  {
    ChainParts(b, c);
    ChainParts(a, Chain(b, c));
    Associate([Launch, NewPage], a.events, b.events + c.events);
    Associate([Launch, NewPage] + a.events, b.events, c.events);
  }

  /** The first part completes with its three calls once the guard lets the run through. */
  lemma SignInCompletes(cfg: Config, env: Env)
    requires ReachesGuard(env) && !GuardRejects(cfg, env)
    ensures SignInSteps(cfg, env)
         == Segment([Login(cfg.userId, cfg.password), ReadAccount, Notify(env.loginPost.stamp, LoginReport(env))], None)
  {
  }

  /** The second part completes with its three calls when they all succeed. */
  lemma PurchaseCompletes(cfg: Config, env: Env)
    requires env.purchase.Ok? && env.purchasePost.outcome.Ok? && env.cookies.Value?
    ensures PurchaseSteps(cfg, env)
         == Segment([Purchase(cfg.count), Notify(env.purchasePost.stamp, PurchaseReport(cfg.count)), ReadCookies], None)
  {
  }

  /** The third part completes with its four calls when they all succeed. */
  lemma ReceiptCompletes(env: Env)
    requires env.listing.Value? && ReadReference(env.listing.value).Value?
    requires env.detail.Ok? && env.numbers.Value? && env.numbersPost.outcome.Ok?
    ensures ReceiptSteps(env)
         == Segment([FetchListing(ListingHeader(env), env.today), OpenDetail(ReadReference(env.listing.value).value),
                     ReadNumbers, Notify(env.numbersPost.stamp, NumbersReport(env.numbers.value))], None)
  {
    var d := DetailSteps(env, ReadReference(env.listing.value).value);
    assert [FetchListing(ListingHeader(env), env.today)] + d.events
        == [FetchListing(ListingHeader(env), env.today), OpenDetail(ReadReference(env.listing.value).value),
            ReadNumbers, Notify(env.numbersPost.stamp, NumbersReport(env.numbers.value))];
  }

  /** A run where every step succeeds and the guard passes makes every call
      in order and resolves. */
  lemma SuccessfulRun(cfg: Config, env: Env)
    requires env.launch.Ok? && env.newPage.Ok? && ReachesGuard(env) && !GuardRejects(cfg, env)
    requires env.purchase.Ok? && env.purchasePost.outcome.Ok? && env.cookies.Value?
    requires env.listing.Value? && ReadReference(env.listing.value).Value?
    requires env.detail.Ok? && env.numbers.Value? && env.numbersPost.outcome.Ok? && env.close.Ok?
    ensures Execution(cfg, env).ending == Resolved
    ensures Execution(cfg, env).events
         == [Launch, NewPage]
          + [Login(cfg.userId, cfg.password), ReadAccount, Notify(env.loginPost.stamp, LoginReport(env))]
          + [Purchase(cfg.count), Notify(env.purchasePost.stamp, PurchaseReport(cfg.count)), ReadCookies]
          + [FetchListing(ListingHeader(env), env.today), OpenDetail(ReadReference(env.listing.value).value),
             ReadNumbers, Notify(env.numbersPost.stamp, NumbersReport(env.numbers.value))]
          + [Close]
  {
    SignInCompletes(cfg, env);
    PurchaseCompletes(cfg, env);
    ReceiptCompletes(env);
    assert Execution(cfg, env) == Finish(env, TryBlock(cfg, env));
    CompleteTry(env, SignInSteps(cfg, env), PurchaseSteps(cfg, env), ReceiptSteps(env));
  }

  /** A complete run posts exactly three messages, in this order: the
      balance report, the purchase report and the purchased numbers. */
  lemma SuccessfulRunNotices(cfg: Config, env: Env)
    requires env.launch.Ok? && env.newPage.Ok? && ReachesGuard(env) && !GuardRejects(cfg, env)
    requires env.purchase.Ok? && env.purchasePost.outcome.Ok? && env.cookies.Value?
    requires env.listing.Value? && ReadReference(env.listing.value).Value?
    requires env.detail.Ok? && env.numbers.Value? && env.numbersPost.outcome.Ok? && env.close.Ok?
    ensures Notices(Execution(cfg, env).events)
         == [LoginReport(env), PurchaseReport(cfg.count), NumbersReport(env.numbers.value)]
  {
    SuccessfulRun(cfg, env);
    CompleteCalls(Login(cfg.userId, cfg.password), Notify(env.loginPost.stamp, LoginReport(env)),
                  Purchase(cfg.count), Notify(env.purchasePost.stamp, PurchaseReport(cfg.count)),
                  FetchListing(ListingHeader(env), env.today), OpenDetail(ReadReference(env.listing.value).value),
                  Notify(env.numbersPost.stamp, NumbersReport(env.numbers.value)));
  }

  /** A run that requests the purchase history got through the first two
      parts of the try block. */
  lemma FetchFollowsPurchase(cfg: Config, env: Env)
    requires env.launch.Ok? && env.newPage.Ok?
    requires Fetched(Execution(cfg, env).events)
    ensures SignInSteps(cfg, env).raised.None? && PurchaseSteps(cfg, env).raised.None?
  {
    var a, b, c := SignInSteps(cfg, env), PurchaseSteps(cfg, env), ReceiptSteps(env);
    var t := TryBlock(cfg, env);
    ExecutionParts(cfg, env);
    var rest := (if t.raised.Some? then [Notify(env.reportPost.stamp, Report(t.raised.value))] else []) + [Close];
    FetchedAppend([Launch, NewPage] + t.events, rest);
    FetchedAppend([Launch, NewPage], t.events);
    SignInShape(cfg, env);
    PurchaseShape(cfg, env);
    ChainParts(a, Chain(b, c));
    ChainParts(b, c);
    FetchedAppend(a.events, Chain(b, c).events);
  }

  /** The purchase-history request, when it is made, comes after the
      purchase and the cookie read, and carries only the last browser cookie
      (or no Cookie header at all when the browser had none). */
  lemma ListingCarriesLastCookie(cfg: Config, env: Env)
    requires env.launch.Ok? && env.newPage.Ok?
    requires Fetched(Execution(cfg, env).events)
    ensures env.cookies.Value?
    ensures var ev := Execution(cfg, env).events;
            |ev| > 8 && ev[5] == Purchase(cfg.count) && ev[7] == ReadCookies
            && ev[8] == FetchListing(if |env.cookies.value| == 0 then None
                                     else Some(CookiePair(env.cookies.value[|env.cookies.value| - 1])),
                                     env.today)
  {
    var a, b, c := SignInSteps(cfg, env), PurchaseSteps(cfg, env), ReceiptSteps(env);
    FetchFollowsPurchase(cfg, env);
    SignInShape(cfg, env);
    PurchaseShape(cfg, env);
    ReceiptShape(env);
    var t := TryBlock(cfg, env);
    ChainParts(a, Chain(b, c));
    ChainParts(b, c);
    ExecutionParts(cfg, env);
    var rest := (if t.raised.Some? then [Notify(env.reportPost.stamp, Report(t.raised.value))] else []) + [Close];
    var first := [Launch, NewPage] + a.events + b.events;
    Associate([Launch, NewPage], a.events, b.events + c.events);
    Associate([Launch, NewPage] + a.events, b.events, c.events);
    Associate(first, c.events, rest);
    FetchAt(first, c.events, rest);
    assert |first| == 8 && first[5] == Purchase(cfg.count) && first[7] == ReadCookies;
    OnlyLastCookie(None, env.cookies.value);
  }

  lemma FetchAt(first: seq<Event>, c: seq<Event>, rest: seq<Event>)
    requires |first| == 8 && |c| > 0
    ensures var ev := first + c + rest;
            |ev| > 8 && ev[5] == first[5] && ev[7] == first[7] && ev[8] == c[0]
  {
  }

  /** The browser and the trace of calls as one object: the log of calls made
      so far, how often the browser was closed, and whether a purchase was
      attempted. */
  class Controller {
    var log: seq<Event>
    var closeCount: nat
    var purchaseAttempted: bool

    ghost predicate Valid()
      reads this
    {
      closeCount == Count(log, Close) && purchaseAttempted == Attempted(log)
    }

    constructor ()
      ensures Valid() && log == []
    {
      log, closeCount, purchaseAttempted := [], 0, false;
    }

    /** Make one call. */
    method Emit(e: Event)
      requires Valid()
      modifies this
      ensures Valid() && log == old(log) + [e]
    {
      AttemptedAppend(log, [e]);
      CountAppend(log, [e], Close);
      assert Count([e], Close) == (if e == Close then 1 else 0) by {
        assert [e][..0] == [];
      }
      assert Attempted([e]) <==> e.Purchase? by {
        assert [e][0] == e;
      }
      log := log + [e];
      if e == Close {
        closeCount := closeCount + 1;
      }
      if e.Purchase? {
        purchaseAttempted := true;
      }
    }

    /** Log in, read the balance, report it and check the funds
        (buyLotto.js:86-100). */
    method SignIn(cfg: Config, env: Env) returns (raised: Option<Thrown>)
      requires Valid()
      modifies this
      ensures Valid()
      ensures log == old(log) + SignInSteps(cfg, env).events
      ensures raised == SignInSteps(cfg, env).raised
    {
      ghost var start := log;
      ghost var login := Login(cfg.userId, cfg.password);
      Emit(Login(cfg.userId, cfg.password));
      if env.login.Threw? {
        return Some(Unclassified(env.login.error));
      }
      Emit(ReadAccount);
      Associate(start, [login], [ReadAccount]);
      assert [login] + [ReadAccount] == [login, ReadAccount];
      if env.account.Failed? {
        return Some(Unclassified(env.account.error));
      }
      var moneyInfo := Split(env.account.value, '\n');
      if |moneyInfo| < 3 {
        return Some(Unclassified(ReadPropertyError("undefined", "replace")));
      }
      var userName := moneyInfo[0];
      var moneyAmount := ParseBalance(moneyInfo[2]);
      ghost var report := Notify(env.loginPost.stamp, LoginReport(env));
      Emit(Notify(env.loginPost.stamp, BalanceReport(userName, moneyInfo[2])));
      Associate(start, [login, ReadAccount], [report]);
      assert [login, ReadAccount] + [report] == [login, ReadAccount, report];
      if env.loginPost.outcome.Threw? {
        return Some(Unclassified(env.loginPost.outcome.error));
      }
      if Underfunded(ParseInt(cfg.count), moneyAmount) {
        return Some(Insufficient(DefaultBalanceError));
      }
      return None;
    }

    /** Buy, report the purchase and read the cookies (buyLotto.js:103-120). */
    method Buy(cfg: Config, env: Env) returns (raised: Option<Thrown>)
      requires Valid()
      modifies this
      ensures Valid()
      ensures log == old(log) + PurchaseSteps(cfg, env).events
      ensures raised == PurchaseSteps(cfg, env).raised
    {
      ghost var start := log;
      ghost var buy, report := Purchase(cfg.count), Notify(env.purchasePost.stamp, PurchaseReport(cfg.count));
      Emit(Purchase(cfg.count));
      if env.purchase.Threw? {
        return Some(Unclassified(env.purchase.error));
      }
      Emit(Notify(env.purchasePost.stamp, PurchaseReport(cfg.count)));
      Associate(start, [buy], [report]);
      assert [buy] + [report] == [buy, report];
      if env.purchasePost.outcome.Threw? {
        return Some(Unclassified(env.purchasePost.outcome.error));
      }
      Emit(ReadCookies);
      Associate(start, [buy, report], [ReadCookies]);
      assert [buy, report] + [ReadCookies] == [buy, report, ReadCookies];
      if env.cookies.Failed? {
        return Some(Unclassified(env.cookies.error));
      }
      return None;
    }

    /** Copy the cookies into an HTTP session, fetch the purchase history
        and open the receipt of its first row (buyLotto.js:121-148). */
    method FetchReceipt(env: Env) returns (raised: Option<Thrown>)
      requires Valid()
      modifies this
      ensures Valid()
      ensures log == old(log) + ReceiptSteps(env).events
      ensures raised == ReceiptSteps(env).raised
    {
      ghost var start := log;
      var session := new HttpSession();
      var cookies := if env.cookies.Value? then env.cookies.value else [];
      CopyCookies(session, cookies);
      assert session.cookieHeader == ListingHeader(env);
      Emit(FetchListing(session.cookieHeader, env.today));
      if env.listing.Failed? {
        return Some(Unclassified(env.listing.error));
      }
      var detailInfo := ReadReference(env.listing.value);
      if detailInfo.Failed? {
        return Some(Unclassified(detailInfo.error));
      }
      raised := OpenReceipt(env, detailInfo.value);
      Associate(start, [FetchListing(ListingHeader(env), env.today)], DetailSteps(env, detailInfo.value).events);
    }

    /** Open the receipt's detail page, read its number sets and report them
        (buyLotto.js:140-148). */
    method OpenReceipt(env: Env, reference: ReceiptRef) returns (raised: Option<Thrown>)
      requires Valid()
      modifies this
      ensures Valid()
      ensures log == old(log) + DetailSteps(env, reference).events
      ensures raised == DetailSteps(env, reference).raised
    {
      ghost var start := log;
      ghost var open := OpenDetail(reference);
      Emit(OpenDetail(reference));
      if env.detail.Threw? {
        return Some(Unclassified(env.detail.error));
      }
      Emit(ReadNumbers);
      Associate(start, [open], [ReadNumbers]);
      assert [open] + [ReadNumbers] == [open, ReadNumbers];
      if env.numbers.Failed? {
        return Some(Unclassified(env.numbers.error));
      }
      var results := env.numbers.value;
      ghost var report := Notify(env.numbersPost.stamp, NumbersReport(results));
      Emit(Notify(env.numbersPost.stamp, NumbersReport(results)));
      Associate(start, [open, ReadNumbers], [report]);
      assert [open, ReadNumbers] + [report] == [open, ReadNumbers, report];
      if env.numbersPost.outcome.Threw? {
        return Some(Unclassified(env.numbersPost.outcome.error));
      }
      return None;
    }

    /** The try block of buyLotto.js:85-148: the three parts in turn, each
        only when the one before it did not throw. */
    method Attempt(cfg: Config, env: Env) returns (raised: Option<Thrown>)
      requires Valid()
      modifies this
      ensures Valid()
      ensures log == old(log) + TryBlock(cfg, env).events
      ensures raised == TryBlock(cfg, env).raised
    {
      ghost var start := log;
      ghost var a, b, c := SignInSteps(cfg, env), PurchaseSteps(cfg, env), ReceiptSteps(env);
      raised := SignIn(cfg, env);
      if raised.Some? {
        return;
      }
      raised := Buy(cfg, env);
      Associate(start, a.events, b.events);
      if raised.Some? {
        return;
      }
      raised := FetchReceipt(env);
      Associate(start + a.events, b.events, c.events);
      Associate(start, a.events, b.events + c.events);
    }

    /** The whole script of buyLotto.js:81-160. On a fresh controller the
        browser is closed exactly once when the page opened, and a purchase
        is attempted only once the guard has let the run through. */
    method Run(cfg: Config, env: Env) returns (ending: Ending)
      requires Valid()
      modifies this
      ensures Valid()
      ensures log == old(log) + Execution(cfg, env).events
      ensures ending == Execution(cfg, env).ending
      ensures old(log) == [] && env.launch.Ok? && env.newPage.Ok? ==> closeCount == 1
      ensures old(log) == [] && purchaseAttempted ==> ReachesGuard(env) && !GuardRejects(cfg, env)
    {
      ghost var before := log;
      ending := Execute(cfg, env);
      if before == [] {
        assert log == Execution(cfg, env).events;
        if env.launch.Ok? && env.newPage.Ok? {
          CloseExactlyOnce(cfg, env);
        }
        NoPurchaseWithoutGuard(cfg, env);
      }
    }

    /** The calls of the script: `launch` and `newPage`, then, once the page
        is open, the try block and its catch and finally blocks. */
    method Execute(cfg: Config, env: Env) returns (ending: Ending)
      requires Valid()
      modifies this
      ensures Valid()
      ensures log == old(log) + Execution(cfg, env).events
      ensures ending == Execution(cfg, env).ending
    {
      ghost var before := log;
      Emit(Launch);
      if env.launch.Threw? {
        ending := Rejected(env.launch.error);
        assert Execution(cfg, env) == Trace([Launch], ending);
      } else {
        Emit(NewPage);
        Associate(before, [Launch], [NewPage]);
        assert [Launch] + [NewPage] == [Launch, NewPage];
        if env.newPage.Threw? {
          ending := Rejected(env.newPage.error);
          assert Execution(cfg, env) == Trace([Launch, NewPage], ending);
        } else {
          ghost var t := TryBlock(cfg, env);
          assert Execution(cfg, env) == Finish(env, t);
          var raised := Attempt(cfg, env);
          Associate(before, [Launch, NewPage], t.events);
          ending := Conclude(env, before, t, raised);
        }
      }
    }

    /** The catch and finally blocks of buyLotto.js:149-159, after a try
        block that made the calls of `t`. */
    method Conclude(env: Env, ghost base: seq<Event>, ghost t: Segment, raised: Option<Thrown>)
      returns (ending: Ending)
      requires Valid() && raised == t.raised
      requires log == base + ([Launch, NewPage] + t.events)
      modifies this
      ensures Valid()
      ensures log == base + Finish(env, t).events
      ensures ending == Finish(env, t).ending
    {
      ghost var pre := [Launch, NewPage] + t.events;
      var pending: Option<ErrorValue> := None;
      if raised.Some? {
        match raised.value {
          case Insufficient(_) =>
            Emit(Notify(env.reportPost.stamp, FundingRequest));
          case Unclassified(e) =>
            Emit(Notify(env.reportPost.stamp, ErrorReport(e)));
        }
        if env.reportPost.outcome.Threw? {
          pending := Some(env.reportPost.outcome.error);
        }
      }
      Emit(Close);
      if raised.Some? {
        var n := Notify(env.reportPost.stamp, Report(raised.value));
        Associate(base, pre, [n]);
        Associate(base, pre + [n], [Close]);
        Associate(pre, [n], [Close]);
        assert [n] + [Close] == [n, Close];
      } else {
        Associate(base, pre, [Close]);
      }
      if env.close.Threw? {
        ending := Rejected(env.close.error);
      } else if pending.Some? {
        ending := Rejected(pending.value);
      } else {
        ending := Resolved;
      }
    }
  }
}
