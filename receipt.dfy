/** The receipt side of the workflow: the hand-off of the browser's cookies
    to a plain HTTP session (buyLotto.js:120-124), the purchase-history query
    (buyLotto.js:126-127), the receipt reference read from the first row's
    link (buyLotto.js:138-140) and the formatting of the purchased number sets
    (buyLotto.js:143-147). */
module Receipt {
  import opened Js
  import opened Text
  import opened JsNumber

  /** A browser cookie, as `page.cookies()` lists it. */
  datatype Cookie = Cookie(name: string, value: string)

  function CookiePair(c: Cookie): string {
    c.name + "=" + c.value
  }

  /** The session's Cookie header after `cookies.forEach(c => header = pair(c))`
      starting from `header`: each cookie in turn replaces the header. */
  function HeaderAfter(header: Option<string>, cookies: seq<Cookie>): Option<string>
    decreases |cookies|
  {
    if |cookies| == 0 then header else HeaderAfter(Some(CookiePair(cookies[0])), cookies[1..])
  }

  /** Only the last cookie survives the loop; with no cookies the header is
      left as it was. */
  lemma {:induction false} OnlyLastCookie(header: Option<string>, cookies: seq<Cookie>)
    ensures HeaderAfter(header, cookies)
         == if |cookies| == 0 then header else Some(CookiePair(cookies[|cookies| - 1]))
    decreases |cookies|
  {
    if |cookies| > 1 {
      OnlyLastCookie(Some(CookiePair(cookies[0])), cookies[1..]);
    }
  }

  /** The HTTP client `axios.create()` returns, seen through its default
      Cookie header, which it starts without. */
  class HttpSession {
    var cookieHeader: Option<string>

    constructor ()
      ensures cookieHeader == None
    {
      cookieHeader := None;
    }
  }

  /** The cookie loop of buyLotto.js:122-124, which overwrites the session's
      Cookie header once per cookie. */
  method CopyCookies(session: HttpSession, cookies: seq<Cookie>)
    modifies session
    ensures session.cookieHeader == HeaderAfter(old(session.cookieHeader), cookies)
    ensures |cookies| > 0 ==> session.cookieHeader == Some(CookiePair(cookies[|cookies| - 1]))
    ensures |cookies| == 0 ==> session.cookieHeader == old(session.cookieHeader)
  {
    var i := 0;
    while i < |cookies|
      invariant 0 <= i <= |cookies|
      invariant session.cookieHeader
             == if i == 0 then old(session.cookieHeader) else Some(CookiePair(cookies[i - 1]))
    {
      session.cookieHeader := Some(CookiePair(cookies[i]));
      i := i + 1;
    }
    OnlyLastCookie(old(session.cookieHeader), cookies);
  }

  /** The form body of the purchase-history request for one day. */
  function ListingQuery(date: string): string {
    "searchStartDate=" + date + "&searchEndDate=" + date + "&winGrade=2"
  }

  /** The form body has three fields, and the start and end of the searched
      period are both the given day. */
  lemma ListingQueryFields(date: string)
    requires '&' !in date
    ensures Split(ListingQuery(date), '&') == ["searchStartDate=" + date, "searchEndDate=" + date, "winGrade=2"]
  {
    var f0, f1, f2 := "searchStartDate=" + date, "searchEndDate=" + date, "winGrade=2";
    assert '&' !in f0 && '&' !in f1 && '&' !in f2 by {
      forall i | 0 <= i < |f0| ensures f0[i] != '&' {
        if i >= 16 { assert f0[i] == date[i - 16]; }
      }
      forall i | 0 <= i < |f1| ensures f1[i] != '&' {
        if i >= 14 { assert f1[i] == date[i - 14]; }
      }
    }
    assert ListingQuery(date) == f0 + ['&'] + (f1 + ['&'] + f2);
    SplitAt(f0, f1 + ['&'] + f2, '&');
    SplitAt(f1, f2, '&');
    SplitWithout(f2, '&');
  }

  /** `s.match(/\d+/g)` when it matches: the maximal runs of decimal digits
      of `s`, from left to right. (`match` gives `null` when the list would
      be empty; `ReadReference` deals with that case.) */
  function DigitRuns(s: string): (runs: seq<string>)
    ensures forall i :: 0 <= i < |runs| ==> |runs[i]| > 0 && AllDigitsIn(runs[i], 10)
    decreases |s|
  {
    if |s| == 0 then []
    else if !IsDecimalDigit(s[0]) then DigitRuns(s[1..])
    else
      var n := DigitRunLength(s, 10);
      [s[..n]] + DigitRuns(s[n..])
  }

  /** Text without digits contributes no run. */
  lemma {:induction false} RunsSkip(p: string, s: string)
    requires NoDigits(p)
    ensures DigitRuns(p + s) == DigitRuns(s)
    decreases |p|
  {
    if |p| == 0 {
      assert p + s == s;
    } else {
      assert (p + s)[0] == p[0];
      assert (p + s)[1..] == p[1..] + s;
      RunsSkip(p[1..], s);
    }
  }

  /** A run of digits that a non-digit (or the end) closes is one whole run. */
  lemma RunsTake(d: string, s: string)
    requires |d| > 0 && AllDigitsIn(d, 10)
    requires |s| > 0 ==> !IsDecimalDigit(s[0])
    ensures DigitRuns(d + s) == [d] + DigitRuns(s)
  {
    var t := d + s;
    assert t[0] == d[0];
    DigitRunOf(d, s, 10);
    assert t[..|d|] == d && t[|d|..] == s;
  }

  /** A run of digits closed by a non-empty digit-free separator. */
  lemma RunThenSeparator(d: string, p: string, s: string)
    requires |d| > 0 && AllDigitsIn(d, 10)
    requires NoDigits(p) && |p| > 0
    ensures DigitRuns(d + (p + s)) == [d] + DigitRuns(s)
  {
    assert (p + s)[0] == p[0];
    RunsTake(d, p + s);
    RunsSkip(p, s);
  }

  /** A link made of the numbers `nums`, each followed by its separator. */
  function Linked(nums: seq<string>, seps: seq<string>): string
    requires |seps| == |nums|
    decreases |nums|
  {
    if |nums| == 0 then "" else nums[0] + (seps[0] + Linked(nums[1..], seps[1..]))
  }

  /** The numbers of a link, each closed by a digit-free separator that is
      non-empty between two numbers. */
  predicate WellLinked(nums: seq<string>, seps: seq<string>) {
    |seps| == |nums|
    && (forall i :: 0 <= i < |nums| ==> |nums[i]| > 0 && AllDigitsIn(nums[i], 10))
    && (forall i :: 0 <= i < |seps| ==> NoDigits(seps[i]))
    && (forall i :: 0 <= i < |seps| - 1 ==> |seps[i]| > 0)
  }

  /** The digit runs of a link are exactly its numbers, all of them, in order. */
  lemma {:induction false} RunsOfLink(nums: seq<string>, seps: seq<string>)
    requires WellLinked(nums, seps)
    ensures DigitRuns(Linked(nums, seps)) == nums
    decreases |nums|
  {
    if |nums| > 0 {
      assert WellLinked(nums[1..], seps[1..]) by {
        forall i | 0 <= i < |nums| - 1 ensures |nums[1..][i]| > 0 && AllDigitsIn(nums[1..][i], 10) {
          assert nums[1..][i] == nums[i + 1];
        }
        forall i | 0 <= i < |seps| - 1 ensures NoDigits(seps[1..][i]) {
          assert seps[1..][i] == seps[i + 1];
        }
      }
      RunsOfLink(nums[1..], seps[1..]);
      var rest := Linked(nums[1..], seps[1..]);
      if |seps[0]| > 0 {
        RunThenSeparator(nums[0], seps[0], rest);
      } else {
        assert seps[0] + rest == "";
        RunsTake(nums[0], "");
        assert nums[0] + "" == nums[0];
      }
      assert [nums[0]] + nums[1..] == nums;
    }
  }

  /** The three identifiers of a receipt, each `undefined` when the link has
      fewer digit runs than its position. */
  datatype ReceiptRef = ReceiptRef(orderNo: Option<string>, barcode: Option<string>, issueNo: Option<string>)

  function RunAt(runs: seq<string>, i: nat): Option<string> {
    if i < |runs| then Some(runs[i]) else None
  }

  /** `detailInfo = href.match(/\d+/g)` and the reads of `detailInfo[0..2]`:
      the first three digit runs, or the `TypeError` of indexing `null` when
      the link holds no digit at all. */
  function ReadReference(href: string): (r: Result<ReceiptRef>)
    ensures r.Failed? <==> DigitRuns(href) == []
    ensures r.Failed? <==> NoDigits(href)
    ensures r.Failed? ==> r.error.name == "TypeError"
  {
    NoRunsNoDigits(href);
    var runs := DigitRuns(href);
    if |runs| == 0 then Failed(ReadPropertyError("null", "0"))
    else Value(ReceiptRef(RunAt(runs, 0), RunAt(runs, 1), RunAt(runs, 2)))
  }

  /** Behind a digit-free prefix, a link's first three numbers are the
      order number, the barcode and the issue number, whatever follows them;
      a missing one is `undefined`, and a link without numbers is the
      `TypeError` of indexing `null`. */
  lemma ReferenceOfNumbers(p0: string, nums: seq<string>, seps: seq<string>)
    requires NoDigits(p0) && WellLinked(nums, seps)
    ensures ReadReference(p0 + Linked(nums, seps))
         == if |nums| == 0 then Failed(ReadPropertyError("null", "0"))
            else Value(ReceiptRef(RunAt(nums, 0), RunAt(nums, 1), RunAt(nums, 2)))
  {
    RunsOfLink(nums, seps);
    RunsSkip(p0, Linked(nums, seps));
  }

  /** A link of three numbers gives those numbers as order number, barcode
      and issue number, in that order. */
  lemma ReferenceOfLink(p0: string, a: string, p1: string, b: string, p2: string, c: string, p3: string)
    requires NoDigits(p0) && NoDigits(p1) && NoDigits(p2) && NoDigits(p3)
    requires |p1| > 0 && |p2| > 0
    requires |a| > 0 && AllDigitsIn(a, 10) && |b| > 0 && AllDigitsIn(b, 10) && |c| > 0 && AllDigitsIn(c, 10)
    ensures ReadReference(p0 + a + p1 + b + p2 + c + p3) == Value(ReceiptRef(Some(a), Some(b), Some(c)))
  {
    var nums, seps := [a, b, c], [p1, p2, p3];
    assert Linked(nums[2..], seps[2..]) == c + (p3 + "") by {
      assert nums[2..][1..] == [] && seps[2..][1..] == [];
    }
    assert Linked(nums, seps) == a + (p1 + (b + (p2 + (c + (p3 + ""))))) by {
      assert nums[1..][1..] == nums[2..] && seps[1..][1..] == seps[2..];
    }
    assert p0 + a + p1 + b + p2 + c + p3 == p0 + Linked(nums, seps);
    ReferenceOfNumbers(p0, nums, seps);
  }

  /** A link has no digit run exactly when it holds no digit. */
  lemma {:induction false} NoRunsNoDigits(s: string)
    ensures DigitRuns(s) == [] <==> NoDigits(s)
    decreases |s|
  {
    if NoDigits(s) {
      RunsSkip(s, "");
      assert s + "" == s;
    } else if |s| > 0 && !IsDecimalDigit(s[0]) {
      NoRunsNoDigits(s[1..]);
      assert !NoDigits(s[1..]) by {
        var k :| 0 <= k < |s| && IsDecimalDigit(s[k]);
        assert s[1..][k - 1] == s[k];
      }
    }
  }

  /** A link with no digit is a `TypeError`, as `null[0]` is. */
  lemma NoReferenceWithoutDigits(href: string)
    requires NoDigits(href)
    ensures ReadReference(href) == Failed(ReadPropertyError("null", "0"))
  {
    NoRunsNoDigits(href);
  }

  /** `${x}` for a value that may be `undefined`. */
  function Interpolated(x: Option<string>): string {
    if x.None? then "undefined" else x.value
  }

  /** The address of the receipt's detail page (buyLotto.js:140). */
  function DetailUrl(r: ReceiptRef): string {
    "https://dhlottery.co.kr/myPage.do?method=lotto645Detail&orderNo=" + Interpolated(r.orderNo)
      + "&barcode=" + Interpolated(r.barcode) + "&issueNo=" + Interpolated(r.issueNo)
  }

  /** A link with only one or two numbers leaves the missing fields of the
      detail address reading "undefined". */
  lemma DetailUrlMissingIssue(href: string)
    requires 0 < |DigitRuns(href)| < 3
    ensures ReadReference(href).Value?
    ensures var r := ReadReference(href).value;
            r.issueNo == None && DetailUrl(r)[|DetailUrl(r)| - 9..] == "undefined"
  {
  }

  /** One number set as the detail page shows it: its lines joined by ", ". */
  function FormatItem(text: string): string {
    Join(Split(text, '\n'), ", ")
  }

  /** `elements.map(el => el.innerText.split("\n").join(", "))`. */
  function FormatItems(texts: seq<string>): (items: seq<string>)
    ensures |items| == |texts|
    ensures forall i :: 0 <= i < |texts| ==> items[i] == FormatItem(texts[i])
    decreases |texts|
  {
    if |texts| == 0 then [] else [FormatItem(texts[0])] + FormatItems(texts[1..])
  }

  /** `resultMsg = results.join("\n")`: empty when the page lists no set, and
      the one formatted set alone when it lists one. */
  function FormatResults(texts: seq<string>): (r: string)
    ensures |texts| == 0 ==> r == ""
    ensures |texts| == 1 ==> r == FormatItem(texts[0])
  {
    Join(FormatItems(texts), "\n")
  }

  /** A formatted number set fits on one line, and a one-line set is left as it is. */
  lemma FormatItemOneLine(text: string)
    ensures '\n' !in FormatItem(text)
    ensures '\n' !in text ==> FormatItem(text) == text
  {
    JoinAvoids(Split(text, '\n'), ", ", '\n');
    if '\n' !in text {
      SplitWithout(text, '\n');
    }
  }

  /** The result message has one line per number set, in the page's order. */
  lemma ResultLines(texts: seq<string>)
    requires |texts| > 0
    ensures Split(FormatResults(texts), '\n') == FormatItems(texts)
  {
    var items := FormatItems(texts);
    forall i | 0 <= i < |items| ensures '\n' !in items[i] {
      FormatItemOneLine(texts[i]);
    }
    SplitJoin(items, '\n');
  }
}
