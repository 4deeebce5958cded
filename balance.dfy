/** The balance side of the workflow: reading the deposit balance from the
    account page's text (buyLotto.js:97), the funds guard (buyLotto.js:100)
    and the `BalanceError` it throws (buyLotto.js:17-26). */
module Balance {
  import opened Js
  import opened Text
  import opened JsNumber

  /** The price of one ticket set, in won. */
  const UnitPrice := 1000

  /** The currency suffix of the balance text. */
  const Won := '원'

  /** `parseInt(text.replace(/,/g, "").replace("원", ""))`: delete every
      comma, then the first "원", then read the leading integer. */
  function ParseBalance(text: string): Option<int> {
    ParseInt(RemoveFirst(RemoveAll(text, ','), Won))
  }

  /** Three decimal digits, with leading zeros: a group after a thousands comma. */
  function Group(m: nat): (s: string)
    requires m < 1000
    ensures |s| == 3 && AllDigitsIn(s, 10)
  {
    [DigitChar(m / 100), DigitChar(m / 10 % 10), DigitChar(m % 10)]
  }

  /** A natural number written with a comma between groups of three digits,
      as the account page shows balances. */
  function Grouped(n: nat): string
    decreases n
  {
    if n < 1000 then NatText(n) else Grouped(n / 1000) + "," + Group(n % 1000)
  }

  /** A balance as the account page shows it: grouped digits and the suffix "원". */
  function WonText(n: nat): string {
    Grouped(n) + [Won]
  }

  /** `1000 * parseInt(COUNT) > balance`. A NaN on either side makes the
      comparison false, so the guard then lets the run go on. */
  predicate Underfunded(count: Option<int>, balance: Option<int>) {
    count.Some? && balance.Some? && UnitPrice * count.value > balance.value
  }

  /** The numeral of a number of at least 1000 ends in its last three digits. */
  lemma {:induction false} NatTextThousands(n: nat)
    requires n >= 1000
    ensures NatText(n) == NatText(n / 1000) + Group(n % 1000)
  {
    var q, m := n / 1000, n % 1000;
    assert n == 1000 * q + m;
    assert n / 10 == 100 * q + m / 10;
    assert n / 100 == 10 * q + m / 100;
    assert n / 10 / 10 == n / 100;
    assert n / 100 / 10 == q;
    assert n % 10 == m % 10;
    assert n / 10 % 10 == m / 10 % 10;
    assert n / 100 % 10 == m / 100;
    assert NatText(n) == NatText(n / 10) + [DigitChar(m % 10)];
    assert NatText(n / 10) == NatText(n / 100) + [DigitChar(m / 10 % 10)];
    assert NatText(n / 100) == NatText(q) + [DigitChar(m / 100)];
  }

  /** A digit string holds no comma, no line break and no "원". */
  lemma DigitsAvoid(s: string)
    requires AllDigitsIn(s, 10)
    ensures ',' !in s && '\n' !in s && Won !in s
  {
    forall i | 0 <= i < |s| ensures s[i] != ',' && s[i] != '\n' && s[i] != Won {
      assert IsDecimalDigit(s[i]);
    }
  }

  /** Deleting the commas of the grouped form leaves the plain numeral. */
  lemma {:induction false} RemoveCommasGrouped(n: nat)
    ensures RemoveAll(Grouped(n), ',') == NatText(n)
    decreases n
  {
    DigitsAvoid(NatText(n));
    if n >= 1000 {
      RemoveCommasGrouped(n / 1000);
      var g := Group(n % 1000);
      DigitsAvoid(g);
      RemoveAllAppend(Grouped(n / 1000) + ",", g, ',');
      RemoveAllAppend(Grouped(n / 1000), ",", ',');
      NatTextThousands(n);
    }
  }

  /** The grouped form holds neither a line break nor "원". */
  lemma {:induction false} GroupedOneLine(n: nat)
    ensures '\n' !in Grouped(n) && Won !in Grouped(n)
    decreases n
  {
    if n < 1000 {
      DigitsAvoid(NatText(n));
    } else {
      GroupedOneLine(n / 1000);
      DigitsAvoid(Group(n % 1000));
    }
  }

  /** A balance text is a single line, so it can sit on a line of its own in
      the account block. */
  lemma WonTextOneLine(n: nat)
    ensures '\n' !in WonText(n)
  {
    GroupedOneLine(n);
  }

  /** The balance text of every natural number parses back to that number. */
  lemma ParseBalanceWonText(n: nat)
    ensures ParseBalance(WonText(n)) == Some(n)
  {
    var t := NatText(n);
    RemoveCommasGrouped(n);
    RemoveAllAppend(Grouped(n), [Won], ',');
    assert RemoveAll(WonText(n), ',') == t + [Won];
    DigitsAvoid(t);
    RemoveFirstAt(t, "", Won);
    assert t + [Won] + "" == t + [Won] && t + "" == t;
    ParseIntDecimalText(n);
  }

  /** "1,234,500원" is read as 1234500. */
  lemma ParseBalanceExample()
    ensures ParseBalance("1,234,500원") == Some(1234500)
  {
    assert Group(500) == "500" && Group(234) == "234" && NatText(1) == "1";
    assert Grouped(1234) == "1,234";
    assert Grouped(1234500) == "1,234,500";
    assert WonText(1234500) == "1,234,500원";
    ParseBalanceWonText(1234500);
  }

  /** A balance line without digits, such as a lone "원", is NaN, and the guard
      never stops a run on it whatever the count. */
  lemma NonNumericBalancePasses(text: string, count: Option<int>)
    requires NoDigits(text)
    ensures ParseBalance(text) == None
    ensures !Underfunded(count, ParseBalance(text))
  {
    var u := RemoveFirst(RemoveAll(text, ','), Won);
    forall i | 0 <= i < |u| ensures !IsDecimalDigit(u[i]) {
      assert u[i] in u;
      var j :| 0 <= j < |text| && text[j] == u[i];
    }
    ParseIntNoDigits(u);
  }

  /** The `code` of a `BalanceError`: `null` (the default), a number or a string. */
  datatype Code = NullCode | NumberCode(n: int) | StringCode(s: string)

  /** JavaScript truthiness of a code. */
  predicate Truthy(c: Code) {
    match c
    case NullCode => false
    case NumberCode(n) => n != 0
    case StringCode(s) => s != ""
  }

  /** `${code}` for a truthy code. */
  function CodeText(c: Code): string {
    match c
    case NullCode => "null"
    case NumberCode(n) => DecimalText(n)
    case StringCode(s) => s
  }

  datatype BalanceError = BalanceError(message: string, code: Code)

  /** `new BalanceError()`: the default message and a `null` code. */
  const DefaultBalanceError := BalanceError("An error occurred", NullCode)

  /** `BalanceError.toString`: the message, followed by " - Code: " and the
      code when the code is truthy. */
  function ToString(e: BalanceError): (r: string)
    ensures |e.message| <= |r| && r[..|e.message|] == e.message
    ensures Truthy(e.code) ==> r[|e.message|..] == " - Code: " + CodeText(e.code)
  {
    if Truthy(e.code) then e.message + " - Code: " + CodeText(e.code) else e.message
  }

  /** The text is the bare message exactly when the code is falsy. */
  lemma ToStringBareIff(e: BalanceError)
    ensures ToString(e) == e.message <==> !Truthy(e.code)
  {
    if Truthy(e.code) {
      assert |ToString(e)| > |e.message|;
    }
  }

  /** The error the guard throws reads "An error occurred". */
  lemma DefaultToString()
    ensures ToString(DefaultBalanceError) == "An error occurred"
  {
  }
}
