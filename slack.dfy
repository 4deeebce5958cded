/** The notifications the workflow posts to Slack: the header `hookSlack`
    and `hookSlackBtn` put in front of every message (buyLotto.js:32-79), and
    the three message bodies the workflow composes (buyLotto.js:98, 115-117,
    148). The HTTP request itself is not modelled; a message is its text. */
module Slack {
  import opened Js
  import opened JsNumber

  const BotTitle := "*로또 자동 구매 봇 알림*"

  /** The section text of the funding prompt, and its single button. */
  const FundingNotice := "예치금이 부족합니다! 충전을 해주세요!"
  const FundingButtonLabel := "충전하러 가기"
  const FundingUrl := "https://dhlottery.co.kr/payment.do?method=payment"

  /** The first line of every notification: a quote marker, the Korean local
      time and the bot's title. */
  function Header(stamp: string): string {
    "> " + stamp + " " + BotTitle + " \n"
  }

  /** `hookSlack(message)`'s `text`: the header followed by the message. */
  function PlainText(stamp: string, body: string): string {
    Header(stamp) + body
  }

  /** A notification: a plain text message (`hookSlack`), or the interactive
      funding prompt with a button that links to the funding page (`hookSlackBtn`). */
  datatype Message = Plain(body: string) | FundingPrompt

  /** The text the channel shows for a message posted at time `stamp`. */
  function Shown(stamp: string, m: Message): string {
    match m
    case Plain(body) => PlainText(stamp, body)
    case FundingPrompt => PlainText(stamp, FundingNotice)
  }

  /** The label and target of the message's button, if it has one. */
  function ButtonOf(m: Message): (b: Option<(string, string)>)
    ensures b.Some? <==> m.FundingPrompt?
    ensures m.FundingPrompt? ==> b == Some((FundingButtonLabel, FundingUrl))
  {
    if m.FundingPrompt? then Some((FundingButtonLabel, FundingUrl)) else None
  }

  /** The message under the header of a posted text, if the header is there. */
  function StripHeader(stamp: string, text: string): Option<string> {
    var h := Header(stamp);
    if |h| <= |text| && text[..|h|] == h then Some(text[|h|..]) else None
  }

  /** Every notification starts with the header of its time stamp, and the
      message under it can be read back unchanged. */
  lemma ShownRoundTrip(stamp: string, m: Message)
    ensures StripHeader(stamp, Shown(stamp, m)) == Some(if m.Plain? then m.body else FundingNotice)
  {
    var body := if m.Plain? then m.body else FundingNotice;
    var t := PlainText(stamp, body);
    assert t[..|Header(stamp)|] == Header(stamp);
    assert t[|Header(stamp)|..] == body;
  }

  /** The login report of buyLotto.js:98: the user's name and the balance as
      read, which prints as "NaN" when the balance could not be read. */
  function LoginNotice(userName: string, balance: Option<int>): string {
    "로그인 사용자: " + userName + ", 예치금: " + NumberText(balance)
  }

  /** The purchase report of buyLotto.js:116, with the count as given. */
  function PurchaseNotice(count: string): string {
    count + "개 복권 구매 성공! \n자세하게 확인하기: https://dhlottery.co.kr/myPage.do?method=notScratchListView"
  }

  /** The closing report of buyLotto.js:148, with the formatted number sets. */
  function NumbersNotice(resultMsg: string): string {
    "이번주 나의 행운의 번호는?!\n" + resultMsg
  }

  /** No login report reads like a purchase report: the one ends in a digit or
      in "NaN", the other in a link. */
  lemma LoginIsNotPurchase(userName: string, balance: Option<int>, count: string)
    ensures LoginNotice(userName, balance) != PurchaseNotice(count)
  {
    NumberTextLast(balance);
    var a, b := LoginNotice(userName, balance), PurchaseNotice(count);
    var t := NumberText(balance);
    assert a[|a| - 1] == t[|t| - 1];
    assert b[|b| - 1] == 'w';
  }
}
