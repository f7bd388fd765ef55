/** check_tokens: the startup presence check over the three credentials. */
module Tokens {
  import opened Wrappers
  import opened Errors

  /** Truthiness of an `os.getenv` result: unset (None) and the empty
      string both count as missing. */
  predicate Present(v: Option<string>)
  {
    v.Some? && v.value != ""
  }

  /** Walks the credentials in the order PRACTICUM_TOKEN, TELEGRAM_TOKEN,
      TELEGRAM_CHAT_ID and fails on the first missing one; None means the
      check passed. */
  method CheckTokens(practicum: Option<string>, telegram: Option<string>, chatId: Option<string>)
    returns (r: Option<BotError>)
    ensures r.None? <==> Present(practicum) && Present(telegram) && Present(chatId)
    ensures !Present(practicum) ==> r == Some(CheckToken("PRACTICUM_TOKEN"))
    ensures Present(practicum) && !Present(telegram) ==> r == Some(CheckToken("TELEGRAM_TOKEN"))
    ensures Present(practicum) && Present(telegram) && !Present(chatId) ==>
              r == Some(CheckToken("TELEGRAM_CHAT_ID"))
  {
    var tokens := [("PRACTICUM_TOKEN", practicum), ("TELEGRAM_TOKEN", telegram), ("TELEGRAM_CHAT_ID", chatId)];
    for i := 0 to |tokens|
      invariant forall k :: 0 <= k < i ==> Present(tokens[k].1)
    {
      if !Present(tokens[i].1) {
        assert i == 0 || Present(tokens[0].1);
        assert i <= 1 || Present(tokens[1].1);
        return Some(CheckToken(tokens[i].0));
      }
    }
    assert Present(tokens[0].1) && Present(tokens[1].1) && Present(tokens[2].1);
    return None;
  }
}
