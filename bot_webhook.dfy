/** src/bot_webhook.js: the Telegram bot's message handler. A message is
    answered only when its chat id equals the configured
    TELEGRAM_AUTHORIZED_USER_ID read with parseInt(…, 10); an empty message
    or one starting with "/start" is ignored; otherwise the text is searched
    for `video_url:` followed by an http(s) URL and for `caption:`, and the
    reel is posted when a URL was found, else the format help is sent. The
    separate "/start" handler sends the welcome text. */
module BotWebhook {
  import opened Common
  import opened Text

  // ---------------------------------------------------------------------
  // parseInt(s, 10)

  /** The longest prefix of `s` made of decimal digits. */
  function LeadingDigits(s: string): (d: string)
    ensures |d| <= |s| && d == s[..|d|]
    ensures forall i :: 0 <= i < |d| ==> IsDigit(d[i])
    ensures |d| == |s| || !IsDigit(s[|d|])
  {
    if s != [] && IsDigit(s[0]) then [s[0]] + LeadingDigits(s[1..]) else []
  }

  /** parseInt(s, 10): leading white space is skipped, one optional sign
      is read, then the longest run of decimal digits; anything after it is
      ignored, and no digit at all gives NaN (None). */
  function ParseInt10(s: string): Option<int>
  {
    var t := TrimStart(s);
    var unsigned := if t != [] && (t[0] == '-' || t[0] == '+') then t[1..] else t;
    var digits := LeadingDigits(unsigned);
    if digits == [] then None
    else if t[0] == '-' then Some(-(DigitsValue(digits) as int))
    else Some(DigitsValue(digits))
  }

  /** A chat id as a template literal renders it. */
  function IntToString(i: int): (s: string)
    ensures |s| >= 1
  {
    if i < 0 then "-" + NatToString(-i) else NatToString(i)
  }

  /** A run of digits followed by something that is not a digit is read up
      to the end of the run. */
  lemma {:induction false} LeadingDigitsOfDigits(ds: string, rest: string)
    requires forall i :: 0 <= i < |ds| ==> IsDigit(ds[i])
    requires rest == [] || !IsDigit(rest[0])
    ensures LeadingDigits(ds + rest) == ds
  {
    if ds != [] {
      assert (ds + rest)[1..] == ds[1..] + rest;
      LeadingDigitsOfDigits(ds[1..], rest);
    }
  }

  /** Text that does not start with white space is not trimmed. */
  lemma TrimStartNoLeadingSpace(s: string)
    requires s == [] || !IsSpace(s[0])
    ensures TrimStart(s) == s
  {
  }

  /** parseInt reads a rendered natural number back, whatever non-digit
      text follows it: "123abc" is 123. */
  lemma ParseNatPrefix(n: nat, rest: string)
    requires rest == [] || !IsDigit(rest[0])
    ensures ParseInt10(NatToString(n) + rest) == Some(n)
  {
    var ds := NatToString(n);
    var s := ds + rest;
    assert s[0] == ds[0];
    TrimStartNoLeadingSpace(s);
    LeadingDigitsOfDigits(ds, rest);
    DigitsValueOfNatToString(n);
  }

  /** The same with a minus sign in front: "-123abc" is -123. */
  lemma ParseNegativePrefix(n: nat, rest: string)
    requires rest == [] || !IsDigit(rest[0])
    ensures ParseInt10("-" + NatToString(n) + rest) == Some(-(n as int))
  {
    var ds := NatToString(n);
    var s := "-" + ds + rest;
    TrimStartNoLeadingSpace(s);
    assert s[1..] == ds + rest;
    LeadingDigitsOfDigits(ds, rest);
    DigitsValueOfNatToString(n);
  }

  /** parseInt reads a rendered integer back, whatever non-digit text
      follows it. */
  lemma ParseIntPrefix(i: int, rest: string)
    requires rest == [] || !IsDigit(rest[0])
    ensures ParseInt10(IntToString(i) + rest) == Some(i)
  {
    if i < 0 {
      ParseNegativePrefix(-i, rest);
    } else {
      ParseNatPrefix(i, rest);
    }
  }

  /** Configuring the chat id as it is printed authorises exactly that
      chat. */
  lemma ParseIntRoundTrip(i: int)
    ensures ParseInt10(IntToString(i)) == Some(i)
  {
    ParseIntPrefix(i, "");
    assert IntToString(i) + "" == IntToString(i);
  }

  /** An unset (or empty) TELEGRAM_AUTHORIZED_USER_ID is NaN. */
  lemma ParseIntEmpty()
    ensures ParseInt10("") == None
  {
  }

  // ---------------------------------------------------------------------
  // /video_url:\s*(https?:\/\/\S+)/i and /caption:\s*([\s\S]*)/i

  const URL_KEY := "video_url:"
  const CAPTION_KEY := "caption:"
  const HTTP := "http://"
  const HTTPS := "https://"

  /** The lower-case ASCII `key` occurs at `p`, ignoring ASCII case as a
      non-Unicode /i regular expression does. */
  predicate KeyAt(text: string, p: nat, key: string)
  {
    p + |key| <= |text| && Lower(text[p..p + |key|]) == key
  }

  /** The longest prefix of `s` without white space (what \S+ takes). */
  function Word(s: string): (w: string)
    ensures |w| <= |s| && w == s[..|w|]
    ensures NoSpace(w)
    ensures |w| == |s| || IsSpace(s[|w|])
  {
    if s != [] && !IsSpace(s[0]) then [s[0]] + Word(s[1..]) else []
  }

  /** `https?:\/\/\S+` at the start of `w`, the word after the key: the
      scheme in any ASCII case, then at least one more character. */
  predicate HasScheme(w: string)
  {
    (StartsWith(Lower(w), HTTP) && |w| > |HTTP|) || (StartsWith(Lower(w), HTTPS) && |w| > |HTTPS|)
  }

  /** The URL group of a match whose key ends where `s` begins: `\s*` skips
      all the white space, and the group is the whole word that follows,
      provided it starts with a scheme. */
  function UrlAfter(s: string): Option<string>
  {
    var w := Word(TrimStart(s));
    if HasScheme(w) then Some(w) else None
  }

  /** The URL pattern matches at `p`. */
  predicate UrlMatchAt(text: string, p: nat)
  {
    KeyAt(text, p, URL_KEY) && UrlAfter(text[p + |URL_KEY|..]).Some?
  }

  /** The leftmost position from `p` on where the URL pattern matches. */
  function FirstUrlMatch(text: string, p: nat): (r: Option<nat>)
    ensures r.Some? ==> p <= r.value && UrlMatchAt(text, r.value)
                        && forall q :: p <= q < r.value ==> !UrlMatchAt(text, q)
    ensures r.None? ==> forall q :: p <= q ==> !UrlMatchAt(text, q)
    decreases |text| - p
  {
    if p + |URL_KEY| > |text| then None
    else if UrlMatchAt(text, p) then Some(p)
    else FirstUrlMatch(text, p + 1)
  }

  /** The leftmost position from `p` on where `caption:` occurs. */
  function FirstCaptionKey(text: string, p: nat): (r: Option<nat>)
    ensures r.Some? ==> p <= r.value && KeyAt(text, r.value, CAPTION_KEY)
                        && forall q :: p <= q < r.value ==> !KeyAt(text, q, CAPTION_KEY)
    ensures r.None? ==> forall q :: p <= q ==> !KeyAt(text, q, CAPTION_KEY)
    decreases |text| - p
  {
    if p + |CAPTION_KEY| > |text| then None
    else if KeyAt(text, p, CAPTION_KEY) then Some(p)
    else FirstCaptionKey(text, p + 1)
  }

  /** `videoUrlMatch ? videoUrlMatch[1].trim() : null`. */
  function VideoUrl(text: string): Option<string>
  {
    match FirstUrlMatch(text, 0)
    case None => None
    case Some(p) => Some(Trim(UrlAfter(text[p + |URL_KEY|..]).value))
  }

  /** `captionMatch ? captionMatch[1].trim() : ''`: everything after the
      first `caption:` and the white space after it, trimmed. */
  function Caption(text: string): string
  {
    match FirstCaptionKey(text, 0)
    case None => ""
    case Some(p) => Trim(TrimStart(text[p + |CAPTION_KEY|..]))
  }

  /** A URL is found exactly when the URL pattern matches somewhere, and
      then it is the whole white-space-free word after the leftmost match,
      starting with http:// or https:// in some ASCII case. */
  lemma VideoUrlShape(text: string)
    ensures VideoUrl(text).Some? <==> exists p :: UrlMatchAt(text, p)
    ensures VideoUrl(text).Some? ==>
      && VideoUrl(text).value != [] && NoSpace(VideoUrl(text).value) && HasScheme(VideoUrl(text).value)
  {
    var m := FirstUrlMatch(text, 0);
    if m.Some? {
      var w := UrlAfter(text[m.value + |URL_KEY|..]).value;
      TrimNoSpace(w);
    }
  }

  /** A caption never starts or ends with white space. */
  lemma CaptionTrimmed(text: string)
    ensures var c := Caption(text);
      c == [] || (!IsSpace(c[0]) && !IsSpace(c[|c| - 1]))
  {
  }

  // ---------------------------------------------------------------------
  // the 'message' handler

  /** An incoming message; `text` is "" when the message has none. */
  datatype Message = Message(chatId: int, text: string)

  /** What the handler does with a message. */
  datatype Action =
    | Deny(reply: string)                    // the access-denied reply
    | Ignore                                 // empty text or "/start…"
    | Post(videoUrl: string, caption: string) // processAndPostReel(videoUrl, caption, …)
    | Help                                   // the format help reply

  const START := "/start"

  function DeniedReply(chatId: int): string
  {
    "🚫" + " Access Denied: I'm sorry, but this bot is configured for private use only. Your chat ID ("
      + IntToString(chatId) + ") is not authorized."
  }

  /** The security check: the configured id parses and equals the chat id. */
  predicate Authorized(authorizedUserId: string, chatId: int)
  {
    ParseInt10(authorizedUserId) == Some(chatId)
  }

  function HandleMessage(authorizedUserId: string, msg: Message): Action
  {
    if !Authorized(authorizedUserId, msg.chatId) then Deny(DeniedReply(msg.chatId))
    else if msg.text == "" || StartsWith(msg.text, START) then Ignore
    else match VideoUrl(msg.text)
      case Some(url) => if url != "" then Post(url, Caption(msg.text)) else Help
      case None => Help
  }

  /** The handler's guards: denied exactly when the configured id is not
      a number or differs from the chat id; ignored exactly when authorised
      and the text is empty or starts with "/start". */
  lemma HandleMessageGuards(authorizedUserId: string, msg: Message)
    ensures HandleMessage(authorizedUserId, msg).Deny?
      <==> ParseInt10(authorizedUserId).None? || ParseInt10(authorizedUserId).value != msg.chatId
    ensures HandleMessage(authorizedUserId, msg) == Ignore
      <==> Authorized(authorizedUserId, msg.chatId) && (msg.text == "" || StartsWith(msg.text, START))
  {
  }

  /** Past the guards, the reel is posted with the parsed URL and caption
      exactly when a URL was found, and the help is sent exactly when none
      was. */
  lemma HandleMessageDispatch(authorizedUserId: string, msg: Message)
    requires Authorized(authorizedUserId, msg.chatId) && msg.text != "" && !StartsWith(msg.text, START)
    ensures HandleMessage(authorizedUserId, msg).Post? <==> VideoUrl(msg.text).Some?
    ensures VideoUrl(msg.text).Some? ==>
      HandleMessage(authorizedUserId, msg) == Post(VideoUrl(msg.text).value, Caption(msg.text))
    ensures HandleMessage(authorizedUserId, msg) == Help <==> VideoUrl(msg.text).None?
  {
    VideoUrlShape(msg.text);
  }

  // ---------------------------------------------------------------------
  // both handlers of one update

  /** What one update makes the bot do: the 'message' handler's action and
      whether the separate /\/start/ handler sends the welcome. The Telegram
      client runs every handler whose pattern matches the text,
      independently of the 'message' listeners. */
  datatype Replies = Replies(action: Action, welcomed: bool)

  /** The handlers as written: the welcome handler is not behind the
      security check. */
  function HandleUpdate(authorizedUserId: string, msg: Message): Replies
  {
    Replies(HandleMessage(authorizedUserId, msg), msg.text != "" && Contains(msg.text, START))
  }

  /** As written, a chat that is not authorised and sends "/start" is
      denied and welcomed. */
  lemma UnauthorizedStartWelcomed(authorizedUserId: string, chatId: int)
    requires !Authorized(authorizedUserId, chatId)
    ensures HandleUpdate(authorizedUserId, Message(chatId, START)) == Replies(Deny(DeniedReply(chatId)), true)
  {
    assert StartsWith(START, START);
  }

  /** The welcome handler behind the same security check, as its comment
      says it is. */
  function CorrectedHandleUpdate(authorizedUserId: string, msg: Message): Replies
  {
    Replies(HandleMessage(authorizedUserId, msg),
            Authorized(authorizedUserId, msg.chatId) && msg.text != "" && Contains(msg.text, START))
  }

  /** Corrected, only the authorised chat is ever welcomed, and it is
      welcomed for every text holding "/start". */
  lemma CorrectedWelcomeOnlyAuthorized(authorizedUserId: string, msg: Message)
    ensures CorrectedHandleUpdate(authorizedUserId, msg).welcomed
      <==> Authorized(authorizedUserId, msg.chatId) && HandleUpdate(authorizedUserId, msg).welcomed
    ensures CorrectedHandleUpdate(authorizedUserId, msg).welcomed ==> !CorrectedHandleUpdate(authorizedUserId, msg).action.Deny?
    ensures CorrectedHandleUpdate(authorizedUserId, msg).action == HandleUpdate(authorizedUserId, msg).action
  {
  }
}
