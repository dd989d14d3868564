/**
 * The notification client of src/telegram.py: credential resolution, the
 * 4096-character cut, and the delivery loop that posts a message up to
 * `MAX_RETRIES` times. The HTTP exchange is a parameter giving the reply to
 * each attempt; the loop's outward effects (posts and pauses) are recorded
 * as a trace of actions.
 */
module Telegram {
  import opened Wrappers
  import opened Settings

  /** Telegram's limit on the length of one message. */
  const MessageLimit: nat := 4096

  /** How much of an over-long message is kept. */
  const KeptLength: nat := 4090

  /** What replaces the rest of an over-long message. */
  const CutMark: string := "\n..."

  /** The text actually posted: unchanged up to the limit, otherwise its head and the cut mark. */
  function Truncate(text: string): (posted: string)
    ensures |posted| <= MessageLimit
    ensures |text| <= MessageLimit ==> posted == text
    ensures |text| > MessageLimit ==>
      |posted| == KeptLength + |CutMark| && posted[..KeptLength] == text[..KeptLength] && posted[KeptLength..] == CutMark
  {
    if |text| > MessageLimit then text[..KeptLength] + CutMark else text
  }

  /** Cutting is idempotent: a posted text is short enough to be posted as it is. */
  lemma TruncateIdempotent(text: string)
    ensures Truncate(Truncate(text)) == Truncate(text)
  {
  }

  /** What the network answers to one post. */
  datatype Reply =
    | Delivered                      // a JSON reply with `ok` true
    | Rejected                       // a JSON reply without `ok`
    | TransportError(reason: string) // a `RequestException`, including an HTTP error status

  /** An outward effect of the delivery loop. */
  datatype Action =
    | Post(attempt: nat, url: string, chatId: string, text: string, parseMode: string)
    | Sleep(seconds: nat)

  const ParseMode: string := "HTML"
  const ApiBase: string := "https://api.telegram.org/bot"
  const CredentialsError: string := "Faltan credenciales de Telegram. Configura TELEGRAM_BOT_TOKEN y TELEGRAM_CHAT_ID"

  /** `value or fallback`: an empty or absent argument falls back to the configured value. */
  function Credential(given: string, fallback: string): (value: string)
    ensures given != "" ==> value == given
    ensures given == "" ==> value == fallback
  {
    if given != "" then given else fallback
  }

  /**
   * The credential check of `__init__`: the token and the chat id after the
   * fallback to the settings, or the error when either is empty.
   */
  function ResolveCredentials(token: string, chatId: string, envToken: string, envChatId: string): (r: Result<(string, string)>)
    ensures r.Failure? <==> (token == "" && envToken == "") || (chatId == "" && envChatId == "")
    ensures r.Failure? ==> r.error == CredentialsError
    ensures r.Ok? ==>
      && r.value.0 != "" && r.value.1 != ""
      && (token != "" ==> r.value.0 == token) && (chatId != "" ==> r.value.1 == chatId)
      && (token == "" ==> r.value.0 == envToken) && (chatId == "" ==> r.value.1 == envChatId)
  {
    var t, c := Credential(token, envToken), Credential(chatId, envChatId);
    if t == "" || c == "" then Failure(CredentialsError) else Ok((t, c))
  }

  /**
   * The pause after a failed attempt: `RETRY_DELAY_SECONDS` after a
   * `RequestException` on an attempt that is not the last; none after a
   * rejected reply.
   */
  function Pause(reply: Reply, attempt: nat): (pause: seq<Action>)
    ensures |pause| <= 1
  {
    if reply.TransportError? && attempt < MaxRetries then [Sleep(RetryDelaySeconds)] else []
  }

  /** The posts and pauses of the attempts from `attempt` on, and whether one of them delivered. */
  function Attempts(replies: nat -> Reply, attempt: nat, url: string, chatId: string, text: string): (r: (bool, seq<Action>))
    requires 1 <= attempt <= MaxRetries + 1
    decreases MaxRetries + 1 - attempt
  {
    if attempt > MaxRetries then (false, [])
    else
      var post := Post(attempt, url, chatId, text, ParseMode);
      if replies(attempt) == Delivered then (true, [post])
      else
        var rest := Attempts(replies, attempt + 1, url, chatId, text);
        (rest.0, [post] + Pause(replies(attempt), attempt) + rest.1)
  }

  /** One attempt that is not delivered: its post and pause, then the remaining attempts. */
  lemma AttemptsStep(replies: nat -> Reply, attempt: nat, url: string, chatId: string, text: string)
    requires 1 <= attempt <= MaxRetries && replies(attempt) != Delivered
    ensures var r, rest := Attempts(replies, attempt, url, chatId, text), Attempts(replies, attempt + 1, url, chatId, text);
      r.0 == rest.0 && r.1 == [Post(attempt, url, chatId, text, ParseMode)] + Pause(replies(attempt), attempt) + rest.1
  {
  }

  /** Regrouping a three-part concatenation. */
  lemma AppendStep(a: seq<Action>, b: seq<Action>, c: seq<Action>)
    ensures a + (b + c) == (a + b) + c
  {
  }

  /** The whole delivery of `text`: the cut text posted to `sendMessage` from the first attempt on. */
  function Delivery(replies: nat -> Reply, baseUrl: string, chatId: string, text: string): (bool, seq<Action>)
  {
    Attempts(replies, 1, baseUrl + "/sendMessage", chatId, Truncate(text))
  }

  /** The text of `send_error_alert`. */
  function AlertText(errorMessage: string): string
  {
    "🔴 ERROR en buscador de vuelos BCN\n\n" + errorMessage
  }

  class TelegramClient {
    var token: string
    var chatId: string
    var baseUrl: string

    /** The client for credentials that passed the check. */
    constructor (token: string, chatId: string)
      requires token != "" && chatId != ""
      ensures this.token == token && this.chatId == chatId && this.baseUrl == ApiBase + token
    {
      this.token := token;
      this.chatId := chatId;
      this.baseUrl := ApiBase + token;
    }

    /** `TelegramClient(token, chat_id)`: a client, or the `ValueError` when a credential is missing. */
    static method Create(token: string, chatId: string, envToken: string, envChatId: string)
      returns (r: Result<TelegramClient>)
      ensures var creds := ResolveCredentials(token, chatId, envToken, envChatId);
        && (r.Failure? <==> creds.Failure?)
        && (r.Failure? ==> r.error == CredentialsError)
        && (r.Ok? ==>
              && fresh(r.value) && r.value.token == creds.value.0 && r.value.chatId == creds.value.1
              && r.value.baseUrl == ApiBase + creds.value.0)
    {
      var creds := ResolveCredentials(token, chatId, envToken, envChatId);
      if creds.Failure? {
        return Failure(creds.error);
      }
      var client := new TelegramClient(creds.value.0, creds.value.1);
      return Ok(client);
    }

    /**
     * `send_message`: cuts the text, then posts it up to `MAX_RETRIES`
     * times, `replies(k)` being the answer to attempt `k`; returns whether a
     * post was delivered and the posts and pauses made.
     */
    method SendMessage(text: string, replies: nat -> Reply) returns (sent: bool, trace: seq<Action>)
      ensures (sent, trace) == Delivery(replies, baseUrl, chatId, text)
    {
      var body := Truncate(text);
      var url, chat := baseUrl + "/sendMessage", chatId;
      ghost var total := Attempts(replies, 1, url, chat, body);
      trace := [];
      var attempt := 1;
      while attempt <= MaxRetries
        invariant 1 <= attempt <= MaxRetries + 1
        invariant total.0 == Attempts(replies, attempt, url, chat, body).0
        invariant total.1 == trace + Attempts(replies, attempt, url, chat, body).1
        decreases MaxRetries + 1 - attempt
      {
        var post := Post(attempt, url, chat, body, ParseMode);
        var reply := replies(attempt);
        if reply == Delivered {
          trace := trace + [post];
          sent := true;
          return;
        }
        var actions := [post];
        if reply.TransportError? && attempt < MaxRetries {
          actions := actions + [Sleep(RetryDelaySeconds)];
        }
        assert actions == [post] + Pause(reply, attempt);
        AttemptsStep(replies, attempt, url, chat, body);
        AppendStep(trace, actions, Attempts(replies, attempt + 1, url, chat, body).1);
        trace := trace + actions;
        attempt := attempt + 1;
      }
      sent := false;
      assert trace + [] == trace;
    }

    /** `send_error_alert`: the alert prefix and the message, through `send_message`. */
    method SendErrorAlert(errorMessage: string, replies: nat -> Reply) returns (sent: bool, trace: seq<Action>)
      ensures (sent, trace) == Delivery(replies, baseUrl, chatId, AlertText(errorMessage))
    {
      sent, trace := SendMessage(AlertText(errorMessage), replies);
    }
  }

  /** The number of posts in a trace. */
  function PostCount(trace: seq<Action>): (n: nat)
    ensures n <= |trace|
  {
    if trace == [] then 0 else (if trace[0].Post? then 1 else 0) + PostCount(trace[1..])
  }

  /** The first delivered attempt from `attempt` on, or `MAX_RETRIES + 1` when none is. */
  function FirstDelivered(replies: nat -> Reply, attempt: nat): (k: nat)
    requires 1 <= attempt <= MaxRetries + 1
    ensures attempt <= k <= MaxRetries + 1
    decreases MaxRetries + 1 - attempt
  {
    if attempt > MaxRetries || replies(attempt) == Delivered then attempt
    else FirstDelivered(replies, attempt + 1)
  }

  /** `FirstDelivered` is delivered, when in range, and no attempt before it is. */
  lemma {:induction false} FirstDeliveredIsFirst(replies: nat -> Reply, attempt: nat)
    requires 1 <= attempt <= MaxRetries + 1
    ensures var k := FirstDelivered(replies, attempt);
      && (forall j :: attempt <= j < k ==> replies(j) != Delivered)
      && (k <= MaxRetries ==> replies(k) == Delivered)
    decreases MaxRetries + 1 - attempt
  {
    if attempt <= MaxRetries && replies(attempt) != Delivered {
      FirstDeliveredIsFirst(replies, attempt + 1);
    }
  }

  /**
   * From attempt `attempt` on, the loop reports success exactly when the
   * first delivered attempt is in range, and posts once per attempt up to
   * that one, or once per remaining attempt when there is none.
   */
  lemma {:induction false} AttemptsOutcome(replies: nat -> Reply, attempt: nat, url: string, chatId: string, text: string)
    requires 1 <= attempt <= MaxRetries + 1
    ensures var r := Attempts(replies, attempt, url, chatId, text);
      var k := FirstDelivered(replies, attempt);
      && (r.0 <==> k <= MaxRetries)
      && PostCount(r.1) == (if r.0 then k else MaxRetries) + 1 - attempt
    decreases MaxRetries + 1 - attempt
  {
    if attempt <= MaxRetries {
      var r := Attempts(replies, attempt, url, chatId, text);
      var post := Post(attempt, url, chatId, text, ParseMode);
      var rest := Attempts(replies, attempt + 1, url, chatId, text);
      AttemptsOutcome(replies, attempt + 1, url, chatId, text);
      if replies(attempt) == Delivered {
        assert r.1 == [post] && r.1[1..] == [];
      } else {
        var pause := Pause(replies(attempt), attempt);
        assert r.1 == [post] + pause + rest.1;
        if pause == [] {
          assert r.1[1..] == rest.1;
        } else {
          assert r.1[1..][1..] == rest.1;
        }
      }
    }
  }

  /**
   * `send_message` makes at most `MAX_RETRIES` posts, returns true exactly
   * when one of them is delivered, stops at the first delivered one, and
   * makes every attempt when none is.
   */
  lemma DeliveryOutcome(replies: nat -> Reply, baseUrl: string, chatId: string, text: string)
    ensures var r := Delivery(replies, baseUrl, chatId, text);
      && 1 <= PostCount(r.1) <= MaxRetries
      && (r.0 <==> exists k :: 1 <= k <= MaxRetries && replies(k) == Delivered)
      && (r.0 ==> exists k :: (1 <= k <= MaxRetries && replies(k) == Delivered
                   && (forall j :: 1 <= j < k ==> replies(j) != Delivered)
                   && PostCount(r.1) == k))
      && (!r.0 ==> PostCount(r.1) == MaxRetries)
  {
    AttemptsOutcome(replies, 1, baseUrl + "/sendMessage", chatId, Truncate(text));
    FirstDeliveredIsFirst(replies, 1);
    var k := FirstDelivered(replies, 1);
    if k <= MaxRetries {
      assert replies(k) == Delivered;
    }
  }

  /** Action `i` of a trace: a post carries the text; a pause follows a transport failure of a non-final attempt. */
  predicate ActionPaced(replies: nat -> Reply, trace: seq<Action>, i: nat, url: string, chatId: string, text: string)
    requires i < |trace|
  {
    match trace[i]
    case Post(a, u, c, t, m) => 1 <= a <= MaxRetries && u == url && c == chatId && t == text && m == ParseMode
    case Sleep(s) =>
      && s == RetryDelaySeconds && i > 0 && trace[i - 1].Post?
      && replies(trace[i - 1].attempt).TransportError? && trace[i - 1].attempt < MaxRetries
  }

  /** Every action of a trace is paced. */
  predicate WellPaced(replies: nat -> Reply, trace: seq<Action>, url: string, chatId: string, text: string)
  {
    forall i :: 0 <= i < |trace| ==> ActionPaced(replies, trace, i, url, chatId, text)
  }

  /** A failed attempt's post and pause in front of a paced trace that opens with a post keep it paced. */
  lemma PacedStep(replies: nat -> Reply, attempt: nat, url: string, chatId: string, text: string, rest: seq<Action>)
    requires 1 <= attempt <= MaxRetries
    requires WellPaced(replies, rest, url, chatId, text) && (rest != [] ==> rest[0].Post?)
    ensures var trace := [Post(attempt, url, chatId, text, ParseMode)] + Pause(replies(attempt), attempt) + rest;
      WellPaced(replies, trace, url, chatId, text)
  {
    var head := [Post(attempt, url, chatId, text, ParseMode)] + Pause(replies(attempt), attempt);
    var trace := head + rest;
    forall i | 0 <= i < |trace| ensures ActionPaced(replies, trace, i, url, chatId, text) {
      if i >= |head| {
        var j := i - |head|;
        assert trace[i] == rest[j];
        assert ActionPaced(replies, rest, j, url, chatId, text);
        if j > 0 {
          assert trace[i - 1] == rest[j - 1];
        }
      }
    }
  }

  lemma {:induction false} AttemptsPaced(replies: nat -> Reply, attempt: nat, url: string, chatId: string, text: string)
    requires 1 <= attempt <= MaxRetries + 1
    ensures var r := Attempts(replies, attempt, url, chatId, text);
      && WellPaced(replies, r.1, url, chatId, text)
      && (r.1 != [] ==> r.1[0].Post?)
    decreases MaxRetries + 1 - attempt
  {
    if attempt <= MaxRetries && replies(attempt) != Delivered {
      var rest := Attempts(replies, attempt + 1, url, chatId, text);
      AttemptsPaced(replies, attempt + 1, url, chatId, text);
      PacedStep(replies, attempt, url, chatId, text, rest.1);
    }
  }

  /**
   * Every post of `send_message` goes to `sendMessage` with the cut text,
   * so no posted text exceeds the limit; it pauses `RETRY_DELAY_SECONDS`
   * only right after a transport failure of an attempt that is not the last,
   * never after a rejected reply.
   */
  lemma DeliveryPaced(replies: nat -> Reply, baseUrl: string, chatId: string, text: string)
    ensures var r := Delivery(replies, baseUrl, chatId, text);
      && WellPaced(replies, r.1, baseUrl + "/sendMessage", chatId, Truncate(text))
      && forall i :: 0 <= i < |r.1| && r.1[i].Post? ==> |r.1[i].text| <= MessageLimit
  {
    AttemptsPaced(replies, 1, baseUrl + "/sendMessage", chatId, Truncate(text));
  }

  /** An alert starts with the alert heading; a short enough one carries the whole message after it. */
  lemma AlertCarriesMessage(errorMessage: string)
    ensures var prefix := "🔴 ERROR en buscador de vuelos BCN\n\n";
      var posted := Truncate(AlertText(errorMessage));
      && |prefix| <= |posted| && posted[..|prefix|] == prefix
      && (|prefix| + |errorMessage| <= MessageLimit ==> posted[|prefix|..] == errorMessage)
  {
  }
}
