/** Webhook reconciliation (bot.py, register_webhook, run as the
    application's post-init hook): read the
    bot's current webhook from Telegram and, only when its URL differs from
    the desired one, register the desired URL once, with the shared secret,
    every update type and the queued updates dropped. Errors of either call
    are propagated to the caller.

    Telegram's side is modelled by the class `Bot`: the registration it holds
    and the log of every `set_webhook` request it has received. Which of the
    two calls raises in a run is given as `Faults`. */
module Webhook {
  import opened Wrappers

  /** The update types a webhook receives. */
  datatype UpdateFilter = AllUpdateTypes | UpdateTypes(kinds: set<string>)

  /** What Telegram holds for the bot; `url == ""` means no webhook is set. */
  datatype Registration = Registration(
    url: string,
    secretToken: Option<string>,
    allowedUpdates: UpdateFilter,
    pendingUpdateCount: nat)

  /** What `get_webhook_info` reports. The secret token is not among it. */
  datatype WebhookInfo = WebhookInfo(url: string, pendingUpdateCount: nat)

  /** The arguments of one `set_webhook` call. */
  datatype SetWebhookRequest = SetWebhookRequest(
    url: string,
    secretToken: Option<string>,
    allowedUpdates: UpdateFilter,
    dropPendingUpdates: bool)

  /** An error raised by `set_webhook`. A rejected request or a lost
      connection leaves Telegram unchanged (`applied == false`); a time-out
      after Telegram accepted the request leaves it applied. */
  datatype SetFault = SetFault(cause: string, applied: bool)

  /** The errors raised in one run, if any, by `get_webhook_info` and by
      `set_webhook`. */
  datatype Faults = Faults(getInfo: Option<string>, setWebhook: Option<SetFault>)

  function Info(registration: Registration): WebhookInfo
  {
    WebhookInfo(registration.url, registration.pendingUpdateCount)
  }

  /** The registration Telegram holds after it accepts `request`. */
  function Registered(registration: Registration, request: SetWebhookRequest): Registration
  {
    Registration(
      request.url,
      request.secretToken,
      request.allowedUpdates,
      if request.dropPendingUpdates then 0 else registration.pendingUpdateCount)
  }

  /** An environment value as an f-string renders it: an unset one as "None". */
  function EnvText(value: Option<string>): string
  {
    match value
    case Some(s) => s
    case None => "None"
  }

  /** The desired webhook URL for the Render application `appName`. The
      application name can be read back from it, and it is never empty. */
  function WebhookUrl(appName: Option<string>): (url: string)
    ensures |url| == |EnvText(appName)| + 29
    ensures url[8..|url| - 21] == EnvText(appName)
  {
    "https://" + EnvText(appName) + ".onrender.com/webhook"
  }

  /** An unset application name gives the same URL as an application that
      is literally called "None". */
  lemma UnsetAppNameIsNone()
    ensures WebhookUrl(None) == WebhookUrl(Some("None")) == "https://None.onrender.com/webhook"
  {
  }

  /** Different application names give different webhook URLs, so a webhook
      left pointing at another application is always replaced. */
  lemma WebhookUrlInjective(a: string, b: string)
    requires WebhookUrl(Some(a)) == WebhookUrl(Some(b))
    ensures a == b
  {
  }

  /** Telegram's record of the bot. */
  class Bot {
    var registration: Registration
    /** Every `set_webhook` request received, in order. */
    var setWebhookCalls: seq<SetWebhookRequest>

    constructor (registration: Registration)
      ensures this.registration == registration && setWebhookCalls == []
    {
      this.registration := registration;
      setWebhookCalls := [];
    }

    /** `get_webhook_info`: report the current registration, or raise. */
    method GetWebhookInfo(fault: Option<string>) returns (r: Result<WebhookInfo, string>)
      ensures fault.None? ==> r == Success(WebhookInfo(registration.url, registration.pendingUpdateCount))
      ensures fault.Some? ==> r == Failure(fault.value)
    {
      if fault.Some? {
        r := Failure(fault.value);
      } else {
        r := Success(Info(registration));
      }
    }

    /** `set_webhook`: the request is received and applied, unless it
        raises an error before Telegram applied it. */
    method SetWebhook(request: SetWebhookRequest, fault: Option<SetFault>) returns (r: Outcome<string>)
      modifies this
      ensures setWebhookCalls == old(setWebhookCalls) + [request]
      ensures fault.None? ==> r == Pass && registration == Registered(old(registration), request)
      ensures fault.Some? ==> r == Fail(fault.value.cause)
      ensures fault.Some? ==>
        registration == if fault.value.applied then Registered(old(registration), request) else old(registration)
    {
      setWebhookCalls := setWebhookCalls + [request];
      if fault.None? || fault.value.applied {
        registration := Registered(registration, request);
      }
      r := if fault.Some? then Fail(fault.value.cause) else Pass;
    }
  }

  /** register_webhook. Only the URL is compared: a registration whose URL
      matches is left alone even when its secret or update filter differ. */
  method RegisterWebhook(bot: Bot, appName: Option<string>, secret: Option<string>, faults: Faults)
    returns (r: Outcome<string>)
    modifies bot
    // reading the current webhook fails: the error is raised again, nothing is changed
    ensures faults.getInfo.Some? ==> r == Fail(faults.getInfo.value) && unchanged(bot)
    // already registered at the desired URL: no call, nothing is changed
    ensures faults.getInfo.None? && old(bot.registration.url) == WebhookUrl(appName) ==>
      r == Pass && unchanged(bot)
    // otherwise exactly one call, with the desired URL, secret, every update type and dropping the queue
    ensures faults.getInfo.None? && old(bot.registration.url) != WebhookUrl(appName) ==>
      bot.setWebhookCalls == old(bot.setWebhookCalls) + [SetWebhookRequest(WebhookUrl(appName), secret, AllUpdateTypes, true)]
    ensures faults.getInfo.None? && old(bot.registration.url) != WebhookUrl(appName) && faults.setWebhook.None? ==>
      r == Pass &&
      bot.registration == Registration(WebhookUrl(appName), secret, AllUpdateTypes, 0)
    // a failing `set_webhook` is raised again; the registration is whatever Telegram made of the request
    ensures faults.getInfo.None? && old(bot.registration.url) != WebhookUrl(appName) && faults.setWebhook.Some? ==>
      r == Fail(faults.setWebhook.value.cause) &&
      bot.registration == if faults.setWebhook.value.applied
        then Registration(WebhookUrl(appName), secret, AllUpdateTypes, 0)
        else old(bot.registration)
    // a bot with no webhook always gets the call
    ensures faults.getInfo.None? && old(bot.registration.url) == "" ==>
      |bot.setWebhookCalls| == |old(bot.setWebhookCalls)| + 1
    // on success the bot is registered at the desired URL
    ensures r == Pass ==> bot.registration.url == WebhookUrl(appName)
  {
    var webhookUrl := WebhookUrl(appName);
    var current := bot.GetWebhookInfo(faults.getInfo);
    if current.Failure? {
      return Fail(current.error);
    }
    if current.value.url != webhookUrl {
      r := bot.SetWebhook(SetWebhookRequest(webhookUrl, secret, AllUpdateTypes, true), faults.setWebhook);
    } else {
      r := Pass;
    }
  }

  /** Two runs of register_webhook in a row: once the first has succeeded, the
      second makes no `set_webhook` call whatever its faults, so the two
      together make at most one, and the bot stays registered at the desired
      URL. */
  method RegisterTwice(bot: Bot, appName: Option<string>, secret: Option<string>, first: Faults, second: Faults)
    returns (r1: Outcome<string>, r2: Outcome<string>)
    modifies bot
    ensures r1 == Pass ==> |bot.setWebhookCalls| <= |old(bot.setWebhookCalls)| + 1
    ensures r1 == Pass ==> r2 == (if second.getInfo.Some? then Fail(second.getInfo.value) else Pass)
    ensures r1 == Pass ==> bot.registration.url == WebhookUrl(appName)
  {
    r1 := RegisterWebhook(bot, appName, secret, first);
    ghost var afterFirst := bot.setWebhookCalls;
    r2 := RegisterWebhook(bot, appName, secret, second);
    assert r1 == Pass ==> bot.setWebhookCalls == afterFirst;
  }
}
