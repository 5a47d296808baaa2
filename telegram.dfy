/** Delivery of a notification to the Telegram group: one attempt, and on failure
    a reconnect and exactly one more attempt. */
module Telegram {
  import opened DedupStore

  /** What one `send_message` call (with the connect before it) did. */
  datatype Attempt = Delivered | Refused(error: string)

  /** The chat as far as the notifier can observe it. */
  class Channel {
    /** The messages the group has received, oldest first. */
    var received: seq<string>
    /** The number of send attempts made, each a connect if needed and a `send_message`. */
    var calls: nat

    constructor ()
      ensures received == [] && calls == 0
    {
      received := [];
      calls := 0;
    }
  }

  /** How one `send_telegram_message` call goes, given the outcome of each attempt. */
  datatype SendReport = SendReport(ok: bool, attempts: nat, errors: seq<LogLine>)

  function SendPlan(first: Attempt, retry: Attempt): (r: SendReport)
    ensures 1 <= r.attempts <= 2
    ensures r.attempts == 2 <==> first.Refused?
    ensures r.ok <==> first.Delivered? || retry.Delivered?
    ensures |r.errors| == r.attempts - (if r.ok then 1 else 0)
    ensures forall k :: 0 <= k < |r.errors| ==> r.errors[k].kind == Error
  {
    match first
    case Delivered => SendReport(true, 1, [])
    case Refused(e1) =>
      var firstError := LogLine(Error, "发送Telegram消息失败: " + e1);
      match retry
      case Delivered => SendReport(true, 2, [firstError])
      case Refused(e2) => SendReport(false, 2, [firstError, LogLine(Error, "重试发送Telegram消息失败: " + e2)])
  }

  /** `send_telegram_message`: true exactly when one of at most two attempts
      delivered the message, which then reaches the group once. Each failed
      attempt is logged; the processed events are not touched. */
  method SendTelegramMessage(client: Channel, store: Store, message: string, first: Attempt, retry: Attempt, now: int)
    returns (ok: bool)
    requires store.Valid()
    modifies client, store
    ensures store.Valid()
    ensures ok == SendPlan(first, retry).ok
    ensures client.received == old(client.received) + (if ok then [message] else [])
    ensures client.calls == old(client.calls) + SendPlan(first, retry).attempts
    ensures store.events == old(store.events)
    ensures store.logs == old(store.logs) + Stamp(old(store.nextLogId), SendPlan(first, retry).errors, now)
    ensures store.nextLogId == old(store.nextLogId) + |SendPlan(first, retry).errors|
  {
    ghost var plan := SendPlan(first, retry);
    client.calls := client.calls + 1;
    if first.Delivered? {
      client.received := client.received + [message];
      ok := true;
    } else {
      var firstError := LogLine(Error, "发送Telegram消息失败: " + first.error);
      store.LogMessage(firstError, now);
      client.calls := client.calls + 1;
      if retry.Delivered? {
        client.received := client.received + [message];
        ok := true;
      } else {
        var retryError := LogLine(Error, "重试发送Telegram消息失败: " + retry.error);
        store.LogMessage(retryError, now);
        StampAppend(old(store.nextLogId), [firstError], [retryError], now);
        assert plan.errors == [firstError] + [retryError];
        ok := false;
      }
    }
  }
}
