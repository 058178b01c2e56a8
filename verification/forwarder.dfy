/**
 * The `on_message` handler: every inbound chat message passes four checks in
 * a fixed order, and only a message that passes all of them is rendered and
 * posted to Gotify, once.
 */
module Forwarder {
  import opened Wrappers
  import opened Text
  import opened Settings
  import opened Filtering
  import opened Message
  import opened Delivery

  /** How one message was handled: the check that stopped it, or the request
    * that was posted. `logged` says whether an informational log line was
    * written; `delivered` whether Gotify accepted the request. */
  datatype Handling =
    | IgnoredConfig
    | IgnoredSender
    | IgnoredBlank
    | Filtered(logged: bool)
    | Attempted(request: Request, delivered: bool, logged: bool)

  /** A message from `senderId` with text `text` is sent exactly when the
    * configuration is valid, the sender is monitored, the text is not blank
    * and the keyword filter lets it through. */
  predicate ShouldSend(c: Config, senderId: string, text: string) {
    CheckConfig(c) && IsMonitoredUser(c, senderId) && !IsBlank(text) && Forwards(FilterOf(c), text)
  }

  /** `on_message`: the checks run in order and the first one that fails ends
    * the handling; a filtered message is logged when logging is on, a blank
    * one never is. `accepted` is the answer Gotify would give. */
  method OnMessage(c: Config, ev: Event, timestamp: string, accepted: bool) returns (h: Handling)
    ensures h.IgnoredConfig? <==> !CheckConfig(c)
    ensures h.IgnoredSender? <==> CheckConfig(c) && !IsMonitoredUser(c, ev.senderId)
    ensures h.IgnoredBlank? <==> CheckConfig(c) && IsMonitoredUser(c, ev.senderId) && IsBlank(ev.text)
    ensures h.Filtered? <==>
      CheckConfig(c) && IsMonitoredUser(c, ev.senderId) && !IsBlank(ev.text) && !Forwards(FilterOf(c), ev.text)
    ensures h.Attempted? <==> ShouldSend(c, ev.senderId, ev.text)
    ensures h.Filtered? ==> h.logged == LoggingEnabled(c)
    ensures h.Attempted? ==>
      h.request == Request(EndpointUrl(Server(c)), Some(Token(c)), BuildMessage(c, ev, timestamp)) &&
      h.delivered == accepted &&
      h.logged == (accepted && LoggingEnabled(c))
  {
    if !CheckConfig(c) {
      return IgnoredConfig;
    }
    if !IsMonitoredUser(c, ev.senderId) {
      return IgnoredSender;
    }
    if Strip(ev.text) == [] {
      return IgnoredBlank;
    }
    var forward := ShouldForwardMessage(c, ev.text);
    if !forward {
      return Filtered(LoggingEnabled(c));
    }
    var payload := BuildMessage(c, ev, timestamp);
    ValidConfigYieldsRequest(c, payload);
    var outcome := SendToGotify(c, payload, accepted);
    return Attempted(outcome.posted.value, outcome.success, outcome.success && LoggingEnabled(c));
  }

  /** Nothing is sent for a sender that is not on the list, whatever the
    * text; in particular nothing is sent while the list is empty. */
  lemma UnmonitoredSenderIsNeverSent(c: Config, senderId: string, text: string)
    requires forall i :: 0 <= i < |Users(c)| ==> EntryString(Users(c)[i]) != senderId
    ensures !ShouldSend(c, senderId, text)
  {
  }

  /** A message that would be sent keeps being sent when its text is
    * lower-cased: the filter ignores case and lower-casing keeps a text
    * blank or not blank. */
  lemma SendingIgnoresCase(c: Config, senderId: string, text: string)
    ensures ShouldSend(c, senderId, Lower(text)) == ShouldSend(c, senderId, text)
  {
    FilterIgnoresCase(FilterOf(c), text);
    LowerKeepsBlankness(text);
  }
}
