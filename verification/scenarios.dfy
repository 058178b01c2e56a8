/**
 * Concrete configurations and messages, worked through the model end to end.
 *
 * Each lemma receives its configuration as a parameter pinned by `requires`
 * rather than naming `Basic` in its statement: a constant written in place
 * makes the verifier unfold every function over its literal strings, which
 * costs far more than the same facts reached through the parameter.
 */
module Scenarios {
  import opened Wrappers
  import opened Text
  import opened Templates
  import opened Settings
  import opened Filtering
  import opened Message
  import opened Delivery
  import opened Commands
  import opened Forwarder

  /** A server with a trailing slash, a token and one monitored user "42";
    * every other key absent. */
  const Basic := Config(Some("https://g.example/"), Some("tok"), Some([TextId("42")]),
                        None, None, None, None)

  /** The basic configuration passes the configuration check. */
  lemma BasicIsValid(c: Config)
    requires c == Basic
    ensures CheckConfig(c)
  {
    assert !IsSpace(Server(c)[0]);
    assert !IsSpace(Token(c)[0]);
  }

  /** User 42 is monitored under the basic configuration. */
  lemma User42IsMonitored(c: Config, senderId: string)
    requires c == Basic && senderId == "42"
    ensures IsMonitoredUser(c, senderId)
  {
    assert EntryString(Users(c)[0]) == senderId;
  }

  /** Under the basic configuration, with no filter set, every message from
    * user 42 that is not blank is sent. */
  lemma MonitoredTextIsSent(c: Config, senderId: string, text: string)
    requires c == Basic && senderId == "42" && !IsBlank(text)
    ensures ShouldSend(c, senderId, text)
  {
    BasicIsValid(c);
    User42IsMonitored(c, senderId);
    assert !FilterEnabled(FilterOf(c));
  }

  /** The default body for Alice's message, written out. */
  lemma HelloBody(name: string, timestamp: string, text: string)
    requires name == "Alice" && timestamp == "2024-01-02 03:04:05" && text == "hello"
    ensures FallbackBody(name, timestamp, text) == "发送者：Alice\n时间：2024-01-02 03:04:05\n内容：hello"
  {
  }

  /** With no templates configured, Alice's message gets the default title and
    * body and the default priority. */
  lemma MonitoredHelloPayload(c: Config, ev: Event, timestamp: string)
    requires c == Basic && ev == Event("42", "Alice", "qq", "hello") && timestamp == "2024-01-02 03:04:05"
    ensures BuildMessage(c, ev, timestamp) ==
      Payload("来自 Alice 的消息", "发送者：Alice\n时间：2024-01-02 03:04:05\n内容：hello", 5)
  {
    DefaultTemplatesMatchFallback(c, ev, timestamp);
    assert FallbackTitle(ev.senderName) == "来自 Alice 的消息";
    HelloBody(ev.senderName, timestamp, ev.text);
  }

  /** The request goes to the server with its trailing slash dropped. */
  lemma MonitoredHelloRequest(c: Config, p: Payload)
    requires c == Basic
    ensures BuildRequest(c, p) == Some(Request("https://g.example/message", Some("tok"), p))
  {
    var server := "https://g.example";
    assert server[|server| - 1] != '/';
    assert TrimTrailingSlashes(server) == server;
    assert Server(c) == server + "/";
    TrimTrailingSlashesAbsorbsSlash(server);
    assert server + "/message" == "https://g.example/message";
  }

  /** A sender that is not on the list is ignored. */
  lemma OtherSenderIsIgnored(c: Config, text: string)
    requires c == Basic
    ensures !ShouldSend(c, "99", text)
  {
    assert EntryString(Users(c)[0]) == "42";
  }

  /** A numeric entry 42 matches "42" but not "042". */
  lemma NumericEntryMatchesOnlyDecimalForm(c: Config)
    requires c == Basic.(monitoredUsers := Some([NumericId(42)]))
    ensures IsMonitoredUser(c, "42") && !IsMonitoredUser(c, "042")
  {
    NumericEntryMatchesItsDecimalForm(c, 42, "42");
    NumericEntryMatchesItsDecimalForm(c, 42, "042");
    assert IntToString(42) == "42";
  }

  /** With "spam" excluded and "buy" included, a text that has both in any
    * case is filtered out. */
  lemma ExcludedWordBlocksIncludedWord(f: FilterSettings, text: string)
    requires f == FilterSettings(Some(true), Some(["buy"]), Some(["spam"])) && text == "Buy SPAM now"
    ensures !Forwards(f, text)
  {
    assert Lower(text)[4..8] == "spam";
    assert Lower("spam") == "spam";
    assert OccursAt("spam", Lower(text), 4);
    ExcludeWinsOverInclude(f, text, 0);
  }

  /** With no monitored users the report counts zero and lists nobody. */
  lemma EmptyListStatus(c: Config)
    requires c == Basic.(monitoredUsers := None)
    ensures StatusLines(c)[4] == CountLabel + "0"
    ensures !Shows(StatusLines(c), UserListLabel)
  {
    assert Users(c) == [];
    assert IntToString(0) == "0";
    StatusOpensWithHeaderAndCount(c);
    ReportOpens(Strip(Server(c)), Strip(Token(c)), [], FilterOf(c), Priority(c), LoggingEnabled(c));
    StatusListsUsersIffAny(c);
  }
}
