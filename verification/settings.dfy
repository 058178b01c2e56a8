/**
 * The plugin's configuration as the host hands it over: a dictionary whose
 * keys may be absent. Each key is an `Option`; the accessors below supply the
 * defaults main.py falls back to when a key is missing.
 */
module Settings {
  import opened Wrappers
  import opened Text
  import opened Templates

  /** An entry of `monitored_users`: the host's configuration may hold numbers
    * or strings there. */
  datatype UserEntry = NumericId(n: int) | TextId(s: string)

  /** The string Python's `str` gives for an entry: a number in decimal, a
    * string unchanged. */
  function EntryString(e: UserEntry): (s: string)
    ensures e.TextId? ==> s == e.s
    ensures e.NumericId? ==> ParseInt(s) == Some(e.n) && IsCanonical(s)
  {
    match e
    case NumericId(n) => ParseIntRoundTrip(n); IntToString(n)
    case TextId(s) => s
  }

  /** The string form of every entry, in order. */
  function EntryStrings(users: seq<UserEntry>): (ids: seq<string>)
    ensures |ids| == |users| && forall i :: 0 <= i < |users| ==> ids[i] == EntryString(users[i])
  {
    seq(|users|, i requires 0 <= i < |users| => EntryString(users[i]))
  }

  /** The `filter_keywords` dictionary. */
  datatype FilterSettings = FilterSettings(
    enableFilter: Option<bool>,
    includeKeywords: Option<seq<string>>,
    excludeKeywords: Option<seq<string>>)

  /** The `message_template` dictionary. */
  datatype TemplateSettings = TemplateSettings(
    titleTemplate: Option<Template>,
    messageTemplate: Option<Template>)

  datatype Config = Config(
    gotifyServer: Option<string>,
    gotifyToken: Option<string>,
    monitoredUsers: Option<seq<UserEntry>>,
    filterKeywords: Option<FilterSettings>,
    messageTemplate: Option<TemplateSettings>,
    gotifyPriority: Option<int>,
    enableLogging: Option<bool>)

  const NoFilterSettings := FilterSettings(None, None, None)
  const NoTemplateSettings := TemplateSettings(None, None)

  /** `"来自 {sender_name} 的消息"`, the title template used when none is configured. */
  const DefaultTitleTemplate: Template :=
    [Literal("来自 "), Field("sender_name"), Literal(" 的消息")]

  /** `"发送者：{sender_name}\n时间：{timestamp}\n内容：{message_content}"`, the
    * body template used when none is configured. */
  const DefaultMessageTemplate: Template :=
    [Literal("发送者："), Field("sender_name"), Literal("\n时间："), Field("timestamp"),
     Literal("\n内容："), Field("message_content")]

  function Server(c: Config): string { c.gotifyServer.GetOr("") }
  function Token(c: Config): string { c.gotifyToken.GetOr("") }
  function Users(c: Config): seq<UserEntry> { c.monitoredUsers.GetOr([]) }
  function FilterOf(c: Config): FilterSettings { c.filterKeywords.GetOr(NoFilterSettings) }
  function FilterEnabled(f: FilterSettings): bool { f.enableFilter.GetOr(false) }
  function IncludeKeywords(f: FilterSettings): seq<string> { f.includeKeywords.GetOr([]) }
  function ExcludeKeywords(f: FilterSettings): seq<string> { f.excludeKeywords.GetOr([]) }
  function TemplatesOf(c: Config): TemplateSettings { c.messageTemplate.GetOr(NoTemplateSettings) }
  function TitleTemplate(c: Config): Template { TemplatesOf(c).titleTemplate.GetOr(DefaultTitleTemplate) }
  function MessageTemplate(c: Config): Template { TemplatesOf(c).messageTemplate.GetOr(DefaultMessageTemplate) }
  function Priority(c: Config): int { c.gotifyPriority.GetOr(5) }
  function LoggingEnabled(c: Config): bool { c.enableLogging.GetOr(true) }
}
