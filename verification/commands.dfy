/**
 * The `gotify_test` and `gotify_status` chat commands. A command's reply is
 * returned as a string instead of being yielded to the host.
 */
module Commands {
  import opened Wrappers
  import opened Text
  import opened Settings
  import opened Filtering
  import opened Message
  import opened Delivery

  // ---------------------------------------------------------------------------
  // gotify_test
  // ---------------------------------------------------------------------------

  const ConfigIncompleteReply := "❌ Gotify 配置不完整，请检查配置"
  const TestSucceededReply := "✅ Gotify 测试消息发送成功！"
  const TestFailedReply := "❌ Gotify 测试消息发送失败，请检查配置和网络连接"

  /** The fixed test notification: its own title, a body naming the time and
    * the invoking user, and priority 5 whatever `gotify_priority` says. */
  function TestPayload(senderName: string, timestamp: string): Payload {
    Payload("AstrBot Gotify 插件测试",
            "测试消息发送成功！\n时间：" + timestamp + "\n发送者：" + senderName,
            5)
  }

  /** What one `gotify_test` invocation answers and what it posted. */
  datatype TestReport = TestReport(reply: string, posted: Option<Request>)

  /** `gotify_test`: refuses with a fixed reply when the configuration check
    * fails; otherwise posts the test notification once and reports whether
    * Gotify accepted it. */
  function TestGotify(c: Config, senderName: string, timestamp: string, accepted: bool): (r: TestReport)
    ensures r.posted.Some? <==> CheckConfig(c)
    ensures !CheckConfig(c) ==> r.reply == ConfigIncompleteReply
    ensures CheckConfig(c) ==>
      r.posted.value.body == TestPayload(senderName, timestamp) &&
      r.posted.value.url == EndpointUrl(Server(c)) &&
      r.posted.value.token == Some(Token(c))
    ensures r.reply == TestSucceededReply <==> CheckConfig(c) && accepted
    ensures CheckConfig(c) && !accepted ==> r.reply == TestFailedReply
  {
    assert TestSucceededReply[0] != TestFailedReply[0] && TestSucceededReply[0] != ConfigIncompleteReply[0];
    if !CheckConfig(c) then
      TestReport(ConfigIncompleteReply, None)
    else
      ValidConfigYieldsRequest(c, TestPayload(senderName, timestamp));
      var sent := SendToGotify(c, TestPayload(senderName, timestamp), accepted);
      TestReport(if sent.success then TestSucceededReply else TestFailedReply, sent.posted)
  }

  // ---------------------------------------------------------------------------
  // gotify_status
  // ---------------------------------------------------------------------------

  const Header := "📊 Gotify 转发插件状态"
  const Rule := Repeat('=', 30)
  const ServerLabel := "🌐 Gotify 服务器："
  const TokenLabel := "🔑 Token 状态："
  const CountLabel := "👥 监听用户数量："
  const UserListLabel := "📝 监听用户列表："
  const FilterOnLine := "🔍 关键词过滤：已启用"
  const FilterOffLine := "🔍 关键词过滤：已禁用"
  const IncludeLabel := "   ✅ 包含关键词："
  const ExcludeLabel := "   ❌ 排除关键词："
  const PriorityLabel := "📊 消息优先级："
  const LoggingLabel := "📝 详细日志："
  const Configured := "已配置"
  const NotConfigured := "未配置"
  const Enabled := "已启用"
  const Disabled := "已禁用"

  predicate StartsWith(s: string, prefix: string) {
    |prefix| <= |s| && s[..|prefix|] == prefix
  }

  /** The server line shows the stripped address, or that none is set. */
  function ServerLine(server: string): string {
    ServerLabel + (if server != [] then server else NotConfigured)
  }

  /** The token line shows only whether the stripped token is empty. */
  function TokenLine(token: string): string {
    TokenLabel + (if token != [] then Configured else NotConfigured)
  }

  function CountLine(users: seq<UserEntry>): string {
    CountLabel + IntToString(|users|)
  }

  function UserListLine(users: seq<UserEntry>): string {
    UserListLabel + Join(EntryStrings(users), ", ")
  }

  function IncludeLine(f: FilterSettings): string {
    IncludeLabel + Join(IncludeKeywords(f), ", ")
  }

  function ExcludeLine(f: FilterSettings): string {
    ExcludeLabel + Join(ExcludeKeywords(f), ", ")
  }

  function PriorityLine(priority: int): string {
    PriorityLabel + IntToString(priority)
  }

  function LoggingLine(logging: bool): string {
    LoggingLabel + (if logging then Enabled else Disabled)
  }

  /** Header, rule, server, token state and user count: always shown. Written
    * as one append per line, the shape `CheckStatus` builds, so that the
    * verifier matches the two term for term. */
  function HeadLines(server: string, token: string, users: seq<UserEntry>): seq<string> {
    [] + [Header] + [Rule] + [ServerLine(server)] + [TokenLine(token)] + [CountLine(users)]
  }

  /** The five opening lines, one by one. */
  lemma HeadLinesAre(server: string, token: string, users: seq<UserEntry>)
    ensures var head := HeadLines(server, token, users);
      |head| == 5 && head[0] == Header && head[1] == Rule &&
      head[2] == ServerLine(server) && head[3] == TokenLine(token) && head[4] == CountLine(users)
  {
  }

  /** The user list follows only when there are monitored users. */
  function WithUserLines(users: seq<UserEntry>, lines: seq<string>): (r: seq<string>)
    ensures |r| == |lines| + (if users != [] then 1 else 0)
    ensures forall i :: 0 <= i < |lines| ==> r[i] == lines[i]
    ensures users != [] ==> r[|lines|] == UserListLine(users)
  {
    if users != [] then lines + [UserListLine(users)] else lines
  }

  /** The filter state follows, with each non-empty keyword list when it is
    * on. */
  function WithFilterLines(f: FilterSettings, lines: seq<string>): (r: seq<string>)
    ensures |r| == |lines| + 1 +
      (if FilterEnabled(f)
       then (if IncludeKeywords(f) != [] then 1 else 0) + (if ExcludeKeywords(f) != [] then 1 else 0)
       else 0)
    ensures forall i :: 0 <= i < |lines| ==> r[i] == lines[i]
    ensures r[|lines|] == if FilterEnabled(f) then FilterOnLine else FilterOffLine
    ensures FilterEnabled(f) && IncludeKeywords(f) != [] ==> r[|lines| + 1] == IncludeLine(f)
    ensures FilterEnabled(f) && ExcludeKeywords(f) != [] ==> r[|r| - 1] == ExcludeLine(f)
  {
    if FilterEnabled(f) then
      var on := lines + [FilterOnLine];
      var withIncludes := if IncludeKeywords(f) != [] then on + [IncludeLine(f)] else on;
      if ExcludeKeywords(f) != [] then withIncludes + [ExcludeLine(f)] else withIncludes
    else lines + [FilterOffLine]
  }

  /** The report drawn from the values `gotify_status` reads: priority and
    * logging toggle close it. */
  function ReportLines(server: string, token: string, users: seq<UserEntry>, f: FilterSettings,
                       priority: int, logging: bool): seq<string>
  {
    WithFilterLines(f, WithUserLines(users, HeadLines(server, token, users))) +
      [PriorityLine(priority)] + [LoggingLine(logging)]
  }

  /** The lines of the status report for configuration `c`, from its stripped
    * server and token. */
  function StatusLines(c: Config): seq<string> {
    ReportLines(Strip(Server(c)), Strip(Token(c)), Users(c), FilterOf(c), Priority(c), LoggingEnabled(c))
  }

  /** `gotify_status`: collects the report line by line and joins the lines
    * with newlines. */
  method CheckStatus(c: Config) returns (reply: string)
    ensures reply == Join(StatusLines(c), "\n")
  {
    var server := Strip(Server(c));
    var token := Strip(Token(c));
    var users := Users(c);
    var lines: seq<string> := [];
    lines := lines + [Header];
    lines := lines + [Rule];
    lines := lines + [ServerLine(server)];
    lines := lines + [TokenLine(token)];
    lines := lines + [CountLine(users)];
    if users != [] {
      lines := lines + [UserListLine(users)];
    }

    var f := FilterOf(c);
    if FilterEnabled(f) {
      lines := lines + [FilterOnLine];
      if IncludeKeywords(f) != [] {
        lines := lines + [IncludeLine(f)];
      }
      if ExcludeKeywords(f) != [] {
        lines := lines + [ExcludeLine(f)];
      }
    } else {
      lines := lines + [FilterOffLine];
    }

    lines := lines + [PriorityLine(Priority(c))];
    lines := lines + [LoggingLine(LoggingEnabled(c))];
    reply := Join(lines, "\n");
  }

  /** The count line reads back as the number of monitored users. */
  lemma CountLineReadsBack(users: seq<UserEntry>)
    ensures StartsWith(CountLine(users), CountLabel)
    ensures ParseInt(CountLine(users)[|CountLabel|..]) == Some(|users|)
  {
    var line := CountLine(users);
    assert line[|CountLabel|..] == IntToString(|users|);
    ParseIntRoundTrip(|users|);
  }

  /** The report opens with the header, a rule of thirty `=` and, fifth,
    * the user count. */
  lemma ReportOpens(server: string, token: string, users: seq<UserEntry>, f: FilterSettings,
                    priority: int, logging: bool)
    ensures var lines := ReportLines(server, token, users, f, priority, logging);
      |lines| >= 8 && lines[0] == Header && lines[1] == Rule && lines[4] == CountLine(users)
  {
    var head := HeadLines(server, token, users);
    HeadLinesAre(server, token, users);
    var filtered := WithFilterLines(f, WithUserLines(users, head));
    assert filtered[0] == Header && filtered[1] == Rule && filtered[4] == CountLine(users);
    var lines := ReportLines(server, token, users, f, priority, logging);
    assert lines == filtered + [PriorityLine(priority)] + [LoggingLine(logging)];
  }

  /** The report's third and fourth lines are the server and token lines; its
    * last two are the priority line and then the logging line. */
  lemma ReportFrame(server: string, token: string, users: seq<UserEntry>, f: FilterSettings,
                    priority: int, logging: bool)
    ensures var lines := ReportLines(server, token, users, f, priority, logging);
      |lines| >= 8 &&
      lines[2] == ServerLine(server) && lines[3] == TokenLine(token) &&
      lines[|lines| - 2] == PriorityLine(priority) && lines[|lines| - 1] == LoggingLine(logging)
  {
    var head := HeadLines(server, token, users);
    HeadLinesAre(server, token, users);
    var filtered := WithFilterLines(f, WithUserLines(users, head));
    assert filtered[2] == head[2] && filtered[3] == head[3];
    var lines := ReportLines(server, token, users, f, priority, logging);
    assert lines == filtered + [PriorityLine(priority)] + [LoggingLine(logging)];
  }

  /** The third line shows the stripped server, or that none is set when it
    * is blank; the fourth shows only whether a token is configured. */
  lemma StatusShowsServerAndToken(c: Config)
    ensures |StatusLines(c)| >= 8
    ensures StatusLines(c)[2] == ServerLabel + (if IsBlank(Server(c)) then NotConfigured else Strip(Server(c)))
    ensures StatusLines(c)[3] == TokenLabel + (if IsBlank(Token(c)) then NotConfigured else Configured)
  {
    ReportFrame(Strip(Server(c)), Strip(Token(c)), Users(c), FilterOf(c), Priority(c), LoggingEnabled(c));
  }

  /** The report closes with the configured priority and then the logging
    * toggle. */
  lemma StatusClosesWithPriorityAndLogging(c: Config)
    ensures var lines := StatusLines(c);
      |lines| >= 8 &&
      lines[|lines| - 2] == PriorityLine(Priority(c)) && lines[|lines| - 1] == LoggingLine(LoggingEnabled(c))
  {
    var server, token, priority, logging := Strip(Server(c)), Strip(Token(c)), Priority(c), LoggingEnabled(c);
    var lines := ReportLines(server, token, Users(c), FilterOf(c), priority, logging);
    assert StatusLines(c) == lines;
    ReportFrame(server, token, Users(c), FilterOf(c), priority, logging);
  }

  /** The status report opens with the header and the rule, and its fifth
    * line states the number of monitored users, which reads back as that
    * number. */
  lemma StatusOpensWithHeaderAndCount(c: Config)
    ensures |StatusLines(c)| >= 8
    ensures StatusLines(c)[0] == Header && StatusLines(c)[1] == Rule
    ensures StartsWith(StatusLines(c)[4], CountLabel)
    ensures ParseInt(StatusLines(c)[4][|CountLabel|..]) == Some(|Users(c)|)
  {
    ReportOpens(Strip(Server(c)), Strip(Token(c)), Users(c), FilterOf(c), Priority(c), LoggingEnabled(c));
    CountLineReadsBack(Users(c));
  }

  /** The report has eight lines, plus one for a non-empty user list and, when
    * filtering is on, one per non-empty keyword list. */
  lemma StatusLineCount(c: Config)
    ensures |StatusLines(c)| ==
      8 + (if Users(c) != [] then 1 else 0) +
      (if FilterEnabled(FilterOf(c))
       then (if IncludeKeywords(FilterOf(c)) != [] then 1 else 0) +
            (if ExcludeKeywords(FilterOf(c)) != [] then 1 else 0)
       else 0)
  {
  }

  /** The token enters the report only through whether it is blank: two
    * configurations that differ only in a token of the same blankness give
    * the same report. */
  lemma StatusHidesToken(c: Config, token: Option<string>)
    requires IsBlank(Token(c)) == IsBlank(token.GetOr(""))
    ensures StatusLines(c.(gotifyToken := token)) == StatusLines(c)
  {
    var c' := c.(gotifyToken := token);
    assert Token(c') == token.GetOr("");
    var t, t' := Strip(Token(c)), Strip(Token(c'));
    assert (t' == []) == (t == []);
    assert TokenLine(t') == TokenLine(t);
    assert Server(c') == Server(c) && Users(c') == Users(c) && FilterOf(c') == FilterOf(c);
    assert Priority(c') == Priority(c) && LoggingEnabled(c') == LoggingEnabled(c);
    ReportSeesTokenLineOnly(Strip(Server(c)), t', t, Users(c), FilterOf(c), Priority(c), LoggingEnabled(c));
  }

  /** The report depends on the token only through the token line. */
  lemma ReportSeesTokenLineOnly(server: string, t1: string, t2: string, users: seq<UserEntry>,
                                f: FilterSettings, priority: int, logging: bool)
    requires TokenLine(t1) == TokenLine(t2)
    ensures ReportLines(server, t1, users, f, priority, logging) ==
      ReportLines(server, t2, users, f, priority, logging)
  {
    assert HeadLines(server, t1, users) == HeadLines(server, t2, users);
  }

  /** In the report, the line after the user count, or after the user list
    * when there is one, is the filter state line. */
  lemma ReportFilterState(server: string, token: string, users: seq<UserEntry>, f: FilterSettings,
                          priority: int, logging: bool)
    ensures var lines, i := ReportLines(server, token, users, f, priority, logging), if users != [] then 6 else 5;
      i < |lines| && lines[i] == if FilterEnabled(f) then FilterOnLine else FilterOffLine
  {
    var withUsers := WithUserLines(users, HeadLines(server, token, users));
    var filtered := WithFilterLines(f, withUsers);
    assert |withUsers| == if users != [] then 6 else 5;
    var lines := ReportLines(server, token, users, f, priority, logging);
    assert lines == filtered + [PriorityLine(priority)] + [LoggingLine(logging)];
  }

  /** The line after the user count, or after the user list when there is
    * one, says whether keyword filtering is on. */
  lemma StatusShowsFilterState(c: Config)
    ensures var i := if Users(c) != [] then 6 else 5;
      i < |StatusLines(c)| &&
      StatusLines(c)[i] == if FilterEnabled(FilterOf(c)) then FilterOnLine else FilterOffLine
  {
    ReportFilterState(Strip(Server(c)), Strip(Token(c)), Users(c), FilterOf(c), Priority(c), LoggingEnabled(c));
  }

  /** Joining the report with newlines and splitting it again gives the lines
    * back, as long as no configured value brings in a newline of its own. */
  lemma StatusReplySplitsIntoLines(c: Config)
    requires forall i :: 0 <= i < |StatusLines(c)| ==> '\n' !in StatusLines(c)[i]
    ensures SplitOn(Join(StatusLines(c), "\n"), '\n') == StatusLines(c)
  {
    SplitJoin(StatusLines(c), '\n');
  }

  /** Some line of `lines` starts with `prefix`. */
  ghost predicate Shows(lines: seq<string>, prefix: string) {
    exists i :: 0 <= i < |lines| && StartsWith(lines[i], prefix)
  }

  lemma ShowsAppend(lines: seq<string>, line: string, prefix: string)
    ensures Shows(lines + [line], prefix) <==> Shows(lines, prefix) || StartsWith(line, prefix)
  {
    if Shows(lines + [line], prefix) {
      var i :| 0 <= i < |lines| + 1 && StartsWith((lines + [line])[i], prefix);
      if i < |lines| {
        assert StartsWith(lines[i], prefix);
      }
    }
    if Shows(lines, prefix) {
      var i :| 0 <= i < |lines| && StartsWith(lines[i], prefix);
      assert (lines + [line])[i] == lines[i];
    }
    if StartsWith(line, prefix) {
      assert (lines + [line])[|lines|] == line;
    }
  }

  /** A line made of `lead` and more text does not start with a prefix that
    * differs from `lead` at position `k`. */
  lemma DifferentLabel(lead: string, rest: string, prefix: string, k: nat)
    requires k < |lead| && k < |prefix| && lead[k] != prefix[k]
    ensures !StartsWith(lead + rest, prefix)
  {
    assert (lead + rest)[k] == lead[k];
  }

  /** A label followed by more text starts with that label. */
  lemma LabelLeads(lead: string, rest: string)
    ensures StartsWith(lead + rest, lead)
  {
    assert (lead + rest)[..|lead|] == lead;
  }

  /** The user list adds at most one line, the list line itself. */
  lemma WithUserLinesShows(users: seq<UserEntry>, lines: seq<string>, prefix: string)
    ensures Shows(WithUserLines(users, lines), prefix) <==>
      Shows(lines, prefix) || (users != [] && StartsWith(UserListLine(users), prefix))
  {
    if users != [] {
      ShowsAppend(lines, UserListLine(users), prefix);
    }
  }

  /** The filter block adds the on or off line, then the keyword lines. */
  lemma WithFilterLinesShows(f: FilterSettings, lines: seq<string>, prefix: string)
    requires !StartsWith(FilterOnLine, prefix) && !StartsWith(FilterOffLine, prefix)
    ensures Shows(WithFilterLines(f, lines), prefix) <==>
      Shows(lines, prefix) ||
      (FilterEnabled(f) && IncludeKeywords(f) != [] && StartsWith(IncludeLine(f), prefix)) ||
      (FilterEnabled(f) && ExcludeKeywords(f) != [] && StartsWith(ExcludeLine(f), prefix))
  {
    if FilterEnabled(f) {
      var on := lines + [FilterOnLine];
      ShowsAppend(lines, FilterOnLine, prefix);
      var withIncludes := if IncludeKeywords(f) != [] then on + [IncludeLine(f)] else on;
      if IncludeKeywords(f) != [] {
        ShowsAppend(on, IncludeLine(f), prefix);
      }
      if ExcludeKeywords(f) != [] {
        ShowsAppend(withIncludes, ExcludeLine(f), prefix);
      }
    } else {
      ShowsAppend(lines, FilterOffLine, prefix);
    }
  }

  /** Neither the header nor the rule starts with such a label. */
  lemma HeaderAndRuleHide(prefix: string)
    requires |prefix| > 0 && prefix[0] in {UserListLabel[0], IncludeLabel[0]}
    ensures !StartsWith(Header, prefix) && !StartsWith(Rule, prefix)
  {
    assert Header[0] != prefix[0];
    assert Rule[0] == '=';
  }

  /** None of the five opening lines starts with a label whose first
    * character is a note, a tick, a cross or a blank. */
  lemma HeadLinesHide(server: string, token: string, users: seq<UserEntry>, prefix: string)
    requires |prefix| > 0 && prefix[0] in {UserListLabel[0], IncludeLabel[0]}
    ensures !Shows(HeadLines(server, token, users), prefix)
  {
    var s, t, n := ServerLine(server), TokenLine(token), CountLine(users);
    DifferentLabel(ServerLabel, s[|ServerLabel|..], prefix, 0);
    assert s == ServerLabel + s[|ServerLabel|..];
    DifferentLabel(TokenLabel, t[|TokenLabel|..], prefix, 0);
    assert t == TokenLabel + t[|TokenLabel|..];
    DifferentLabel(CountLabel, n[|CountLabel|..], prefix, 0);
    assert n == CountLabel + n[|CountLabel|..];
    HeaderAndRuleHide(prefix);
    var head := HeadLines(server, token, users);
    assert head == [Header, Rule, s, t, n];
  }

  /** Whether a line starting with `prefix` appears depends on the five
    * opening lines, on each optional line and on the two closing lines. */
  lemma ReportShows(server: string, token: string, users: seq<UserEntry>, f: FilterSettings,
                    priority: int, logging: bool, prefix: string)
    requires !StartsWith(FilterOnLine, prefix) && !StartsWith(FilterOffLine, prefix)
    ensures Shows(ReportLines(server, token, users, f, priority, logging), prefix) <==>
      Shows(HeadLines(server, token, users), prefix) ||
      (users != [] && StartsWith(UserListLine(users), prefix)) ||
      (FilterEnabled(f) && IncludeKeywords(f) != [] && StartsWith(IncludeLine(f), prefix)) ||
      (FilterEnabled(f) && ExcludeKeywords(f) != [] && StartsWith(ExcludeLine(f), prefix)) ||
      StartsWith(PriorityLine(priority), prefix) || StartsWith(LoggingLine(logging), prefix)
  {
    var head := HeadLines(server, token, users);
    var withUsers := WithUserLines(users, head);
    var filtered := WithFilterLines(f, withUsers);
    WithUserLinesShows(users, head, prefix);
    WithFilterLinesShows(f, withUsers, prefix);
    ShowsAppend(filtered, PriorityLine(priority), prefix);
    ShowsAppend(filtered + [PriorityLine(priority)], LoggingLine(logging), prefix);
  }

  /** The filter switch lines start with none of the optional labels. */
  lemma SwitchLinesHide()
    ensures !StartsWith(FilterOnLine, UserListLabel) && !StartsWith(FilterOffLine, UserListLabel)
    ensures !StartsWith(FilterOnLine, IncludeLabel) && !StartsWith(FilterOffLine, IncludeLabel)
    ensures !StartsWith(FilterOnLine, ExcludeLabel) && !StartsWith(FilterOffLine, ExcludeLabel)
  {
    assert FilterOnLine[0] != UserListLabel[0] && FilterOffLine[0] != UserListLabel[0];
    assert FilterOnLine[0] != IncludeLabel[0] && FilterOffLine[0] != IncludeLabel[0];
    assert ExcludeLabel[0] == IncludeLabel[0];
  }

  /** The closing lines start with none of the optional labels. */
  lemma FixedLinesHide(priority: int, logging: bool)
    ensures !StartsWith(PriorityLine(priority), UserListLabel) && !StartsWith(LoggingLine(logging), UserListLabel)
    ensures !StartsWith(PriorityLine(priority), IncludeLabel) && !StartsWith(LoggingLine(logging), IncludeLabel)
    ensures !StartsWith(PriorityLine(priority), ExcludeLabel) && !StartsWith(LoggingLine(logging), ExcludeLabel)
  {
    var p, l := PriorityLine(priority), LoggingLine(logging);
    assert p == PriorityLabel + p[|PriorityLabel|..];
    assert l == LoggingLabel + l[|LoggingLabel|..];
    DifferentLabel(PriorityLabel, p[|PriorityLabel|..], UserListLabel, 0);
    DifferentLabel(LoggingLabel, l[|LoggingLabel|..], UserListLabel, 2);
    DifferentLabel(PriorityLabel, p[|PriorityLabel|..], IncludeLabel, 0);
    DifferentLabel(LoggingLabel, l[|LoggingLabel|..], IncludeLabel, 0);
    DifferentLabel(PriorityLabel, p[|PriorityLabel|..], ExcludeLabel, 0);
    DifferentLabel(LoggingLabel, l[|LoggingLabel|..], ExcludeLabel, 0);
  }

  /** Each optional line starts with its own label and with neither of the
    * other two. */
  lemma OptionalLinesDiffer(users: seq<UserEntry>, f: FilterSettings)
    ensures StartsWith(UserListLine(users), UserListLabel)
    ensures StartsWith(IncludeLine(f), IncludeLabel) && StartsWith(ExcludeLine(f), ExcludeLabel)
    ensures !StartsWith(IncludeLine(f), UserListLabel) && !StartsWith(ExcludeLine(f), UserListLabel)
    ensures !StartsWith(UserListLine(users), IncludeLabel) && !StartsWith(ExcludeLine(f), IncludeLabel)
    ensures !StartsWith(UserListLine(users), ExcludeLabel) && !StartsWith(IncludeLine(f), ExcludeLabel)
  {
    var names, includes, excludes := Join(EntryStrings(users), ", "), Join(IncludeKeywords(f), ", "),
      Join(ExcludeKeywords(f), ", ");
    LabelLeads(UserListLabel, names);
    LabelLeads(IncludeLabel, includes);
    LabelLeads(ExcludeLabel, excludes);
    DifferentLabel(IncludeLabel, includes, UserListLabel, 0);
    DifferentLabel(ExcludeLabel, excludes, UserListLabel, 0);
    DifferentLabel(UserListLabel, names, IncludeLabel, 0);
    DifferentLabel(ExcludeLabel, excludes, IncludeLabel, 3);
    DifferentLabel(UserListLabel, names, ExcludeLabel, 0);
    DifferentLabel(IncludeLabel, includes, ExcludeLabel, 3);
  }

  /** The status report lists the monitored users exactly when there are
    * some. */
  lemma StatusListsUsersIffAny(c: Config)
    ensures Shows(StatusLines(c), UserListLabel) <==> Users(c) != []
  {
    var server, token, users, f := Strip(Server(c)), Strip(Token(c)), Users(c), FilterOf(c);
    SwitchLinesHide();
    FixedLinesHide(Priority(c), LoggingEnabled(c));
    OptionalLinesDiffer(users, f);
    HeadLinesHide(server, token, users, UserListLabel);
    ReportShows(server, token, users, f, Priority(c), LoggingEnabled(c), UserListLabel);
  }

  /** The status report shows the include keywords exactly when filtering is
    * on and the include list is not empty. */
  lemma StatusShowsIncludesIffActive(c: Config)
    ensures Shows(StatusLines(c), IncludeLabel) <==>
      FilterEnabled(FilterOf(c)) && IncludeKeywords(FilterOf(c)) != []
  {
    var server, token, users, f := Strip(Server(c)), Strip(Token(c)), Users(c), FilterOf(c);
    SwitchLinesHide();
    FixedLinesHide(Priority(c), LoggingEnabled(c));
    OptionalLinesDiffer(users, f);
    HeadLinesHide(server, token, users, IncludeLabel);
    ReportShows(server, token, users, f, Priority(c), LoggingEnabled(c), IncludeLabel);
  }

  /** The status report shows the exclude keywords exactly when filtering is
    * on and the exclude list is not empty. */
  lemma StatusShowsExcludesIffActive(c: Config)
    ensures Shows(StatusLines(c), ExcludeLabel) <==>
      FilterEnabled(FilterOf(c)) && ExcludeKeywords(FilterOf(c)) != []
  {
    var server, token, users, f := Strip(Server(c)), Strip(Token(c)), Users(c), FilterOf(c);
    SwitchLinesHide();
    FixedLinesHide(Priority(c), LoggingEnabled(c));
    OptionalLinesDiffer(users, f);
    assert ExcludeLabel[0] == IncludeLabel[0];
    HeadLinesHide(server, token, users, ExcludeLabel);
    ReportShows(server, token, users, f, Priority(c), LoggingEnabled(c), ExcludeLabel);
  }
}
