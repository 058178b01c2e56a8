/**
 * `_build_message`: the notification payload for one forwarded chat message.
 */
module Message {
  import opened Wrappers
  import opened Templates
  import opened Settings

  /** What the plugin reads from an inbound chat event. */
  datatype Event = Event(senderId: string, senderName: string, platform: string, text: string)

  /** The JSON body sent to Gotify. */
  datatype Payload = Payload(title: string, message: string, priority: int)

  /** The variables a template may name. */
  const KnownNames: set<string> :=
    {"sender_name", "user_id", "message_content", "timestamp", "platform"}

  /** The variable dictionary of `_build_message`; `timestamp` is the
    * already formatted `%Y-%m-%d %H:%M:%S` clock reading. */
  function Variables(ev: Event, timestamp: string): (vars: map<string, string>)
    ensures vars.Keys == KnownNames
    ensures vars["sender_name"] == ev.senderName && vars["user_id"] == ev.senderId
    ensures vars["message_content"] == ev.text && vars["timestamp"] == timestamp
    ensures vars["platform"] == ev.platform
  {
    map["sender_name" := ev.senderName, "user_id" := ev.senderId,
        "message_content" := ev.text, "timestamp" := timestamp,
        "platform" := ev.platform]
  }

  /** Title used when a template names an unknown variable. */
  function FallbackTitle(senderName: string): string {
    "来自 " + senderName + " 的消息"
  }

  /** Body used when a template names an unknown variable. */
  function FallbackBody(senderName: string, timestamp: string, content: string): string {
    "发送者：" + senderName + "\n时间：" + timestamp + "\n内容：" + content
  }

  /** `_build_message`: both templates rendered when they only name known
    * variables, otherwise both fallbacks; the priority is `gotify_priority`,
    * 5 when unset. */
  function BuildMessage(c: Config, ev: Event, timestamp: string): (p: Payload)
    ensures p.priority == Priority(c)
    ensures FieldNames(TitleTemplate(c)) <= KnownNames && FieldNames(MessageTemplate(c)) <= KnownNames ==>
      Render(TitleTemplate(c), Variables(ev, timestamp)) == Some(p.title) &&
      Render(MessageTemplate(c), Variables(ev, timestamp)) == Some(p.message)
    ensures !(FieldNames(TitleTemplate(c)) <= KnownNames && FieldNames(MessageTemplate(c)) <= KnownNames) ==>
      p.title == FallbackTitle(ev.senderName) &&
      p.message == FallbackBody(ev.senderName, timestamp, ev.text)
  {
    var vars := Variables(ev, timestamp);
    RenderSucceedsIffAllKnown(TitleTemplate(c), vars);
    RenderSucceedsIffAllKnown(MessageTemplate(c), vars);
    var title := Render(TitleTemplate(c), vars);
    var message := Render(MessageTemplate(c), vars);
    if title.Some? && message.Some? then
      Payload(title.value, message.value, Priority(c))
    else
      Payload(FallbackTitle(ev.senderName), FallbackBody(ev.senderName, timestamp, ev.text), Priority(c))
  }

  /** A template of literal, field, literal renders to the three parts in
    * order. */
  lemma RenderThree(a: string, x: string, b: string, vars: map<string, string>)
    requires x in vars
    ensures Render([Literal(a), Field(x), Literal(b)], vars) == Some(a + vars[x] + b)
  {
    var t := [Literal(a), Field(x), Literal(b)];
    assert t[2..][1..] == [] && t[1..][1..] == t[2..];
    assert Render(t[2..], vars) == Some(b + []);
    assert Render(t[1..], vars) == Some(vars[x] + (b + []));
    assert a + (vars[x] + (b + [])) == a + vars[x] + b;
  }

  /** A literal and a field in front of a template that renders add their
    * text in front of its rendering. */
  lemma RenderPair(a: string, x: string, rest: Template, vars: map<string, string>)
    requires x in vars && Render(rest, vars).Some?
    ensures Render([Literal(a), Field(x)] + rest, vars) == Some(a + vars[x] + Render(rest, vars).value)
  {
    var t := [Literal(a), Field(x)] + rest;
    var u := t[1..];
    assert u[0] == Field(x) && u[1..] == rest;
    var r := Render(rest, vars).value;
    assert Render(u, vars) == Some(vars[x] + r);
    assert t[0] == Literal(a);
    assert a + (vars[x] + r) == a + vars[x] + r;
  }

  /** A template of three literal-field pairs renders to the six parts in
    * order. */
  lemma RenderSix(a: string, x: string, b: string, y: string, d: string, z: string,
                  vars: map<string, string>)
    requires x in vars && y in vars && z in vars
    ensures Render([Literal(a), Field(x), Literal(b), Field(y), Literal(d), Field(z)], vars) ==
      Some(a + vars[x] + b + vars[y] + d + vars[z])
  {
    var empty: Template := [];
    var t3 := [Literal(d), Field(z)] + empty;
    RenderPair(d, z, empty, vars);
    var t2 := [Literal(b), Field(y)] + t3;
    RenderPair(b, y, t3, vars);
    var t1 := [Literal(a), Field(x)] + t2;
    RenderPair(a, x, t2, vars);
    assert t1 == [Literal(a), Field(x), Literal(b), Field(y), Literal(d), Field(z)];
    var vx, vy, vz := vars[x], vars[y], vars[z];
    assert a + vx + (b + vy + (d + vz + [])) == a + vx + b + vy + d + vz;
  }

  /** The default title template renders to the fallback title. */
  lemma DefaultTitleRendersFallback(vars: map<string, string>)
    requires "sender_name" in vars
    ensures Render(DefaultTitleTemplate, vars) == Some(FallbackTitle(vars["sender_name"]))
  {
    RenderThree("来自 ", "sender_name", " 的消息", vars);
  }

  /** The default body template renders to the fallback body. */
  lemma DefaultBodyRendersFallback(vars: map<string, string>)
    requires "sender_name" in vars && "timestamp" in vars && "message_content" in vars
    ensures Render(DefaultMessageTemplate, vars) ==
      Some(FallbackBody(vars["sender_name"], vars["timestamp"], vars["message_content"]))
  {
    RenderSix("发送者：", "sender_name", "\n时间：", "timestamp", "\n内容：", "message_content", vars);
  }

  /** The default templates render to exactly the fallback strings, so with no
    * `message_template` configured the payload is the fallback one. */
  lemma DefaultTemplatesMatchFallback(c: Config, ev: Event, timestamp: string)
    requires TemplatesOf(c) == NoTemplateSettings
    ensures BuildMessage(c, ev, timestamp) ==
      Payload(FallbackTitle(ev.senderName), FallbackBody(ev.senderName, timestamp, ev.text), Priority(c))
  {
    var vars := Variables(ev, timestamp);
    DefaultTitleRendersFallback(vars);
    DefaultBodyRendersFallback(vars);
  }

  /** A title that names an unknown variable sends both title and body to
    * their fallbacks, even when the body template alone would render. */
  lemma UnknownFieldDiscardsBoth(c: Config, ev: Event, timestamp: string, name: string)
    requires name !in KnownNames && name in FieldNames(TitleTemplate(c))
    ensures BuildMessage(c, ev, timestamp).message == FallbackBody(ev.senderName, timestamp, ev.text)
  {
  }
}
