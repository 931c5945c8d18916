// The Telegram message of each notification type
// (backend/src/notifications/notification-templates.ts). The fixed wording is
// a parameter: any texts without &, < and >.
module Templates {
  import opened Prelude
  import opened Markup

  // A missing name renders as the empty string, except in the security alert,
  // which says that it is unknown.
  datatype Payload =
    | SecurityAnomaly(clientName: Option<string>, serverName: Option<string>, details: seq<string>)
    | ProvisioningComplete(clientName: Option<string>, clientEmail: string, serverName: Option<string>,
                           subdomain: string, dashboardUrl: string)
    | AgentOffline(clientName: Option<string>, clientId: string, lastSeen: Option<string>)
    | AccessGranted(clientName: Option<string>, clientEmail: string, serverName: Option<string>,
                    serverUrl: string, expires: string)
    | AccessRevoked(clientName: Option<string>, serverName: Option<string>, expired: bool)
    | Unlisted(eventType: string)

  datatype Label =
    | AnomalyIcon | AnomalyTitle | AnomalyNote | Bullet
    | ReadyIcon | ReadyTitle | Dashboard | Subdomain
    | OfflineIcon | OfflineTitle | ClientId | LastHeartbeat | Never
    | GrantedIcon | GrantedTitle | Link | ExpiresAt | GrantedNote
    | ExpiredIcon | RevokedIcon | ExpiredTitle | RevokedTitle
    | OtherIcon | Client | Server | Unknown | TestIcon | TestTitle | TestNote

  type Wording = Label -> string

  predicate Plainspoken(s: string) {
    '&' !in s && '<' !in s && '>' !in s
  }

  ghost predicate CleanWording(w: Wording) {
    forall l: Label :: Plainspoken(w(l))
  }

  function OrElse(o: Option<string>, fallback: string): (text: string)
    ensures o.Some? ==> text == o.value
    ensures o.None? ==> text == fallback
  {
    match o case Some(v) => v case None => fallback
  }

  // -------- the HTML, as the source concatenates it --------

  function Bold(s: string): string { "<b>" + s + "</b>" }
  function Italic(s: string): string { "<i>" + s + "</i>" }
  function Code(s: string): string { "<code>" + s + "</code>" }

  // One bulleted line per anomaly, its detail escaped.
  function DetailLines(w: Wording, details: seq<string>): string {
    if details == [] then ""
    else w(Bullet) + Esc(details[0]) + (if |details| == 1 then "" else "\n" + DetailLines(w, details[1..]))
  }

  function RenderBody(w: Wording, p: Payload): string {
    match p
    case SecurityAnomaly(client, server, details) =>
      w(AnomalyIcon) + Bold(w(AnomalyTitle)) + "\n\n"
      + w(Client) + Esc(OrElse(client, w(Unknown))) + "\n"
      + w(Server) + Esc(OrElse(server, w(Unknown))) + "\n\n"
      + DetailLines(w, details) + "\n\n"
      + Italic(w(AnomalyNote))
    case ProvisioningComplete(client, email, server, subdomain, url) =>
      w(ReadyIcon) + Bold(w(ReadyTitle)) + "\n\n"
      + w(Client) + Esc(OrElse(client, "")) + " (" + Esc(email) + ")\n"
      + w(Server) + Esc(OrElse(server, "")) + "\n"
      + w(Subdomain) + Esc(subdomain) + "\n"
      + w(Dashboard) + Esc(url)
    case AgentOffline(client, clientId, lastSeen) =>
      w(OfflineIcon) + Bold(w(OfflineTitle)) + "\n\n"
      + w(Client) + Esc(OrElse(client, "")) + "\n"
      + w(ClientId) + Code(Esc(clientId)) + "\n"
      + w(LastHeartbeat) + Esc(OrElse(lastSeen, w(Never)))
    case AccessGranted(client, email, server, url, expires) =>
      w(GrantedIcon) + Bold(w(GrantedTitle)) + "\n\n"
      + w(Client) + Esc(OrElse(client, "")) + " (" + Esc(email) + ")\n"
      + w(Server) + Esc(OrElse(server, "")) + "\n"
      + w(Link) + Esc(url) + "\n"
      + w(ExpiresAt) + Esc(expires) + "\n\n"
      + Italic(w(GrantedNote))
    case AccessRevoked(client, server, expired) =>
      w(if expired then ExpiredIcon else RevokedIcon)
      + Bold(w(if expired then ExpiredTitle else RevokedTitle)) + "\n\n"
      + w(Client) + Esc(OrElse(client, "")) + "\n"
      + w(Server) + Esc(OrElse(server, ""))
    case Unlisted(eventType) =>
      w(OtherIcon) + Bold(Esc(eventType))
  }

  function RenderNotification(w: Wording, p: Payload, id: string, isTest: bool): string {
    var prefix := if isTest then w(TestIcon) + Bold(w(TestTitle)) + w(TestNote) + "\n\n" else "";
    prefix + RenderBody(w, p) + "\n\n" + Code("#" + Esc(id[..if |id| < 8 then |id| else 8]))
  }

  // -------- the text a reader is meant to see --------

  function PlainLines(w: Wording, details: seq<string>): string {
    if details == [] then ""
    else w(Bullet) + details[0] + (if |details| == 1 then "" else "\n" + PlainLines(w, details[1..]))
  }

  function PlainBody(w: Wording, p: Payload): string {
    match p
    case SecurityAnomaly(client, server, details) =>
      w(AnomalyIcon) + w(AnomalyTitle) + "\n\n"
      + w(Client) + OrElse(client, w(Unknown)) + "\n"
      + w(Server) + OrElse(server, w(Unknown)) + "\n\n"
      + PlainLines(w, details) + "\n\n"
      + w(AnomalyNote)
    case ProvisioningComplete(client, email, server, subdomain, url) =>
      w(ReadyIcon) + w(ReadyTitle) + "\n\n"
      + w(Client) + OrElse(client, "") + " (" + email + ")\n"
      + w(Server) + OrElse(server, "") + "\n"
      + w(Subdomain) + subdomain + "\n"
      + w(Dashboard) + url
    case AgentOffline(client, clientId, lastSeen) =>
      w(OfflineIcon) + w(OfflineTitle) + "\n\n"
      + w(Client) + OrElse(client, "") + "\n"
      + w(ClientId) + clientId + "\n"
      + w(LastHeartbeat) + OrElse(lastSeen, w(Never))
    case AccessGranted(client, email, server, url, expires) =>
      w(GrantedIcon) + w(GrantedTitle) + "\n\n"
      + w(Client) + OrElse(client, "") + " (" + email + ")\n"
      + w(Server) + OrElse(server, "") + "\n"
      + w(Link) + url + "\n"
      + w(ExpiresAt) + expires + "\n\n"
      + w(GrantedNote)
    case AccessRevoked(client, server, expired) =>
      w(if expired then ExpiredIcon else RevokedIcon)
      + w(if expired then ExpiredTitle else RevokedTitle) + "\n\n"
      + w(Client) + OrElse(client, "") + "\n"
      + w(Server) + OrElse(server, "")
    case Unlisted(eventType) =>
      w(OtherIcon) + eventType
  }

  function PlainNotification(w: Wording, p: Payload, id: string, isTest: bool): string {
    (if isTest then w(TestIcon) + w(TestTitle) + w(TestNote) + "\n\n" else "")
    + PlainBody(w, p) + "\n\n" + "#" + id[..if |id| < 8 then |id| else 8]
  }

  // -------- rendering shows exactly that text --------

  // `html` shows `text`: stripping its tags leaves the escaped text, and no
  // tag of it is left open.
  predicate Shows(html: string, text: string) {
    Closed(html) && StripTags(html) == Esc(text)
  }

  lemma ShowsEscaped(value: string)
    ensures Shows(Esc(value), value)
  {
    EscHasNoBrackets(value);
    TextIsClosed(Esc(value));
  }

  lemma ShowsText(text: string)
    requires Plainspoken(text)
    ensures Shows(text, text)
  {
    ReplaceAbsent(text, '&', "&amp;");
    ReplaceAbsent(text, '<', "&lt;");
    ReplaceAbsent(text, '>', "&gt;");
    ShowsEscaped(text);
  }

  lemma ShowsConcat(a: string, ta: string, b: string, tb: string)
    requires Shows(a, ta) && Shows(b, tb)
    ensures Shows(a + b, ta + tb)
  {
    EscConcat(ta, tb);
    StripConcat(a, b);
  }

  lemma ShowsTagged(tag: string, html: string, text: string)
    requires Shows(html, text) && tag != "" && '>' !in tag
    ensures Shows("<" + tag + ">" + html + ("</" + tag + ">"), text)
  {
    TagIsClosed(tag);
    TagIsClosed("/" + tag);
    var close := "<" + ("/" + tag) + ">";
    assert close == "</" + tag + ">";
    StripConcat("<" + tag + ">", html);
    StripConcat("<" + tag + ">" + html, close);
    assert StripTags(html) == "" + StripTags(html) == StripTags(html) + "";
  }

  // Extending what is already shown by wording, by a value, by a tagged part.
  lemma ThenText(h: string, t: string, text: string) returns (h': string, t': string)
    requires Shows(h, t) && Plainspoken(text)
    ensures h' == h + text && t' == t + text && Shows(h', t')
  {
    h', t' := h + text, t + text;
    ShowsText(text);
    ShowsConcat(h, t, text, text);
  }

  lemma ThenValue(h: string, t: string, value: string) returns (h': string, t': string)
    requires Shows(h, t)
    ensures h' == h + Esc(value) && t' == t + value && Shows(h', t')
  {
    h', t' := h + Esc(value), t + value;
    ShowsEscaped(value);
    ShowsConcat(h, t, Esc(value), value);
  }

  lemma ThenTagged(h: string, t: string, html: string, text: string) returns (t': string)
    requires Shows(h, t) && Shows(html, text)
    ensures t' == t + text
    ensures Shows(h + Bold(html), t') && Shows(h + Italic(html), t') && Shows(h + Code(html), t')
  {
    t' := t + text;
    TagsShow(html, text);
    ShowsConcat(h, t, Bold(html), text);
    ShowsConcat(h, t, Italic(html), text);
    ShowsConcat(h, t, Code(html), text);
  }

  lemma BoldShows(html: string, text: string)
    requires Shows(html, text)
    ensures Shows(Bold(html), text)
  {
    ShowsTagged("b", html, text);
    assert Bold(html) == "<" + "b" + ">" + html + ("</" + "b" + ">");
  }

  lemma ItalicShows(html: string, text: string)
    requires Shows(html, text)
    ensures Shows(Italic(html), text)
  {
    ShowsTagged("i", html, text);
    assert Italic(html) == "<" + "i" + ">" + html + ("</" + "i" + ">");
  }

  lemma CodeShows(html: string, text: string)
    requires Shows(html, text)
    ensures Shows(Code(html), text)
  {
    ShowsTagged("code", html, text);
    assert Code(html) == "<" + "code" + ">" + html + ("</" + "code" + ">");
  }

  lemma TagsShow(html: string, text: string)
    requires Shows(html, text)
    ensures Shows(Bold(html), text) && Shows(Italic(html), text) && Shows(Code(html), text)
  {
    BoldShows(html, text);
    ItalicShows(html, text);
    CodeShows(html, text);
  }

  // icon, bold title, blank line
  lemma Heading(icon: string, title: string) returns (h: string, t: string)
    requires Plainspoken(icon) && Plainspoken(title)
    ensures h == icon + Bold(title) + "\n\n" && t == icon + title + "\n\n" && Shows(h, t)
  {
    ShowsText(icon);
    ShowsText(title);
    t := ThenTagged(icon, icon, title, title);
    h, t := ThenText(icon + Bold(title), t, "\n\n");
  }

  // label, escaped value, separator
  lemma ThenLine(h: string, t: string, name: string, value: string, stop: string)
    returns (h': string, t': string)
    requires Shows(h, t) && Plainspoken(name) && Plainspoken(stop)
    ensures h' == h + name + Esc(value) + stop && t' == t + name + value + stop && Shows(h', t')
  {
    h', t' := ThenText(h, t, name);
    h', t' := ThenValue(h', t', value);
    h', t' := ThenText(h', t', stop);
  }

  lemma {:induction false} LinesShown(w: Wording, details: seq<string>)
    requires CleanWording(w)
    ensures Shows(DetailLines(w, details), PlainLines(w, details))
    decreases |details|
  {
    if details == [] {
      ShowsText("");
    } else {
      ShowsText(w(Bullet));
      var h, t := ThenValue(w(Bullet), w(Bullet), details[0]);
      if |details| == 1 {
        h, t := ThenText(h, t, "");
      } else {
        LinesShown(w, details[1..]);
        ShowsText("\n");
        ShowsConcat("\n", "\n", DetailLines(w, details[1..]), PlainLines(w, details[1..]));
        ShowsConcat(h, t, "\n" + DetailLines(w, details[1..]), "\n" + PlainLines(w, details[1..]));
      }
    }
  }

  lemma AnomalyShown(w: Wording, p: Payload)
    requires CleanWording(w) && p.SecurityAnomaly?
    ensures Shows(RenderBody(w, p), PlainBody(w, p))
  {
    var h, t := Heading(w(AnomalyIcon), w(AnomalyTitle));
    h, t := ThenLine(h, t, w(Client), OrElse(p.clientName, w(Unknown)), "\n");
    h, t := ThenLine(h, t, w(Server), OrElse(p.serverName, w(Unknown)), "\n\n");
    LinesShown(w, p.details);
    ShowsConcat(h, t, DetailLines(w, p.details), PlainLines(w, p.details));
    h, t := ThenText(h + DetailLines(w, p.details), t + PlainLines(w, p.details), "\n\n");
    ShowsText(w(AnomalyNote));
    t := ThenTagged(h, t, w(AnomalyNote), w(AnomalyNote));
  }

  lemma ProvisioningShown(w: Wording, p: Payload)
    requires CleanWording(w) && p.ProvisioningComplete?
    ensures Shows(RenderBody(w, p), PlainBody(w, p))
  {
    var h, t := Heading(w(ReadyIcon), w(ReadyTitle));
    h, t := ThenLine(h, t, w(Client), OrElse(p.clientName, ""), " (");
    h, t := ThenValue(h, t, p.clientEmail);
    h, t := ThenText(h, t, ")\n");
    h, t := ThenLine(h, t, w(Server), OrElse(p.serverName, ""), "\n");
    h, t := ThenLine(h, t, w(Subdomain), p.subdomain, "\n");
    h, t := ThenText(h, t, w(Dashboard));
    h, t := ThenValue(h, t, p.dashboardUrl);
  }

  lemma OfflineShown(w: Wording, p: Payload)
    requires CleanWording(w) && p.AgentOffline?
    ensures Shows(RenderBody(w, p), PlainBody(w, p))
  {
    var h, t := Heading(w(OfflineIcon), w(OfflineTitle));
    h, t := ThenLine(h, t, w(Client), OrElse(p.clientName, ""), "\n");
    h, t := ThenText(h, t, w(ClientId));
    ShowsEscaped(p.clientId);
    t := ThenTagged(h, t, Esc(p.clientId), p.clientId);
    h, t := ThenText(h + Code(Esc(p.clientId)), t, "\n");
    h, t := ThenText(h, t, w(LastHeartbeat));
    h, t := ThenValue(h, t, OrElse(p.lastSeen, w(Never)));
  }

  lemma GrantedShown(w: Wording, p: Payload)
    requires CleanWording(w) && p.AccessGranted?
    ensures Shows(RenderBody(w, p), PlainBody(w, p))
  {
    var h, t := Heading(w(GrantedIcon), w(GrantedTitle));
    h, t := ThenLine(h, t, w(Client), OrElse(p.clientName, ""), " (");
    h, t := ThenValue(h, t, p.clientEmail);
    h, t := ThenText(h, t, ")\n");
    h, t := ThenLine(h, t, w(Server), OrElse(p.serverName, ""), "\n");
    h, t := ThenLine(h, t, w(Link), p.serverUrl, "\n");
    h, t := ThenLine(h, t, w(ExpiresAt), p.expires, "\n\n");
    ShowsText(w(GrantedNote));
    t := ThenTagged(h, t, w(GrantedNote), w(GrantedNote));
  }

  lemma RevokedShown(w: Wording, p: Payload)
    requires CleanWording(w) && p.AccessRevoked?
    ensures Shows(RenderBody(w, p), PlainBody(w, p))
  {
    var h, t := Heading(w(if p.expired then ExpiredIcon else RevokedIcon),
                        w(if p.expired then ExpiredTitle else RevokedTitle));
    h, t := ThenLine(h, t, w(Client), OrElse(p.clientName, ""), "\n");
    h, t := ThenText(h, t, w(Server));
    h, t := ThenValue(h, t, OrElse(p.serverName, ""));
  }

  lemma UnlistedShown(w: Wording, p: Payload)
    requires CleanWording(w) && p.Unlisted?
    ensures Shows(RenderBody(w, p), PlainBody(w, p))
  {
    ShowsText(w(OtherIcon));
    ShowsEscaped(p.eventType);
    var t := ThenTagged(w(OtherIcon), w(OtherIcon), Esc(p.eventType), p.eventType);
  }

  lemma BodyShown(w: Wording, p: Payload)
    requires CleanWording(w)
    ensures Shows(RenderBody(w, p), PlainBody(w, p))
  {
    match p
    case SecurityAnomaly(_, _, _) => AnomalyShown(w, p);
    case ProvisioningComplete(_, _, _, _, _) => ProvisioningShown(w, p);
    case AgentOffline(_, _, _) => OfflineShown(w, p);
    case AccessGranted(_, _, _, _, _) => GrantedShown(w, p);
    case AccessRevoked(_, _, _) => RevokedShown(w, p);
    case Unlisted(_) => UnlistedShown(w, p);
  }

  lemma PrefixShown(w: Wording, isTest: bool) returns (h: string, t: string)
    requires CleanWording(w)
    ensures h == (if isTest then w(TestIcon) + Bold(w(TestTitle)) + w(TestNote) + "\n\n" else "")
    ensures t == (if isTest then w(TestIcon) + w(TestTitle) + w(TestNote) + "\n\n" else "")
    ensures Shows(h, t)
  {
    h, t := "", "";
    ShowsText("");
    if isTest {
      ShowsText(w(TestIcon));
      ShowsText(w(TestTitle));
      t := ThenTagged(w(TestIcon), w(TestIcon), w(TestTitle), w(TestTitle));
      h, t := ThenText(w(TestIcon) + Bold(w(TestTitle)), t, w(TestNote));
      h, t := ThenText(h, t, "\n\n");
    }
  }

  lemma ThenFooter(h: string, t: string, short: string)
    requires Shows(h, t)
    ensures Shows(h + "\n\n" + Code("#" + Esc(short)), t + "\n\n" + "#" + short)
  {
    var h1, t1 := ThenText(h, t, "\n\n");
    ShowsText("#");
    var hash, hashText := ThenValue("#", "#", short);
    var t2 := ThenTagged(h1, t1, hash, hashText);
    assert t1 + "#" + short == t1 + ("#" + short);
  }

  lemma NotificationShown(w: Wording, p: Payload, id: string, isTest: bool)
    requires CleanWording(w)
    ensures Shows(RenderNotification(w, p, id, isTest), PlainNotification(w, p, id, isTest))
  {
    var h, t := PrefixShown(w, isTest);
    var body, text := RenderBody(w, p), PlainBody(w, p);
    BodyShown(w, p);
    ShowsConcat(h, t, body, text);
    ThenFooter(h + body, t + text, id[..if |id| < 8 then |id| else 8]);
  }

  // The plain-text fallback of every notification is the template's text with
  // all tags gone and every payload value restored, whatever it contains.
  lemma PlainFallbackRestoresText(w: Wording, p: Payload, id: string, isTest: bool)
    requires CleanWording(w)
    ensures HtmlToPlain(RenderNotification(w, p, id, isTest)) == PlainNotification(w, p, id, isTest)
  {
    NotificationShown(w, p, id, isTest);
    UnescapeUndoesEsc(PlainNotification(w, p, id, isTest));
  }

  // -------- the text says what the payload says --------

  ghost predicate Mentions(s: string, v: string) {
    exists a: string, b: string :: s == a + v + b
  }

  lemma MentionsMore(s: string, v: string, left: string, right: string)
    requires Mentions(s, v)
    ensures Mentions(left + s + right, v)
  {
    var a: string, b: string :| s == a + v + b;
    assert left + s + right == (left + a) + v + (b + right);
  }

  // The text so far, with one more label and its value.
  lemma ThenSays(s: string, name: string, value: string, stop: string) returns (t: string)
    ensures t == s + name + value + stop && s <= t
    ensures Mentions(t, name + value)
  {
    t := s + name + value + stop;
    assert t == s + (name + value) + stop;
    assert t[..|s|] == s;
  }

  lemma PrefixSays(s: string, t: string, v: string)
    requires s <= t && Mentions(s, v)
    ensures Mentions(t, v)
  {
    MentionsMore(s, v, "", t[|s|..]);
    assert "" + s + t[|s|..] == t;
  }

  lemma PrefixOn(s: string, t: string, u: string)
    requires s <= t <= u
    ensures s <= u
  {
    assert u[..|s|] == t[..|s|];
  }

  // After its label stands the name, or what stands for a missing one.
  lemma AnomalySays(w: Wording, client: Option<string>, server: Option<string>, details: seq<string>)
    ensures var text := PlainBody(w, SecurityAnomaly(client, server, details));
            && Mentions(text, w(Client) + if client.Some? then client.value else w(Unknown))
            && Mentions(text, w(Server) + if server.Some? then server.value else w(Unknown))
            && Mentions(text, "\n\n" + PlainLines(w, details))
  {
    var c, v := OrElse(client, w(Unknown)), OrElse(server, w(Unknown));
    var s1 := ThenSays(w(AnomalyIcon) + w(AnomalyTitle) + "\n\n", w(Client), c, "\n");
    var s2 := ThenSays(s1, w(Server), v, "");
    var s3 := ThenSays(s2, "\n\n", PlainLines(w, details), "\n\n");
    var text := s3 + w(AnomalyNote);
    assert s2 == s1 + w(Server) + v;
    assert text == PlainBody(w, SecurityAnomaly(client, server, details));
    assert s3 <= text;
    PrefixOn(s2, s3, text);
    PrefixOn(s1, s2, text);
    PrefixSays(s1, text, w(Client) + c);
    PrefixSays(s2, text, w(Server) + v);
    PrefixSays(s3, text, "\n\n" + PlainLines(w, details));
  }

  lemma {:induction false} EveryDetailIsALine(w: Wording, details: seq<string>, i: nat)
    requires i < |details|
    ensures Mentions(PlainLines(w, details), w(Bullet) + details[i])
    decreases |details|
  {
    var first := w(Bullet) + details[0];
    var rest := if |details| == 1 then "" else "\n" + PlainLines(w, details[1..]);
    if i == 0 {
      assert PlainLines(w, details) == "" + first + rest;
    } else {
      EveryDetailIsALine(w, details[1..], i - 1);
      MentionsMore(PlainLines(w, details[1..]), w(Bullet) + details[i], first + "\n", "");
      assert PlainLines(w, details) == (first + "\n") + PlainLines(w, details[1..]) + "";
    }
  }

  lemma ProvisioningSays(w: Wording, client: string, email: string, server: string, subdomain: string, url: string)
    ensures var text := PlainBody(w, ProvisioningComplete(Some(client), email, Some(server), subdomain, url));
            && Mentions(text, w(Client) + client) && Mentions(text, " (" + email)
            && Mentions(text, w(Server) + server) && Mentions(text, w(Subdomain) + subdomain)
            && Mentions(text, w(Dashboard) + url)
  {
    var s1 := ThenSays(w(ReadyIcon) + w(ReadyTitle) + "\n\n", w(Client), client, "");
    var s2 := ThenSays(s1, " (", email, ")\n");
    var s3 := ThenSays(s2, w(Server), server, "\n");
    var s4 := ThenSays(s3, w(Subdomain), subdomain, "\n");
    var text := ThenSays(s4, w(Dashboard), url, "");
    assert s1 == w(ReadyIcon) + w(ReadyTitle) + "\n\n" + w(Client) + client;
    assert text == s4 + w(Dashboard) + url;
    assert text == PlainBody(w, ProvisioningComplete(Some(client), email, Some(server), subdomain, url));
    PrefixOn(s3, s4, text);
    PrefixOn(s2, s3, text);
    PrefixOn(s1, s2, text);
    PrefixSays(s1, text, w(Client) + client);
    PrefixSays(s2, text, " (" + email);
    PrefixSays(s3, text, w(Server) + server);
    PrefixSays(s4, text, w(Subdomain) + subdomain);
  }

  lemma OfflineSays(w: Wording, client: string, clientId: string, lastSeen: Option<string>)
    ensures var text := PlainBody(w, AgentOffline(Some(client), clientId, lastSeen));
            && Mentions(text, w(Client) + client) && Mentions(text, w(ClientId) + clientId)
            && Mentions(text, w(LastHeartbeat) + if lastSeen.Some? then lastSeen.value else w(Never))
  {
    var s1 := ThenSays(w(OfflineIcon) + w(OfflineTitle) + "\n\n", w(Client), client, "\n");
    var s2 := ThenSays(s1, w(ClientId), clientId, "\n");
    var text := ThenSays(s2, w(LastHeartbeat), OrElse(lastSeen, w(Never)), "");
    assert text == s2 + w(LastHeartbeat) + OrElse(lastSeen, w(Never));
    assert text == PlainBody(w, AgentOffline(Some(client), clientId, lastSeen));
    PrefixOn(s1, s2, text);
    PrefixSays(s1, text, w(Client) + client);
    PrefixSays(s2, text, w(ClientId) + clientId);
  }

  lemma GrantedSays(w: Wording, client: string, email: string, server: string, url: string, expires: string)
    ensures var text := PlainBody(w, AccessGranted(Some(client), email, Some(server), url, expires));
            && Mentions(text, w(Client) + client) && Mentions(text, " (" + email)
            && Mentions(text, w(Server) + server) && Mentions(text, w(Link) + url)
            && Mentions(text, w(ExpiresAt) + expires)
  {
    var s1 := ThenSays(w(GrantedIcon) + w(GrantedTitle) + "\n\n", w(Client), client, "");
    var s2 := ThenSays(s1, " (", email, ")\n");
    var s3 := ThenSays(s2, w(Server), server, "\n");
    var s4 := ThenSays(s3, w(Link), url, "\n");
    var s5 := ThenSays(s4, w(ExpiresAt), expires, "\n\n");
    var text := s5 + w(GrantedNote);
    assert s1 == w(GrantedIcon) + w(GrantedTitle) + "\n\n" + w(Client) + client;
    assert text == PlainBody(w, AccessGranted(Some(client), email, Some(server), url, expires));
    assert s5 <= text;
    PrefixOn(s4, s5, text);
    PrefixOn(s3, s4, text);
    PrefixOn(s2, s3, text);
    PrefixOn(s1, s2, text);
    PrefixSays(s1, text, w(Client) + client);
    PrefixSays(s2, text, " (" + email);
    PrefixSays(s3, text, w(Server) + server);
    PrefixSays(s4, text, w(Link) + url);
    PrefixSays(s5, text, w(ExpiresAt) + expires);
  }

  // A revocation says whether it was an expiry, and of whose access.
  lemma RevokedSays(w: Wording, client: string, server: string, expired: bool)
    ensures var text := PlainBody(w, AccessRevoked(Some(client), Some(server), expired));
            && Mentions(text, if expired then w(ExpiredIcon) + w(ExpiredTitle) else w(RevokedIcon) + w(RevokedTitle))
            && Mentions(text, w(Client) + client) && Mentions(text, w(Server) + server)
  {
    var icon := w(if expired then ExpiredIcon else RevokedIcon);
    var title := w(if expired then ExpiredTitle else RevokedTitle);
    var s1 := ThenSays("", icon, title, "\n\n");
    assert s1 == icon + title + "\n\n";
    var s2 := ThenSays(s1, w(Client), client, "\n");
    var text := ThenSays(s2, w(Server), server, "");
    assert text == s2 + w(Server) + server;
    assert text == PlainBody(w, AccessRevoked(Some(client), Some(server), expired));
    PrefixOn(s1, s2, text);
    PrefixSays(s1, text, icon + title);
    PrefixSays(s2, text, w(Client) + client);
  }

  // And the whole message says what its body says.
  lemma NotificationSays(w: Wording, p: Payload, id: string, isTest: bool, v: string)
    requires Mentions(PlainBody(w, p), v)
    ensures Mentions(PlainNotification(w, p, id, isTest), v)
  {
    var prefix := if isTest then w(TestIcon) + w(TestTitle) + w(TestNote) + "\n\n" else "";
    var body := prefix + PlainBody(w, p);
    MentionsMore(PlainBody(w, p), v, prefix, "");
    assert prefix + PlainBody(w, p) + "" == body;
    assert PlainNotification(w, p, id, isTest)
        == body + "\n\n" + "#" + id[..if |id| < 8 then |id| else 8];
    PrefixSays(body, body + "\n\n", v);
    PrefixSays(body + "\n\n", body + "\n\n" + "#", v);
    PrefixSays(body + "\n\n" + "#", PlainNotification(w, p, id, isTest), v);
  }
}
