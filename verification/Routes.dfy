/** Where an automation job is sent: the route of a job type, the check made before anything is claimed,
    and how a failed answer is classified. */
module Routes {
  import opened Wrappers
  import opened Automation

  // ----- text

  predicate IsSpace(c: char) {
    c == ' ' || (9 as char <= c <= 13 as char) || c == 160 as char || c == 5760 as char || (8192 as char <= c <= 8202 as char)
    || c == 8232 as char || c == 8233 as char || c == 8239 as char || c == 8287 as char || c == 12288 as char || c == 65279 as char
  }

  function TrimStart(s: string): string {
    if s != "" && IsSpace(s[0]) then TrimStart(s[1..]) else s
  }

  function TrimEnd(s: string, drop: char -> bool): string {
    if s != "" && drop(s[|s| - 1]) then TrimEnd(s[..|s| - 1], drop) else s
  }

  function Trim(s: string): string {
    TrimStart(TrimEnd(s, IsSpace))
  }

  lemma {:induction false} TrimStartIs(s: string) returns (i: nat)
    ensures i <= |s| && TrimStart(s) == s[i..] && (i < |s| ==> !IsSpace(s[i]))
    ensures forall k :: 0 <= k < i ==> IsSpace(s[k])
  {
    i := 0;
    if s != "" && IsSpace(s[0]) {
      i := TrimStartIs(s[1..]);
      assert forall k :: 0 < k <= i ==> s[k] == s[1..][k - 1];
      i := i + 1;
    }
  }

  lemma {:induction false} TrimEndIs(s: string, drop: char -> bool) returns (j: nat)
    ensures j <= |s| && TrimEnd(s, drop) == s[..j] && (0 < j ==> !drop(s[j - 1]))
    ensures forall k :: j <= k < |s| ==> drop(s[k])
  {
    j := |s|;
    if s != "" && drop(s[|s| - 1]) {
      j := TrimEndIs(s[..|s| - 1], drop);
      assert s[..|s| - 1][..j] == s[..j];
    }
  }

  ghost predicate Blanks(s: string) {
    forall k :: 0 <= k < |s| ==> IsSpace(s[k])
  }

  /** Trimming drops the blanks at both ends, all of them and nothing else. */
  lemma TrimIs(s: string) returns (left: string, right: string)
    ensures s == left + Trim(s) + right && Blanks(left) && Blanks(right)
    ensures Trim(s) != "" ==> !IsSpace(Trim(s)[0]) && !IsSpace(Trim(s)[|Trim(s)| - 1])
  {
    var e := TrimEnd(s, IsSpace);
    var j := TrimEndIs(s, IsSpace);
    var i := TrimStartIs(e);
    left, right := e[..i], s[j..];
  }

  function TrimSlashes(s: string): string {
    TrimEnd(s, c => c == '/')
  }

  /** Slashes are dropped at the end, all of them and nothing else. */
  lemma TrimSlashesIs(s: string) returns (right: string)
    ensures s == TrimSlashes(s) + right && (forall k :: 0 <= k < |right| ==> right[k] == '/')
    ensures TrimSlashes(s) != "" ==> TrimSlashes(s)[|TrimSlashes(s)| - 1] != '/'
  {
    var j := TrimEndIs(s, c => c == '/');
    right := s[j..];
  }

  lemma {:induction false} TrimStartPrefix(s: string, t: string)
    requires t != "" && !IsSpace(t[0])
    ensures TrimStart(s + t) == TrimStart(s) + t
  {
    if s == "" {
      assert s + t == t;
    } else if IsSpace(s[0]) {
      assert (s + t)[1..] == s[1..] + t;
      TrimStartPrefix(s[1..], t);
    }
  }

  // ----- routes

  /** The variables of the environment that routing reads; absent and empty are different.
      trusted and parses stand for the origin policy and for the URL parser. */
  datatype Env = Env(
    specific: JobType -> Option<string>,
    webhookBase: Option<string>,
    automationUrl: Option<string>,
    production: bool,
    disabled: set<JobType>,
    trusted: string -> bool,
    parses: string -> bool
  )

  /** What the origin policy promises: it only trusts what the parser accepts. */
  ghost predicate TrustedMeansParses(env: Env) {
    forall s :: env.trusted(s) ==> env.parses(Trim(s))
  }

  datatype Route = Url(text: string) | NoRoute | RouteError

  const SUPPORTED: seq<JobType> := [CMS_AI_DRAFT, ORDER_PAID_EMAIL, LICENSE_PROVISIONED_EMAIL, SERVICE_INQUIRY_NOTIFY_EMAIL]

  lemma SupportedIff(t: JobType)
    ensures t in SUPPORTED <==> t != EXTERNAL_ALLOCATION_EMAIL
  {
    assert SUPPORTED[0] == CMS_AI_DRAFT && SUPPORTED[1] == ORDER_PAID_EMAIL;
    assert SUPPORTED[2] == LICENSE_PROVISIONED_EMAIL && SUPPORTED[3] == SERVICE_INQUIRY_NOTIFY_EMAIL;
  }

  const WEBHOOK := "/webhook/"

  function WebhookPath(t: JobType): Option<string> {
    match t
    case CMS_AI_DRAFT => Some(WEBHOOK + "cms-ai-draft")
    case ORDER_PAID_EMAIL => Some(WEBHOOK + "order-paid-email")
    case LICENSE_PROVISIONED_EMAIL => Some(WEBHOOK + "license-provisioned-email")
    case SERVICE_INQUIRY_NOTIFY_EMAIL => Some(WEBHOOK + "service-inquiry-notify-email")
    case EXTERNAL_ALLOCATION_EMAIL => None
  }

  /** True of the values JavaScript takes for true. */
  predicate Present(s: Option<string>) {
    s.Some? && s.value != ""
  }

  function Candidate(env: Env, t: JobType, path: string): Option<string> {
    var base := if Present(env.webhookBase) then env.webhookBase else env.automationUrl;
    if !Present(env.specific(t)) && Present(base) then Some(TrimSlashes(Trim(base.value)) + path)
    else env.specific(t)
  }

  function Resolve(env: Env, t: JobType): Route {
    match WebhookPath(t)
    case None => RouteError
    case Some(path) =>
      var candidate := Candidate(env, t, path);
      if candidate.None? || Trim(candidate.value) == "" then (if env.production then RouteError else NoRoute)
      else if env.production && !env.trusted(candidate.value) then RouteError
      else Url(Trim(candidate.value))
  }

  /** The text a route is made from: the variable of the type, or else a base with the path of the type, or nothing. */
  ghost function RouteText(env: Env, t: JobType, path: string): string {
    if env.specific(t).Some? && env.specific(t).value != "" then env.specific(t).value
    else if env.webhookBase.Some? && env.webhookBase.value != "" then TrimSlashes(Trim(env.webhookBase.value)) + path
    else if env.automationUrl.Some? && env.automationUrl.value != "" then TrimSlashes(Trim(env.automationUrl.value)) + path
    else ""
  }

  /** A supported type resolves to that text, trimmed, iff something is left of it and, in production, it is trusted;
      otherwise production refuses and development has no route. */
  lemma ResolveIff(env: Env, t: JobType, u: string)
    requires t in SUPPORTED
    ensures var text := RouteText(env, t, WebhookPath(t).value);
      && (Resolve(env, t) == Url(u) <==> u == Trim(text) && u != "" && (env.production ==> env.trusted(text)))
      && (Resolve(env, t) == NoRoute <==> !env.production && Trim(text) == "")
  {
    assert Trim("") == "";
  }

  /** A resolved URL is never empty, and in production it always parses. */
  lemma ResolvedIsUsable(env: Env, t: JobType)
    requires Resolve(env, t).Url?
    ensures Resolve(env, t).text != ""
    ensures env.production && TrustedMeansParses(env) ==> env.parses(Resolve(env, t).text)
  {
  }

  lemma {:induction false} TrimEndKeeps(s: string, drop: char -> bool)
    requires s != "" && !drop(s[|s| - 1])
    ensures TrimEnd(s, drop) == s
  {
  }

  /** When a supported type has no usable route outside production: the specific variable and both base
      variables are absent or empty, or the specific one is nothing but blanks, which hides the base. */
  lemma NoRouteIff(env: Env, t: JobType)
    requires t in SUPPORTED && !env.production
    ensures Resolve(env, t).NoRoute? <==>
      if Present(env.specific(t)) then Trim(env.specific(t).value) == ""
      else !Present(env.webhookBase) && !Present(env.automationUrl)
  {
    var path := WebhookPath(t).value;
    var base := if Present(env.webhookBase) then env.webhookBase else env.automationUrl;
    if !Present(env.specific(t)) && Present(base) {
      var b := TrimSlashes(Trim(base.value));
      var u := b + path;
      assert u[|u| - 1] == path[|path| - 1];
      TrimEndKeeps(u, IsSpace);
      assert path[0] == '/';
      TrimStartPrefix(b, path);
    } else if env.specific(t) == Some("") {
      assert Trim("") == "";
    }
  }

  /** Without a specific variable the route is the base, cleaned, with the path of the type. */
  lemma BaseRoute(env: Env, t: JobType)
    requires t in SUPPORTED && !Present(env.specific(t)) && Resolve(env, t).Url?
    ensures var base := if Present(env.webhookBase) then env.webhookBase else env.automationUrl;
      Present(base) && Resolve(env, t).text == TrimStart(TrimSlashes(Trim(base.value))) + WebhookPath(t).value
  {
    var path := WebhookPath(t).value;
    var base := if Present(env.webhookBase) then env.webhookBase else env.automationUrl;
    if Present(base) {
      var b := TrimSlashes(Trim(base.value));
      assert (b + path)[|b + path| - 1] == path[|path| - 1];
      TrimEndKeeps(b + path, IsSpace);
      assert path[0] == '/';
      TrimStartPrefix(b, path);
    }
  }

  lemma PathsDiffer(t: JobType, t': JobType)
    requires t in SUPPORTED && t' in SUPPORTED && t != t'
    ensures WebhookPath(t).value != WebhookPath(t').value
  {
    var p, p' := WebhookPath(t).value, WebhookPath(t').value;
    assert "cms-ai-draft"[0] == 'c' && "order-paid-email"[0] == 'o';
    assert "license-provisioned-email"[0] == 'l' && "service-inquiry-notify-email"[0] == 's';
    assert p[9] != p'[9];
  }

  /** Two types that share a base never share a route. */
  lemma BaseRoutesDiffer(env: Env, t: JobType, t': JobType)
    requires t in SUPPORTED && t' in SUPPORTED && t != t' && !Present(env.specific(t)) && !Present(env.specific(t'))
    requires Resolve(env, t).Url? && Resolve(env, t').Url?
    ensures Resolve(env, t).text != Resolve(env, t').text
  {
    BaseRoute(env, t);
    BaseRoute(env, t');
    var base := if Present(env.webhookBase) then env.webhookBase else env.automationUrl;
    var b, p, p' := TrimStart(TrimSlashes(Trim(base.value))), WebhookPath(t).value, WebhookPath(t').value;
    PathsDiffer(t, t');
    assert (b + p)[|b|..] == p && (b + p')[|b|..] == p';
  }

  /** The name of a job type in the schema. */
  function Name(t: JobType): string {
    match t
    case CMS_AI_DRAFT => "CMS_AI_DRAFT"
    case ORDER_PAID_EMAIL => "ORDER_PAID_EMAIL"
    case LICENSE_PROVISIONED_EMAIL => "LICENSE_PROVISIONED_EMAIL"
    case SERVICE_INQUIRY_NOTIFY_EMAIL => "SERVICE_INQUIRY_NOTIFY_EMAIL"
    case EXTERNAL_ALLOCATION_EMAIL => "EXTERNAL_ALLOCATION_EMAIL"
  }

  function Kebab(s: string): string {
    seq(|s|, i requires 0 <= i < |s| =>
      if s[i] == '_' then '-' else if 'A' <= s[i] <= 'Z' then s[i] + 32 as char else s[i])
  }

  lemma DraftName()
    ensures Kebab("CMS_AI_DRAFT") == "cms-ai-draft"
  {
  }

  lemma PaidName()
    ensures Kebab("ORDER_PAID_EMAIL") == "order-paid-email"
  {
  }

  lemma LicenseName()
    ensures Kebab("LICENSE_PROVISIONED_EMAIL") == "license-provisioned-email"
  {
  }

  lemma InquiryName()
    ensures Kebab("SERVICE_INQUIRY_NOTIFY_EMAIL") == "service-inquiry-notify-email"
  {
  }

  /** The path of a type is its name in lower case, with dashes. */
  lemma PathsAreNames(t: JobType)
    requires t in SUPPORTED
    ensures WebhookPath(t) == Some("/webhook/" + Kebab(Name(t)))
  {
    DraftName();
    PaidName();
    LicenseName();
    InquiryName();
  }

  // ----- the check before a claim

  datatype RouteCheck = RouteCheck(valid: bool, missing: seq<JobType>, disabled: set<JobType>)

  predicate Routed(env: Env, t: JobType) {
    Resolve(env, t).Url? && Resolve(env, t).text != ""
  }

  ghost predicate Valid(env: Env) {
    forall t :: t in SUPPORTED && t !in env.disabled ==> Routed(env, t)
  }

  function Allowed(env: Env): set<JobType> {
    (set t | t in SUPPORTED) - env.disabled
  }

  method ValidateAutomationRoutes(env: Env) returns (r: RouteCheck)
    ensures r.valid <==> Valid(env)
    ensures forall t :: t in r.missing <==> t in SUPPORTED && t !in env.disabled && !Routed(env, t)
    ensures r.disabled == env.disabled
  {
    var missing: seq<JobType> := [];
    for i := 0 to |SUPPORTED|
      invariant forall t :: t in missing <==> t in SUPPORTED[..i] && t !in env.disabled && !Routed(env, t)
    {
      var t := SUPPORTED[i];
      assert SUPPORTED[..i + 1] == SUPPORTED[..i] + [t];
      if t in env.disabled { continue; }
      var route := Resolve(env, t);
      if !route.Url? || route.text == "" {
        missing := missing + [t];
      }
    }
    assert SUPPORTED[..|SUPPORTED|] == SUPPORTED;
    if |missing| > 0 { assert missing[0] in missing; }
    r := RouteCheck(|missing| == 0, missing, env.disabled);
  }

  // ----- answers

  /** body is the answer's text after sanitizing and cutting it. */
  datatype Response = Accepted | HttpError(status: nat, body: string) | NetworkError(message: string)

  const MARKER := "retryable=true"

  predicate OccursAt(s: string, p: string, i: nat) {
    i + |p| <= |s| && s[i..i + |p|] == p
  }

  predicate Contains(s: string, p: string) {
    exists i :: 0 <= i <= |s| && OccursAt(s, p, i)
  }

  function Digits(n: nat): (s: string)
    ensures s != "" && forall i :: 0 <= i < |s| ==> '0' <= s[i] <= '9'
  {
    var last := [('0' as int + n % 10) as char];
    if n < 10 then last else Digits(n / 10) + last
  }

  predicate RetryableStatus(status: nat) {
    status == 429 || status >= 500
  }

  function Heading(status: nat): string {
    "n8n webhook failed [" + Digits(status) + "]: "
  }

  function Verdict(retryable: bool): string {
    if retryable then " (retryable=true)" else " (retryable=false)"
  }

  function ErrorText(r: Response): string
    requires !r.Accepted?
  {
    if r.HttpError? then Heading(r.status) + r.body + Verdict(RetryableStatus(r.status))
    else "n8n webhook network error: " + r.message + Verdict(true)
  }

  /** How the dispatcher classifies a failure: by searching the text it made. */
  predicate Retryable(r: Response)
    requires !r.Accepted?
  {
    Contains(ErrorText(r), MARKER)
  }

  lemma ContainsShift(a: string, s: string, b: string, p: string)
    requires Contains(s, p)
    ensures Contains(a + s + b, p)
  {
    var i :| 0 <= i <= |s| && OccursAt(s, p, i);
    assert (a + s + b)[|a| + i..|a| + i + |p|] == s[i..i + |p|];
    assert OccursAt(a + s + b, p, |a| + i);
  }

  lemma Character(s: string, p: string, i: nat, k: nat)
    requires OccursAt(s, p, i) && k < |p|
    ensures s[i + k] == p[k]
  {
    assert s[i..i + |p|][k] == p[k];
  }

  lemma Overlap(s: string, p: string, i: nat)
    requires OccursAt(s, p, i)
    ensures forall k :: i <= k < i + |p| ==> s[k] in p
  {
    forall k | i <= k < i + |p| ensures s[k] in p {
      Character(s, p, i, k - i);
    }
  }

  /** An occurrence in a + s + b lies within one of the three when the characters at the seams are not in it. */
  lemma NotAcrossSeams(a: string, s: string, b: string, p: string)
    requires a != "" && a[|a| - 1] !in p && b != "" && b[0] !in p && p != ""
    requires Contains(a + s + b, p)
    ensures Contains(a, p) || Contains(s, p) || Contains(b, p)
  {
    var t, n, m := a + s + b, |a|, |a| + |s|;
    var i :| 0 <= i <= |t| && OccursAt(t, p, i);
    var w := t[i..i + |p|];
    Overlap(t, p, i);
    assert t[n - 1] == a[n - 1] && t[m] == b[0];
    if i + |p| <= n {
      assert OccursAt(a, p, i) by { assert a[i..i + |p|] == w; }
    } else if i < n {
      assert false;
    } else if i + |p| <= m {
      assert OccursAt(s, p, i - n) by { assert s[i - n..i - n + |p|] == w; }
    } else if i <= m {
      assert false;
    } else {
      assert OccursAt(b, p, i - m) by { assert b[i - m..i - m + |p|] == w; }
    }
  }

  lemma VerdictContains(retryable: bool)
    ensures retryable ==> Contains(Verdict(retryable), MARKER)
  {
    if retryable { assert OccursAt(Verdict(true), MARKER, 2); }
  }

  lemma HeadingHasNoMarker(status: nat)
    ensures !Contains(Heading(status), MARKER)
  {
    var h, a, d := Heading(status), "n8n webhook failed [", Digits(status);
    assert h == a + d + "]: ";
    forall k | 0 <= k < |h| ensures h[k] != '=' {
      if |a| <= k < |a| + |d| { assert h[k] == d[k - |a|]; }
    }
    forall i | 0 <= i <= |h| ensures !OccursAt(h, MARKER, i) {
      if OccursAt(h, MARKER, i) {
        Character(h, MARKER, i, 9);
      }
    }
  }

  lemma RefusalHasNoMarker()
    ensures !Contains(Verdict(false), MARKER)
  {
    var v := Verdict(false);
    forall i | 0 <= i <= |v| ensures !OccursAt(v, MARKER, i) {
      if OccursAt(v, MARKER, i) {
        Character(v, MARKER, i, 0);
        Character(v, MARKER, i, 10);
      }
    }
  }

  /** Network errors are always retried. An answer is retried iff its status is 429 or at least 500, or its body
      happens to contain the marker the dispatcher searches for. */
  lemma RetryableIff(r: Response)
    requires !r.Accepted?
    ensures Retryable(r) <==> r.NetworkError? || r.status == 429 || r.status >= 500 || Contains(r.body, "retryable=true")
  {
    if r.NetworkError? {
      VerdictContains(true);
      ContainsShift("n8n webhook network error: " + r.message, Verdict(true), "", MARKER);
      assert "n8n webhook network error: " + r.message + Verdict(true) + "" == ErrorText(r);
    } else {
      var v := Verdict(RetryableStatus(r.status));
      if RetryableStatus(r.status) {
        VerdictContains(true);
        ContainsShift(Heading(r.status) + r.body, v, "", MARKER);
        assert Heading(r.status) + r.body + v + "" == ErrorText(r);
      } else if Contains(r.body, MARKER) {
        ContainsShift(Heading(r.status), r.body, v, MARKER);
      } else if Retryable(r) {
        NotAcrossSeams(Heading(r.status), r.body, v, MARKER);
        HeadingHasNoMarker(r.status);
        RefusalHasNoMarker();
      }
    }
  }

  /** At an explicit answer: a 400 is not to be retried, but one that quotes the marker is. */
  lemma MarkerIsRetried()
    ensures !Retryable(HttpError(400, "")) && Retryable(HttpError(400, "retryable=true"))
  {
    RetryableIff(HttpError(400, ""));
    RetryableIff(HttpError(400, MARKER));
    assert OccursAt(MARKER, MARKER, 0);
  }
}
