/** What the notifier reads from its environment. */
module NotifierConfig {
  import opened Wrappers
  import opened Routes

  type Email = string

  const DEFAULT_MAX_STAFF_RECIPIENTS := 50
  const DEFAULT_MAX_EMAIL_RECIPIENTS := 10
  const DEFAULT_HOURLY_EMAIL_CAP := 30

  datatype Config = Config(emails: seq<Email>, invalidEmails: nat, maxStaff: nat, hourlyEmailCap: nat, adminBaseUrl: Option<string>)

  // ----- numbers

  /** What Number() makes of a variable; None stands for NaN and the infinities. */
  type Numeric = Option<real>

  predicate Reads(raw: Numeric, n: nat) {
    raw == Some(n as real)
  }

  /** The positive integer the variable holds, if it holds one, and the fallback otherwise. */
  function PositiveInt(raw: Numeric, fallback: nat): (n: nat)
    requires fallback > 0
    ensures n > 0
    ensures forall k: nat :: k > 0 && Reads(raw, k) ==> n == k
    ensures (forall k: nat :: k > 0 ==> !Reads(raw, k)) ==> n == fallback
  {
    var n := if raw.Some? && raw.value.Floor as real == raw.value && raw.value > 0.0 then raw.value.Floor else fallback;
    assert n != fallback ==> Reads(raw, n);
    n
  }

  // ----- the mailbox list

  predicate IsSeparator(c: char) {
    c == ',' || c == ';' || IsSpace(c)
  }

  /** Length of the longest prefix without separators (or of separators). */
  function RunLength(s: string, separators: bool): (n: nat)
    ensures n <= |s| && forall i :: 0 <= i < n ==> (IsSeparator(s[i]) <==> separators)
    ensures n < |s| ==> (IsSeparator(s[n]) <==> !separators)
  {
    if s == "" || (IsSeparator(s[0]) <==> !separators) then 0 else 1 + RunLength(s[1..], separators)
  }

  /** Split at every run of separators. */
  function Split(s: string): (parts: seq<string>)
    ensures parts != [] && forall i, j :: 0 <= i < |parts| && 0 <= j < |parts[i]| ==> !IsSeparator(parts[i][j])
    decreases |s|
  {
    var n := RunLength(s, false);
    if n == |s| then [s]
    else
      var rest := s[n..];
      var m := RunLength(rest, true);
      [s[..n]] + Split(rest[m..])
  }

  ghost function Flatten(parts: seq<string>): string {
    if parts == [] then "" else parts[0] + Flatten(parts[1..])
  }

  ghost function WithoutSeparators(s: string): string {
    if s == "" then "" else (if IsSeparator(s[0]) then "" else [s[0]]) + WithoutSeparators(s[1..])
  }

  /** One character more, or one separator more, is taken off the front. */
  lemma SkipsOne(s: string, separator: bool, kept: string, rest: string)
    requires s != "" && (IsSeparator(s[0]) <==> separator)
    requires WithoutSeparators(s[1..]) == kept + rest
    ensures WithoutSeparators(s) == (if separator then kept else [s[0]] + kept) + rest
  {
    assert [s[0]] + (kept + rest) == ([s[0]] + kept) + rest;
  }

  lemma {:induction false} SkipsRun(s: string, n: nat, separators: bool)
    requires n <= |s| && forall i :: 0 <= i < n ==> (IsSeparator(s[i]) <==> separators)
    ensures WithoutSeparators(s) == (if separators then "" else s[..n]) + WithoutSeparators(s[n..])
  {
    if n == 0 {
      assert s[0..] == s;
      assert (if separators then "" else s[..0]) + WithoutSeparators(s) == WithoutSeparators(s);
    } else {
      var tail := s[1..];
      SkipsRun(tail, n - 1, separators);
      var rest := WithoutSeparators(tail[n - 1..]);
      assert tail[n - 1..] == s[n..];
      SkipsOne(s, separators, if separators then "" else tail[..n - 1], rest);
      assert !separators ==> s[..n] == [s[0]] + tail[..n - 1];
    }
  }

  lemma SplitOnce(s: string) returns (front: string, tail: string)
    requires RunLength(s, false) < |s|
    ensures |tail| < |s| && Split(s) == [front] + Split(tail)
    ensures WithoutSeparators(s) == front + WithoutSeparators(tail)
  {
    var n := RunLength(s, false);
    var rest := s[n..];
    var m := RunLength(rest, true);
    front, tail := s[..n], rest[m..];
    SkipsRun(s, n, false);
    SkipsRun(rest, m, true);
    assert "" + WithoutSeparators(tail) == WithoutSeparators(tail);
  }

  lemma FlattenCons(front: string, parts: seq<string>)
    ensures Flatten([front] + parts) == front + Flatten(parts)
  {
    assert ([front] + parts)[1..] == parts;
  }

  lemma NoSeparators(s: string)
    requires RunLength(s, false) == |s|
    ensures Split(s) == [s] && WithoutSeparators(s) == s
  {
    SkipsRun(s, |s|, false);
    assert s[|s|..] == "" && s[..|s|] == s && s + "" == s;
  }

  /** Splitting loses nothing but separators and keeps the order. */
  lemma {:induction false} SplitKeepsText(s: string)
    ensures Flatten(Split(s)) == WithoutSeparators(s)
    decreases |s|
  {
    if RunLength(s, false) == |s| {
      NoSeparators(s);
      FlattenCons(s, []);
      assert [s] + [] == [s] && s + "" == s;
    } else {
      var front, tail := SplitOnce(s);
      SplitKeepsText(tail);
      FlattenCons(front, Split(tail));
    }
  }

  /** The parts with the gaps between them. */
  ghost function Weave(parts: seq<string>, gaps: seq<string>): string
    requires |parts| == |gaps| + 1
  {
    if gaps == [] then parts[0] else parts[0] + gaps[0] + Weave(parts[1..], gaps[1..])
  }

  ghost predicate Separators(s: string) {
    s != "" && forall i :: 0 <= i < |s| ==> IsSeparator(s[i])
  }

  lemma {:induction false} SplitGaps(s: string) returns (gaps: seq<string>)
    ensures |Split(s)| == |gaps| + 1 && s == Weave(Split(s), gaps)
    ensures forall i :: 0 <= i < |gaps| ==> Separators(gaps[i])
    decreases |s|
  {
    var n := RunLength(s, false);
    if n == |s| {
      gaps := [];
    } else {
      var rest := s[n..];
      var m := RunLength(rest, true);
      var more := SplitGaps(rest[m..]);
      gaps := [rest[..m]] + more;
      assert Separators(rest[..m]) by { assert IsSeparator(rest[0]); }
      assert Split(s) == [s[..n]] + Split(rest[m..]);
      assert Split(s)[1..] == Split(rest[m..]) && gaps[1..] == more;
      assert s == s[..n] + rest[..m] + rest[m..];
    }
  }

  /** One or more commas, semicolons and blanks. */
  ghost predicate Gap(s: string) {
    s != "" && forall c :: c in s ==> c == ',' || c == ';' || IsSpace(c)
  }

  /** The text is the parts with a gap between any two of them, so that it is split at every run of separators and
      nowhere else. */
  lemma SplitIs(s: string) returns (gaps: seq<string>)
    ensures |Split(s)| == |gaps| + 1 && s == Weave(Split(s), gaps)
    ensures forall i :: 0 <= i < |gaps| ==> Gap(gaps[i])
  {
    gaps := SplitGaps(s);
    forall i | 0 <= i < |gaps| ensures Gap(gaps[i]) {
      assert Separators(gaps[i]);
    }
  }

  lemma PartsHaveNoSeparators(s: string, part: string)
    requires part in Split(s)
    ensures ',' !in part && ';' !in part && forall c :: c in part ==> !IsSpace(c)
  {
    var i :| 0 <= i < |Split(s)| && Split(s)[i] == part;
    forall c | c in part ensures !IsSeparator(c) {
      var j :| 0 <= j < |part| && part[j] == c;
      assert !IsSeparator(Split(s)[i][j]);
    }
  }

  ghost predicate Distinct<T>(s: seq<T>) {
    forall i, j :: 0 <= i < j < |s| ==> s[i] != s[j]
  }

  function Take<T>(s: seq<T>, n: nat): seq<T> {
    if |s| <= n then s else s[..n]
  }

  /** Position of the first occurrence. */
  ghost function FirstAt(parts: seq<Email>, e: Email): (i: nat)
    requires e in parts
    ensures i < |parts| && parts[i] == e && e !in parts[..i]
  {
    if e in parts[..|parts| - 1] then FirstAt(parts[..|parts| - 1], e) else |parts| - 1
  }

  /** The first n parts that are neither empty nor well-formed. */
  ghost function CountInvalid(parts: seq<Email>, wellFormed: Email -> bool): nat {
    if parts == [] then 0
    else
      var e := parts[|parts| - 1];
      CountInvalid(parts[..|parts| - 1], wellFormed) + if e != "" && !wellFormed(e) then 1 else 0
  }

  ghost function Malformed(parts: seq<Email>, wellFormed: Email -> bool): set<nat> {
    set i: nat | i < |parts| && parts[i] != "" && !wellFormed(parts[i])
  }

  lemma {:induction false} CountInvalidIs(parts: seq<Email>, wellFormed: Email -> bool)
    ensures CountInvalid(parts, wellFormed) == |Malformed(parts, wellFormed)|
  {
    if parts != [] {
      var n := |parts| - 1;
      CountInvalidIs(parts[..n], wellFormed);
      var x, y := Malformed(parts[..n], wellFormed), Malformed(parts, wellFormed);
      assert y == if parts[n] != "" && !wellFormed(parts[n]) then x + {n} else x;
    }
  }

  /** The well-formed mailboxes of parts, each once, in order of first appearance. */
  ghost predicate Collected(parts: seq<Email>, wellFormed: Email -> bool, found: seq<Email>) {
    && Distinct(found)
    && (forall e :: e in found <==> e in parts && e != "" && wellFormed(e))
    && (forall i, j :: 0 <= i < j < |found| ==> FirstAt(parts, found[i]) < FirstAt(parts, found[j]))
  }

  lemma FirstAtSnoc(parts: seq<Email>, e: Email, f: Email)
    requires f in parts || f == e
    ensures FirstAt(parts + [e], f) == if f in parts then FirstAt(parts, f) else |parts|
  {
    assert (parts + [e])[..|parts|] == parts;
  }

  lemma CollectMore(parts: seq<Email>, e: Email, wellFormed: Email -> bool, found: seq<Email>, more: seq<Email>)
    requires Collected(parts, wellFormed, found)
    requires more == if e == "" || !wellFormed(e) || e in found then found else found + [e]
    ensures Collected(parts + [e], wellFormed, more)
  {
    assert forall f :: f in parts + [e] <==> f in parts || f == e;
    forall i, j | 0 <= i < j < |more| ensures FirstAt(parts + [e], more[i]) < FirstAt(parts + [e], more[j]) {
      FirstAtSnoc(parts, e, more[i]);
      FirstAtSnoc(parts, e, more[j]);
    }
  }

  lemma CollectNext(parts: seq<Email>, i: nat, wellFormed: Email -> bool, found: seq<Email>, more: seq<Email>)
    requires i < |parts| && Collected(parts[..i], wellFormed, found)
    requires more == if parts[i] == "" || !wellFormed(parts[i]) || parts[i] in found then found else found + [parts[i]]
    ensures Collected(parts[..i + 1], wellFormed, more)
    ensures CountInvalid(parts[..i + 1], wellFormed) ==
      CountInvalid(parts[..i], wellFormed) + if parts[i] != "" && !wellFormed(parts[i]) then 1 else 0
  {
    assert parts[..i + 1] == parts[..i] + [parts[i]];
    assert parts[..i + 1][..i] == parts[..i];
    CollectMore(parts[..i], parts[i], wellFormed, found, more);
  }

  method CollectMailboxes(parts: seq<Email>, wellFormed: Email -> bool) returns (seen: seq<Email>, invalid: nat)
    ensures Collected(parts, wellFormed, seen) && invalid == CountInvalid(parts, wellFormed)
  {
    seen, invalid := [], 0;
    for i := 0 to |parts|
      invariant Collected(parts[..i], wellFormed, seen)
      invariant invalid == CountInvalid(parts[..i], wellFormed)
    {
      var email := parts[i];
      ghost var found := seen;
      if email != "" {
        if !wellFormed(email) {
          invalid := invalid + 1;
        } else if email !in seen {
          seen := seen + [email];
        }
      }
      CollectNext(parts, i, wellFormed, found, seen);
    }
    assert parts[..|parts|] == parts;
  }

  // ----- the whole

  /** What the URL parser finds in an absolute URL. */
  datatype Parsed = Parsed(protocol: string, origin: string)

  /** The variables; absent and empty are different. */
  datatype Env = Env(emails: Option<string>, maxEmails: Numeric, maxStaff: Numeric, cap: Numeric, adminUrl: Option<string>)

  /** The origin of the admin site, if one is configured that parses and is a web URL. */
  function AdminBase(raw: Option<string>, parse: string -> Option<Parsed>): Option<string> {
    if raw.None? || Trim(raw.value) == "" then None
    else
      match parse(Trim(raw.value))
      case None => None
      case Some(u) => if u.protocol == "https:" || u.protocol == "http:" then Some(u.origin) else None
  }

  function Normalised(text: Option<string>, lower: string -> string): seq<Email> {
    var parts := Split(if text.Some? then text.value else "");
    seq(|parts|, i requires 0 <= i < |parts| => lower(Trim(parts[i])))
  }

  /** In terms of the parts of the text: the well-formed ones in lower case, and how many are malformed. */
  ghost predicate Mailboxes(parts: seq<string>, lower: string -> string, wellFormed: Email -> bool, all: seq<Email>, invalid: nat) {
    && Distinct(all)
    && (forall e :: e in all <==> e != "" && wellFormed(e) && exists i :: 0 <= i < |parts| && e == lower(Trim(parts[i])))
    && invalid == |set i: nat | i < |parts| && lower(Trim(parts[i])) != "" && !wellFormed(lower(Trim(parts[i])))|
  }

  lemma CollectedAre(parts: seq<string>, lower: string -> string, wellFormed: Email -> bool, all: seq<Email>, texts: seq<Email>)
    requires |texts| == |parts| && forall i :: 0 <= i < |parts| ==> texts[i] == lower(Trim(parts[i]))
    requires Collected(texts, wellFormed, all)
    ensures Mailboxes(parts, lower, wellFormed, all, CountInvalid(texts, wellFormed))
  {
    CountInvalidIs(texts, wellFormed);
    assert Malformed(texts, wellFormed) ==
      set i: nat | i < |parts| && lower(Trim(parts[i])) != "" && !wellFormed(lower(Trim(parts[i])));
    forall e ensures e in texts <==> exists i :: 0 <= i < |parts| && e == lower(Trim(parts[i])) {
      if e in texts {
        var i :| 0 <= i < |texts| && texts[i] == e;
        assert e == lower(Trim(parts[i]));
      }
      if i :| 0 <= i < |parts| && e == lower(Trim(parts[i])) { assert texts[i] == e; }
    }
  }

  /** lower, wellFormed and parse stand for lower-casing, the mailbox pattern and the URL parser; all (history) is
      the list before it is cut. */
  method LoadNotifierConfig(env: Env, lower: string -> string, wellFormed: Email -> bool, parse: string -> Option<Parsed>)
    returns (cfg: Config, ghost all: seq<Email>)
    ensures Mailboxes(Split(if env.emails.Some? then env.emails.value else ""), lower, wellFormed, all, cfg.invalidEmails)
    ensures Collected(Normalised(env.emails, lower), wellFormed, all)
    ensures var limit := PositiveInt(env.maxEmails, 10); cfg.emails == all[..if |all| < limit then |all| else limit]
    ensures cfg.maxStaff == PositiveInt(env.maxStaff, 50) && cfg.hourlyEmailCap == PositiveInt(env.cap, 30)
    ensures cfg.adminBaseUrl.Some? <==>
      env.adminUrl.Some? && Trim(env.adminUrl.value) != "" && parse(Trim(env.adminUrl.value)).Some?
      && parse(Trim(env.adminUrl.value)).value.protocol in {"https:", "http:"}
    ensures cfg.adminBaseUrl.Some? ==> cfg.adminBaseUrl.value == parse(Trim(env.adminUrl.value)).value.origin
  {
    var seen, invalid := CollectMailboxes(Normalised(env.emails, lower), wellFormed);
    all := seen;
    CollectedAre(Split(if env.emails.Some? then env.emails.value else ""), lower, wellFormed, seen, Normalised(env.emails, lower));
    cfg := Config(Take(seen, PositiveInt(env.maxEmails, DEFAULT_MAX_EMAIL_RECIPIENTS)), invalid,
                  PositiveInt(env.maxStaff, DEFAULT_MAX_STAFF_RECIPIENTS), PositiveInt(env.cap, DEFAULT_HOURLY_EMAIL_CAP),
                  AdminBase(env.adminUrl, parse));
  }
}
