// The endpoint policy of the signaling client (apps/companion-core/src/signaling.rs):
// the host of a URL, and which URLs may be used.

module Url {
  import opened Wire

  // ----- the code

  /** What follows the first "://", if there is one. */
  function AfterScheme(s: string): Option<string> {
    if |s| < 3 then None
    else if s[..3] == "://" then Some(s[3..])
    else AfterScheme(s[1..])
  }

  /** The part before the first of some delimiters. */
  function TakeUntil(s: string, ds: set<char>): string {
    if s == [] || s[0] in ds then [] else [s[0]] + TakeUntil(s[1..], ds)
  }

  /** The part after the last '@'; all of it if there is none. */
  function LastPart(s: string): string {
    if s == [] || s[|s| - 1] == '@' then [] else LastPart(s[..|s| - 1]) + [s[|s| - 1]]
  }

  function LowerChar(c: char): char {
    if 'A' <= c <= 'Z' then (c as int + 32) as char else c
  }

  function Lower(s: string): string {
    seq(|s|, i requires 0 <= i < |s| => LowerChar(s[i]))
  }

  const PATH_START: set<char> := {'/', '?', '#'}

  function HostPort(rest: string): string {
    LastPart(TakeUntil(rest, PATH_START))
  }

  function RawHost(hostport: string): string {
    if hostport != [] && hostport[0] == '[' then TakeUntil(hostport[1..], {']'}) else TakeUntil(hostport, {':'})
  }

  function UrlHost(url: string): Option<string> {
    var rest := AfterScheme(url);
    if rest.None? then None
    else
      var host := RawHost(HostPort(rest.value));
      if host == [] then None else Some(Lower(host))
  }

  predicate LoopbackName(host: string) {
    host == "localhost" || host == "127.0.0.1" || host == "::1"
  }

  predicate IsLoopback(url: string) {
    UrlHost(url).Some? && LoopbackName(UrlHost(url).value)
  }

  /** White space in the sense of Unicode. */
  predicate Space(c: char) {
    var n := c as int;
    || 0x9 <= n <= 0xD || n == 0x20 || n == 0x85 || n == 0xA0 || n == 0x1680 || 0x2000 <= n <= 0x200A
    || n == 0x2028 || n == 0x2029 || n == 0x202F || n == 0x205F || n == 0x3000
  }

  function TrimStart(s: string): string {
    if s != [] && Space(s[0]) then TrimStart(s[1..]) else s
  }

  function TrimEnd(s: string): string {
    if s != [] && Space(s[|s| - 1]) then TrimEnd(s[..|s| - 1]) else s
  }

  function Trim(s: string): string {
    TrimEnd(TrimStart(s))
  }

  predicate ServerUrlOk(url: string) {
    var u := Trim(url);
    if "wss://" <= u then u[6..] != [] && UrlHost(u).Some?
    else "ws://" <= u && IsLoopback(u)
  }

  // ----- the printer

  /** The parts of a URL. `after` is what stands between the host and the path: a
      port behind its ':', or the ']' of a literal and what follows it. */
  datatype Parts = Parts(scheme: string, userinfo: Option<string>, literal: bool, host: string, after: string,
                         tail: string)

  function HostPart(p: Parts): string {
    (if p.literal then "[" else "") + p.host + p.after
  }

  function Authority(p: Parts): string {
    (if p.userinfo.Some? then p.userinfo.value + "@" else "") + HostPart(p)
  }

  function Print(p: Parts): string {
    p.scheme + ("://" + (Authority(p) + p.tail))
  }

  predicate Free(s: string, ds: set<char>) {
    forall i :: 0 <= i < |s| ==> s[i] !in ds
  }

  /** Empty, or beginning with one of the delimiters. */
  predicate Delimited(s: string, ds: set<char>) {
    s == [] || s[0] in ds
  }

  /** A URL whose parts can be told apart (section 3.2 of RFC 3986, loosened to
      what the code accepts): no delimiter of a later part inside an earlier one. */
  predicate WellFormed(p: Parts) {
    && AfterScheme(p.scheme) == None
    && (p.userinfo.Some? ==> Free(p.userinfo.value, {'/', '?', '#'}))
    && Shaped(p.literal, p.host, p.after)
    && Delimited(p.tail, {'/', '?', '#'})
  }

  predicate Shaped(literal: bool, host: string, after: string) {
    && host != [] && Free(host, {'/', '?', '#'} + {'@'}) && Free(after, {'/', '?', '#'} + {'@'})
    && (if literal then Free(host, {']'}) && Delimited(after, {']'})
        else Free(host, {':'}) && host[0] != '[' && Delimited(after, {':'}))
  }

  // ----- one part at a time

  lemma {:induction false} SchemeFound(scheme: string, rest: string)
    requires AfterScheme(scheme) == None
    ensures AfterScheme(scheme + ("://" + rest)) == Some(rest)
    decreases |scheme|
  {
    var s := scheme + ("://" + rest);
    if scheme == [] {
      SchemeHere(rest);
      assert s == "://" + rest;
    } else {
      NoSchemeInTail(scheme);
      SchemeFound(scheme[1..], rest);
      assert s[1..] == scheme[1..] + ("://" + rest);
      hide AfterScheme;
      NoSchemeYet(scheme, rest);
      Skips(s);
    }
  }

  lemma SchemeHere(rest: string)
    ensures AfterScheme("://" + rest) == Some(rest)
  {
    var s := "://" + rest;
    assert s[..3] == "://" && s[3..] == rest;
  }

  lemma Skips(s: string)
    requires |s| >= 3 && s[..3] != "://"
    ensures AfterScheme(s) == AfterScheme(s[1..])
  {
  }

  /** A marker that begins inside `scheme` would have to end inside it. */
  lemma NoSchemeYet(scheme: string, rest: string)
    requires scheme != [] && AfterScheme(scheme) == None
    ensures (scheme + ("://" + rest))[..3] != "://"
  {
    var s := scheme + ("://" + rest);
    assert s[0] == scheme[0];
    if |scheme| == 1 { assert s[1] == ':'; }
    else if |scheme| == 2 { assert s[2] == ':'; }
    else { assert s[..3] == scheme[..3]; }
  }

  lemma NoSchemeInTail(scheme: string)
    requires scheme != [] && AfterScheme(scheme) == None
    ensures AfterScheme(scheme[1..]) == None
  {
  }

  lemma {:induction false} TakeStops(a: string, b: string, ds: set<char>)
    requires Free(a, ds) && Delimited(b, ds)
    ensures TakeUntil(a + b, ds) == a
    decreases |a|
  {
    if a == [] {
      assert a + b == b;
    } else {
      assert (a + b)[0] == a[0] && (a + b)[1..] == a[1..] + b;
      TakeStops(a[1..], b, ds);
    }
  }

  lemma {:induction false} LastAfterAt(a: string, b: string)
    requires Free(b, {'@'})
    ensures LastPart(a + "@" + b) == b
    decreases |b|
  {
    var s := a + "@" + b;
    if b != [] {
      assert s[..|s| - 1] == a + "@" + b[..|b| - 1];
      LastAfterAt(a, b[..|b| - 1]);
    }
  }

  lemma {:induction false} LastIsAll(b: string)
    requires Free(b, {'@'})
    ensures LastPart(b) == b
    decreases |b|
  {
    if b != [] { LastIsAll(b[..|b| - 1]); }
  }

  /** The host of a printed URL is the one that was printed, in lower case. */
  lemma {:induction false} UrlHostInvertsPrint(p: Parts)
    requires WellFormed(p)
    ensures UrlHost(Print(p)) == Some(Lower(p.host))
  {
    hide Lower;
    SchemeFound(p.scheme, Authority(p) + p.tail);
    AuthorityFree(p);
    TakeStops(Authority(p), p.tail, PATH_START);
    AuthorityHost(p);
    HostAlone(p);
  }

  lemma AuthorityFree(p: Parts)
    requires WellFormed(p)
    ensures Free(Authority(p), PATH_START) && Free(HostPart(p), {'@'})
  {
  }

  lemma AuthorityHost(p: Parts)
    requires WellFormed(p)
    ensures LastPart(Authority(p)) == HostPart(p)
  {
    hide LastPart;
    AuthorityFree(p);
    if p.userinfo.Some? {
      LastAfterAt(p.userinfo.value, HostPart(p));
    } else {
      assert Authority(p) == HostPart(p);
      LastIsAll(HostPart(p));
    }
  }

  lemma HostAlone(p: Parts)
    requires WellFormed(p)
    ensures RawHost(HostPart(p)) == p.host
  {
    var h := HostPart(p);
    if p.literal {
      assert h[1..] == p.host + p.after;
      TakeStops(p.host, p.after, {']'});
    } else {
      assert h == p.host + p.after && h[0] == p.host[0];
      TakeStops(p.host, p.after, {':'});
    }
  }

  // ----- and back

  lemma {:induction false} TakenParts(s: string, ds: set<char>)
    ensures var a := TakeUntil(s, ds);
            a <= s && Free(a, ds) && Delimited(s[|a|..], ds)
    decreases |s|
  {
    if s != [] && s[0] !in ds { TakenParts(s[1..], ds); }
  }

  lemma {:induction false} LastParts(s: string)
    ensures var b := LastPart(s); IsLast(s, b)
    decreases |s|
  {
    hide IsLast;
    if s == [] || s[|s| - 1] == '@' {
      LastEmpty(s);
    } else {
      LastParts(s[..|s| - 1]);
      LastLonger(s, LastPart(s[..|s| - 1]));
    }
  }

  /** `b` is the part of `s` after its last '@', or all of `s`. */
  predicate IsLast(s: string, b: string) {
    |b| <= |s| && b == s[|s| - |b|..] && Free(b, {'@'}) && (b == s || s[|s| - |b| - 1] == '@')
  }

  lemma LastEmpty(s: string)
    requires s == [] || s[|s| - 1] == '@'
    ensures IsLast(s, [])
  {
  }

  lemma LastLonger(s: string, b: string)
    requires s != [] && s[|s| - 1] != '@' && IsLast(s[..|s| - 1], b)
    ensures IsLast(s, b + [s[|s| - 1]])
  {
  }

  /** The first "://" in `s` is at `n`. */
  predicate SchemeAt(s: string, n: nat) {
    && n + 3 <= |s| && s[n..n + 3] == "://" && AfterScheme(s[..n]) == None
    && AfterScheme(s) == Some(s[n + 3..])
  }

  lemma {:induction false} FindScheme(s: string) returns (n: nat)
    requires AfterScheme(s).Some?
    ensures SchemeAt(s, n)
    decreases |s|
  {
    if s[..3] == "://" {
      n := 0;
      assert s[..0] == [] && s[0..3] == s[..3];
    } else {
      var m := FindScheme(s[1..]);
      n := m + 1;
      OneFurther(s, m);
    }
  }

  lemma OneFurther(s: string, m: nat)
    requires |s| >= 3 && s[..3] != "://" && SchemeAt(s[1..], m)
    ensures SchemeAt(s, m + 1)
  {
    assert s[1..][m..m + 3] == s[m + 1..m + 4] && s[1..][..m] == s[1..m + 1] && s[1..][m + 3..] == s[m + 4..];
    NoSchemeBefore(s, m + 1);
  }

  lemma SchemeParts(s: string)
    requires AfterScheme(s).Some?
    ensures var rest := AfterScheme(s).value;
            && |rest| + 3 <= |s| && s == s[..|s| - |rest| - 3] + ("://" + rest)
            && AfterScheme(s[..|s| - |rest| - 3]) == None
  {
    hide AfterScheme;
    var n := FindScheme(s);
    assert s == s[..n] + (s[n..n + 3] + s[n + 3..]);
  }

  lemma NoSchemeBefore(s: string, n: nat)
    requires 0 < n && n + 3 <= |s| && s[..3] != "://" && AfterScheme(s[1..n]) == None
    ensures AfterScheme(s[..n]) == None
  {
    assert s[..n][1..] == s[1..n];
    if n >= 3 { assert s[..n][..3] == s[..3]; }
  }

  /** Whatever the parser finds a host in is a printed URL with that host. */
  lemma {:induction false} UrlHostOnlyFromPrint(url: string) returns (p: Parts)
    requires UrlHost(url).Some?
    ensures WellFormed(p) && Print(p) == url && UrlHost(url) == Some(Lower(p.host))
  {
    hide Lower, AfterScheme, TakeUntil, LastPart, RawHost, WellFormed;
    var rest := AfterScheme(url).value;
    SchemeParts(url);
    var scheme := url[..|url| - |rest| - 3];
    var authority := TakeUntil(rest, PATH_START);
    TakenParts(rest, PATH_START);
    var tail := rest[|authority|..];
    var hp := LastPart(authority);
    LastParts(authority);
    var ui := if hp == authority then None else Some(authority[..|authority| - |hp| - 1]);
    BothFree(authority, hp);
    p := HostParts(scheme, ui, hp, tail);
    assert Authority(p) == authority by {
      if ui.Some? { assert authority == ui.value + "@" + hp; }
    }
    assert rest == authority + tail;
  }

  lemma RawOfNothing()
    ensures RawHost([]) == []
  {
  }

  lemma BothFree(authority: string, hp: string)
    requires Free(authority, PATH_START) && IsLast(authority, hp)
    ensures Free(hp, PATH_START + {'@'})
    ensures hp != authority ==> Free(authority[..|authority| - |hp| - 1], PATH_START)
  {
  }

  lemma FreeSlice(s: string, ds: set<char>, lo: nat, hi: nat)
    requires Free(s, ds) && lo <= hi <= |s|
    ensures Free(s[lo..hi], ds)
  {
  }

  lemma NamedParts(hp: string)
    requires Free(hp, PATH_START + {'@'}) && hp != [] && hp[0] != '[' && RawHost(hp) != []
    ensures var h := RawHost(hp); |h| <= |hp| && hp == h + hp[|h|..] && Shaped(false, h, hp[|h|..])
  {
    hide TakeUntil, Free;
    var h := RawHost(hp);
    TakenParts(hp, {':'});
    FreeSlice(hp, PATH_START + {'@'}, 0, |h|);
    FreeSlice(hp, PATH_START + {'@'}, |h|, |hp|);
    assert h == hp[0..|h|] && hp[|h|..|hp|] == hp[|h|..];
  }

  lemma LiteralParts(hp: string)
    requires Free(hp, PATH_START + {'@'}) && hp != [] && hp[0] == '[' && RawHost(hp) != []
    ensures var h := RawHost(hp); |h| < |hp| && hp == "[" + h + hp[1 + |h|..] && Shaped(true, h, hp[1 + |h|..])
  {
    hide TakeUntil, Free;
    var h := RawHost(hp);
    TakenParts(hp[1..], {']'});
    FreeSlice(hp, PATH_START + {'@'}, 1, 1 + |h|);
    FreeSlice(hp, PATH_START + {'@'}, 1 + |h|, |hp|);
    assert h == hp[1..1 + |h|] && hp[1..][|h|..] == hp[1 + |h|..] && hp[1 + |h|..|hp|] == hp[1 + |h|..];
  }

  lemma HostParts(scheme: string, ui: Option<string>, hp: string, tail: string) returns (p: Parts)
    requires AfterScheme(scheme) == None && (ui.Some? ==> Free(ui.value, PATH_START))
    requires Free(hp, PATH_START + {'@'}) && RawHost(hp) != [] && Delimited(tail, PATH_START)
    ensures WellFormed(p) && HostPart(p) == hp && p.host == RawHost(hp)
    ensures p.scheme == scheme && p.userinfo == ui && p.tail == tail
  {
    hide AfterScheme, TakeUntil, Free, Shaped, RawHost;
    RawOfNothing();
    var h := RawHost(hp);
    if hp[0] == '[' {
      LiteralParts(hp);
      p := Parts(scheme, ui, true, h, hp[1 + |h|..], tail);
    } else {
      NamedParts(hp);
      p := Parts(scheme, ui, false, h, hp[|h|..], tail);
      assert HostPart(p) == h + hp[|h|..];
    }
  }

  // ----- the policy

  lemma SchemeIs(p: Parts)
    requires WellFormed(p)
    ensures "wss://" <= Print(p) <==> p.scheme == "wss"
    ensures "ws://" <= Print(p) <==> p.scheme == "ws"
  {
    hide AfterScheme, Print, WellFormed;
    KnownSchemes();
    assert "wss" + "://" == "wss://" && "ws" + "://" == "ws://";
    PrefixIsScheme("wss", p);
    PrefixIsScheme("ws", p);
  }

  lemma KnownSchemes()
    ensures AfterScheme("ws") == None && AfterScheme("wss") == None
  {
    assert "wss"[1..] == "ss" && AfterScheme("ss") == None;
    assert "wss"[..3] == "wss" && "wss"[0] != "://"[0];
  }

  lemma PrefixIsScheme(scheme: string, p: Parts)
    requires WellFormed(p) && AfterScheme(scheme) == None
    ensures scheme + "://" <= Print(p) <==> p.scheme == scheme
  {
    hide AfterScheme, Authority;
    var u, rest := Print(p), Authority(p) + p.tail;
    SchemeFound(p.scheme, rest);
    if scheme + "://" <= u {
      var r := u[|scheme| + 3..];
      assert u == scheme + ("://" + r);
      SchemeFound(scheme, r);
      assert r == rest;
      assert p.scheme == u[..|u| - |rest| - 3] == scheme;
    }
    if p.scheme == scheme { assert u == (scheme + "://") + rest; }
  }

  /** For every URL with a host: a secure one is always accepted, a plain one
      exactly when its host is a loopback name, and no other scheme is. */
  lemma {:induction false} PolicyDependsOnHost(url: string, p: Parts)
    requires WellFormed(p) && Trim(url) == Print(p)
    ensures var host := Lower(p.host);
            ServerUrlOk(url) <==>
              || p.scheme == "wss"
              || (p.scheme == "ws" && (host == "localhost" || host == "127.0.0.1" || host == "::1"))
  {
    hide Lower, Trim, Print, UrlHost, WellFormed;
    SchemeIs(p);
    UrlHostInvertsPrint(p);
    if p.scheme == "wss" { SecureHasMore(p); }
  }

  lemma SecureHasMore(p: Parts)
    requires WellFormed(p) && p.scheme == "wss"
    ensures |Print(p)| > 6
  {
  }

  /** And no URL without a host is accepted. */
  lemma {:induction false} AcceptedHasHost(url: string) returns (p: Parts)
    requires ServerUrlOk(url)
    ensures WellFormed(p) && Print(p) == Trim(url)
    ensures p.scheme == "wss" || (p.scheme == "ws" && Lower(p.host) in {"localhost", "127.0.0.1", "::1"})
  {
    hide Lower, Trim, Print, UrlHost, WellFormed;
    p := UrlHostOnlyFromPrint(Trim(url));
    PolicyDependsOnHost(url, p);
  }

  // ----- letters and white space

  const CAPITALS: string := "ABCDEFGHIJKLMNOPQRSTUVWXYZ"
  const SMALL: string := "abcdefghijklmnopqrstuvwxyz"

  /** A host in lower case has a small letter for each capital one, and every other
      character as it is. */
  lemma {:induction false} LowerIs(s: string, i: nat)
    requires i < |s|
    ensures |Lower(s)| == |s| && (s[i] !in CAPITALS ==> Lower(s)[i] == s[i])
    ensures forall j :: 0 <= j < 26 && s[i] == CAPITALS[j] ==> Lower(s)[i] == SMALL[j]
  {
    CapitalIs(s[i]);
  }

  lemma CapitalIs(c: char)
    ensures forall j :: 0 <= j < 26 ==> CAPITALS[j] as int == 65 + j && SMALL[j] as int == 97 + j
    ensures 'A' <= c <= 'Z' ==> c == CAPITALS[c as int - 65]
  {
  }

  predicate AllSpace(s: string) {
    forall i :: 0 <= i < |s| ==> Space(s[i])
  }

  lemma {:induction false} TrimStartIs(s: string) returns (a: string)
    ensures s == a + TrimStart(s) && AllSpace(a) && (TrimStart(s) != [] ==> !Space(TrimStart(s)[0]))
  {
    if s != [] && Space(s[0]) {
      a := TrimStartIs(s[1..]);
      a := [s[0]] + a;
    } else {
      a := [];
    }
  }

  lemma {:induction false} TrimEndIs(s: string) returns (b: string)
    ensures s == TrimEnd(s) + b && AllSpace(b) && (TrimEnd(s) != [] ==> !Space(TrimEnd(s)[|TrimEnd(s)| - 1]))
  {
    if s != [] && Space(s[|s| - 1]) {
      b := TrimEndIs(s[..|s| - 1]);
      b := b + [s[|s| - 1]];
    } else {
      b := [];
    }
  }

  /** A trimmed URL is the URL without the white space around it, and neither begins
      nor ends with any. */
  lemma {:induction false} TrimIs(s: string) returns (a: string, b: string)
    ensures s == a + Trim(s) + b && AllSpace(a) && AllSpace(b)
    ensures Trim(s) != [] ==> !Space(Trim(s)[0]) && !Space(Trim(s)[|Trim(s)| - 1])
  {
    hide Space;
    a := TrimStartIs(s);
    b := TrimEndIs(TrimStart(s));
    if Trim(s) != [] { assert TrimStart(s)[0] == Trim(s)[0]; }
  }

  /** The code points with the White_Space property (Unicode Character Database). */
  const WHITE: set<int> := {0x9, 0xA, 0xB, 0xC, 0xD, 0x20, 0x85, 0xA0, 0x1680, 0x2000, 0x2001, 0x2002, 0x2003, 0x2004,
                            0x2005, 0x2006, 0x2007, 0x2008, 0x2009, 0x200A, 0x2028, 0x2029, 0x202F, 0x205F, 0x3000}

  lemma {:induction false} SpaceIsWhite(c: char)
    ensures Space(c) <==> c as int in WHITE
  {
  }
}
