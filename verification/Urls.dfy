/** The URL a forward asks the target for.  The server splits the decoded path of the
    caller's URL and the client pastes it into a string that net/http parses again,
    so a '?', '#' or '%' that was escaped in the caller's path is not any more.

    A string here is its bytes; url.Parse is modelled for what follows the target's
    host: the fragment is cut off first, then the query, and the path is unescaped. */
module Urls {
  import opened Proto
  import opened Relay
  import opened System
  import opened Isolation
  import opened Runs
  import S = Server
  import C = Client

  // ---------------------------------------------------------------------- parsing

  function HexValue(c: char): (v: Option<int>)
    ensures v.Some? ==> 0 <= v.value < 16
  {
    if '0' <= c <= '9' then Some(c as int - '0' as int)
    else if 'a' <= c <= 'f' then Some(c as int - 'a' as int + 10)
    else if 'A' <= c <= 'F' then Some(c as int - 'A' as int + 10)
    else None
  }

  // One unescaped byte: how many bytes it takes up and what it is, if well formed.
  function Unit(s: string): (u: Option<(nat, char)>)
    requires s != []
    ensures u.Some? ==> if s[0] == '%' then u.value.0 == 3 <= |s| else u.value == (1, s[0])
  {
    if s[0] != '%' then Some((1, s[0]))
    else if |s| >= 3 && HexValue(s[1]).Some? && HexValue(s[2]).Some? then
      Some((3, (16 * HexValue(s[1]).value + HexValue(s[2]).value) as char))
    else None
  }

  /** Every "%XX" becomes its byte; any other '%' is an error. */
  function Unescape(s: string): Option<string>
    decreases |s|
  {
    if s == [] then Some([])
    else
      match Unit(s)
      case None => None
      case Some(u) =>
        var rest := Unescape(s[u.0..]);
        if rest.None? then None else Some([u.1] + rest.value)
  }

  predicate IsControl(c: char) {
    c < ' ' || c == 127 as char
  }

  predicate Without(s: string, c: char) {
    c !in s
  }

  predicate NoControl(s: string) {
    forall k :: 0 <= k < |s| ==> !IsControl(s[k])
  }

  // What the path and the query are pasted into.
  function Pasted(path: string, query: string): string {
    if query == "" then path else path + "?" + query
  }

  // s up to the first c, and what follows it.
  function Cut(s: string, c: char): (string, string) {
    var k := IndexOf(s, c);
    (s[..k], if k < |s| then s[k + 1..] else "")
  }

  /** The decoded path and the query that url.Parse finds in s, if it accepts s. */
  function Parse(s: string): Option<(string, string)> {
    var (main, fragment) := Cut(s, '#');
    var (raw, query) := Cut(main, '?');
    if !NoControl(main) || Unescape(raw).None? || Unescape(fragment).None? then None
    else Some((Unescape(raw).value, query))
  }

  /** What the target is asked for: the decoded path, under the target's own base
      path, and the query; nothing if the request cannot be built. */
  function AskedFor(base: string, path: string, query: string): Option<(string, string)> {
    Parse(Pasted(base + path, query))
  }

  // --------------------------------------------------------- the caller's own request

  // A path and a query that survive being pasted and parsed.
  predicate PlainPath(path: string) {
    Without(path, '?') && Without(path, '#') && Without(path, '%') && NoControl(path)
  }

  predicate PlainQuery(query: string) {
    Without(query, '#') && NoControl(query)
  }

  lemma {:induction false} UnescapeShortens(s: string)
    requires Unescape(s).Some?
    ensures |Unescape(s).value| <= |s|
    ensures |Unescape(s).value| == |s| ==> Unescape(s).value == s && Without(s, '%')
    decreases |s|
  {
    if s != [] {
      var u := Unit(s).value;
      UnescapeShortens(s[u.0..]);
      if |Unescape(s).value| == |s| {
        assert s == [s[0]] + s[1..];
      }
    }
  }

  lemma {:induction false} UnescapePlain(s: string)
    requires Without(s, '%')
    ensures Unescape(s) == Some(s)
  {
    if s != [] {
      assert s[0] in s && s == [s[0]] + s[1..];
      UnescapePlain(s[1..]);
    }
  }

  lemma CutNone(s: string, c: char)
    requires Without(s, c)
    ensures Cut(s, c) == (s, "")
  {
    IndexOfIs(s, c, |s|);
    assert s[..|s|] == s;
  }

  lemma CutAt(a: string, c: char, b: string)
    requires Without(a, c)
    ensures Cut(a + [c] + b, c) == (a, b)
  {
    var s := a + [c] + b;
    assert s[..|a|] == a && s[|a|] == c && s[|a| + 1..] == b;
    IndexOfIs(s, c, |a|);
  }

  lemma ControlOf(a: string, b: string)
    ensures NoControl(a + b) <==> NoControl(a) && NoControl(b)
  {
    if NoControl(a + b) {
      assert forall k :: 0 <= k < |a| ==> (a + b)[k] == a[k];
      assert forall k :: 0 <= k < |b| ==> (a + b)[|a| + k] == b[k];
    }
  }

  lemma PlainParsed(path: string, query: string)
    requires PlainPath(path) && PlainQuery(query)
    ensures Parse(Pasted(path, query)) == Some((path, query))
  {
    UnescapePlain(path);
    UnescapePlain("");
    CutNone(Pasted(path, query), '#');
    if query == "" {
      CutNone(path, '?');
    } else {
      CutAt(path, '?', query);
      ControlOf(path + "?", query);
      ControlOf(path, "?");
      assert NoControl("?");
    }
  }

  // How long the parts of a cut string are.
  lemma CutLengths(s: string, c: char)
    ensures var (a, b) := Cut(s, c);
            && Without(a, c) && a <= s && |a| + |b| <= |s| && (b != "" ==> |a| + 1 + |b| == |s|)
            && (|a| == |s| ==> a == s)
  {
  }

  lemma ParsedPlain(path: string, query: string)
    requires Parse(Pasted(path, query)) == Some((path, query))
    ensures PlainPath(path) && PlainQuery(query)
  {
    var s := Pasted(path, query);
    var (main, fragment) := Cut(s, '#');
    var (raw, found) := Cut(main, '?');
    CutLengths(s, '#');
    CutLengths(main, '?');
    UnescapeShortens(raw);
    assert |path| <= |raw| && found == query;
    assert |raw| + |found| <= |main| <= |s|;
    assert raw == path && main == s;
    if query != "" {
      ControlOf(path + "?", query);
      ControlOf(path, "?");
      assert Without(s, '#') && forall k :: 0 <= k < |query| ==> s[|path| + 1 + k] == query[k];
    }
    assert forall k :: 0 <= k < |path| ==> s[k] == path[k];
  }

  /** Exactly when the target is asked for what the caller asked for: the decoded path
      has no '?', '#', '%' or control character, and the query no '#' or control
      character; and the target's own base path has none either. */
  lemma AskedOwnIff(base: string, path: string, query: string)
    ensures AskedFor(base, path, query) == Some((base + path, query)) <==> PlainPath(base + path) && PlainQuery(query)
  {
    if PlainPath(base + path) && PlainQuery(query) {
      PlainParsed(base + path, query);
    }
    if AskedFor(base, path, query) == Some((base + path, query)) {
      ParsedPlain(base + path, query);
    }
  }

  /** An escaped '?' in a caller's path makes its request that of another URL: whatever
      follows it is asked for as the query. */
  lemma SameAsAnother(base: string, path: string, rest: string)
    requires rest != ""
    ensures AskedFor(base, path + "?" + rest, "") == AskedFor(base, path, rest)
  {
    assert base + (path + "?" + rest) == (base + path) + "?" + rest;
  }

  // ------------------------------------------------------------------ in the system

  // What a forward asks the target for.
  ghost function Asks(base: string, x: C.Forward): Option<(string, string)> {
    AskedFor(base, x.head.path, x.head.query)
  }

  // The path and the query of a caller's request, under the target's base path.
  function OwnRequest(base: string, b: S.Caller): (string, string) {
    (base + SplitTunnelPath(b.path).1, b.query)
  }

  /** A forward that answers a caller asks the target for exactly that caller's path and
      query if and only if they survive being pasted and parsed. */
  lemma AnswererAsksOwnIff(s: System, c0: C.Client, h: nat, k: nat, base: string)
    requires AnsweredBy(s, c0, h, k)
    ensures var b := s.srv.handlers[h].caller;
            Asks(base, s.cli.forwards[k]) == Some(OwnRequest(base, b))
            <==> PlainPath(OwnRequest(base, b).0) && PlainQuery(b.query)
  {
    var b := s.srv.handlers[h].caller;
    assert C.DispatchOf(s.cli.forwards[k]).head == S.HeadOf(b);
    AskedOwnIff(base, SplitTunnelPath(b.path).1, b.query);
  }

  // The caller of "/t/{id}{path}%3F{rest}", as the server decodes it.
  function EscapedCaller(id: string, path: string, rest: string): S.Caller {
    S.Caller("GET", "/t/" + id + (path + "?" + rest), "", map[], None)
  }

  lemma EscapedRouted(id: string, path: string, rest: string)
    requires ValidTunnelID(id) && "/" <= path
    ensures Routed(EscapedCaller(id, path, rest))
    ensures S.HeadOf(EscapedCaller(id, path, rest)).path == path + "?" + rest
  {
    SplitRouted(id, path + "?" + rest);
  }

  // Somebody's own forward has started to answer, and its handler has relayed it.
  lemma StartedAnswers(s: System, c0: C.Client, b: S.Caller, status: int, headers: Headers)
    requires Started(s, b, |c0.forwards|, status, headers) && b.body.None?
    ensures AnsweredBy(s, c0, 0, |c0.forwards|)
  {
    var x := s.srv.handlers[0];
    assert x.trace == [] + [x.trace[0]];
    BodySnoc([], x.trace[0]);
  }

  lemma AsksAnother(base: string, id: string, path: string, rest: string, x: C.Forward)
    requires ValidTunnelID(id) && "/" <= path && rest != "" && x.head == S.HeadOf(EscapedCaller(id, path, rest))
    requires PlainPath(base + path) && PlainQuery(rest)
    ensures Asks(base, x) == Some((base + path, rest)) != Some(OwnRequest(base, EscapedCaller(id, path, rest)))
  {
    EscapedRouted(id, path, rest);
    SameAsAnother(base, path, rest);
    AskedOwnIff(base, path, rest);
  }

  /** The target is asked for another URL.  For every plain path and query there is a
      run in which a caller escapes the '?' between them, so that both are its path,
      and is relayed the answer of a forward that asks the target for the path alone,
      with the rest as its query. */
  lemma EscapedQuestionMark(
    earlier: seq<C.Step>, base: string, id: string, path: string, rest: string, status: int, headers: Headers)
    requires ValidTunnelID(id) && "/" <= path && rest != "" && PlainPath(base + path) && PlainQuery(rest)
    requires |C.Reconnected(earlier).slots| < C.MAX_CONCURRENT
    ensures var c0, b := C.Reconnected(earlier), EscapedCaller(id, path, rest);
            var s := Exec(Init(c0), UpToStart(b, |c0.forwards|, status, headers));
            && |s.srv.handlers| == 1 && s.srv.handlers[0].caller == b && Routed(b)
            && AnsweredBy(s, c0, 0, |c0.forwards|)
            && Asks(base, s.cli.forwards[|c0.forwards|]) == Some((base + path, rest)) != Some(OwnRequest(base, b))
  {
    var c0, b := C.Reconnected(earlier), EscapedCaller(id, path, rest);
    Starts(c0, b, status, headers);
    var s := Exec(Init(c0), UpToStart(b, |c0.forwards|, status, headers));
    StartedAnswers(s, c0, b, status, headers);
    EscapedRouted(id, path, rest);
    AsksAnother(base, id, path, rest, s.cli.forwards[|c0.forwards|]);
  }
}
