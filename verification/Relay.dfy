/** The pure parts of the relay endpoint: the tunnel path and the header filters. */
module Relay {
  import opened Proto

  // ------------------------------------------------------------------- paths

  predicate IsIdChar(c: char) {
    'a' <= c <= 'z' || '0' <= c <= '9'
  }

  // ^[a-z0-9]{8}$
  predicate ValidTunnelID(id: string) {
    |id| == 8 && forall k :: 0 <= k < 8 ==> IsIdChar(id[k])
  }

  function IndexOf(s: string, c: char): (k: nat)
    ensures k <= |s| && c !in s[..k] && (k < |s| ==> s[k] == c)
  {
    if s == [] || s[0] == c then 0
    else
      var k := 1 + IndexOf(s[1..], c);
      assert s[..k] == [s[0]] + s[1..][..k - 1];
      k
  }

  /** "/t/{id}/rest" into the tunnel id and the target path. */
  function SplitTunnelPath(path: string): (string, string) {
    var rest := if "/t/" <= path then path[3..] else path;
    var k := IndexOf(rest, '/');
    if k < |rest| then (rest[..k], "/" + rest[k + 1..]) else (rest, "/")
  }

  lemma {:induction false} IndexOfIs(s: string, c: char, k: nat)
    requires k <= |s| && c !in s[..k] && (k < |s| ==> s[k] == c)
    ensures IndexOf(s, c) == k
  {
    if k > 0 {
      assert s[0] in s[..k];
      assert s[1..][..k - 1] == s[..k][1..];
      IndexOfIs(s[1..], c, k - 1);
    }
  }

  /** The id and the path a caller asks for come out of its decoded URL path as they
      were; what the client makes of the path is in module Urls. */
  lemma SplitRouted(id: string, target: string)
    requires ValidTunnelID(id) && "/" <= target
    ensures SplitTunnelPath("/t/" + id + target) == (id, target)
    ensures SplitTunnelPath("/t/" + id) == (id, "/")
  {
    var rest := id + target;
    assert ("/t/" + id + target)[3..] == rest;
    assert ("/t/" + id)[3..] == id;
    assert rest[..8] == id == id[..8];
    IndexOfIs(rest, '/', 8);
    IndexOfIs(id, '/', 8);
    assert "/" + rest[9..] == target;
  }

  // ----------------------------------------------------------------- headers

  // strings.ToLower as far as it yields ASCII: the Kelvin sign and the dotted
  // capital I are the only letters outside ASCII that do.
  function LowerChar(c: char): char {
    if 'A' <= c <= 'Z' then (c as int + 32) as char
    else if c == '\U{212A}' then 'k'
    else if c == '\U{130}' then 'i'
    else c
  }

  function Lower(s: string): string {
    seq(|s|, k requires 0 <= k < |s| => LowerChar(s[k]))
  }

  const HOP_BY_HOP: set<string> := {
    "connection", "keep-alive", "proxy-authenticate", "proxy-authorization",
    "te", "trailer", "transfer-encoding", "upgrade"
  }

  predicate IsHopByHop(k: string) {
    Lower(k) in HOP_BY_HOP
  }

  // Names a response may not pass on to the caller.
  predicate IsStripped(k: string) {
    IsHopByHop(k) || Lower(k) == "content-length"
  }

  /** What filterHeaders promises: no name of the list in any spelling, and
      every other header with its values unchanged. */
  ghost function Filtered(h: Headers): Headers {
    map k | k in h && !IsHopByHop(k) :: h[k]
  }

  /** What writeResponseHeaders adds: a header with no value adds nothing. */
  ghost function Relayable(h: Headers): Headers {
    map k | k in h && !IsStripped(k) && h[k] != [] :: h[k]
  }

  method FilterHeaders(h: Headers) returns (out: Headers)
    ensures out == Filtered(h)
  {
    out := map[];
    var left := h.Keys;
    while left != {}
      invariant left <= h.Keys
      invariant out == map k | k in h && k !in left && !IsHopByHop(k) :: h[k]
      decreases |left|
    {
      var k :| k in left;
      left := left - {k};
      if IsHopByHop(k) {
        continue;
      }
      out := out[k := h[k]];
    }
  }

  function NormalStatus(status: int): int {
    if status == 0 then 502 else status
  }

  // ------------------------------------------------------ canonical header names

  predicate IsToken(c: char) {
    'a' <= c <= 'z' || 'A' <= c <= 'Z' || '0' <= c <= '9' || c in "!#$%&'*+-.^_`|~"
  }

  function UpperChar(c: char): char {
    if 'a' <= c <= 'z' then (c as int - 32) as char else c
  }

  /** textproto.CanonicalMIMEHeaderKey: a capital first and after each hyphen. */
  function Canonical(k: string): (r: string)
    ensures |r| == |k|
  {
    if exists i :: 0 <= i < |k| && !IsToken(k[i]) then k
    else seq(|k|, i requires 0 <= i < |k| => if i == 0 || k[i - 1] == '-' then UpperChar(k[i]) else LowerChar(k[i]))
  }

  lemma LowerIdempotent(c: char)
    ensures LowerChar(LowerChar(c)) == LowerChar(c)
  {
  }

  lemma UpperLower(c: char)
    ensures LowerChar(UpperChar(c)) == LowerChar(c)
  {
  }

  lemma CanonicalLower(k: string)
    ensures Lower(Canonical(k)) == Lower(k)
  {
    forall i | 0 <= i < |k| ensures LowerChar(Canonical(k)[i]) == LowerChar(k[i]) {
      LowerIdempotent(k[i]);
      UpperLower(k[i]);
    }
  }

  /** Header().Add of all values of a name. */
  function AddAll(h: Headers, k: string, vs: seq<string>): Headers {
    var name := Canonical(k);
    if vs == [] then h else h[name := (if name in h then h[name] else []) + vs]
  }

  /** The header after these names of h have been added in this order. */
  ghost function Added(h: Headers, order: seq<string>): Headers {
    if order == [] then map[]
    else
      var k := order[|order| - 1];
      AddAll(Added(h, order[..|order| - 1]), k, if k in h then h[k] else [])
  }

  // The names of h, each once, in the order a map walk may have.
  ghost predicate Walks(order: seq<string>, h: Headers) {
    && (forall k :: k in h <==> k in order)
    && (forall i, j :: 0 <= i < j < |order| ==> order[i] != order[j])
  }

  lemma {:induction false} AddedNames(h: Headers, order: seq<string>, name: string)
    ensures name in Added(h, order) ==> exists i :: 0 <= i < |order| && Canonical(order[i]) == name
  {
    if order != [] && name in Added(h, order) {
      var n := |order| - 1;
      AddedNames(h, order[..n], name);
      if Canonical(order[n]) != name {
        var i :| 0 <= i < n && Canonical(order[..n][i]) == name;
        assert order[i] == order[..n][i];
      }
    }
  }

  /** However spellings merge, no stripped name gets to the caller. */
  lemma AddedNotStripped(h: Headers, order: seq<string>, name: string)
    requires Walks(order, Relayable(h)) && name in Added(Relayable(h), order)
    ensures !IsStripped(name)
  {
    AddedNames(Relayable(h), order, name);
    var i :| 0 <= i < |order| && Canonical(order[i]) == name;
    CanonicalLower(order[i]);
    assert order[i] in order && order[i] in Relayable(h);
  }

  // Every name is spelt canonically, as those of net/http are.
  predicate AllCanonical(h: Headers) {
    forall k :: k in h ==> Canonical(k) == k
  }

  // The headers of h that these names are.
  ghost function Among(h: Headers, names: seq<string>): Headers {
    map k | k in h && k in names :: h[k]
  }

  lemma AmongSnoc(h: Headers, names: seq<string>, k: string)
    requires k in h
    ensures Among(h, names + [k]) == Among(h, names)[k := h[k]]
  {
    assert forall x :: x in names + [k] <==> x in names || x == k;
  }

  lemma AddNew(h: Headers, k: string, vs: seq<string>)
    requires Canonical(k) == k && k !in h && vs != []
    ensures AddAll(h, k, vs) == h[k := vs]
  {
    assert [] + vs == vs;
  }

  lemma {:induction false} AddedCanonical(h: Headers, order: seq<string>)
    requires AllCanonical(h) && (forall k :: k in order ==> k in h && h[k] != [])
    requires forall i, j :: 0 <= i < j < |order| ==> order[i] != order[j]
    ensures Added(h, order) == Among(h, order)
  {
    if order != [] {
      var n := |order| - 1;
      var k := order[n];
      AddedCanonical(h, order[..n]);
      assert order == order[..n] + [k] && k in order;
      AmongSnoc(h, order[..n], k);
      AddNew(Among(h, order[..n]), k, h[k]);
    }
  }

  /** Canonical headers reach the caller as they are, whatever the order. */
  lemma CanonicalUnchanged(h: Headers, order: seq<string>)
    requires AllCanonical(h) && Walks(order, Relayable(h))
    ensures Added(Relayable(h), order) == Relayable(h)
  {
    AddedCanonical(Relayable(h), order);
  }

  // The inner loop over the values of one name.
  method AddValues(before: Headers, k: string, vv: seq<string>) returns (header: Headers)
    ensures header == AddAll(before, k, vv)
  {
    header := before;
    for n := 0 to |vv|
      invariant header == AddAll(before, k, vv[..n])
    {
      header := AddAll(header, k, [vv[n]]);
      assert vv[..n + 1] == vv[..n] + [vv[n]];
      AddOneMore(before, k, vv[..n], vv[n]);
    }
    assert vv[..|vv|] == vv;
  }

  lemma AddOneMore(h: Headers, k: string, vs: seq<string>, v: string)
    ensures AddAll(AddAll(h, k, vs), k, [v]) == AddAll(h, k, vs + [v])
  {
    var name := Canonical(k);
    if vs == [] {
      assert vs + [v] == [v];
    } else if name in h {
      assert h[name] + vs + [v] == h[name] + (vs + [v]);
    } else {
      assert [] + vs + [v] == [] + (vs + [v]);
    }
  }

  // What has been added when these names are left.
  ghost function Left(headers: Headers, left: set<string>): Headers {
    map k | k in headers && k !in left && !IsStripped(k) && headers[k] != [] :: headers[k]
  }

  lemma LeftStep(headers: Headers, left: set<string>, k: string)
    requires k in left && k in headers
    ensures k !in Left(headers, left)
    ensures Left(headers, left - {k}) ==
            if IsStripped(k) || headers[k] == [] then Left(headers, left) else Left(headers, left)[k := headers[k]]
  {
  }

  /** Writes the status and adds, under its canonical name, every header with a value
      but the stripped ones; `added` is what was passed to Add, in the order walked. */
  method WriteResponseHeaders(status: int, headers: Headers)
    returns (header: Headers, code: int, added: Headers, ghost order: seq<string>)
    ensures code == if status == 0 then 502 else status
    ensures added == Relayable(headers) && Walks(order, added) && header == Added(added, order)
  {
    code := NormalStatus(status);
    header, added, order := map[], map[], [];
    var left := headers.Keys;
    while left != {}
      invariant left <= headers.Keys
      invariant added == Left(headers, left)
      invariant Walks(order, added) && header == Added(added, order)
      decreases |left|
    {
      var k :| k in left;
      LeftStep(headers, left, k);
      left := left - {k};
      if IsStripped(k) {
        continue;
      }
      header := AddValues(header, k, headers[k]);
      if headers[k] != [] {
        WalkOn(added, order, k, headers[k]);
        added, order := added[k := headers[k]], order + [k];
      }
    }
  }

  // One more name.
  lemma WalkOn(h: Headers, order: seq<string>, k: string, vs: seq<string>)
    requires Walks(order, h) && k !in h
    ensures Walks(order + [k], h[k := vs])
    ensures Added(h[k := vs], order + [k]) == AddAll(Added(h, order), k, vs)
  {
    assert (order + [k])[..|order|] == order;
    AddedSame(h, h[k := vs], order);
  }

  lemma {:induction false} AddedSame(h: Headers, g: Headers, order: seq<string>)
    requires forall k :: k in order ==> k in h && k in g && h[k] == g[k]
    ensures Added(h, order) == Added(g, order)
  {
    if order != [] {
      AddedSame(h, g, order[..|order| - 1]);
    }
  }
}
