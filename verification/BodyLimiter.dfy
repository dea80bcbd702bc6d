/** The middleware in front of routing: which requests it bounds, how it drains and replays
    a body, and what reaches the application. */
module BodyLimiter {
  import opened Relational
  import opened Scanner

  const LENGTH_REQUIRED := 411
  const PAYLOAD_TOO_LARGE := 413
  const UNPROCESSABLE_CONTENT := 422

  datatype BodyLimit = BodyLimit(maxBytes: nat, maxDepth: int)

  datatype Scope = Scope(
    kind: string, method_: string, path: string, root: string, headers: seq<(seq<byte>, seq<byte>)>)

  // What an ASGI receive call yields: a piece of the body, or anything else, which ends it.
  datatype Message = Request(body: Option<seq<byte>>, moreBody: Option<bool>) | Disconnect

  // What is sent to the client, and how the application was entered.
  datatype Sent = ResponseStart(status: int) | ResponseBody(reason: string, emptyFields: bool)
  datatype Entry = Untouched | Replayed(body: seq<byte>)

  /* ---- where a body ends ---- */

  function Chunk(m: Message): seq<byte> {
    if m.Request? && m.body.Some? then m.body.value else []
  }

  predicate Last(m: Message) {
    m.Disconnect? || m.moreBody != Some(true)
  }

  // The body of a request whose messages are ms: its chunks up to the one that is not
  // followed by more, or up to a disconnect.
  function Body(ms: seq<Message>): seq<byte> {
    if ms == [] then [] else Chunk(ms[0]) + if Last(ms[0]) then [] else Body(ms[1..])
  }

  function MessagesOfBody(ms: seq<Message>): (n: nat)
    ensures n <= |ms|
  {
    if ms == [] then 0 else 1 + if Last(ms[0]) then 0 else MessagesOfBody(ms[1..])
  }

  lemma {:induction false} BodySplits(ms: seq<Message>, k: nat)
    requires k <= MessagesOfBody(ms) && forall i :: 0 <= i < k ==> !Last(ms[i])
    ensures Body(ms) == Body(ms[..k]) + Body(ms[k..])
    ensures MessagesOfBody(ms) == k + MessagesOfBody(ms[k..])
    decreases k
  {
    if k > 0 {
      BodySplits(ms[1..], k - 1);
      assert ms[..k][1..] == ms[1..][..k - 1] && ms[1..][k - 1..] == ms[k..];
    }
  }

  // The other end of the connection. Once nothing is pending, receiving reports a disconnect.
  class Channel {
    var pending: seq<Message>

    constructor (messages: seq<Message>)
      ensures pending == messages
    {
      pending := messages;
    }

    method Receive() returns (m: Message)
      modifies this
      ensures m == if old(pending) == [] then Disconnect else old(pending)[0]
      ensures pending == if old(pending) == [] then [] else old(pending)[1..]
    {
      if pending == [] {
        m := Disconnect;
      } else {
        m := pending[0];
        pending := pending[1..];
      }
    }
  }

  // Message k is the first to take the body over the bound.
  ghost predicate StopsAt(ms: seq<Message>, maxBytes: nat, k: nat) {
    0 < k <= MessagesOfBody(ms) && |Body(ms[..k - 1])| <= maxBytes < |Body(ms[..k])|
  }

  // Accepted exactly when the whole body is within the bound; otherwise reading stops at the
  // first message that takes it over.
  method Drain(channel: Channel, maxBytes: nat) returns (body: Option<seq<byte>>)
    modifies channel
    ensures body == if |Body(old(channel.pending))| <= maxBytes then Some(Body(old(channel.pending))) else None
    ensures body.Some? ==> channel.pending == old(channel.pending)[MessagesOfBody(old(channel.pending))..]
    ensures body.None? ==> exists k: nat ::
      StopsAt(old(channel.pending), maxBytes, k) && channel.pending == old(channel.pending)[k..]
  {
    ghost var ms := channel.pending;
    ghost var k := 0;
    var joined: seq<byte> := [];
    while true
      invariant k <= MessagesOfBody(ms) && channel.pending == ms[k..]
      invariant forall i :: 0 <= i < k ==> !Last(ms[i])
      invariant joined == Body(ms[..k]) && |joined| <= maxBytes
      decreases |channel.pending|
    {
      BodySplits(ms, k);
      var message := channel.Receive();
      if message.Disconnect? {
        assert Body(ms) == joined;
        assert k < |ms| ==> MessagesOfBody(ms[k..]) == 1;
        return Some(joined);
      }
      assert ms[k..][1..] == ms[k + 1..];
      OneMoreMessage(ms, k);
      var chunk := Chunk(message);
      if |joined| + |chunk| > maxBytes {
        assert StopsAt(ms, maxBytes, k + 1);
        return None;
      }
      joined := joined + chunk;
      if message.moreBody != Some(true) {
        assert Body(ms[k..]) == chunk;
        assert Body(ms) == joined;
        return Some(joined);
      }
      k := k + 1;
    }
  }

  lemma OneMoreMessage(ms: seq<Message>, k: nat)
    requires k < |ms| && k < MessagesOfBody(ms) && forall i :: 0 <= i < k ==> !Last(ms[i])
    ensures Body(ms[..k + 1]) == Body(ms[..k]) + Chunk(ms[k])
    ensures |Body(ms)| >= |Body(ms[..k + 1])|
  {
    var upTo := ms[..k + 1];
    assert MessagesOfBody(upTo) >= k by { MessagesReachPast(upTo, k); }
    BodySplits(upTo, k);
    assert upTo[..k] == ms[..k] && upTo[k..] == [ms[k]];
    assert Body([ms[k]]) == Chunk(ms[k]) by { assert [ms[k]][1..] == []; }
    BodySplits(ms, k);
    assert ms[k..][0] == ms[k];
  }

  lemma {:induction false} MessagesReachPast(ms: seq<Message>, k: nat)
    requires k <= |ms| && forall i :: 0 <= i < k ==> !Last(ms[i])
    ensures MessagesOfBody(ms) >= k
    decreases k
  {
    if k > 0 {
      MessagesReachPast(ms[1..], k - 1);
    }
  }

  // Hands the body over once, in one piece, then disconnects: a channel holding that one
  // message, whatever chunks the body arrived in.
  class Replay {
    const body: seq<byte>
    var sent: bool

    ghost function Pending(): seq<Message>
      reads this
    {
      if sent then [] else [Request(Some(body), Some(false))]
    }

    constructor (body: seq<byte>)
      ensures this.body == body && Pending() == [Request(Some(body), Some(false))] && Body(Pending()) == body
    {
      this.body := body;
      sent := false;
    }

    method Receive() returns (m: Message)
      modifies this
      ensures m == if old(Pending()) == [] then Disconnect else old(Pending())[0]
      ensures Pending() == []
    {
      if sent {
        return Disconnect;
      }
      sent := true;
      return Request(Some(body), Some(false));
    }
  }

  /* ---- which requests are bounded ---- */

  function StartsWith(s: string, prefix: string): bool {
    |prefix| <= |s| && s[..|prefix|] == prefix
  }

  // The path routing will use: without the mount point, and without one trailing slash.
  function RoutedPath(path: string, root: string): string {
    var below :=
      if root != "" && StartsWith(path, root) then
        if path[|root|..] == "" then "/" else path[|root|..]
      else path;
    if |below| > 1 && below[|below| - 1] == '/' then below[..|below| - 1] else below
  }

  // A limit keyed on a route applies wherever the application is mounted, and with or
  // without a trailing slash; the mount point alone is the root route.
  lemma MountingChangesNothing(path: string, root: string)
    ensures RoutedPath(root + path, root) == if path != "" || root == "" then RoutedPath(path, "") else "/"
    ensures path != "" ==> RoutedPath(root + path + "/", root) == path
    ensures path != "" && path[|path| - 1] != '/' ==> RoutedPath(path, "") == path
  {
    assert (root + path)[..|root|] == root && (root + path)[|root|..] == path;
    var slashed := root + path + "/";
    assert slashed[..|root|] == root && slashed[|root|..] == path + "/";
    assert root == "" ==> slashed == path + "/" && root + path == path;
    assert (path + "/")[..|path|] == path;
  }

  // A path outside the mount point is looked up as it is.
  lemma OtherPathsAreTheirOwn(path: string, root: string)
    requires !(root <= path)
    ensures RoutedPath(path, root) == RoutedPath(path, "")
  {
  }

  function Lower(name: seq<byte>): (r: seq<byte>)
    ensures |r| == |name|
  {
    seq(|name|, i requires 0 <= i < |name| => if 0x41 <= name[i] <= 0x5A then name[i] + 0x20 else name[i])
  }

  const CONTENT_LENGTH: seq<byte> :=
    [0x63, 0x6F, 0x6E, 0x74, 0x65, 0x6E, 0x74, 0x2D, 0x6C, 0x65, 0x6E, 0x67, 0x74, 0x68]

  function ContentLengths(headers: seq<(seq<byte>, seq<byte>)>): seq<seq<byte>> {
    if headers == [] then []
    else (if Lower(headers[0].0) == CONTENT_LENGTH then [headers[0].1] else []) + ContentLengths(headers[1..])
  }

  // How a header value reads as an integer is left open: parse is None where int() raises.
  function DeclaredLength(headers: seq<(seq<byte>, seq<byte>)>, parse: seq<byte> -> Option<int>): Option<nat>
  {
    var values := ContentLengths(headers);
    if |values| != 1 then None
    else match parse(values[0])
      case None => None
      case Some(length) => if length >= 0 then Some(length) else None
  }

  // A header name spells a word whatever its case.
  predicate Spells(name: seq<byte>, word: string) {
    && |name| == |word|
    && forall i :: 0 <= i < |name| ==>
         || name[i] as int == word[i] as int
         || ('a' <= word[i] <= 'z' && name[i] as int == word[i] as int - 32)
  }

  lemma LowerSpells(name: seq<byte>)
    ensures Lower(name) == CONTENT_LENGTH <==> Spells(name, "content-length")
  {
    var word := "content-length";
    assert |CONTENT_LENGTH| == |word| == 14;
    forall i | 0 <= i < 14 ensures CONTENT_LENGTH[i] as int == word[i] as int {
      CodesOfTheWord(i);
    }
    if Spells(name, word) {
      forall i | 0 <= i < 14 ensures Lower(name)[i] == CONTENT_LENGTH[i] {
        assert name[i] as int == word[i] as int || ('a' <= word[i] <= 'z' && name[i] as int == word[i] as int - 32);
      }
    }
    if Lower(name) == CONTENT_LENGTH {
      forall i | 0 <= i < 14
        ensures name[i] as int == word[i] as int || ('a' <= word[i] <= 'z' && name[i] as int == word[i] as int - 32)
      {
        assert Lower(name)[i] == CONTENT_LENGTH[i];
      }
    }
  }

  lemma CodesOfTheWord(i: nat)
    requires i < 14
    ensures CONTENT_LENGTH[i] as int == "content-length"[i] as int
  {
    if i < 7 {
      assert CONTENT_LENGTH[..7] == [0x63, 0x6F, 0x6E, 0x74, 0x65, 0x6E, 0x74];
    } else {
      assert CONTENT_LENGTH[7..] == [0x2D, 0x6C, 0x65, 0x6E, 0x67, 0x74, 0x68];
    }
  }

  ghost predicate OnlyHeader(headers: seq<(seq<byte>, seq<byte>)>, k: int) {
    && 0 <= k < |headers|
    && forall i :: 0 <= i < |headers| ==> (Spells(headers[i].0, "content-length") <==> i == k)
  }

  // The body has a declared length exactly when one header, and only one, is spelled
  // Content-Length and its value reads as a number that is not negative.
  lemma DeclaredByOneHeader(headers: seq<(seq<byte>, seq<byte>)>, parse: seq<byte> -> Option<int>, n: nat)
    ensures DeclaredLength(headers, parse) == Some(n) <==>
      exists k :: OnlyHeader(headers, k) && parse(headers[k].1) == Some(n)
  {
    HeadersFound(headers);
    if k :| OnlyHeader(headers, k) {
      assert ContentLengths(headers) == [headers[k].1];
    }
    if |ContentLengths(headers)| == 1 {
      var k :| OnlyHeader(headers, k);
    }
  }

  lemma {:induction false} HeadersFound(headers: seq<(seq<byte>, seq<byte>)>)
    ensures ContentLengths(headers) == [] <==>
      forall i :: 0 <= i < |headers| ==> !Spells(headers[i].0, "content-length")
    ensures forall k :: OnlyHeader(headers, k) ==> ContentLengths(headers) == [headers[k].1]
    ensures |ContentLengths(headers)| == 1 ==> exists k :: OnlyHeader(headers, k)
    decreases |headers|
  {
    if headers != [] {
      var rest := headers[1..];
      LowerSpells(headers[0].0);
      HeadersFound(rest);
      hide Spells, Lower;
      if |ContentLengths(headers)| == 1 && !Spells(headers[0].0, "content-length") {
        var k :| OnlyHeader(rest, k);
        assert OnlyHeader(headers, k + 1);
      } else if |ContentLengths(headers)| == 1 {
        assert OnlyHeader(headers, 0);
      }
      forall k | OnlyHeader(headers, k) ensures ContentLengths(headers) == [headers[k].1] {
        if k > 0 {
          assert OnlyHeader(rest, k - 1);
        }
      }
    }
  }

  class Exchange {
    var sent: seq<Sent>      // to the client
    var entries: seq<Entry>  // into the application

    constructor ()
      ensures sent == [] && entries == []
    {
      sent, entries := [], [];
    }

    method Enter(entry: Entry)
      modifies this`entries
      ensures entries == old(entries) + [entry]
    {
      entries := entries + [entry];
    }

    method Refuse(status: int, reason: string)
      modifies this`sent
      ensures sent == old(sent) + Refusal(status, reason)
    {
      sent := sent + [ResponseStart(status)];
      sent := sent + [ResponseBody(reason, status == UNPROCESSABLE_CONTENT)];
    }
  }

  // One refusal on the wire. Only a 422 carries the (empty) field list its model declares.
  function Refusal(status: int, reason: string): seq<Sent> {
    [ResponseStart(status), ResponseBody(reason, status == UNPROCESSABLE_CONTENT)]
  }

  ghost predicate Runs(limit: BodyLimit, declared: Option<nat>, body: seq<byte>) {
    declared.Some? && declared.value <= limit.maxBytes && |body| <= limit.maxBytes && Shallow(body, limit.maxDepth)
  }

  class RequestBodyLimit {
    const limits: map<(string, string), BodyLimit>
    const default: Option<BodyLimit>
    const parse: seq<byte> -> Option<int>

    constructor (limits: map<(string, string), BodyLimit>, default: Option<BodyLimit>, parse: seq<byte> -> Option<int>)
      ensures this.limits == limits && this.default == default && this.parse == parse
    {
      this.limits, this.default, this.parse := limits, default, parse;
    }

    // A named path keeps its own limit; any other request that carries a body takes the default.
    function LimitFor(scope: Scope): Option<BodyLimit> {
      var key := (scope.method_, RoutedPath(scope.path, scope.root));
      if scope.kind != "http" then None
      else if key in limits then Some(limits[key])
      else if scope.method_ in {"POST", "PUT", "PATCH"} then default
      else None
    }

    method Call(scope: Scope, channel: Channel, exchange: Exchange) returns (replay: Replay?)
      modifies channel, exchange
      // An unbounded request reaches the application as it came.
      ensures LimitFor(scope).None? ==>
        exchange.entries == old(exchange.entries) + [Untouched] && exchange.sent == old(exchange.sent)
        && channel.pending == old(channel.pending) && replay == null
      // A bounded one reaches it with its whole body, of legal size and depth, or not at all.
      ensures LimitFor(scope).Some? ==>
        var limit, declared := LimitFor(scope).value, DeclaredLength(scope.headers, parse);
        var body := Body(old(channel.pending));
        var runs := Runs(limit, declared, body);
        && exchange.entries == old(exchange.entries) + (if runs then [Replayed(body)] else [])
        && exchange.sent == old(exchange.sent) + (
             if runs then []
             else if declared.None? then [ResponseStart(411), ResponseBody("length_required", false)]
             else if declared.value > limit.maxBytes || |body| > limit.maxBytes then
               [ResponseStart(413), ResponseBody("request_too_large", false)]
             else [ResponseStart(422), ResponseBody("request_too_deeply_nested", true)])
        && (replay != null <==> runs)
        && (runs ==> fresh(replay) && Body(replay.Pending()) == body && |replay.Pending()| == 1)
        // A refused declaration costs nothing: not a byte is received.
        && (declared.None? || declared.value > limit.maxBytes ==> channel.pending == old(channel.pending))
      // Unbounded is what is not http, and what has neither a limit of its own nor, being a method
      // that carries a body, a default.
      ensures exchange.entries == old(exchange.entries) + [Untouched] <==>
        || scope.kind != "http"
        || ((scope.method_, RoutedPath(scope.path, scope.root)) !in limits
            && (default.None? || scope.method_ !in {"POST", "PUT", "PATCH"}))
      // A named route is held to its own limit, whatever the default is; the rest to the default.
      ensures var key := (scope.method_, RoutedPath(scope.path, scope.root));
        var body, declared := Body(old(channel.pending)), DeclaredLength(scope.headers, parse);
        && (scope.kind == "http" && key in limits ==> (replay != null <==> Runs(limits[key], declared, body)))
        && (scope.kind == "http" && key !in limits && default.Some? && scope.method_ in {"POST", "PUT", "PATCH"} ==>
              (replay != null <==> Runs(default.value, declared, body)))
    {
      replay := null;
      if scope.kind != "http" {
        exchange.Enter(Untouched);
        return;
      }
      var key := (scope.method_, RoutedPath(scope.path, scope.root));
      var limit := if key in limits then Some(limits[key]) else None;
      if limit.None? && scope.method_ in {"POST", "PUT", "PATCH"} {
        limit := default;
      }
      if limit.None? {
        exchange.Enter(Untouched);
        return;
      }
      var declared := DeclaredLength(scope.headers, parse);
      if declared.None? {
        exchange.Refuse(LENGTH_REQUIRED, "length_required");
        return;
      }
      if declared.value > limit.value.maxBytes {
        exchange.Refuse(PAYLOAD_TOO_LARGE, "request_too_large");
        return;
      }
      var body := Drain(channel, limit.value.maxBytes);
      if body.None? {
        exchange.Refuse(PAYLOAD_TOO_LARGE, "request_too_large");
        return;
      }
      var shallow := WithinDepth(body.value, limit.value.maxDepth);
      if !shallow {
        exchange.Refuse(UNPROCESSABLE_CONTENT, "request_too_deeply_nested");
        return;
      }
      replay := new Replay(body.value);
      exchange.Enter(Replayed(body.value));
      assert exchange.entries[|exchange.entries| - 1] == Replayed(body.value);
    }
  }

  // The limit on a route holds wherever the application is mounted, and with or without one
  // trailing slash: the scope a mount leaves looks up what the unmounted request would.
  lemma LimitsFollowTheRoute(bounds: RequestBodyLimit, scope: Scope, root: string)
    requires scope.root == "" && scope.path != ""
    ensures bounds.LimitFor(scope.(path := root + scope.path, root := root)) == bounds.LimitFor(scope)
    ensures scope.path[|scope.path| - 1] != '/' ==>
      bounds.LimitFor(scope.(path := root + scope.path + "/", root := root)) == bounds.LimitFor(scope)
    ensures bounds.LimitFor(scope.(path := root, root := root)) == bounds.LimitFor(scope.(path := "/"))
      || root == ""
  {
    MountingChangesNothing(scope.path, root);
    MountingChangesNothing("", root);
    assert root + "" == root;
  }

  /* ---- the body, and so the verdict, does not depend on how it was cut up ---- */

  predicate Ends(ms: seq<Message>) { ms != [] && (Last(ms[0]) || Ends(ms[1..])) }

  lemma BodyUnfolds(m: Message, rest: seq<Message>)
    ensures Body([m] + rest) == Chunk(m) + if Last(m) then [] else Body(rest)
  {
    assert ([m] + rest)[1..] == rest;
  }

  // A body goes on only after a request message that says so, and a message may carry none.
  lemma WhereABodyEnds(body: seq<byte>, more: Option<bool>, rest: seq<Message>)
    ensures Body([Request(Some(body), more)] + rest) == body + if more == Some(true) then Body(rest) else []
    ensures Body([Request(None, more)] + rest) == if more == Some(true) then Body(rest) else []
    ensures Body([Disconnect] + rest) == Body([]) == []
  {
    BodyUnfolds(Request(Some(body), more), rest);
    BodyUnfolds(Request(None, more), rest);
    BodyUnfolds(Disconnect, rest);
  }

  lemma Associates(a: seq<byte>, b: seq<byte>, c: seq<byte>)
    ensures a + (b + c) == (a + b) + c
  {
  }

  lemma {:induction false} BodyOfJoined(before: seq<Message>, after: seq<Message>)
    ensures Body(before + after) == Body(before) + if Ends(before) then [] else Body(after)
    decreases |before|
  {
    if before == [] {
      assert before + after == after;
    } else {
      var m, rest := before[0], before[1..];
      assert before + after == [m] + (rest + after) && before == [m] + rest;
      BodyUnfolds(m, rest + after);
      BodyUnfolds(m, rest);
      BodyOfJoined(rest, after);
      hide Body;
      Associates(Chunk(m), Body(rest), if Ends(rest) then [] else Body(after));
    }
  }

  lemma BodyOfSplitChunk(a: seq<byte>, b: seq<byte>, more: Option<bool>, after: seq<Message>)
    ensures Body([Request(Some(a), Some(true)), Request(Some(b), more)] + after)
         == Body([Request(Some(a + b), more)] + after)
  {
    var first, second, whole := Request(Some(a), Some(true)), Request(Some(b), more), Request(Some(a + b), more);
    assert ([first, second] + after)[1..] == [second] + after;
    assert ([second] + after)[1..] == after && ([whole] + after)[1..] == after;
  }

  lemma ChunkingChangesNothing(
      before: seq<Message>, a: seq<byte>, b: seq<byte>, more: Option<bool>, after: seq<Message>)
    ensures Body(before + ([Request(Some(a), Some(true)), Request(Some(b), more)] + after))
         == Body(before + ([Request(Some(a + b), more)] + after))
  {
    BodyOfJoined(before, [Request(Some(a), Some(true)), Request(Some(b), more)] + after);
    BodyOfJoined(before, [Request(Some(a + b), more)] + after);
    BodyOfSplitChunk(a, b, more, after);
  }

  // A client that goes away mid-body cannot turn an acceptable request into a refusal: what
  // was read is a prefix, so it is no longer and nests no deeper.
  lemma {:induction false} TruncationNeverRefuses(ms: seq<Message>, k: nat, limit: BodyLimit)
    requires k <= |ms|
    requires |Body(ms)| <= limit.maxBytes && Shallow(Body(ms), limit.maxDepth)
    ensures var cut := Body(ms[..k] + [Disconnect]);
      cut <= Body(ms) && |cut| <= limit.maxBytes && Shallow(cut, limit.maxDepth)
  {
    CutIsPrefix(ms, k);
    var cut := Body(ms[..k] + [Disconnect]);
    var rest := Body(ms)[|cut|..];
    assert Body(ms) == cut + rest;
    if !Shallow(cut, limit.maxDepth) {
      TooDeepStaysTooDeep(cut, rest, limit.maxDepth);
    }
  }

  lemma {:induction false} CutIsPrefix(ms: seq<Message>, k: nat)
    requires k <= |ms|
    ensures Body(ms[..k] + [Disconnect]) <= Body(ms)
    decreases k
  {
    var cut := ms[..k] + [Disconnect];
    if k > 0 {
      CutIsPrefix(ms[1..], k - 1);
      assert cut[1..] == ms[1..][..k - 1] + [Disconnect];
    }
  }

  // A body larger than it declared is never served exactly when the declaration is at least
  // what the path allows: draining is held to the path's bound, not to what was claimed.
  lemma DeclarationBoundsOnlyAtTheLimit(limit: BodyLimit, declared: nat)
    ensures (forall body :: Runs(limit, Some(declared), body) ==> |body| <= declared) <==> declared >= limit.maxBytes
  {
    if declared < limit.maxBytes {
      var body := seq(declared + 1, _ => 0x31 as byte);
      NoBracketsAreShallow(body, limit.maxDepth);
      assert Runs(limit, Some(declared), body);
    }
  }

  lemma NoBracketsAreShallow(body: seq<byte>, m: int)
    requires forall k :: 0 <= k < |body| ==> !Opens(body[k])
    ensures Shallow(body, m)
  {
    assert forall k :: 0 <= k < |body| ==> Bracket(body, k) != 1;
  }
}
