/**
 The passive URL audit: a fixed list of observations, each following redirects inside one hostname, all drawing on
 one budget of requests and body bytes. The web answers whatever it likes.
 */
module UrlAudit {
  import opened Wrappers

  const MAX_REDIRECTS := 3
  const MAX_REQUESTS := 10
  const MAX_TOTAL_BODY_BYTES := 4 * 1024 * 1024
  const MAX_PAGE_BYTES := 512 * 1024

  datatype Method = HEAD | GET | OPTIONS

  datatype Scheme = Http | Https

  /** A normalized URL: lower-case host, the port written out, path and query in `rest`. */
  datatype Url = Url(scheme: Scheme, host: string, port: int, rest: string)

  datatype Origin = Origin(scheme: Scheme, host: string, port: int)

  function OriginOf(u: Url): Origin {
    Origin(u.scheme, u.host, u.port)
  }

  function At(o: Origin, path: string): Url {
    Url(o.scheme, o.host, o.port, path)
  }

  /** Same host, and the same scheme and port or the step from plain HTTP to HTTPS on the default ports. */
  predicate RedirectAllowed(current: Url, candidate: Url) {
    && current.host == candidate.host
    && if current.scheme == candidate.scheme then current.port == candidate.port
       else current.scheme.Http? && candidate.scheme.Https? && current.port == 80 && candidate.port == 443
  }

  datatype Reply =
    | Unresolved
    | Broken
    | Response(status: int, location: Option<string>, size: nat, late: bool)

  /**
   The outside: whether the deadline has passed before the n-th request, what the n-th request meets, what a redirect
   target normalizes to, and which observation finds an OpenAPI document.
   */
  datatype Web = Web(
    expired: nat -> bool,
    reply: (nat, Method, Url, nat) -> Reply,
    join: (Url, string) -> Option<Url>,
    parses: nat -> bool)

  /** The transport reads no more of a body than it is asked to. */
  ghost predicate Honours(web: Web) {
    forall n, m, u, max :: web.reply(n, m, u, max).Response? ==> web.reply(n, m, u, max).size <= max
  }

  class AuditBudget {
    var requestCount: nat
    var bodyBytes: nat

    constructor ()
      ensures requestCount == 0 && bodyBytes == 0
    {
      requestCount, bodyBytes := 0, 0;
    }

    /** Takes one request from the budget and says how many body bytes are left for it. */
    method BeforeRequest(m: Method, expired: bool) returns (remaining: Option<nat>)
      modifies this
      ensures remaining.None? <==>
                old(requestCount) >= MAX_REQUESTS || expired || (m.GET? && old(bodyBytes) >= MAX_TOTAL_BODY_BYTES)
      ensures requestCount == old(requestCount) + if remaining.Some? then 1 else 0
      ensures remaining.Some? ==> remaining.value == Max(0, MAX_TOTAL_BODY_BYTES - bodyBytes)
      ensures bodyBytes == old(bodyBytes)
    {
      if requestCount >= MAX_REQUESTS { return None; }
      if expired { return None; }
      var left := MAX_TOTAL_BODY_BYTES - bodyBytes;
      if m.GET? && left <= 0 { return None; }
      requestCount := requestCount + 1;
      remaining := Some(if left < 0 then 0 else left);
    }

    method RecordBody(size: nat) returns (ok: bool)
      modifies this
      ensures bodyBytes == old(bodyBytes) + size && requestCount == old(requestCount)
      ensures ok <==> bodyBytes <= MAX_TOTAL_BODY_BYTES
    {
      bodyBytes := bodyBytes + size;
      ok := bodyBytes <= MAX_TOTAL_BODY_BYTES;
    }
  }

  datatype Issued = Issued(method_: Method, url: Url, maxBytes: nat)

  datatype Observation = Observation(
    initial: Url,
    final: Url,
    status: Option<int>,
    failed: bool,
    bodyBytes: nat)

  /** What an observation leads to: its result, the requests it made, and what it leaves of the budget. */
  datatype Trail = Trail(o: Observation, made: seq<Issued>, requests: nat, bytes: nat)

  function Failed(url: Url, current: Url): Observation {
    Observation(url, current, None, true, 0)
  }

  /** One request of an observation either ends it or redirects it. */
  datatype Hop = Done(trail: Trail) | Redirected(next: Url, sent: Issued, requests: nat, bytes: nat)

  /** `requests` and `bytes` are already taken from the budget. */
  function HopFrom(web: Web, m: Method, url: Url, current: Url, maxBytes: nat, requests: nat, bytes: nat): Hop {
    if requests >= MAX_REQUESTS || web.expired(requests) || (m.GET? && bytes >= MAX_TOTAL_BODY_BYTES)
    then Done(Trail(Failed(url, current), [], requests, bytes))
    else
      var max := Min(maxBytes, Max(0, MAX_TOTAL_BODY_BYTES - bytes));
      var taken := requests + 1;
      var sent := Issued(m, current, max);
      match web.reply(taken, m, current, max)
      case Unresolved => Done(Trail(Failed(url, current), [], taken, bytes))
      case Broken => Done(Trail(Failed(url, current), [sent], taken, bytes))
      case Response(status, location, size, late) =>
        var read := bytes + size;
        if read > MAX_TOTAL_BODY_BYTES || late then Done(Trail(Failed(url, current), [sent], taken, read))
        else if !IsRedirect(status) || location.None? || location.value == "" || m.OPTIONS?
        then Done(Trail(Observation(url, current, Some(status), false, size), [sent], taken, read))
        else
          var next := web.join(current, location.value);
          if next.None? then Done(Trail(Failed(url, current), [sent], taken, read))
          else if !RedirectAllowed(current, next.value)
          then Done(Trail(Observation(url, current, Some(status), true, 0), [sent], taken, read))
          else Redirected(next.value, sent, taken, read)
  }

  /** At most `hops` more requests, each where the last one redirected to. */
  function Walk(web: Web, m: Method, url: Url, current: Url, maxBytes: nat, hops: nat, requests: nat, bytes: nat): Trail
    decreases hops
  {
    if hops == 0 then Trail(Failed(url, current), [], requests, bytes)
    else
      match HopFrom(web, m, url, current, maxBytes, requests, bytes)
      case Done(t) => t
      case Redirected(next, sent, taken, read) =>
        Onward([sent], Walk(web, m, url, next, maxBytes, hops - 1, taken, read))
  }

  function Onward(made: seq<Issued>, t: Trail): Trail {
    t.(made := made + t.made)
  }

  predicate IsRedirect(status: int) {
    status == 301 || status == 302 || status == 303 || status == 307 || status == 308
  }

  /** Each request of an observation follows from the one before by an allowed redirect. */
  predicate Follows(urls: seq<Issued>) {
    forall i :: 0 <= i < |urls| - 1 ==> RedirectAllowed(urls[i].url, urls[i + 1].url)
  }

  lemma OnwardTwice(a: seq<Issued>, b: seq<Issued>, t: Trail)
    ensures Onward(a, Onward(b, t)) == Onward(a + b, t)
  {
  }

  lemma OnwardIs(made: seq<Issued>, t: Trail)
    ensures Onward(made, t) == Trail(t.o, made + t.made, t.requests, t.bytes)
  {
  }

  lemma OnwardNothing(t: Trail)
    ensures Onward([], t) == t
  {
  }

  lemma WalkEnds(web: Web, m: Method, url: Url, current: Url, maxBytes: nat, requests: nat, bytes: nat)
    ensures Walk(web, m, url, current, maxBytes, 0, requests, bytes) == Trail(Failed(url, current), [], requests, bytes)
  {
  }

  lemma WalkOn(web: Web, m: Method, url: Url, current: Url, maxBytes: nat, hops: nat, requests: nat, bytes: nat)
    requires hops > 0
    ensures var h := HopFrom(web, m, url, current, maxBytes, requests, bytes);
            Walk(web, m, url, current, maxBytes, hops, requests, bytes)
            == if h.Done? then h.trail
               else Onward([h.sent], Walk(web, m, url, h.next, maxBytes, hops - 1, h.requests, h.bytes))
  {
    hide HopFrom;
  }

  /**
   The laws of a trail: at most `hops` requests, one for OPTIONS, all of one method and within the byte limit, the
   first to the current URL and each later one by an allowed redirect; the final URL is the last one redirected to;
   the budget is respected.
   */
  lemma {:induction false} WalkKeeps(web: Web, m: Method, url: Url, current: Url, maxBytes: nat, hops: nat, requests: nat,
                                     bytes: nat)
    ensures var t := Walk(web, m, url, current, maxBytes, hops, requests, bytes);
            && |t.made| <= hops && (m.OPTIONS? ==> |t.made| <= 1)
            && (forall i :: 0 <= i < |t.made| ==> t.made[i].method_ == m && t.made[i].maxBytes <= maxBytes)
            && (t.made != [] ==> t.made[0].url == current)
            && Follows(t.made)
            && t.o.initial == url && (t.o.status.None? ==> t.o.failed)
            && (if t.made == [] then t.o.final == current && t.o.failed
                else t.o.final == t.made[|t.made| - 1].url || RedirectAllowed(t.made[|t.made| - 1].url, t.o.final))
            && requests + |t.made| <= t.requests && (requests <= MAX_REQUESTS ==> t.requests <= MAX_REQUESTS)
            && (Honours(web) && bytes <= MAX_TOTAL_BODY_BYTES ==> t.bytes <= MAX_TOTAL_BODY_BYTES)
    decreases hops
  {
    hide Honours, Walk, HopFrom;
    if hops == 0 {
      WalkEnds(web, m, url, current, maxBytes, requests, bytes);
    } else {
      HopKeeps(web, m, url, current, maxBytes, requests, bytes);
      WalkOn(web, m, url, current, maxBytes, hops, requests, bytes);
      var h := HopFrom(web, m, url, current, maxBytes, requests, bytes);
      if h.Redirected? {
        WalkKeeps(web, m, url, h.next, maxBytes, hops - 1, h.requests, h.bytes);
      }
    }
  }

  lemma HopKeeps(web: Web, m: Method, url: Url, current: Url, maxBytes: nat, requests: nat, bytes: nat)
    ensures var h := HopFrom(web, m, url, current, maxBytes, requests, bytes);
            && (h.Redirected? ==>
                  && !m.OPTIONS? && RedirectAllowed(current, h.next)
                  && h.sent.method_ == m && h.sent.url == current && h.sent.maxBytes <= maxBytes
                  && h.requests == requests + 1 <= MAX_REQUESTS
                  && (Honours(web) && bytes <= MAX_TOTAL_BODY_BYTES ==> h.bytes <= MAX_TOTAL_BODY_BYTES))
            && (h.Done? ==>
                  var t := h.trail;
                  && (t.made == [] || (|t.made| == 1 && t.made[0].method_ == m && t.made[0].url == current
                                       && t.made[0].maxBytes <= maxBytes))
                  && t.o.initial == url && t.o.final == current && (t.o.status.None? || t.made == [] ==> t.o.failed)
                  && requests + |t.made| <= t.requests && (requests <= MAX_REQUESTS ==> t.requests <= MAX_REQUESTS)
                  && (Honours(web) && bytes <= MAX_TOTAL_BODY_BYTES ==> t.bytes <= MAX_TOTAL_BODY_BYTES))
  {
  }

  // ---- what the replies along a trail say of its end ----

  /** The reply to the i-th request of a trail that began with `requests` taken. */
  function ReplyTo(web: Web, made: seq<Issued>, requests: nat, i: nat): Reply
    requires i < |made|
  {
    web.reply(requests + i + 1, made[i].method_, made[i].url, made[i].maxBytes)
  }

  /** The body bytes counted when `n` requests of the trail have been answered. */
  function BytesAfter(web: Web, made: seq<Issued>, requests: nat, bytes: nat, n: nat): nat
    requires n <= |made|
  {
    if n == 0 then bytes
    else
      var r := ReplyTo(web, made, requests, n - 1);
      BytesAfter(web, made, requests, bytes, n - 1) + if r.Response? then r.size else 0
  }

  /** The budget lets one more request out: fewer than ten taken, in time, and for GET fewer than 4 MiB read. */
  predicate Permitted(web: Web, m: Method, requests: nat, bytes: nat) {
    requests < 10 && !web.expired(requests) && (m.GET? ==> bytes < 4_194_304)
  }

  /** How much of a body may be asked for. */
  function Room(maxBytes: nat, bytes: nat): nat {
    if bytes >= 4_194_304 then 0 else if maxBytes < 4_194_304 - bytes then maxBytes else 4_194_304 - bytes
  }

  /** A response in time and, with its body counted, inside the byte budget. */
  predicate Timely(r: Reply, bytes: nat) {
    r.Response? && !r.late && bytes <= 4_194_304
  }

  /** A redirect that is to be followed. */
  predicate Leads(m: Method, r: Reply) {
    && r.Response? && r.status in {301, 302, 303, 307, 308}
    && r.location.Some? && r.location.value != "" && !m.OPTIONS?
  }

  /** Same host, and either the same scheme and port or from HTTP on port 80 to HTTPS on port 443. */
  predicate StaysOnSite(a: Url, b: Url) {
    && a.host == b.host
    && (|| (a.scheme == b.scheme && a.port == b.port)
        || (a.scheme.Http? && a.port == 80 && b.scheme.Https? && b.port == 443))
  }

  /** The request to `at` was answered by a redirect that is followed to `next`. */
  predicate MovesOn(web: Web, m: Method, at: Url, r: Reply, bytes: nat, next: Url) {
    Timely(r, bytes) && Leads(m, r) && web.join(at, r.location.value) == Some(next) && StaysOnSite(at, next)
  }

  /** The reply ends the observation: with its status and size, or failed for one of the four causes. */
  predicate EndsWith(web: Web, m: Method, url: Url, at: Url, r: Reply, bytes: nat, o: Observation) {
    && !r.Unresolved?
    && if !Timely(r, bytes) then o == Observation(url, at, None, true, 0)
       else if !Leads(m, r) then o == Observation(url, at, Some(r.status), false, r.size)
       else match web.join(at, r.location.value)
            case None => o == Observation(url, at, None, true, 0)
            case Some(next) => !StaysOnSite(at, next) && o == Observation(url, at, Some(r.status), true, 0)
  }

  /** No request was made to where the trail had got: too many redirects, no budget, or no address. */
  predicate StopsShort(web: Web, m: Method, maxBytes: nat, hops: nat, requests: nat, n: nat, t: Trail) {
    && t.o == Observation(t.o.initial, t.o.final, None, true, 0)
    && if n == hops || !Permitted(web, m, requests + n, t.bytes) then t.requests == requests + n
       else web.reply(requests + n + 1, m, t.o.final, Room(maxBytes, t.bytes)).Unresolved? && t.requests == requests + n + 1
  }

  /** The i-th request was let out by the budget, with the method of the trail and no more bytes asked for than are left. */
  predicate SentRight(web: Web, m: Method, maxBytes: nat, made: seq<Issued>, requests: nat, bytes: nat, i: nat)
    requires i < |made|
  {
    && Permitted(web, m, requests + i, BytesAfter(web, made, requests, bytes, i))
    && made[i].method_ == m
    && made[i].maxBytes == Room(maxBytes, BytesAfter(web, made, requests, bytes, i))
  }

  /** The i-th request was redirected to the next one. */
  predicate MovedRight(web: Web, m: Method, made: seq<Issued>, requests: nat, bytes: nat, i: nat)
    requires i + 1 < |made|
  {
    MovesOn(web, m, made[i].url, ReplyTo(web, made, requests, i), BytesAfter(web, made, requests, bytes, i + 1),
            made[i + 1].url)
  }

  /** What a trail is, in terms of the replies along it. */
  ghost predicate Told(web: Web, m: Method, url: Url, current: Url, maxBytes: nat, hops: nat, requests: nat, bytes: nat,
                       t: Trail) {
    var n := |t.made|;
    && n <= hops && t.o.initial == url
    && (n > 0 ==> t.made[0].url == current)
    && (forall i :: 0 <= i < n ==> SentRight(web, m, maxBytes, t.made, requests, bytes, i))
    && (forall i :: 0 <= i < n - 1 ==> MovedRight(web, m, t.made, requests, bytes, i))
    && t.bytes == BytesAfter(web, t.made, requests, bytes, n)
    && Concluded(web, m, url, current, maxBytes, hops, requests, n, t)
  }

  /** The last reply ends the trail, or it leads on to where no further request was made. */
  ghost predicate Concluded(web: Web, m: Method, url: Url, current: Url, maxBytes: nat, hops: nat, requests: nat, n: nat,
                            t: Trail)
    requires n == |t.made|
  {
    if n == 0 then t.o.final == current && StopsShort(web, m, maxBytes, hops, requests, n, t)
    else
      var at, r := t.made[n - 1].url, ReplyTo(web, t.made, requests, n - 1);
      || (t.requests == requests + n && EndsWith(web, m, url, at, r, t.bytes, t.o))
      || (MovesOn(web, m, at, r, t.bytes, t.o.final) && StopsShort(web, m, maxBytes, hops, requests, n, t))
  }

  /** One request further: what was counted from the second request on is what is counted from there. */
  lemma {:induction false} BytesShift(web: Web, first: Issued, made: seq<Issued>, requests: nat, bytes: nat, n: nat)
    requires n <= |made|
    ensures var r := web.reply(requests + 1, first.method_, first.url, first.maxBytes);
            BytesAfter(web, [first] + made, requests, bytes, n + 1)
            == BytesAfter(web, made, requests + 1, bytes + (if r.Response? then r.size else 0), n)
  {
    var all := [first] + made;
    if n > 0 {
      BytesShift(web, first, made, requests, bytes, n - 1);
      assert all[n] == made[n - 1];
    }
    assert n == 0 ==> BytesAfter(web, all, requests, bytes, 0) == bytes;
  }

  lemma BytesAtStart(web: Web, made: seq<Issued>, requests: nat, bytes: nat)
    ensures BytesAfter(web, made, requests, bytes, 0) == bytes
  {
  }

  lemma BytesAfterOne(web: Web, sent: Issued, requests: nat, bytes: nat)
    ensures var r := web.reply(requests + 1, sent.method_, sent.url, sent.maxBytes);
            BytesAfter(web, [sent], requests, bytes, 1) == bytes + if r.Response? then r.size else 0
  {
    assert BytesAfter(web, [sent], requests, bytes, 0) == bytes;
  }

  lemma HopTells(web: Web, m: Method, url: Url, current: Url, maxBytes: nat, hops: nat, requests: nat, bytes: nat)
    requires hops > 0
    ensures var h := HopFrom(web, m, url, current, maxBytes, requests, bytes);
            && (h.Done? ==> Told(web, m, url, current, maxBytes, hops, requests, bytes, h.trail))
            && (h.Redirected? ==>
                  && Permitted(web, m, requests, bytes)
                  && h.sent == Issued(m, current, Room(maxBytes, bytes)) && h.requests == requests + 1
                  && var r := web.reply(requests + 1, m, current, h.sent.maxBytes);
                     h.bytes == bytes + (if r.Response? then r.size else 0) && MovesOn(web, m, current, r, h.bytes, h.next))
  {
    var sent := Issued(m, current, Room(maxBytes, bytes));
    BytesAtStart(web, [], requests, bytes);
    BytesAtStart(web, [sent], requests, bytes);
    BytesAfterOne(web, sent, requests, bytes);
    hide BytesAfter;
  }

  lemma {:induction false} WalkTells(web: Web, m: Method, url: Url, current: Url, maxBytes: nat, hops: nat, requests: nat,
                                     bytes: nat)
    ensures Told(web, m, url, current, maxBytes, hops, requests, bytes,
                 Walk(web, m, url, current, maxBytes, hops, requests, bytes))
    decreases hops
  {
    hide HopFrom, Walk, Told;
    if hops == 0 {
      WalkEnds(web, m, url, current, maxBytes, requests, bytes);
      EndTold(web, m, url, current, maxBytes, requests, bytes);
    } else {
      HopTells(web, m, url, current, maxBytes, hops, requests, bytes);
      WalkOn(web, m, url, current, maxBytes, hops, requests, bytes);
      var h := HopFrom(web, m, url, current, maxBytes, requests, bytes);
      if h.Redirected? {
        WalkTells(web, m, url, h.next, maxBytes, hops - 1, h.requests, h.bytes);
        ToldOnward(web, m, url, current, maxBytes, hops, requests, bytes, h.sent, h.next, h.bytes,
                   Walk(web, m, url, h.next, maxBytes, hops - 1, h.requests, h.bytes));
      }
    }
  }

  lemma EndTold(web: Web, m: Method, url: Url, current: Url, maxBytes: nat, requests: nat, bytes: nat)
    ensures Told(web, m, url, current, maxBytes, 0, requests, bytes, Trail(Failed(url, current), [], requests, bytes))
  {
    BytesAtStart(web, [], requests, bytes);
  }

  /** Putting a followed redirect in front of a trail. */
  lemma ToldOnward(web: Web, m: Method, url: Url, current: Url, maxBytes: nat, hops: nat, requests: nat, bytes: nat,
                   sent: Issued, next: Url, read: nat, t: Trail)
    requires hops > 0 && Told(web, m, url, next, maxBytes, hops - 1, requests + 1, read, t)
    requires Permitted(web, m, requests, bytes) && sent == Issued(m, current, Room(maxBytes, bytes))
    requires var r := web.reply(requests + 1, m, current, sent.maxBytes);
             read == bytes + (if r.Response? then r.size else 0) && MovesOn(web, m, current, r, read, next)
    ensures Told(web, m, url, current, maxBytes, hops, requests, bytes, Onward([sent], t))
  {
    hide Permitted, MovesOn, Room, StopsShort, EndsWith, Concluded, SentRight, MovedRight, BytesAfter;
    var all, n := Onward([sent], t), |t.made|;
    FirstSent(web, m, maxBytes, sent, t.made, requests, bytes);
    BytesShift(web, sent, t.made, requests, bytes, n);
    BytesAtStart(web, t.made, requests + 1, read);
    OnwardConcludes(web, m, url, current, maxBytes, hops, requests, sent, next, t);
    forall i | 0 <= i < n + 1 ensures SentRight(web, m, maxBytes, all.made, requests, bytes, i) {
      if i > 0 {
        SentShift(web, m, maxBytes, sent, t.made, requests, bytes, read, i - 1);
      }
    }
    forall i | 0 <= i < n ensures MovedRight(web, m, all.made, requests, bytes, i) {
      if i > 0 {
        MovedShift(web, m, sent, t.made, requests, bytes, read, i - 1);
      } else {
        FirstMoved(web, m, sent, t.made, requests, bytes, read);
      }
    }
  }

  lemma FirstSent(web: Web, m: Method, maxBytes: nat, sent: Issued, made: seq<Issued>, requests: nat, bytes: nat)
    requires Permitted(web, m, requests, bytes) && sent == Issued(m, sent.url, Room(maxBytes, bytes))
    ensures SentRight(web, m, maxBytes, [sent] + made, requests, bytes, 0)
  {
    BytesAtStart(web, [sent] + made, requests, bytes);
    hide BytesAfter, Permitted, Room;
  }

  lemma FirstMoved(web: Web, m: Method, sent: Issued, made: seq<Issued>, requests: nat, bytes: nat, read: nat)
    requires made != [] && sent.method_ == m
    requires var r := web.reply(requests + 1, m, sent.url, sent.maxBytes);
             read == bytes + (if r.Response? then r.size else 0) && MovesOn(web, m, sent.url, r, read, made[0].url)
    ensures MovedRight(web, m, [sent] + made, requests, bytes, 0)
  {
    BytesShift(web, sent, made, requests, bytes, 0);
    BytesAtStart(web, made, requests + 1, read);
    hide BytesAfter, MovesOn;
  }

  lemma SentShift(web: Web, m: Method, maxBytes: nat, sent: Issued, made: seq<Issued>, requests: nat, bytes: nat, read: nat,
                  i: nat)
    requires i < |made| && SentRight(web, m, maxBytes, made, requests + 1, read, i)
    requires var r := web.reply(requests + 1, sent.method_, sent.url, sent.maxBytes);
             read == bytes + if r.Response? then r.size else 0
    ensures SentRight(web, m, maxBytes, [sent] + made, requests, bytes, i + 1)
  {
    BytesShift(web, sent, made, requests, bytes, i);
    hide BytesAfter, Permitted, Room;
    assert ([sent] + made)[i + 1] == made[i];
  }

  lemma MovedShift(web: Web, m: Method, sent: Issued, made: seq<Issued>, requests: nat, bytes: nat, read: nat, i: nat)
    requires i + 1 < |made| && MovedRight(web, m, made, requests + 1, read, i)
    requires var r := web.reply(requests + 1, sent.method_, sent.url, sent.maxBytes);
             read == bytes + if r.Response? then r.size else 0
    ensures MovedRight(web, m, [sent] + made, requests, bytes, i + 1)
  {
    BytesShift(web, sent, made, requests, bytes, i + 1);
    hide BytesAfter, MovesOn;
    assert ([sent] + made)[i + 1] == made[i] && ([sent] + made)[i + 2] == made[i + 1];
  }

  lemma ShortOnward(web: Web, m: Method, maxBytes: nat, hops: nat, requests: nat, n: nat, t: Trail, all: Trail)
    requires hops > 0 && all == t.(made := all.made)
    ensures StopsShort(web, m, maxBytes, hops - 1, requests + 1, n, t)
            <==> StopsShort(web, m, maxBytes, hops, requests, n + 1, all)
  {
  }

  lemma OnwardConcludes(web: Web, m: Method, url: Url, current: Url, maxBytes: nat, hops: nat, requests: nat, sent: Issued,
                        next: Url, t: Trail)
    requires hops > 0 && Concluded(web, m, url, next, maxBytes, hops - 1, requests + 1, |t.made|, t)
    requires t.made == [] ==> MovesOn(web, m, current, web.reply(requests + 1, m, current, sent.maxBytes), t.bytes, next)
    requires sent.method_ == m && sent.url == current
    ensures Concluded(web, m, url, current, maxBytes, hops, requests, |t.made| + 1, Onward([sent], t))
  {
    hide MovesOn, StopsShort, EndsWith;
    var all := Onward([sent], t);
    ShortOnward(web, m, maxBytes, hops, requests, |t.made|, t, all);
    if t.made != [] {
      var n := |t.made|;
      assert all.made[n] == t.made[n - 1];
      assert ReplyTo(web, all.made, requests, n) == ReplyTo(web, t.made, requests + 1, n - 1);
    } else {
      assert all.made == [sent];
    }
  }

  /** The last request was answered in time, inside the byte budget, and not by a redirect to follow. */
  predicate GotThrough(web: Web, m: Method, requests: nat, t: Trail) {
    && t.made != []
    && Timely(ReplyTo(web, t.made, requests, |t.made| - 1), t.bytes)
    && !Leads(m, ReplyTo(web, t.made, requests, |t.made| - 1))
  }

  /** The last request was answered in time by a redirect to a URL that is not allowed. */
  predicate LeftSite(web: Web, m: Method, requests: nat, t: Trail) {
    && t.made != []
    && var at, r := t.made[|t.made| - 1].url, ReplyTo(web, t.made, requests, |t.made| - 1);
       && Timely(r, t.bytes) && Leads(m, r)
       && web.join(at, r.location.value).Some? && !StaysOnSite(at, web.join(at, r.location.value).value)
  }

  /**
   An observation gets through exactly when its last request does; it then carries the status, the size and the place of
   the answer. Otherwise it carries no bytes, and a status exactly if a redirect would have left the site.
   */
  lemma ObservationMeans(web: Web, m: Method, url: Url, maxBytes: nat, hops: nat, requests: nat, bytes: nat, t: Trail)
    requires Told(web, m, url, url, maxBytes, hops, requests, bytes, t)
    ensures !t.o.failed <==> GotThrough(web, m, requests, t)
    ensures !t.o.failed ==>
              var last, r := t.made[|t.made| - 1], ReplyTo(web, t.made, requests, |t.made| - 1);
              r.Response? && t.o == Observation(url, last.url, Some(r.status), false, r.size)
    ensures t.o.failed ==> t.o.bodyBytes == 0 && (t.o.status.Some? <==> LeftSite(web, m, requests, t))
  {
    hide BytesAfter, Permitted, Room, StaysOnSite, SentRight, MovedRight;
  }

  // ---- the list of observations ----

  datatype Ask = Ask(method_: Method, url: Url, maxBytes: nat)

  datatype Ledger = Ledger(observations: seq<Observation>, issued: seq<Issued>, requests: nat, bytes: nat)

  /** The asked observations, one after the other on one budget. */
  function Tour(web: Web, asks: seq<Ask>): Ledger {
    if asks == [] then Ledger([], [], 0, 0)
    else
      var so := Tour(web, asks[..|asks| - 1]);
      var a := asks[|asks| - 1];
      var t := Walk(web, a.method_, a.url, a.url, a.maxBytes, MAX_REDIRECTS + 1, so.requests, so.bytes);
      Ledger(so.observations + [t.o], so.issued + t.made, t.requests, t.bytes)
  }

  lemma TourOn(web: Web, asks: seq<Ask>, a: Ask)
    ensures var so := Tour(web, asks);
            var t := Walk(web, a.method_, a.url, a.url, a.maxBytes, MAX_REDIRECTS + 1, so.requests, so.bytes);
            Tour(web, asks + [a]) == Ledger(so.observations + [t.o], so.issued + t.made, t.requests, t.bytes)
  {
    hide Walk;
    assert (asks + [a])[..|asks|] == asks;
  }

  const WELL_KNOWN := ["/robots.txt", "/sitemap.xml", "/.well-known/security.txt"]
  const DOCUMENTS := ["/openapi.json", "/.well-known/openapi.json", "/swagger.json"]

  /** The i-th document answered with success and parses as an OpenAPI document. */
  predicate FoundDocument(web: Web, i: nat, o: Observation) {
    o.status.Some? && 200 <= o.status.value < 300 && web.parses(i)
  }

  function Pages(base: Origin, paths: seq<string>): seq<Ask> {
    seq(|paths|, i requires 0 <= i < |paths| => Ask(GET, At(base, paths[i]), MAX_PAGE_BYTES))
  }

  /** The icon request: the conventional path without a link, a same-origin link, and nothing otherwise. */
  function IconAsks(base: Origin, icon: Option<Hint>): seq<Ask> {
    if icon.None? then [Ask(HEAD, At(base, "/favicon.ico"), 0)]
    else if icon.value.Link? && icon.value.origin == Some(base) && icon.value.url.Some?
    then [Ask(HEAD, icon.value.url.value, 0)]
    else []
  }

  /** What is asked after the two root requests, if the second of them got through: `found` documents were tried. */
  function LaterAsks(base: Origin, found: nat, icon: seq<Ask>): seq<Ask>
    requires found <= |DOCUMENTS|
  {
    [Ask(OPTIONS, At(base, "/"), 0)] + Pages(base, WELL_KNOWN) + Pages(base, DOCUMENTS[..found]) + icon
  }

  function RootAsks(target: Url): seq<Ask> {
    [Ask(HEAD, target, MAX_PAGE_BYTES), Ask(GET, target, MAX_PAGE_BYTES)]
  }

  /** Documents are tried in order, at most three, until one answers with a status from 200 to 299 and parses. */
  ghost predicate TriedUntilFound(web: Web, found: nat, os: seq<Observation>)
    requires 6 + found <= |os|
  {
    var tried := os[6..6 + found];
    && 1 <= found <= 3
    && (forall i :: 0 <= i < found - 1 ==> tried[i].status.None? || !(200 <= tried[i].status.value <= 299) || !web.parses(i))
    && (found < 3 ==>
          var o := tried[found - 1]; o.status.Some? && 200 <= o.status.value <= 299 && web.parses(found - 1))
  }

  lemma TriedMeans(web: Web, found: nat, os: seq<Observation>)
    requires 1 <= found <= 3 && |os| == 6 + found
    requires forall i :: 0 <= i < found - 1 ==> !FoundDocument(web, i, os[6..][i])
    requires found < 3 ==> FoundDocument(web, found - 1, os[6..][found - 1])
    ensures TriedUntilFound(web, found, os)
  {
    assert os[6..6 + found] == os[6..];
  }

  /** The observations of a run, spelled out: two of the root, one OPTIONS, three fixed pages, documents, the icon. */
  lemma AsksAre(target: Url, base: Origin, found: nat, icon: Option<Hint>)
    requires found <= 3
    ensures RootAsks(target) == [Ask(HEAD, target, 524_288), Ask(GET, target, 524_288)]
    ensures LaterAsks(base, found, IconAsks(base, icon))
            == [Ask(OPTIONS, Url(base.scheme, base.host, base.port, "/"), 0),
                Ask(GET, Url(base.scheme, base.host, base.port, "/robots.txt"), 524_288),
                Ask(GET, Url(base.scheme, base.host, base.port, "/sitemap.xml"), 524_288),
                Ask(GET, Url(base.scheme, base.host, base.port, "/.well-known/security.txt"), 524_288)]
               + [Ask(GET, Url(base.scheme, base.host, base.port, "/openapi.json"), 524_288),
                  Ask(GET, Url(base.scheme, base.host, base.port, "/.well-known/openapi.json"), 524_288),
                  Ask(GET, Url(base.scheme, base.host, base.port, "/swagger.json"), 524_288)][..found]
               + match icon
                 case None => [Ask(HEAD, Url(base.scheme, base.host, base.port, "/favicon.ico"), 0)]
                 case Some(Link(o, Some(u))) => if o == Some(base) then [Ask(HEAD, u, 0)] else []
                 case _ => []
  {
    assert Pages(base, DOCUMENTS[..found]) == Pages(base, DOCUMENTS)[..found];
  }

  /** Every observation of a tour is told by the replies to its own requests, on what the ones before it left. */
  lemma {:induction false} EachObservationTold(web: Web, asks: seq<Ask>, k: nat) returns (t: Trail)
    requires k < |asks|
    ensures |Tour(web, asks).observations| == |asks| && Tour(web, asks).observations[k] == t.o
    ensures Told(web, asks[k].method_, asks[k].url, asks[k].url, asks[k].maxBytes, 4, Tour(web, asks[..k]).requests,
                 Tour(web, asks[..k]).bytes, t)
  {
    var n := |asks| - 1;
    assert asks == asks[..n] + [asks[n]];
    TourOn(web, asks[..n], asks[n]);
    hide Tour, Told;
    TourLength(web, asks[..n]);
    if k < n {
      t := EachObservationTold(web, asks[..n], k);
      assert asks[..n][..k] == asks[..k];
    } else {
      var so := Tour(web, asks[..n]);
      t := Walk(web, asks[n].method_, asks[n].url, asks[n].url, asks[n].maxBytes, MAX_REDIRECTS + 1, so.requests, so.bytes);
      WalkTells(web, asks[n].method_, asks[n].url, asks[n].url, asks[n].maxBytes, 4, so.requests, so.bytes);
    }
  }

  lemma {:induction false} TourLength(web: Web, asks: seq<Ask>)
    ensures |Tour(web, asks).observations| == |asks|
  {
    if asks == [] {
      TourNothing(web);
    } else {
      var n := |asks| - 1;
      assert asks == asks[..n] + [asks[n]];
      TourOn(web, asks[..n], asks[n]);
      hide Tour;
      TourLength(web, asks[..n]);
    }
  }

  /** The two root observations: the first on a fresh budget, the second on what that one left. */
  lemma RootTold(web: Web, target: Url) returns (head: Trail, get: Trail)
    ensures Told(web, HEAD, target, target, 524_288, 4, 0, 0, head)
    ensures Told(web, GET, target, target, 524_288, 4, head.requests, head.bytes, get)
    ensures Tour(web, RootAsks(target)) == Ledger([head.o, get.o], head.made + get.made, get.requests, get.bytes)
  {
    hide Told, Tour, Walk;
    head := Walk(web, HEAD, target, target, MAX_PAGE_BYTES, MAX_REDIRECTS + 1, 0, 0);
    get := Walk(web, GET, target, target, MAX_PAGE_BYTES, MAX_REDIRECTS + 1, head.requests, head.bytes);
    WalkTells(web, HEAD, target, target, 524_288, 4, 0, 0);
    WalkTells(web, GET, target, target, 524_288, 4, head.requests, head.bytes);
    TourNothing(web);
    TourOn(web, [], Ask(HEAD, target, MAX_PAGE_BYTES));
    TourOn(web, [Ask(HEAD, target, MAX_PAGE_BYTES)], Ask(GET, target, MAX_PAGE_BYTES));
    assert RootAsks(target) == [Ask(HEAD, target, MAX_PAGE_BYTES)] + [Ask(GET, target, MAX_PAGE_BYTES)];
    assert [] + [Ask(HEAD, target, MAX_PAGE_BYTES)] == [Ask(HEAD, target, MAX_PAGE_BYTES)];
  }

  class Audit {
    const web: Web
    const budget: AuditBudget
    var issued: seq<Issued>
    var observations: seq<Observation>
    ghost var asks: seq<Ask>

    /** Observations, requests and budget are those of the asks so far. */
    ghost predicate Valid()
      reads this, budget
    {
      && |issued| <= budget.requestCount <= MAX_REQUESTS
      && Tour(web, asks) == Ledger(observations, issued, budget.requestCount, budget.bodyBytes)
    }

    constructor (w: Web)
      ensures Valid() && fresh(budget) && web == w && asks == []
    {
      web := w;
      budget := new AuditBudget();
      issued, observations, asks := [], [], [];
    }

    /** One request: the end of the observation, or where it goes on. */
    method Send(m: Method, url: Url, current: Url, maxBytes: nat)
      returns (o: Option<Observation>, next: Url, ghost sent: seq<Issued>)
      modifies this`issued, budget
      ensures issued == old(issued) + sent
      ensures var h := HopFrom(web, m, url, current, maxBytes, old(budget.requestCount), old(budget.bodyBytes));
              if o.Some? then h == Done(Trail(o.value, sent, budget.requestCount, budget.bodyBytes))
              else |sent| == 1 && h == Redirected(next, sent[0], budget.requestCount, budget.bodyBytes)
    {
      next, sent := current, [];
      var remaining := budget.BeforeRequest(m, web.expired(budget.requestCount));
      if remaining.None? { return Some(Failed(url, current)), next, sent; }
      var limit := Min(maxBytes, remaining.value);
      var reply := web.reply(budget.requestCount, m, current, limit);
      if reply.Unresolved? { return Some(Failed(url, current)), next, sent; }
      issued, sent := issued + [Issued(m, current, limit)], [Issued(m, current, limit)];
      if reply.Broken? { return Some(Failed(url, current)), next, sent; }
      var within := budget.RecordBody(reply.size);
      if !within || reply.late { return Some(Failed(url, current)), next, sent; }
      if !IsRedirect(reply.status) || reply.location.None? || reply.location.value == "" || m.OPTIONS? {
        return Some(Observation(url, current, Some(reply.status), false, reply.size)), next, sent;
      }
      var target := web.join(current, reply.location.value);
      if target.None? { return Some(Failed(url, current)), next, sent; }
      if !RedirectAllowed(current, target.value) {
        return Some(Observation(url, current, Some(reply.status), true, 0)), next, sent;
      }
      o, next := None, target.value;
    }

    /** The redirect loop. */
    method Follow(m: Method, url: Url, maxBytes: nat) returns (o: Observation, ghost made: seq<Issued>)
      modifies this`issued, budget
      ensures issued == old(issued) + made
      ensures Trail(o, made, budget.requestCount, budget.bodyBytes)
              == Walk(web, m, url, url, maxBytes, MAX_REDIRECTS + 1, old(budget.requestCount), old(budget.bodyBytes))
      ensures Told(web, m, url, url, maxBytes, 4, old(budget.requestCount), old(budget.bodyBytes),
                   Trail(o, made, budget.requestCount, budget.bodyBytes))
    {
      hide HopFrom, Walk, Onward, Told;
      var current := url;
      WalkTells(web, m, url, url, maxBytes, 4, budget.requestCount, budget.bodyBytes);
      OnwardNothing(Walk(web, m, url, url, maxBytes, MAX_REDIRECTS + 1, budget.requestCount, budget.bodyBytes));
      made := [];
      ghost var whole := Walk(web, m, url, url, maxBytes, MAX_REDIRECTS + 1, budget.requestCount, budget.bodyBytes);
      for hop := 0 to MAX_REDIRECTS + 1
        invariant issued == old(issued) + made
        invariant whole == Onward(made, Walk(web, m, url, current, maxBytes, MAX_REDIRECTS + 1 - hop, budget.requestCount,
                                             budget.bodyBytes))
      {
        WalkOn(web, m, url, current, maxBytes, MAX_REDIRECTS + 1 - hop, budget.requestCount, budget.bodyBytes);
        var end, next, sent := Send(m, url, current, maxBytes);
        if end.Some? {
          OnwardIs(made, Trail(end.value, sent, budget.requestCount, budget.bodyBytes));
          return end.value, made + sent;
        }
        current := next;
        assert sent == [sent[0]];
        OnwardTwice(made, sent, Walk(web, m, url, current, maxBytes, MAX_REDIRECTS - hop, budget.requestCount,
                                     budget.bodyBytes));
        made := made + sent;
      }
      WalkEnds(web, m, url, current, maxBytes, budget.requestCount, budget.bodyBytes);
      OnwardIs(made, Trail(Failed(url, current), [], budget.requestCount, budget.bodyBytes));
      assert made + [] == made;
      o := Failed(url, current);
    }

    /** One observation, added to the list; started on the target's site it stays there. */
    method Observe(target: Url, m: Method, url: Url, maxBytes: nat) returns (o: Observation)
      requires Valid() && SameSite(target, url) && maxBytes <= MAX_PAGE_BYTES
      requires OnSite(target, issued)
      requires m.OPTIONS? ==> NoOptions(issued)
      modifies this, budget
      ensures Valid() && OnSite(target, issued)
      ensures asks == old(asks) + [Ask(m, url, maxBytes)] && observations == old(observations) + [o]
      ensures OptionsAtMostOnce(old(issued)) ==> OptionsAtMostOnce(issued)
      ensures !m.OPTIONS? && NoOptions(old(issued)) ==> NoOptions(issued)
      ensures SameSite(target, o.final) && (o.status.None? ==> o.failed)
      ensures Honours(web) && old(budget.bodyBytes) <= MAX_TOTAL_BODY_BYTES ==> budget.bodyBytes <= MAX_TOTAL_BODY_BYTES
    {
      hide Walk, Tour, Honours;
      ghost var made;
      WalkKeeps(web, m, url, url, maxBytes, MAX_REDIRECTS + 1, budget.requestCount, budget.bodyBytes);
      TourOn(web, asks, Ask(m, url, maxBytes));
      o, made := Follow(m, url, maxBytes);
      observations, asks := observations + [o], asks + [Ask(m, url, maxBytes)];
      if made != [] {
        RedirectsStayOnSite(target, made, |made| - 1);
        forall i | 0 <= i < |made| ensures SameSite(target, made[i].url) {
          RedirectsStayOnSite(target, made, i);
        }
      }
    }

    /** The fixed pages below the base, in order. */
    method ObserveWellKnown(target: Url, base: Origin)
      requires Valid() && SameSite(target, At(base, "/")) && OnSite(target, issued) && OptionsAtMostOnce(issued)
      modifies this, budget
      ensures Valid() && OnSite(target, issued) && OptionsAtMostOnce(issued)
      ensures asks == old(asks) + Pages(base, WELL_KNOWN)
      ensures old(observations) <= observations && |observations| == |old(observations)| + |WELL_KNOWN|
      ensures Honours(web) && old(budget.bodyBytes) <= MAX_TOTAL_BODY_BYTES ==> budget.bodyBytes <= MAX_TOTAL_BODY_BYTES
    {
      hide Tour, Honours;
      for i := 0 to |WELL_KNOWN|
        invariant Valid() && OnSite(target, issued) && OptionsAtMostOnce(issued)
        invariant asks == old(asks) + Pages(base, WELL_KNOWN[..i])
        invariant old(observations) <= observations && |observations| == |old(observations)| + i
        invariant Honours(web) && old(budget.bodyBytes) <= MAX_TOTAL_BODY_BYTES ==> budget.bodyBytes <= MAX_TOTAL_BODY_BYTES
      {
        var _ := Observe(target, GET, At(base, WELL_KNOWN[i]), MAX_PAGE_BYTES);
        assert Pages(base, WELL_KNOWN[..i + 1])
            == Pages(base, WELL_KNOWN[..i]) + [Ask(GET, At(base, WELL_KNOWN[i]), MAX_PAGE_BYTES)];
      }
      assert WELL_KNOWN[..|WELL_KNOWN|] == WELL_KNOWN;
    }

    /** Documents are asked for until one is found. */
    method ObserveDocuments(target: Url, base: Origin) returns (found: nat)
      requires Valid() && SameSite(target, At(base, "/")) && OnSite(target, issued) && OptionsAtMostOnce(issued)
      requires |observations| == 6
      modifies this, budget
      ensures Valid() && OnSite(target, issued) && OptionsAtMostOnce(issued)
      ensures |observations| == 6 + found && old(observations) <= observations && found <= |DOCUMENTS|
      ensures TriedUntilFound(web, found, observations)
      ensures asks == old(asks) + Pages(base, DOCUMENTS[..found])
      ensures Honours(web) && old(budget.bodyBytes) <= MAX_TOTAL_BODY_BYTES ==> budget.bodyBytes <= MAX_TOTAL_BODY_BYTES
    {
      hide Tour, Honours, OptionsAtMostOnce, NoOptions, OnSite, FoundDocument, TriedUntilFound;
      found := 0;
      while found < |DOCUMENTS|
        invariant found <= |DOCUMENTS| && |observations| == 6 + found && old(observations) <= observations
        invariant Valid() && OnSite(target, issued) && OptionsAtMostOnce(issued)
        invariant asks == old(asks) + Pages(base, DOCUMENTS[..found])
        invariant forall i :: 0 <= i < found ==> !FoundDocument(web, i, observations[6..][i])
        invariant Honours(web) && old(budget.bodyBytes) <= MAX_TOTAL_BODY_BYTES ==> budget.bodyBytes <= MAX_TOTAL_BODY_BYTES
      {
        ghost var before := observations[6..];
        var o := Observe(target, GET, At(base, DOCUMENTS[found]), MAX_PAGE_BYTES);
        assert observations[6..] == before + [o];
        assert observations[6..6 + found + 1] == observations[6..];
        assert Pages(base, DOCUMENTS[..found + 1])
            == Pages(base, DOCUMENTS[..found]) + [Ask(GET, At(base, DOCUMENTS[found]), MAX_PAGE_BYTES)];
        found := found + 1;
        if FoundDocument(web, found - 1, o) {
          TriedMeans(web, found, observations);
          return;
        }
      }
      TriedMeans(web, found, observations);
    }

    /** A same-origin link the normalizer refuses, such as one with a secret-like query, ends the audit. */
    method ObserveIcon(target: Url, base: Origin, icon: Option<Hint>) returns (ok: bool)
      requires Valid() && OnSite(target, issued) && OptionsAtMostOnce(issued)
      requires forall u: Url :: OriginOf(u) == base ==> SameSite(target, u)
      requires icon.Some? ==> icon.value.Valid()
      modifies this, budget
      ensures Valid() && OnSite(target, issued) && OptionsAtMostOnce(issued)
      ensures ok <==> !RefusedIcon(base, icon)
      ensures asks == old(asks) + (if ok then IconAsks(base, icon) else [])
      ensures old(observations) <= observations
      ensures Honours(web) && old(budget.bodyBytes) <= MAX_TOTAL_BODY_BYTES ==> budget.bodyBytes <= MAX_TOTAL_BODY_BYTES
    {
      hide Tour, Honours, SameSite, OptionsAtMostOnce, OnSite, NoOptions;
      ok := true;
      if icon.None? {
        assert OriginOf(At(base, "/favicon.ico")) == base;
        var _ := Observe(target, HEAD, At(base, "/favicon.ico"), 0);
      } else if icon.value.Unparsable? {
        ok := false;
      } else if icon.value.origin == Some(base) {
        if icon.value.url.None? { return false; }
        var _ := Observe(target, HEAD, icon.value.url.value, 0);
      }
    }

    /**
     The whole run: which observations are made and in which order, and that it is blocked exactly when the root GET does
     not get through; at most ten requests, all on the target's host and
     on its port or the HTTPS port it upgrades to, one OPTIONS request at most, and no more body bytes than the limit.
     */
    method Run(target: Url, icon: Option<Hint>)
      returns (r: Result<Report, AuditError>, ghost head: Trail, ghost get: Trail)
      requires Valid() && asks == []
      requires icon.Some? ==> icon.value.Valid()
      modifies this, budget
      ensures Valid() && |issued| <= MAX_REQUESTS
      ensures OnSite(target, issued) && OptionsAtMostOnce(issued)
      ensures Honours(web) ==> budget.bodyBytes <= MAX_TOTAL_BODY_BYTES
      ensures |observations| >= 2
      ensures Told(web, HEAD, target, target, 524_288, 4, 0, 0, head) && observations[0] == head.o
      ensures Told(web, GET, target, target, 524_288, 4, head.requests, head.bytes, get) && observations[1] == get.o
      ensures r.Ok? && r.value.blocked <==> !GotThrough(web, GET, head.requests, get)
      ensures r.Ok? ==> r.value.final == get.o.final
      ensures observations[1].failed <==> !GotThrough(web, GET, head.requests, get)
      ensures observations[1].failed ==> asks == RootAsks(target)
      ensures !observations[1].failed ==>
                exists found: nat :: 6 + found <= |observations| && TriedUntilFound(web, found, observations)
                  && var base := OriginOf(observations[1].final);
                     asks == RootAsks(target) + LaterAsks(base, found, if r.Ok? then IconAsks(base, icon) else [])
      ensures r.Err? <==>
                && !observations[1].failed && icon.Some?
                && (|| icon.value.Unparsable?
                    || (icon.value.origin == Some(OriginOf(observations[1].final)) && icon.value.url.None?))
    {
      hide Tour, Honours, SameSite, OptionsAtMostOnce, OnSite, NoOptions, TriedUntilFound, Pages, LaterAsks, IconAsks, Told,
           GotThrough;
      NothingIssued(target);
      head, get := RootTold(web, target);
      ObservationMeans(web, GET, target, 524_288, 4, head.requests, head.bytes, get);
      assert issued == [] && observations == [] && budget.bodyBytes == 0 by { TourNothing(web); }
      var _ := Observe(target, HEAD, target, MAX_PAGE_BYTES);
      var root := Observe(target, GET, target, MAX_PAGE_BYTES);
      assert asks == RootAsks(target);
      if root.failed || root.status.None? { return Ok(Report(true, root.final)), head, get; }
      var base := OriginOf(root.final);
      BaseOnSite(target, root.final);
      var _ := Observe(target, OPTIONS, At(base, "/"), 0);
      ObserveWellKnown(target, base);
      var found := ObserveDocuments(target, base);
      ghost var tried := observations;
      assert tried[0] == head.o && tried[1] == get.o;
      var ok := ObserveIcon(target, base, icon);
      TriedStays(web, found, tried, observations);
      AsksInOrder(RootAsks(target), base, found, if ok then IconAsks(base, icon) else []);
      if !ok { return Err(InvalidUrl), head, get; }
      r := Ok(Report(false, root.final));
    }
  }

  lemma AsksInOrder(root: seq<Ask>, base: Origin, found: nat, icon: seq<Ask>)
    requires found <= |DOCUMENTS|
    ensures root + [Ask(OPTIONS, At(base, "/"), 0)] + Pages(base, WELL_KNOWN) + Pages(base, DOCUMENTS[..found]) + icon
            == root + LaterAsks(base, found, icon)
  {
    hide Pages;
  }

  lemma TriedStays(web: Web, found: nat, os: seq<Observation>, more: seq<Observation>)
    requires 6 + found <= |os| && os <= more && TriedUntilFound(web, found, os)
    ensures TriedUntilFound(web, found, more)
  {
    assert more[6..6 + found] == os[6..6 + found];
  }

  lemma TourNothing(web: Web)
    ensures Tour(web, []) == Ledger([], [], 0, 0)
  {
  }

  lemma NothingIssued(target: Url)
    ensures SameSite(target, target) && OnSite(target, []) && NoOptions([]) && OptionsAtMostOnce([])
    ensures forall issued :: NoOptions(issued) ==> OptionsAtMostOnce(issued)
  {
  }

  /** Any page below the origin of a URL on the site is on the site. */
  lemma BaseOnSite(target: Url, final: Url)
    requires SameSite(target, final)
    ensures forall u: Url :: OriginOf(u) == OriginOf(final) ==> SameSite(target, u)
    ensures forall path: string :: OriginOf(At(OriginOf(final), path)) == OriginOf(final)
  {
  }

  /** A link that cannot be parsed, or one of the same origin that the normalizer refuses. */
  predicate RefusedIcon(base: Origin, icon: Option<Hint>) {
    && icon.Some?
    && (icon.value.Unparsable? || (icon.value.origin == Some(base) && icon.value.url.None?))
  }

  datatype AuditError = InvalidUrl

  datatype Report = Report(blocked: bool, final: Url)

  /** An icon link of the page: its origin, if it has one, and what it normalizes to. */
  datatype Hint = Unparsable | Link(origin: Option<Origin>, url: Option<Url>) {
    predicate Valid() {
      Link? && url.Some? ==> origin == Some(OriginOf(url.value))
    }
  }

  // ---- where requests may go ----

  predicate SameSite(target: Url, u: Url) {
    && u.host == target.host
    && (|| (u.scheme == target.scheme && u.port == target.port)
        || (target.scheme.Http? && target.port == 80 && u.scheme.Https? && u.port == 443))
  }

  predicate OnSite(target: Url, issued: seq<Issued>) {
    forall i :: 0 <= i < |issued| ==> SameSite(target, issued[i].url) && issued[i].maxBytes <= MAX_PAGE_BYTES
  }

  predicate NoOptions(issued: seq<Issued>) {
    forall i :: 0 <= i < |issued| ==> !issued[i].method_.OPTIONS?
  }

  predicate OptionsAtMostOnce(issued: seq<Issued>) {
    forall i, j :: 0 <= i < j < |issued| ==> !(issued[i].method_.OPTIONS? && issued[j].method_.OPTIONS?)
  }

  lemma {:induction false} RedirectsStayOnSite(target: Url, made: seq<Issued>, i: nat)
    requires i < |made| && Follows(made) && SameSite(target, made[0].url)
    ensures SameSite(target, made[i].url)
  {
    if i > 0 {
      RedirectsStayOnSite(target, made, i - 1);
      assert RedirectAllowed(made[i - 1].url, made[i].url);
    }
  }

  lemma {:induction false} OnceSecureStaysSecure(made: seq<Issued>, i: nat, j: nat)
    requires Follows(made) && i <= j < |made| && made[i].url.scheme.Https?
    ensures OriginOf(made[j].url) == OriginOf(made[i].url)
    decreases j
  {
    if i < j {
      OnceSecureStaysSecure(made, i, j - 1);
      assert RedirectAllowed(made[j - 1].url, made[j].url);
    }
  }

  /** Along one observation scheme and port change at most once, and only from HTTP on 80 to HTTPS on 443. */
  lemma SchemeChangesAtMostOnce(made: seq<Issued>, i: nat, j: nat, k: nat)
    requires Follows(made) && i <= j <= k < |made|
    requires OriginOf(made[i].url) != OriginOf(made[j].url)
    ensures made[i].url.scheme.Http? && made[i].url.port == 80
    ensures made[j].url.scheme.Https? && made[j].url.port == 443 && made[j].url.host == made[i].url.host
    ensures OriginOf(made[k].url) == OriginOf(made[j].url)
  {
    assert Follows(made[i..]);
    RedirectsStayOnSite(made[i].url, made[i..], j - i);
    OnceSecureStaysSecure(made, j, k);
  }
}
