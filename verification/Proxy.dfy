/** The header pipeline of the payment proxy: scrub, per-service strip, inject. */
module Proxy {
  import opened Prelude
  import opened Text

  datatype Header = Header(name: string, value: string)

  const HOP_BY_HOP: seq<string> := [
    "connection", "keep-alive", "transfer-encoding", "upgrade",
    "proxy-authenticate", "proxy-authorization", "te", "trailer"]

  const PAYMENT_HEADERS: seq<string> := [
    "authorization", "accept-payment", "payment-receipt", "payment-required",
    "payment-response", "payment-signature", "www-authenticate"]

  predicate RequestStripped(name: string) {
    || Lower(name) in HOP_BY_HOP
    || Lower(name) in PAYMENT_HEADERS
    || Lower(name) in ["host", "cookie", "accept-encoding", "content-length"]
    || "x-forwarded-" <= Lower(name)
  }

  predicate ResponseStripped(name: string) {
    || Lower(name) in HOP_BY_HOP
    || Lower(name) in ["set-cookie", "content-encoding", "content-length"]
  }

  function Tokens(parts: seq<string>): seq<string> {
    if parts == [] then []
    else
      var token := Lower(Trim(parts[0]));
      (if token == "" then [] else [token]) + Tokens(parts[1..])
  }

  predicate IsConnection(h: Header) { Lower(h.name) == "connection" }

  /** Lowercased names any `Connection` header nominates as hop-by-hop. */
  function Nominated(headers: seq<Header>): seq<string> {
    if headers == [] then []
    else (if IsConnection(headers[0]) then Tokens(Split(headers[0].value, ',')) else []) + Nominated(headers[1..])
  }

  predicate AnyIgnoringCase(names: seq<string>, name: string) {
    exists i :: 0 <= i < |names| && EqIgnoreCase(names[i], name)
  }

  function RequestKeeps(nominated: seq<string>): Header -> bool {
    (h: Header) => !RequestStripped(h.name) && !AnyIgnoringCase(nominated, h.name)
  }

  function ResponseKeeps(nominated: seq<string>): Header -> bool {
    (h: Header) => !ResponseStripped(h.name) && !AnyIgnoringCase(nominated, h.name)
  }

  function ScrubRequest(headers: seq<Header>): seq<Header> { Filter(headers, RequestKeeps(Nominated(headers))) }

  function ScrubResponse(headers: seq<Header>): seq<Header> { Filter(headers, ResponseKeeps(Nominated(headers))) }

  /** Names are unique up to spelling in a map, not up to case. */
  datatype Service = Service(headers: map<string, string>, strip: seq<string>)

  function NotIn(names: seq<string>): Header -> bool { (h: Header) => !AnyIgnoringCase(names, h.name) }

  function Unlike(name: string): Header -> bool { (h: Header) => !EqIgnoreCase(h.name, name) }

  function Upsert(headers: seq<Header>, name: string, value: string): seq<Header> {
    Filter(headers, Unlike(name)) + [Header(name, value)]
  }

  /** The upserts in one iteration order of the configured map. */
  function UpsertAll(headers: seq<Header>, config: map<string, string>, order: seq<string>): seq<Header>
    requires forall i :: 0 <= i < |order| ==> order[i] in config
  {
    if order == [] then headers
    else
      var last := order[|order| - 1];
      Upsert(UpsertAll(headers, config, order[..|order| - 1]), last, config[last])
  }

  /** `order` lists the keys of `config`, each once. */
  predicate Enumerates(order: seq<string>, config: map<string, string>) {
    && (forall i :: 0 <= i < |order| ==> order[i] in config)
    && (forall i, j :: 0 <= i < j < |order| ==> order[i] != order[j])
    && (forall k :: k in config ==> k in order)
  }

  function Forwarded(service: Service, headers: seq<Header>, order: seq<string>): seq<Header>
    requires Enumerates(order, service.headers)
  {
    UpsertAll(Filter(ScrubRequest(headers), NotIn(service.strip)), service.headers, order)
  }

  /** A header list the pipeline edits in place. */
  class HeaderList {
    var list: seq<Header>

    constructor (list: seq<Header>)
      ensures this.list == list
    {
      this.list := list;
    }

    method Scrub()
      modifies this
      ensures list == ScrubRequest(old(list))
    {
      var nominated := Nominated(list);
      list := Filter(list, RequestKeeps(nominated));
    }

    method ScrubAsResponse()
      modifies this
      ensures list == ScrubResponse(old(list))
    {
      var nominated := Nominated(list);
      list := Filter(list, ResponseKeeps(nominated));
    }

    /** Strips, then upserts the configured headers in whatever order the map yields them. */
    method ApplyRequestHeaders(service: Service) returns (ghost order: seq<string>)
      modifies this
      ensures Enumerates(order, service.headers)
      ensures list == UpsertAll(Filter(old(list), NotIn(service.strip)), service.headers, order)
    {
      hide Filter, EqIgnoreCase, AnyIgnoringCase;
      list := Filter(list, NotIn(service.strip));
      ghost var stripped := list;
      order := [];
      var rest := service.headers.Keys;
      while rest != {}
        invariant rest <= service.headers.Keys
        invariant forall i :: 0 <= i < |order| ==> order[i] in service.headers && order[i] !in rest
        invariant forall i, j :: 0 <= i < j < |order| ==> order[i] != order[j]
        invariant forall k :: k in service.headers ==> k in rest || k in order
        invariant list == UpsertAll(stripped, service.headers, order)
        decreases |rest|
      {
        var name :| name in rest;
        list := Filter(list, Unlike(name));
        list := list + [Header(name, service.headers[name])];
        rest := rest - {name};
        assert (order + [name])[..|order|] == order;
        order := order + [name];
      }
    }

    method ApplyProxyRequestHeaders(service: Service) returns (ghost order: seq<string>)
      modifies this
      ensures Enumerates(order, service.headers)
      ensures list == Forwarded(service, old(list), order)
    {
      Scrub();
      order := ApplyRequestHeaders(service);
    }
  }

  // ---------------------------------------------------------------- what is nominated

  lemma {:induction false} TokensMeaning(parts: seq<string>, t: string)
    ensures t in Tokens(parts) <==> t != "" && exists j :: 0 <= j < |parts| && Lower(Trim(parts[j])) == t
  {
    hide Trim, Lower;
    if parts != [] {
      TokensMeaning(parts[1..], t);
      if t in Tokens(parts[1..]) {
        var j :| 0 <= j < |parts[1..]| && Lower(Trim(parts[1..][j])) == t;
        assert Lower(Trim(parts[j + 1])) == t;
      }
    }
  }

  lemma {:induction false} NominatedMeaning(headers: seq<Header>, t: string)
    ensures t in Nominated(headers)
      <==> exists i :: 0 <= i < |headers| && IsConnection(headers[i]) && t in Tokens(Split(headers[i].value, ','))
  {
    hide IsConnection, Tokens, Split;
    if headers != [] {
      NominatedMeaning(headers[1..], t);
      if t in Nominated(headers[1..]) {
        var i :| 0 <= i < |headers[1..]| && IsConnection(headers[1..][i])
          && t in Tokens(Split(headers[1..][i].value, ','));
        assert IsConnection(headers[i + 1]) && t in Tokens(Split(headers[i + 1].value, ','));
      }
    }
  }

  /** `h` is a `Connection` header with `name` between two of its commas, up to case and white space. */
  predicate Lists(h: Header, name: string) {
    IsConnection(h)
    && exists j :: 0 <= j < |Split(h.value, ',')| && EqIgnoreCase(Trim(Split(h.value, ',')[j]), name)
  }

  predicate Listed(headers: seq<Header>, name: string) {
    name != "" && exists i :: 0 <= i < |headers| && Lists(headers[i], name)
  }

  lemma ListsMeaning(h: Header, name: string)
    ensures name != "" && Lists(h, name) <==> IsConnection(h) && Lower(name) in Tokens(Split(h.value, ','))
  {
    hide IsConnection, Tokens, Split, Trim;
    TokensMeaning(Split(h.value, ','), Lower(name));
  }

  /** The membership test of the scrub says what section 7.6.1 of RFC 9110 means by a listed field. */
  lemma NominatedListed(headers: seq<Header>, name: string)
    ensures AnyIgnoringCase(Nominated(headers), name) <==> Listed(headers, name)
  {
    hide IsConnection, Tokens, Split, Trim, Nominated, Lists, Lower;
    forall h: Header
      ensures name != "" && Lists(h, name) <==> IsConnection(h) && Lower(name) in Tokens(Split(h.value, ','))
    {
      ListsMeaning(h, name);
    }
    NominatedMeaning(headers, Lower(name));
    LowerIdempotent(name);
    forall t | t in Nominated(headers) ensures Lower(t) == t {
      NominatedMeaning(headers, t);
      var i :| 0 <= i < |headers| && IsConnection(headers[i]) && t in Tokens(Split(headers[i].value, ','));
      TokensMeaning(Split(headers[i].value, ','), t);
      var j :| 0 <= j < |Split(headers[i].value, ',')| && Lower(Trim(Split(headers[i].value, ',')[j])) == t;
      LowerIdempotent(Trim(Split(headers[i].value, ',')[j]));
    }
    if Lower(name) in Nominated(headers) {
      var i :| 0 <= i < |Nominated(headers)| && Nominated(headers)[i] == Lower(name);
      assert EqIgnoreCase(Nominated(headers)[i], name);
    }
  }

  // ---------------------------------------------------------------- scrubbing

  lemma {:induction false} NothingNominated(headers: seq<Header>)
    requires forall i :: 0 <= i < |headers| ==> !IsConnection(headers[i])
    ensures Nominated(headers) == []
  {
    hide IsConnection, Tokens;
    if headers != [] {
      NothingNominated(headers[1..]);
    }
  }

  lemma ConnectionStripped(h: Header)
    requires IsConnection(h)
    ensures RequestStripped(h.name) && ResponseStripped(h.name)
  {
    assert HOP_BY_HOP[0] == "connection";
  }

  /** The scrub removes every `Connection` header, so a second scrub finds nothing left to do. */
  lemma ScrubIdempotent(headers: seq<Header>)
    ensures ScrubRequest(ScrubRequest(headers)) == ScrubRequest(headers)
    ensures ScrubResponse(ScrubResponse(headers)) == ScrubResponse(headers)
  {
    hide Filter, IsConnection, RequestStripped, ResponseStripped, Nominated, EqIgnoreCase;
    var request, response := ScrubRequest(headers), ScrubResponse(headers);
    FilterMembers(headers, RequestKeeps(Nominated(headers)));
    FilterMembers(headers, ResponseKeeps(Nominated(headers)));
    forall h | h in request ensures !IsConnection(h) && !RequestStripped(h.name) {
      if IsConnection(h) { ConnectionStripped(h); }
    }
    forall h | h in response ensures !IsConnection(h) && !ResponseStripped(h.name) {
      if IsConnection(h) { ConnectionStripped(h); }
    }
    NothingNominated(request);
    NothingNominated(response);
    FilterAll(request, RequestKeeps([]));
    FilterAll(response, ResponseKeeps([]));
  }

  /** What a request may say upstream, before a service strips or configures anything. */
  function Sendable(headers: seq<Header>): Header -> bool {
    (h: Header) => !Listed(headers, h.name) && !Private(h.name)
  }

  /** Of one connection, about the payment or the client, or set anew for the upstream. */
  predicate Private(name: string) {
    || "x-forwarded-" <= Lower(name)
    || Lower(name) in [
         "connection", "keep-alive", "transfer-encoding", "upgrade",
         "proxy-authenticate", "proxy-authorization", "te", "trailer",
         "authorization", "accept-payment", "payment-receipt", "payment-required",
         "payment-response", "payment-signature", "www-authenticate",
         "host", "cookie", "accept-encoding", "content-length"]
  }

  lemma PrivateStripped(name: string)
    ensures RequestStripped(name) <==> Private(name)
  {
    hide Lower;
    var all := HOP_BY_HOP + PAYMENT_HEADERS + ["host", "cookie", "accept-encoding", "content-length"];
    assert Private(name) <==> "x-forwarded-" <= Lower(name) || Lower(name) in all;
  }

  /** A request is scrubbed to exactly these headers, in their order. */
  lemma RequestMeaning(headers: seq<Header>)
    ensures ScrubRequest(headers) == Filter(headers, Sendable(headers))
  {
    hide Filter, Nominated, Listed, AnyIgnoringCase, Lower, Private, RequestStripped;
    var keeps := RequestKeeps(Nominated(headers));
    FilterAgain(headers, keeps);
    forall h: Header ensures Sendable(headers)(h) == (keeps(h) && keeps(h)) {
      NominatedListed(headers, h.name);
      PrivateStripped(h.name);
    }
    FilterTwice(headers, keeps, keeps, Sendable(headers));
  }

  /** What a response delivers: all but the headers of one connection, cookies, and what the body no longer fits. */
  function Delivered(headers: seq<Header>): Header -> bool {
    (h: Header) =>
      && !Listed(headers, h.name)
      && Lower(h.name) !in [
           "connection", "keep-alive", "transfer-encoding", "upgrade",
           "proxy-authenticate", "proxy-authorization", "te", "trailer",
           "set-cookie", "content-encoding", "content-length"]
  }

  /** A response is delivered with exactly these headers, in their order. */
  lemma ResponseMeaning(headers: seq<Header>)
    ensures ScrubResponse(headers) == Filter(headers, Delivered(headers))
  {
    hide Filter, Nominated, Listed, AnyIgnoringCase, Lower;
    var keeps := ResponseKeeps(Nominated(headers));
    FilterAgain(headers, keeps);
    forall h: Header ensures Delivered(headers)(h) == (keeps(h) && keeps(h)) {
      NominatedListed(headers, h.name);
      ResponseNames(h.name);
    }
    FilterTwice(headers, keeps, keeps, Delivered(headers));
  }

  lemma ResponseNames(name: string)
    ensures ResponseStripped(name) <==> Lower(name) in [
      "connection", "keep-alive", "transfer-encoding", "upgrade",
      "proxy-authenticate", "proxy-authorization", "te", "trailer",
      "set-cookie", "content-encoding", "content-length"]
  {
    hide Lower;
  }

  lemma FilterAgain(headers: seq<Header>, p: Header -> bool)
    ensures Filter(Filter(headers, p), p) == Filter(headers, p)
  {
    FilterTwice(headers, p, p, p);
  }

  // ---------------------------------------------------------------- the whole pipeline

  /** What the upserts append: of names equal up to case only the last is left. */
  function Tail(config: map<string, string>, order: seq<string>): seq<Header>
    requires forall i :: 0 <= i < |order| ==> order[i] in config
  {
    if order == [] then []
    else
      var last := order[|order| - 1];
      Filter(Tail(config, order[..|order| - 1]), Unlike(last)) + [Header(last, config[last])]
  }

  lemma NotInSnoc(names: seq<string>, h: Header)
    requires names != []
    ensures NotIn(names)(h) <==> NotIn(names[..|names| - 1])(h) && Unlike(names[|names| - 1])(h)
  {
    hide EqIgnoreCase;
    var k := |names| - 1;
    LikeSymmetric(names[k], h.name);
    if AnyIgnoringCase(names[..k], h.name) {
      var i :| 0 <= i < k && EqIgnoreCase(names[..k][i], h.name);
      assert EqIgnoreCase(names[i], h.name);
    }
    if AnyIgnoringCase(names, h.name) && !EqIgnoreCase(names[k], h.name) {
      var i :| 0 <= i < |names| && EqIgnoreCase(names[i], h.name);
      assert EqIgnoreCase(names[..k][i], h.name);
    }
  }

  lemma LikeSymmetric(a: string, b: string)
    ensures EqIgnoreCase(a, b) <==> EqIgnoreCase(b, a)
  {
  }

  lemma {:induction false} UpsertsAppend(headers: seq<Header>, config: map<string, string>, order: seq<string>)
    requires forall i :: 0 <= i < |order| ==> order[i] in config
    ensures UpsertAll(headers, config, order) == Filter(headers, NotIn(order)) + Tail(config, order)
    decreases |order|
  {
    hide EqIgnoreCase, AnyIgnoringCase, Filter;
    if order == [] {
      NotInNothing(headers);
    } else {
      var front, last := order[..|order| - 1], order[|order| - 1];
      UpsertsAppend(headers, config, front);
      FilterConcat(Filter(headers, NotIn(front)), Tail(config, front), Unlike(last));
      forall h: Header ensures NotIn(order)(h) == (NotIn(front)(h) && Unlike(last)(h)) { NotInSnoc(order, h); }
      FilterTwice(headers, NotIn(front), Unlike(last), NotIn(order));
    }
  }

  lemma NotInNothing(headers: seq<Header>)
    ensures Filter(headers, NotIn([])) == headers
  {
    FilterAll(headers, NotIn([]));
  }

  predicate Configured(config: map<string, string>, name: string) {
    exists k :: k in config && EqIgnoreCase(k, name)
  }

  /** The headers a request keeps on its way upstream. */
  function Survives(service: Service, headers: seq<Header>): Header -> bool {
    (h: Header) =>
      && !RequestStripped(h.name)
      && !Listed(headers, h.name)
      && !AnyIgnoringCase(service.strip, h.name)
      && !Configured(service.headers, h.name)
  }

  lemma OrderCovers(order: seq<string>, config: map<string, string>, name: string)
    requires Enumerates(order, config)
    ensures AnyIgnoringCase(order, name) <==> Configured(config, name)
  {
    hide EqIgnoreCase;
    if Configured(config, name) {
      var k :| k in config && EqIgnoreCase(k, name);
      var i :| 0 <= i < |order| && order[i] == k;
      assert EqIgnoreCase(order[i], name);
    }
  }

  /** The pipeline keeps exactly the surviving headers, in order, and appends the configured ones. */
  lemma ForwardedMeaning(service: Service, headers: seq<Header>, order: seq<string>)
    requires Enumerates(order, service.headers)
    ensures Forwarded(service, headers, order)
      == Filter(headers, Survives(service, headers)) + Tail(service.headers, order)
  {
    hide Filter, RequestStripped, Nominated, Listed, AnyIgnoringCase, Configured, Tail, UpsertAll;
    var nominated := Nominated(headers);
    var stripped := Filter(ScrubRequest(headers), NotIn(service.strip));
    UpsertsAppend(stripped, service.headers, order);
    var both := (h: Header) => RequestKeeps(nominated)(h) && NotIn(service.strip)(h);
    FilterTwice(headers, RequestKeeps(nominated), NotIn(service.strip), both);
    forall h: Header ensures Survives(service, headers)(h) == (both(h) && NotIn(order)(h)) {
      NominatedListed(headers, h.name);
      OrderCovers(order, service.headers, h.name);
    }
    FilterTwice(headers, both, NotIn(order), Survives(service, headers));
  }

  lemma {:induction false} TailConfigured(config: map<string, string>, order: seq<string>, h: Header)
    requires forall i :: 0 <= i < |order| ==> order[i] in config
    requires h in Tail(config, order)
    ensures h.name in config && h.value == config[h.name]
    decreases |order|
  {
    hide Filter, EqIgnoreCase;
    var last := order[|order| - 1];
    FilterMembers(Tail(config, order[..|order| - 1]), Unlike(last));
    if h != Header(last, config[last]) {
      TailConfigured(config, order[..|order| - 1], h);
    }
  }

  /** Every forwarded header is an injected one with its configured value, or one of the request's that survives. */
  lemma NothingElseForwarded(service: Service, headers: seq<Header>, order: seq<string>, h: Header)
    requires Enumerates(order, service.headers)
    requires h in Forwarded(service, headers, order)
    ensures
      || (h.name in service.headers && h.value == service.headers[h.name])
      || (h in headers && !RequestStripped(h.name) && !Listed(headers, h.name)
          && !AnyIgnoringCase(service.strip, h.name) && !Configured(service.headers, h.name))
  {
    hide RequestStripped, Listed, AnyIgnoringCase, Configured, Forwarded, UpsertAll, Tail, Filter;
    ForwardedMeaning(service, headers, order);
    FilterMembers(headers, Survives(service, headers));
    if h in Tail(service.headers, order) {
      TailConfigured(service.headers, order, h);
    }
  }

  /** Credentials, cookies, payment headers and the like reach the upstream only as a service configures them itself. */
  lemma CredentialsStay(service: Service, headers: seq<Header>, order: seq<string>, h: Header)
    requires Enumerates(order, service.headers)
    requires h in Forwarded(service, headers, order) && Private(h.name)
    ensures h.name in service.headers && h.value == service.headers[h.name]
  {
    hide Forwarded, Listed, AnyIgnoringCase, Configured, Private, RequestStripped;
    NothingElseForwarded(service, headers, order, h);
    PrivateStripped(h.name);
  }

  function Like(name: string): Header -> bool { (h: Header) => EqIgnoreCase(h.name, name) }

  lemma {:induction false} UpsertedOnce(
    headers: seq<Header>, config: map<string, string>, order: seq<string>, name: string)
    requires forall i :: 0 <= i < |order| ==> order[i] in config
    requires AnyIgnoringCase(order, name)
    ensures |Filter(UpsertAll(headers, config, order), Like(name))| == 1
    decreases |order|
  {
    hide EqIgnoreCase, Filter;
    var front, last := order[..|order| - 1], order[|order| - 1];
    var before, added := UpsertAll(headers, config, front), Header(last, config[last]);
    FilterConcat(Filter(before, Unlike(last)), [added], Like(name));
    if EqIgnoreCase(last, name) {
      forall h: Header ensures Like(name)(h) == !Unlike(last)(h) { SameCase(h.name, last, name); }
      FilterMembers(before, Unlike(last));
      FilterNone(Filter(before, Unlike(last)), Like(name));
      FilterAll([added], Like(name));
    } else {
      var i :| 0 <= i < |order| && EqIgnoreCase(order[i], name);
      assert EqIgnoreCase(front[i], name);
      UpsertedOnce(headers, config, front, name);
      forall h: Header | Like(name)(h) ensures Unlike(last)(h) { NotSameCase(h.name, last, name); }
      FilterTwice(before, Unlike(last), Like(name), Like(name));
      FilterNone([added], Like(name));
    }
  }

  lemma SameCase(a: string, b: string, c: string)
    requires EqIgnoreCase(b, c)
    ensures EqIgnoreCase(a, b) <==> EqIgnoreCase(a, c)
  {
  }

  lemma NotSameCase(a: string, b: string, c: string)
    requires EqIgnoreCase(a, c) && !EqIgnoreCase(b, c)
    ensures !EqIgnoreCase(a, b)
  {
  }

  /** Every configured name arrives exactly once, whatever its case and whatever the client sent. */
  lemma ConfiguredOnce(service: Service, headers: seq<Header>, order: seq<string>, name: string)
    requires Enumerates(order, service.headers) && Configured(service.headers, name)
    ensures |Filter(Forwarded(service, headers, order), Like(name))| == 1
  {
    hide EqIgnoreCase, Filter, UpsertAll, ScrubRequest;
    OrderCovers(order, service.headers, name);
    UpsertedOnce(Filter(ScrubRequest(headers), NotIn(service.strip)), service.headers, order, name);
  }

  // ---------------------------------------------------------------- iteration order

  predicate CaseDistinct(config: map<string, string>) {
    forall a, b :: a in config && b in config && a != b ==> !EqIgnoreCase(a, b)
  }

  lemma {:induction false} TailCounts(config: map<string, string>, order: seq<string>, h: Header)
    requires CaseDistinct(config)
    requires forall i :: 0 <= i < |order| ==> order[i] in config
    requires forall i, j :: 0 <= i < j < |order| ==> order[i] != order[j]
    ensures multiset(Tail(config, order))[h] == if h.name in order && h.value == config[h.name] then 1 else 0
    decreases |order|
  {
    hide EqIgnoreCase, Filter;
    if order != [] {
      var front, last := order[..|order| - 1], order[|order| - 1];
      TailCounts(config, front, h);
      forall x | x in Tail(config, front) ensures Unlike(last)(x) {
        TailCounts(config, front, x);
        assert multiset(Tail(config, front))[x] > 0;
      }
      FilterAll(Tail(config, front), Unlike(last));
      assert order == front + [last];
    }
  }

  lemma DistinctSame(service: Service, headers: seq<Header>, order: seq<string>, other: seq<string>)
    requires CaseDistinct(service.headers) && Enumerates(order, service.headers) && Enumerates(other, service.headers)
    ensures multiset(Forwarded(service, headers, order)) == multiset(Forwarded(service, headers, other))
  {
    hide Forwarded, Tail, CaseDistinct, Survives, Filter;
    ForwardedMeaning(service, headers, order);
    ForwardedMeaning(service, headers, other);
    forall h: Header ensures multiset(Tail(service.headers, order))[h] == multiset(Tail(service.headers, other))[h] {
      TailCounts(service.headers, order, h);
      TailCounts(service.headers, other, h);
    }
    assert multiset(Tail(service.headers, order)) == multiset(Tail(service.headers, other));
  }

  lemma {:induction false} ListOf(keys: set<string>) returns (order: seq<string>)
    ensures forall i, j :: 0 <= i < j < |order| ==> order[i] != order[j]
    ensures forall i :: 0 <= i < |order| ==> order[i] in keys
    ensures forall k :: k in keys ==> k in order
    decreases |keys|
  {
    if keys == {} {
      order := [];
    } else {
      var k :| k in keys;
      order := ListOf(keys - {k});
      order := order + [k];
    }
  }

  /** Some iteration order leaves `name` for last; then its spelling is the only one forwarded. */
  lemma LastSpelling(service: Service, headers: seq<Header>, name: string) returns (order: seq<string>)
    requires name in service.headers
    ensures Enumerates(order, service.headers)
    ensures Header(name, service.headers[name]) in Forwarded(service, headers, order)
    ensures forall h :: h in Forwarded(service, headers, order) && EqIgnoreCase(h.name, name) ==> h.name == name
  {
    hide EqIgnoreCase, Survives, Filter, Forwarded;
    var front := ListOf(service.headers.Keys - {name});
    order := front + [name];
    assert order[..|front|] == front;
    forall k | k in service.headers ensures k in order {
      if k == name { assert order[|front|] == name; }
    }
    ForwardedMeaning(service, headers, order);
    var kept, added := Filter(headers, Survives(service, headers)), Header(name, service.headers[name]);
    var others := Filter(Tail(service.headers, front), Unlike(name));
    assert Forwarded(service, headers, order) == kept + (others + [added]);
    FilterMembers(headers, Survives(service, headers));
    FilterMembers(Tail(service.headers, front), Unlike(name));
    forall h | h in kept ensures !EqIgnoreCase(h.name, name) { SurvivorUnconfigured(service, headers, h, name); }
  }

  lemma SurvivorUnconfigured(service: Service, headers: seq<Header>, h: Header, name: string)
    requires Survives(service, headers)(h) && name in service.headers
    ensures !EqIgnoreCase(h.name, name)
  {
    hide EqIgnoreCase, RequestStripped, Listed, AnyIgnoringCase;
    LikeSymmetric(h.name, name);
  }

  /**
    The forwarded headers do not depend on the map's iteration order exactly when no two configured
    names differ only in case.
   */
  lemma OrderIrrelevantExactly(service: Service, headers: seq<Header>)
    ensures (forall order, other :: Enumerates(order, service.headers) && Enumerates(other, service.headers) ==>
        multiset(Forwarded(service, headers, order)) == multiset(Forwarded(service, headers, other)))
      <==> CaseDistinct(service.headers)
  {
    hide EqIgnoreCase, Forwarded, Enumerates;
    if CaseDistinct(service.headers) {
      forall order, other | Enumerates(order, service.headers) && Enumerates(other, service.headers)
        ensures multiset(Forwarded(service, headers, order)) == multiset(Forwarded(service, headers, other))
      {
        DistinctSame(service, headers, order, other);
      }
    } else {
      var a, b :| a in service.headers && b in service.headers && a != b && EqIgnoreCase(a, b);
      var order := LastSpelling(service, headers, a);
      var other := LastSpelling(service, headers, b);
      assert Header(a, service.headers[a]) in multiset(Forwarded(service, headers, order));
      assert Header(a, service.headers[a]) !in multiset(Forwarded(service, headers, other));
    }
  }
}
