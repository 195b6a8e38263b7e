/** `OrderedCollection.pages_rev`: a generator that starts at the page named
    by `last["id"]`, fetches one page per step, reads that page's `prev`
    link to pick the next page, then decodes the page and yields it.

    The network is a map from URL to the JSON document served there; a URL
    that is not a key stands for a failed request or an unparsable body.
    The generator's suspended state is a Position; one call of next() is
    Advance, and Run repeats it. The class PagesRev keeps the position in a
    field and steps it in place. */
module Traversal {
  import opened Json
  import opened Records

  /** What one call of next() on the generator gives back. */
  datatype StepResult = Page(page: OrderedCollectionPage) | End | Error(error: Error)

  /** Where the generator is suspended. */
  datatype Position =
    | NotStarted             // the body has not run: `last["id"]` is still unread
    | Pending(target: Json)  // suspended at the yield; `target` is current_page_id
    | Finished               // the body returned or raised

  /** One step: its result, the position after it, and the URLs it requested. */
  datatype Transition = Transition(result: StepResult, next: Position, requested: seq<string>)

  /** The results and the requested URLs of several steps, in order. */
  datatype Trace = Trace(results: seq<StepResult>, requests: seq<string>)

  /** `link["id"]` for a link object such as `last` or `prev`. */
  function LinkId(link: Json): Result<Json> {
    if !link.JObject? then Err(NotAnObject)
    else if "id" !in link.fields then Err(MissingField("id"))
    else Ok(link.fields["id"])
  }

  /** The next current_page_id read from a fetched page: `prev["id"]` when the
      `prev` key is there and not null, None otherwise. A document that is
      not an object fails here or in the page decoding that follows; the
      error is NotAnObject either way. */
  function PrevTarget(doc: Json): Result<Json> {
    if !doc.JObject? then Err(NotAnObject)
    else if "prev" in doc.fields && doc.fields["prev"] != JNull then LinkId(doc.fields["prev"])
    else Ok(JNull)
  }

  /** One pass of the `while` loop for current_page_id = `target`: the
      guard, the request, the `prev` read, the decoding, the yield. */
  function Visit(network: map<string, Json>, target: Json): Transition {
    if !Truthy(target) then Transition(End, Finished, [])
    else if !target.JString? then Transition(Error(NotAUrl(target)), Finished, [])
    else
      var url := target.s;
      if url !in network then Transition(Error(TransportFailure(url)), Finished, [url])
      else
        var doc := network[url];
        match PrevTarget(doc)
        case Err(e) => Transition(Error(e), Finished, [url])
        case Ok(prev) =>
          match DecodePage(doc)
          case Err(e) => Transition(Error(e), Finished, [url])
          case Ok(page) => Transition(Page(page), Pending(prev), [url])
  }

  /** One call of next() on the generator over the collection whose `last`
      link is `last`. */
  function Advance(network: map<string, Json>, last: Json, pos: Position): (t: Transition)
    ensures |t.requested| <= 1
    ensures !t.result.Page? ==> t.next == Finished
    ensures pos == Finished ==> t == Transition(End, Finished, [])
    ensures t.result.Page? ==>
      && |t.requested| == 1 && t.requested[0] in network
      && DecodePage(network[t.requested[0]]) == Ok(t.result.page)
      && t.next.Pending?
      && PrevTarget(network[t.requested[0]]) == Ok(t.next.target)
    ensures pos == NotStarted && LinkId(last).Err? ==>
      t == Transition(Error(LinkId(last).error), Finished, [])
    ensures pos.Pending? || (pos == NotStarted && LinkId(last).Ok?) ==>
      var target := if pos.Pending? then pos.target else LinkId(last).value;
      && (!Truthy(target) ==> t == Transition(End, Finished, []))
      && (Truthy(target) && !target.JString? ==> t == Transition(Error(NotAUrl(target)), Finished, []))
      && (Truthy(target) && target.JString? ==>
            && t.requested == [target.s]
            && (target.s !in network ==> t.result == Error(TransportFailure(target.s)))
            && (target.s in network && PrevTarget(network[target.s]).Err? ==>
                  t.result == Error(PrevTarget(network[target.s]).error))
            && (target.s in network && PrevTarget(network[target.s]).Ok?
                && DecodePage(network[target.s]).Err? ==>
                  t.result == Error(DecodePage(network[target.s]).error))
            && (target.s in network && PrevTarget(network[target.s]).Ok?
                && DecodePage(network[target.s]).Ok? ==>
                  t == Transition(Page(DecodePage(network[target.s]).value),
                                  Pending(PrevTarget(network[target.s]).value), [target.s])))
  {
    match pos
    case Finished => Transition(End, Finished, [])
    case NotStarted =>
      (match LinkId(last)
       case Err(e) => Transition(Error(e), Finished, [])
       case Ok(target) => Visit(network, target))
    case Pending(target) => Visit(network, target)
  }

  /** `n` calls of next() from `pos`. */
  function Run(network: map<string, Json>, last: Json, pos: Position, n: nat): (trace: Trace)
    ensures |trace.results| == n
    decreases n
  {
    if n == 0 then Trace([], [])
    else
      var t := Advance(network, last, pos);
      var rest := Run(network, last, t.next, n - 1);
      Trace([t.result] + rest.results, t.requested + rest.requests)
  }

  /** `n` copies of `x`. */
  function Repeat<T>(x: T, n: nat): (s: seq<T>)
    ensures |s| == n && forall i :: 0 <= i < n ==> s[i] == x
  {
    seq(n, _ => x)
  }

  /** Once finished, the generator only ends and requests nothing. */
  lemma {:induction false} FinishedStaysFinished(network: map<string, Json>, last: Json, n: nat)
    ensures Run(network, last, Finished, n) == Trace(Repeat(End, n), [])
  {
    if n > 0 {
      FinishedStaysFinished(network, last, n - 1);
      assert [End] + Repeat(End, n - 1) == Repeat(End, n);
    }
  }

  // ---------------------------------------------------------------------
  // Chains of pages
  // ---------------------------------------------------------------------

  /** The page at `urls[i]` is good and its `prev` link names `urls[i + 1]`,
      or `tail` when it is the last of `urls`. */
  ghost predicate LinkAt(network: map<string, Json>, urls: seq<string>, tail: Json, i: int)
    requires 0 <= i < |urls|
  {
    && urls[i] != [] && urls[i] in network
    && DecodePage(network[urls[i]]).Ok?
    && PrevTarget(network[urls[i]]) == Ok(if i + 1 < |urls| then JString(urls[i + 1]) else tail)
  }

  /** `urls` is a backward chain of good pages ending in the link `tail`:
      every URL is non-empty and served, its page decodes, and its `prev`
      link names the next URL of the chain, or `tail` after the last one. */
  ghost predicate Chain(network: map<string, Json>, urls: seq<string>, tail: Json) {
    forall i :: 0 <= i < |urls| ==> LinkAt(network, urls, tail, i)
  }

  /** The first target of a chain. */
  function Head(urls: seq<string>, tail: Json): Json {
    if urls == [] then tail else JString(urls[0])
  }

  /** The pages a chain yields, in chain order. */
  function ChainPages(network: map<string, Json>, urls: seq<string>): (s: seq<StepResult>)
    ensures |s| == |urls|
  {
    if urls == [] then []
    else
      var doc := if urls[0] in network then network[urls[0]] else JNull;
      match DecodePage(doc)
      case Ok(p) => [Page(p)] + ChainPages(network, urls[1..])
      case Err(e) => [Error(e)] + ChainPages(network, urls[1..])
  }

  lemma ChainTail(network: map<string, Json>, urls: seq<string>, tail: Json)
    requires Chain(network, urls, tail) && urls != []
    ensures Chain(network, urls[1..], tail)
  {
    var rest := urls[1..];
    forall i | 0 <= i < |rest|
      ensures LinkAt(network, rest, tail, i)
    {
      assert LinkAt(network, urls, tail, i + 1);
      assert rest[i] == urls[i + 1];
      if i + 1 < |rest| {
        assert rest[i + 1] == urls[i + 2];
      }
    }
  }

  /** Walking a chain: its pages come out in chain order, one request per
      page, to exactly the chain's URLs, and the generator then stands at
      the chain's tail link. */
  lemma {:induction false} RunAlongChain(
    network: map<string, Json>, last: Json, urls: seq<string>, tail: Json, m: nat)
    requires Chain(network, urls, tail)
    ensures Run(network, last, Pending(Head(urls, tail)), |urls| + m)
         == Trace(ChainPages(network, urls) + Run(network, last, Pending(tail), m).results,
                  urls + Run(network, last, Pending(tail), m).requests)
  {
    if urls != [] {
      var url, rest := urls[0], urls[1..];
      assert LinkAt(network, urls, tail, 0);
      RunFromGoodPage(network, last, url, Head(rest, tail), |rest| + m);
      ChainTail(network, urls, tail);
      RunAlongChain(network, last, rest, tail, m);
      var after := Run(network, last, Pending(tail), m);
      var page := Page(DecodePage(network[url]).value);
      ChainPagesCons(network, urls);
      ConsThenAppend(page, ChainPages(network, rest), after.results, ChainPages(network, urls));
      ConsThenAppend(url, rest, after.requests, urls);
    }
  }

  lemma ChainPagesCons(network: map<string, Json>, urls: seq<string>)
    requires urls != [] && urls[0] in network && DecodePage(network[urls[0]]).Ok?
    ensures ChainPages(network, urls)
         == [Page(DecodePage(network[urls[0]]).value)] + ChainPages(network, urls[1..])
  {
  }

  lemma ConsThenAppend<T>(x: T, a: seq<T>, b: seq<T>, whole: seq<T>)
    requires whole == [x] + a
    ensures [x] + (a + b) == whole + b
  {
  }

  /** From a good page, the generator yields it decoded after one request
      for it and then continues from the target its `prev` link names. */
  lemma RunFromGoodPage(network: map<string, Json>, last: Json, url: string, next: Json, n: nat)
    requires url != [] && url in network && DecodePage(network[url]).Ok?
    requires PrevTarget(network[url]) == Ok(next)
    ensures Run(network, last, Pending(JString(url)), n + 1)
         == Trace([Page(DecodePage(network[url]).value)] + Run(network, last, Pending(next), n).results,
                  [url] + Run(network, last, Pending(next), n).requests)
  {
  }

  /** Termination and order: on a chain that the collection's `last` link
      enters and that ends in a falsy link, the generator yields exactly the
      chain's pages, from `last` back to the oldest, after one request per
      page, and then ends for good without requesting anything more. */
  lemma {:induction false} PagesRevWalksChain(
    network: map<string, Json>, last: Json, urls: seq<string>, tail: Json, m: nat)
    requires LinkId(last) == Ok(Head(urls, tail))
    requires Chain(network, urls, tail) && !Truthy(tail)
    ensures Run(network, last, NotStarted, |urls| + 1 + m)
         == Trace(ChainPages(network, urls) + [End] + Repeat(End, m), urls)
  {
    StartAtLast(network, last, Head(urls, tail), |urls| + 1 + m);
    RunAlongChain(network, last, urls, tail, 1 + m);
    StopFinishes(network, last, tail, m);
    AppendAssoc(ChainPages(network, urls), [End], Repeat(End, m));
    assert urls + [] == urls;
  }

  /** The generator reads `last["id"]` at its first step; from then on it is
      as if it had been suspended with that target. */
  lemma StartAtLast(network: map<string, Json>, last: Json, target: Json, n: nat)
    requires LinkId(last) == Ok(target)
    ensures Run(network, last, NotStarted, n) == Run(network, last, Pending(target), n)
  {
  }

  /** A `last` link without a usable `id` fails the first step, before any
      request, and the generator is finished. */
  lemma {:induction false} BadLastFailsFirst(network: map<string, Json>, last: Json, m: nat)
    requires LinkId(last).Err?
    ensures Run(network, last, NotStarted, 1 + m)
         == Trace([Error(LinkId(last).error)] + Repeat(End, m), [])
  {
    FinishedStaysFinished(network, last, m);
  }

  /** Fail-fast: when the chain entered from `last` leads to a link whose
      visit fails (a request that fails, a `prev` without an `id`, a page
      that does not decode, one bad activity in it), the pages before it are
      yielded in order, the failure is the next result, and the generator
      then only ends: no request is made after the failing one. */
  lemma {:induction false} PagesRevFailsFast(
    network: map<string, Json>, last: Json, urls: seq<string>, bad: Json, m: nat)
    requires LinkId(last) == Ok(Head(urls, bad))
    requires Chain(network, urls, bad)
    requires Visit(network, bad).result.Error?
    ensures Run(network, last, NotStarted, |urls| + 1 + m)
         == Trace(ChainPages(network, urls) + [Visit(network, bad).result] + Repeat(End, m),
                  urls + Visit(network, bad).requested)
  {
    StartAtLast(network, last, Head(urls, bad), |urls| + 1 + m);
    RunAlongChain(network, last, urls, bad, 1 + m);
    StopFinishes(network, last, bad, m);
    var t := Visit(network, bad);
    AppendAssoc(ChainPages(network, urls), [t.result], Repeat(End, m));
  }

  /** Which visits fail: a truthy target that is not a string, a URL that is
      not served, a served page whose `prev` has no `id`, or a served page
      that does not decode. A falsy target ends the walk instead. */
  lemma VisitFails(network: map<string, Json>, target: Json)
    ensures Visit(network, target).result.Error? <==>
      && Truthy(target)
      && (|| !target.JString?
          || target.s !in network
          || PrevTarget(network[target.s]).Err?
          || DecodePage(network[target.s]).Err?)
  {
  }

  /** Fail-fast at a page that is not served: the chain's pages, then the
      transport failure after one request for it, then nothing. */
  lemma PagesRevFailsAtMissingPage(
    network: map<string, Json>, last: Json, urls: seq<string>, url: string, m: nat)
    requires LinkId(last) == Ok(Head(urls, JString(url)))
    requires Chain(network, urls, JString(url))
    requires url != [] && url !in network
    ensures Run(network, last, NotStarted, |urls| + 1 + m)
         == Trace(ChainPages(network, urls) + [Error(TransportFailure(url))] + Repeat(End, m),
                  urls + [url])
  {
    PagesRevFailsFast(network, last, urls, JString(url), m);
  }

  /** Fail-fast at a served page that does not decode (a missing key, a
      wrong type tag, one bad activity): the chain's pages, then that page's
      decoding error after one request for it, then nothing. */
  lemma PagesRevFailsAtBadPage(
    network: map<string, Json>, last: Json, urls: seq<string>, url: string, m: nat)
    requires LinkId(last) == Ok(Head(urls, JString(url)))
    requires Chain(network, urls, JString(url))
    requires url != [] && url in network
    requires PrevTarget(network[url]).Ok? && DecodePage(network[url]).Err?
    ensures Run(network, last, NotStarted, |urls| + 1 + m)
         == Trace(ChainPages(network, urls) + [Error(DecodePage(network[url]).error)] + Repeat(End, m),
                  urls + [url])
  {
    PagesRevFailsFast(network, last, urls, JString(url), m);
  }

  /** A visit that yields no page (the end or a failure) is the last step
      that does anything. */
  lemma StopFinishes(network: map<string, Json>, last: Json, target: Json, m: nat)
    requires !Visit(network, target).result.Page?
    ensures Run(network, last, Pending(target), 1 + m)
         == Trace([Visit(network, target).result] + Repeat(End, m), Visit(network, target).requested)
  {
    FinishedStaysFinished(network, last, m);
    var t := Visit(network, target);
    assert t.requested + [] == t.requested;
  }

  lemma AppendAssoc<T>(a: seq<T>, b: seq<T>, c: seq<T>)
    ensures a + (b + c) == a + b + c
  {
  }

  /** No cycle guard: a page whose `prev` link names itself is fetched and
      yielded again at every step, so the generator never ends. */
  lemma {:induction false} SelfLoopNeverEnds(
    network: map<string, Json>, last: Json, url: string, n: nat)
    requires url != [] && url in network && DecodePage(network[url]).Ok?
    requires PrevTarget(network[url]) == Ok(JString(url))
    ensures Run(network, last, Pending(JString(url)), n)
         == Trace(Repeat(Page(DecodePage(network[url]).value), n), Repeat(url, n))
  {
    if n > 0 {
      RunFromGoodPage(network, last, url, JString(url), n - 1);
      SelfLoopNeverEnds(network, last, url, n - 1);
      var p := Page(DecodePage(network[url]).value);
      assert [p] + Repeat(p, n - 1) == Repeat(p, n);
      assert [url] + Repeat(url, n - 1) == Repeat(url, n);
    }
  }

  // ---------------------------------------------------------------------
  // The generator object
  // ---------------------------------------------------------------------

  /** The generator object `collection.pages_rev()` returns: created
      suspended before its body, it keeps current_page_id between calls. */
  class PagesRev {
    const network: map<string, Json>
    const last: Json
    var position: Position
    /** Every URL handed to urlopen so far, in order. */
    ghost var Requested: seq<string>

    constructor (network: map<string, Json>, collection: OrderedCollection)
      ensures this.network == network && last == collection.last
      ensures position == NotStarted && Requested == []
    {
      this.network := network;
      last := collection.last;
      position := NotStarted;
      Requested := [];
    }

    /** One call of next(): the loop guard, at most one request, the `prev`
        read, the decoding, and then a page, the end, or the exception. */
    method Next() returns (r: StepResult)
      modifies this
      ensures var t := Advance(network, last, old(position));
        && r == t.result && position == t.next
        && Requested == old(Requested) + t.requested
    {
      var current: Json;
      match position {
        case Finished =>
          return End;
        case NotStarted =>
          var id := LinkId(last);
          if id.Err? {
            position := Finished;
            return Error(id.error);
          }
          current := id.value;
        case Pending(target) =>
          current := target;
      }
      if !Truthy(current) {
        position := Finished;
        return End;
      }
      if !current.JString? {
        position := Finished;
        return Error(NotAUrl(current));
      }
      var url := current.s;
      Requested := Requested + [url];
      if url !in network {
        position := Finished;
        return Error(TransportFailure(url));
      }
      var doc := network[url];
      var prev := PrevTarget(doc);
      if prev.Err? {
        position := Finished;
        return Error(prev.error);
      }
      var page := DecodePage(doc);
      if page.Err? {
        position := Finished;
        return Error(page.error);
      }
      position := Pending(prev.value);
      r := Page(page.value);
    }
  }
}
