// The in-memory usage counter: every NUFI API request is counted, split into
// enrichment and blacklist requests by its path, and every response sent
// with an error status adds to the error count.
module RequestCounter {
  import opened Js

  /** The four counters of the `stats` object. */
  datatype Counters = Counters(totalRequests: nat, enrichmentRequests: nat, blacklistRequests: nat, errors: nat)

  const Zero := Counters(0, 0, 0, 0)

  /** What the middleware reacts to: a request with its path, a response
      sent with its status code, or a call of `resetStats`. */
  datatype Event = Request(path: string) | Send(statusCode: int) | ResetStats

  predicate IsApiRequest(path: string)
  {
    StartsWith(path, "/api/nufi")
  }

  /** The counters after one request. */
  function CountRequest(c: Counters, path: string): (r: Counters)
    ensures r.totalRequests == c.totalRequests + (if IsApiRequest(path) then 1 else 0)
    ensures r.enrichmentRequests == c.enrichmentRequests + (if IsApiRequest(path) && Contains(path, "enrichment") then 1 else 0)
    ensures r.blacklistRequests == c.blacklistRequests +
              (if IsApiRequest(path) && !Contains(path, "enrichment") && Contains(path, "blacklist") then 1 else 0)
    ensures r.errors == c.errors
  {
    if !IsApiRequest(path) then c
    else if Contains(path, "enrichment") then c.(totalRequests := c.totalRequests + 1, enrichmentRequests := c.enrichmentRequests + 1)
    else if Contains(path, "blacklist") then c.(totalRequests := c.totalRequests + 1, blacklistRequests := c.blacklistRequests + 1)
    else c.(totalRequests := c.totalRequests + 1)
  }

  /** The counters after one `send`. */
  function CountSend(c: Counters, statusCode: int): (r: Counters)
    ensures r.errors == c.errors + (if statusCode >= 400 then 1 else 0)
    ensures r.(errors := c.errors) == c
  {
    if statusCode >= 400 then c.(errors := c.errors + 1) else c
  }

  function Apply(c: Counters, e: Event): Counters
  {
    match e
    case Request(path) => CountRequest(c, path)
    case Send(code) => CountSend(c, code)
    case ResetStats => Zero
  }

  /** The counters after a history of events. */
  function Run(c: Counters, es: seq<Event>): Counters
    decreases |es|
  {
    if es == [] then c else Run(Apply(c, es[0]), es[1..])
  }

  /** Typed requests never outnumber all requests. */
  predicate Bounded(c: Counters)
  {
    c.enrichmentRequests + c.blacklistRequests <= c.totalRequests
  }

  lemma {:induction false} ApplyKeepsBound(c: Counters, e: Event)
    requires Bounded(c)
    ensures Bounded(Apply(c, e))
  {
  }

  /** From the zeroed start, whatever happens, the typed counts stay within
      the total. */
  lemma {:induction false} RunKeepsBound(c: Counters, es: seq<Event>)
    requires Bounded(c)
    ensures Bounded(Run(c, es))
    decreases |es|
  {
    if es != [] {
      ApplyKeepsBound(c, es[0]);
      RunKeepsBound(Apply(c, es[0]), es[1..]);
    }
  }

  lemma AlwaysBounded(es: seq<Event>)
    ensures Bounded(Run(Zero, es))
  {
    RunKeepsBound(Zero, es);
  }

  /** Every counter is at least its earlier value. */
  predicate AtLeast(c: Counters, d: Counters)
  {
    c.totalRequests >= d.totalRequests && c.enrichmentRequests >= d.enrichmentRequests
    && c.blacklistRequests >= d.blacklistRequests && c.errors >= d.errors
  }

  /** Without a reset, no counter ever goes down. */
  lemma {:induction false} CountersNeverDecrease(c: Counters, es: seq<Event>)
    requires forall i :: 0 <= i < |es| ==> !es[i].ResetStats?
    ensures AtLeast(Run(c, es), c)
    decreases |es|
  {
    if es != [] {
      CountersNeverDecrease(Apply(c, es[0]), es[1..]);
    }
  }

  /** The counts of a history without resets: API requests, and sends with
      an error status. */
  function ApiRequests(es: seq<Event>): nat
  {
    if es == [] then 0 else (if es[0].Request? && IsApiRequest(es[0].path) then 1 else 0) + ApiRequests(es[1..])
  }

  function ErrorSends(es: seq<Event>): nat
  {
    if es == [] then 0 else (if es[0].Send? && es[0].statusCode >= 400 then 1 else 0) + ErrorSends(es[1..])
  }

  /** From zero and without resets, the total is the number of API requests
      and the error count is the number of error responses. */
  lemma {:induction false} RunCounts(c: Counters, es: seq<Event>)
    requires forall i :: 0 <= i < |es| ==> !es[i].ResetStats?
    ensures Run(c, es).totalRequests == c.totalRequests + ApiRequests(es)
    ensures Run(c, es).errors == c.errors + ErrorSends(es)
    decreases |es|
  {
    if es != [] {
      RunCounts(Apply(c, es[0]), es[1..]);
    }
  }

  /** The module-level `stats` object. */
  class Stats {
    var totalRequests: nat
    var enrichmentRequests: nat
    var blacklistRequests: nat
    var errors: nat

    function Counts(): Counters
      reads this
    {
      Counters(totalRequests, enrichmentRequests, blacklistRequests, errors)
    }

    constructor ()
      ensures Counts() == Zero
    {
      totalRequests, enrichmentRequests, blacklistRequests, errors := 0, 0, 0, 0;
    }

    /** The counting part of `requestCounter`. */
    method Count(path: string)
      modifies this
      ensures Counts() == CountRequest(old(Counts()), path)
    {
      if StartsWith(path, "/api/nufi") {
        totalRequests := totalRequests + 1;
        if Contains(path, "enrichment") {
          enrichmentRequests := enrichmentRequests + 1;
        } else if Contains(path, "blacklist") {
          blacklistRequests := blacklistRequests + 1;
        }
      }
    }

    /** The wrapped `res.send`. */
    method Sent(statusCode: int)
      modifies this
      ensures Counts() == CountSend(old(Counts()), statusCode)
    {
      if statusCode >= 400 {
        errors := errors + 1;
      }
    }

    /** `resetStats` */
    method Reset()
      modifies this
      ensures Counts() == Zero
    {
      totalRequests, enrichmentRequests, blacklistRequests, errors := 0, 0, 0, 0;
    }

    /** One event, whichever it is. */
    method Handle(e: Event)
      modifies this
      ensures Counts() == Apply(old(Counts()), e)
    {
      match e
      case Request(path) => Count(path);
      case Send(code) => Sent(code);
      case ResetStats => Reset();
    }

    /** A history of events, in order. */
    method HandleAll(es: seq<Event>)
      modifies this
      ensures Counts() == Run(old(Counts()), es)
      ensures Bounded(old(Counts())) ==> Bounded(Counts())
    {
      ghost var start := Counts();
      var i := 0;
      while i < |es|
        invariant 0 <= i <= |es|
        invariant Run(start, es) == Run(Counts(), es[i..])
      {
        assert es[i..][1..] == es[i + 1..];
        Handle(es[i]);
        i := i + 1;
      }
      if Bounded(start) {
        RunKeepsBound(start, es);
      }
    }
  }
}
