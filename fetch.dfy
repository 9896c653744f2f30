/** The Up API page walk (`getNextPage`) and the request signer
    (`signRequestBody`), over a finite chain of already-fetched responses. */
module Fetch {
  import opened Wrappers

  /** The paginated envelope `{ data: [...], links: { next, prev } }`; either
      part may be missing from a body that parsed. */
  datatype Envelope<T> = Envelope(data: Option<seq<T>>, next: Option<string>)

  /** One HTTP response: its `ok` flag, the remaining-rate-limit header as
      sent, and the body (`None` when it is not valid JSON). */
  datatype Response<T> = Response(ok: bool, rateLimitRemaining: Option<string>, body: Option<Envelope<T>>)

  /** One invocation of the page callback: the items and the page number. */
  datatype PageCall<T> = PageCall(items: seq<T>, page: int)

  /** What a walk leaves behind: the outcome (with the state reached) and the
      callbacks it made, in order. */
  datatype Walked<S, T> = Walked(run: Run<S>, calls: seq<PageCall<T>>)

  /** A listing as the processors see it: the data of the first page as the
      API client returns it (absent when the request failed), then the
      responses behind each successive `links.next`. */
  datatype Listing<T> = Listing(first: Option<Envelope<T>>, rest: seq<Response<T>>)

  const RateLimitExceeded := "Rate limit exceeded"
  const FetchFailed := "Failed to fetch page"
  const ParseFailed := "Failed to parse JSON response"
  /** A `links.next` with no response behind it in the chain. */
  const NoResponse := "No response for next link"

  // ---------------------------------------------------------------------
  // parseInt(x, 10) as far as the rate-limit check needs it

  /** ECMAScript StrWhiteSpaceChar: white space and line terminators. */
  predicate IsJsWhitespace(c: char)
  {
    c == ' ' || c == '\t' || c == '\n' || c == '\r' || c == '\U{B}' || c == '\U{C}'
    || c == '\U{A0}' || c == '\U{1680}' || ('\U{2000}' <= c <= '\U{200A}')
    || c == '\U{2028}' || c == '\U{2029}' || c == '\U{202F}' || c == '\U{205F}'
    || c == '\U{3000}' || c == '\U{FEFF}'
  }

  predicate IsDigit(c: char) { '0' <= c <= '9' }

  function TrimStart(s: string): (r: string)
    ensures |r| <= |s| && r == s[|s| - |r|..]
    ensures r == [] || !IsJsWhitespace(r[0])
  {
    if s != [] && IsJsWhitespace(s[0]) then TrimStart(s[1..]) else s
  }

  /** The longest prefix of decimal digits. */
  function LeadingDigits(s: string): (d: string)
    ensures |d| <= |s| && d == s[..|d|]
    ensures forall i :: 0 <= i < |d| ==> IsDigit(d[i])
    ensures |d| < |s| ==> !IsDigit(s[|d|])
  {
    if s != [] && IsDigit(s[0]) then [s[0]] + LeadingDigits(s[1..]) else []
  }

  function DigitValue(c: char): nat
    requires IsDigit(c)
  {
    c as int - '0' as int
  }

  function DigitsValue(d: string): nat
    requires forall i :: 0 <= i < |d| ==> IsDigit(d[i])
  {
    if d == [] then 0 else DigitsValue(d[..|d| - 1]) * 10 + DigitValue(d[|d| - 1])
  }

  /** The digits parseInt reads: after leading white space and one sign. */
  function NumeralDigits(s: string): string
  {
    var t := TrimStart(s);
    var u := if t != [] && (t[0] == '+' || t[0] == '-') then t[1..] else t;
    LeadingDigits(u)
  }

  /** `parseInt(s, 10)`: `None` stands for NaN. The sign is dropped from the
      value because only the comparison with 0 is ever made (-0 === 0). */
  function ParseIntMagnitude(s: string): Option<nat>
  {
    var d := NumeralDigits(s);
    if d == [] then None else Some(DigitsValue(d))
  }

  /** `rateLimitRemaining && parseInt(rateLimitRemaining, 10) === 0` */
  predicate RateLimitExhausted(header: Option<string>)
  {
    Truthy(header) && ParseIntMagnitude(header.value) == Some(0)
  }

  lemma {:induction false} DigitsValueZero(d: string)
    requires forall i :: 0 <= i < |d| ==> IsDigit(d[i])
    ensures DigitsValue(d) == 0 <==> forall i :: 0 <= i < |d| ==> d[i] == '0'
  {
    if d != [] {
      var p := d[..|d| - 1];
      DigitsValueZero(p);
      assert forall i :: 0 <= i < |p| ==> p[i] == d[i];
    }
  }

  /** The header stops the walk exactly when the digits parseInt reads are
      all zeros (at least one of them): "0", " 00", "-0", "0abc" do; "",
      "abc", "10" do not. */
  lemma ExhaustedIffZeroNumeral(h: string)
    ensures RateLimitExhausted(Some(h)) <==>
      (h != "" && |NumeralDigits(h)| > 0 && forall i :: 0 <= i < |NumeralDigits(h)| ==> NumeralDigits(h)[i] == '0')
  {
    DigitsValueZero(NumeralDigits(h));
  }

  // ---------------------------------------------------------------------
  // getNextPage

  predicate HasNext<T>(e: Envelope<T>) { Truthy(e.next) }

  /** Why a response aborts the walk, in the order `getNextPage` checks:
      rate limit first, then the status, then the body. */
  function PageFault<T>(res: Response<T>): (f: Option<string>)
    ensures f.None? <==> !RateLimitExhausted(res.rateLimitRemaining) && res.ok && res.body.Some?
    ensures RateLimitExhausted(res.rateLimitRemaining) ==> f == Some(RateLimitExceeded)
  {
    if RateLimitExhausted(res.rateLimitRemaining) then Some(RateLimitExceeded)
    else if !res.ok then Some(FetchFailed)
    else if res.body.None? then Some(ParseFailed)
    else None
  }

  /** Prefixes callbacks already made to the rest of a walk. */
  function Then<S, T>(calls: seq<PageCall<T>>, w: Walked<S, T>): Walked<S, T>
  {
    Walked(w.run, calls + w.calls)
  }

  /** The callback for one fetched page: made when the body has `data`. */
  function OnPage<S, T>(s: S, env: Envelope<T>, onNextPage: (S, seq<T>, int) -> Run<S>, page: int): Walked<S, T>
  {
    if env.data.Some? then Walked(onNextPage(s, env.data.value, page), [PageCall(env.data.value, page)])
    else Walked(Done(s), [])
  }

  /** The walk `getNextPage(link, onNextPage, page)` performs when fetching
      the link yields `chain[0]`, its next link yields `chain[1]`, and so on. */
  function Walk<S, T>(s: S, chain: seq<Response<T>>, onNextPage: (S, seq<T>, int) -> Run<S>, page: int): Walked<S, T>
    decreases |chain|
  {
    if chain == [] then Walked(Failed(s, NoResponse), [])
    else if PageFault(chain[0]).Some? then Walked(Failed(s, PageFault(chain[0]).value), [])
    else
      var env := chain[0].body.value;
      var first := OnPage(s, env, onNextPage, page);
      if first.run.Failed? || !HasNext(env) then first
      else Then(first.calls, Walk(first.run.state, chain[1..], onNextPage, page + 1))
  }

  /** `getNextPage`: fetch, check, hand the data to the callback and await
      it, then follow `links.next`. The recursion of the source is a loop. */
  method GetNextPage<S, T>(s: S, chain: seq<Response<T>>, onNextPage: (S, seq<T>, int) -> Run<S>, page: int)
    returns (w: Walked<S, T>)
    ensures w == Walk(s, chain, onNextPage, page)
  {
    var i := 0;
    var state := s;
    var calls: seq<PageCall<T>> := [];
    while i < |chain|
      invariant 0 <= i <= |chain|
      invariant Walk(s, chain, onNextPage, page) == Then(calls, Walk(state, chain[i..], onNextPage, page + i))
      decreases |chain| - i
    {
      ghost var rest := chain[i..];
      assert rest[0] == chain[i];
      var res := chain[i];
      var fault := PageFault(res);
      if fault.Some? {
        return Walked(Failed(state, fault.value), calls);
      }
      var env := res.body.value;
      ghost var first := OnPage(state, env, onNextPage, page + i);
      ghost var before := calls;
      if env.data.Some? {
        var r := onNextPage(state, env.data.value, page + i);
        calls := calls + [PageCall(env.data.value, page + i)];
        if r.Failed? {
          return Walked(r, calls);
        }
        state := r.state;
      }
      assert calls == before + first.calls && state == first.run.state;
      if !HasNext(env) {
        return Walked(Done(state), calls);
      }
      assert rest[1..] == chain[i + 1..];
      ThenAssoc(before, first.calls, Walk(state, chain[i + 1..], onNextPage, page + i + 1));
      i := i + 1;
    }
    assert chain[i..] == [];
    return Walked(Failed(state, NoResponse), calls);
  }

  lemma ThenAssoc<S, T>(a: seq<PageCall<T>>, b: seq<PageCall<T>>, w: Walked<S, T>)
    ensures Then(a, Then(b, w)) == Then(a + b, w)
  {
    assert a + (b + w.calls) == (a + b) + w.calls;
  }

  /** The chain a listing stands for: its first page behaves as a response
      that is ok, carries no rate-limit header and parsed. */
  function ListingChain<T>(listing: Listing<T>): seq<Response<T>>
    requires listing.first.Some?
  {
    [Response(true, None, listing.first)] + listing.rest
  }

  /** What every processor does with a listing: nothing when the client
      returned no data; otherwise the first page as page 1, then
      `getNextPage(links.next, callback, 2)`. */
  function ListingWalk<S, T>(s: S, listing: Listing<T>, onPage: (S, seq<T>, int) -> Run<S>): Walked<S, T>
  {
    if listing.first.None? then Walked(Done(s), []) else Walk(s, ListingChain(listing), onPage, 1)
  }

  method WalkListing<S, T>(s: S, listing: Listing<T>, onPage: (S, seq<T>, int) -> Run<S>)
    returns (w: Walked<S, T>)
    ensures w == ListingWalk(s, listing, onPage)
  {
    if listing.first.None? {
      return Walked(Done(s), []);
    }
    var env := listing.first.value;
    var state := s;
    var calls: seq<PageCall<T>> := [];
    if env.data.Some? {
      var r := onPage(s, env.data.value, 1);
      calls := [PageCall(env.data.value, 1)];
      if r.Failed? {
        return Walked(r, calls);
      }
      state := r.state;
    }
    if !HasNext(env) {
      return Walked(Done(state), calls);
    }
    var rest := GetNextPage(state, listing.rest, onPage, 2);
    assert ListingChain(listing)[1..] == listing.rest;
    w := Then(calls, rest);
  }

  // ---------------------------------------------------------------------
  // Properties of the walk

  /** Applies the recorded callbacks in order, stopping at the first failure. */
  function Replay<S, T>(s: S, calls: seq<PageCall<T>>, onPage: (S, seq<T>, int) -> Run<S>): Run<S>
    decreases |calls|
  {
    if calls == [] then Done(s)
    else
      var r := onPage(s, calls[0].items, calls[0].page);
      if r.Failed? then r else Replay(r.state, calls[1..], onPage)
  }

  /** The state a walk leaves is exactly the callbacks it made, applied one
      after another: each page's callback completes before the next page,
      and nothing but the callbacks touches the state. */
  lemma {:induction false} WalkIsReplay<S, T>(s: S, chain: seq<Response<T>>, onPage: (S, seq<T>, int) -> Run<S>, page: int)
    ensures Replay(s, Walk(s, chain, onPage, page).calls, onPage).state == Walk(s, chain, onPage, page).run.state
    ensures Walk(s, chain, onPage, page).run.Done? ==> Replay(s, Walk(s, chain, onPage, page).calls, onPage).Done?
    decreases |chain|
  {
    if chain != [] && PageFault(chain[0]).None? {
      var env := chain[0].body.value;
      var w := Walk(s, chain, onPage, page);
      if env.data.Some? {
        var r := onPage(s, env.data.value, page);
        if !r.Failed? && HasNext(env) {
          WalkIsReplay(r.state, chain[1..], onPage, page + 1);
          var tail := Walk(r.state, chain[1..], onPage, page + 1);
          assert w.calls == [PageCall(env.data.value, page)] + tail.calls;
          assert w.calls[1..] == tail.calls;
        }
      } else if HasNext(env) {
        WalkIsReplay(s, chain[1..], onPage, page + 1);
        assert w.calls == Walk(s, chain[1..], onPage, page + 1).calls;
      }
    }
  }

  /** A callback got the data of the page of the chain it is numbered for
      (the chain's pages are numbered from `start`). */
  ghost predicate CallFromChain<T>(c: PageCall<T>, chain: seq<Response<T>>, start: int)
  {
    && start <= c.page < start + |chain|
    && chain[c.page - start].body.Some?
    && chain[c.page - start].body.value.data == Some(c.items)
  }

  ghost predicate CallsFromChain<T>(calls: seq<PageCall<T>>, chain: seq<Response<T>>, start: int)
  {
    forall k :: 0 <= k < |calls| ==> CallFromChain(calls[k], chain, start)
  }

  ghost predicate StrictlyIncreasing<T>(calls: seq<PageCall<T>>)
  {
    forall j, k :: 0 <= j < k < |calls| ==> calls[j].page < calls[k].page
  }

  /** Every callback of a walk got the data of one page of the chain, with
      that page's number: start + its position. */
  lemma {:induction false} WalkCallsFromChain<S, T>(s: S, chain: seq<Response<T>>, onPage: (S, seq<T>, int) -> Run<S>, page: int)
    ensures CallsFromChain(Walk(s, chain, onPage, page).calls, chain, page)
    decreases |chain|
  {
    if chain != [] && PageFault(chain[0]).None? {
      var env := chain[0].body.value;
      var first := OnPage(s, env, onPage, page);
      if !first.run.Failed? && HasNext(env) {
        var rest := chain[1..];
        WalkCallsFromChain(first.run.state, rest, onPage, page + 1);
        var tail := Walk(first.run.state, rest, onPage, page + 1);
        var w := Walk(s, chain, onPage, page);
        assert w.calls == first.calls + tail.calls;
        forall k | 0 <= k < |w.calls| ensures CallFromChain(w.calls[k], chain, page) {
          if k >= |first.calls| {
            var c := tail.calls[k - |first.calls|];
            assert c == w.calls[k];
            assert CallFromChain(c, rest, page + 1);
            assert rest[c.page - (page + 1)] == chain[c.page - page];
          }
        }
      }
    }
  }

  /** Callbacks happen in chain order: their page numbers strictly increase,
      so no page is called back twice. */
  lemma {:induction false} WalkCallsInOrder<S, T>(s: S, chain: seq<Response<T>>, onPage: (S, seq<T>, int) -> Run<S>, page: int)
    ensures StrictlyIncreasing(Walk(s, chain, onPage, page).calls)
    decreases |chain|
  {
    if chain != [] && PageFault(chain[0]).None? {
      var env := chain[0].body.value;
      var first := OnPage(s, env, onPage, page);
      if !first.run.Failed? && HasNext(env) {
        var rest := chain[1..];
        WalkCallsInOrder(first.run.state, rest, onPage, page + 1);
        WalkCallsFromChain(first.run.state, rest, onPage, page + 1);
        var tail := Walk(first.run.state, rest, onPage, page + 1);
        var w := Walk(s, chain, onPage, page);
        var h := |first.calls|;
        assert w.calls == first.calls + tail.calls;
        forall j, k | 0 <= j < k < |w.calls| ensures w.calls[j].page < w.calls[k].page {
          assert w.calls[k] == tail.calls[k - h];
          assert CallFromChain(tail.calls[k - h], rest, page + 1);
          if j >= h {
            assert w.calls[j] == tail.calls[j - h];
          }
        }
      }
    }
  }

  /** A chain that is fetched without fault to its end: every page but the
      last carries `links.next`, the last does not. */
  ghost predicate ChainOk<T>(chain: seq<Response<T>>)
  {
    && |chain| > 0
    && (forall k :: 0 <= k < |chain| ==> PageFault(chain[k]).None?)
    && (forall k :: 0 <= k < |chain| ==> (HasNext(chain[k].body.value) <==> k < |chain| - 1))
  }

  ghost predicate NeverFails<S(!new), T(!new)>(onPage: (S, seq<T>, int) -> Run<S>)
  {
    forall s, items, p :: onPage(s, items, p).Done?
  }

  /** The callbacks a fault-free walk must make: one per page that has
      `data`, numbered start, start + 1, ... by position in the chain. */
  function DataCalls<T>(chain: seq<Response<T>>, start: int): seq<PageCall<T>>
    requires forall k :: 0 <= k < |chain| ==> chain[k].body.Some?
    decreases |chain|
  {
    if chain == [] then []
    else
      var d := chain[0].body.value.data;
      (if d.Some? then [PageCall(d.value, start)] else []) + DataCalls(chain[1..], start + 1)
  }

  /** Over a chain fetched without fault, with a callback that never fails,
      the walk succeeds and calls back once for each page with data, in
      order, numbering the pages from `start` — a page without data still
      uses up its number. */
  lemma {:induction false} WalkWellFormed<S(!new), T(!new)>(s: S, chain: seq<Response<T>>, onPage: (S, seq<T>, int) -> Run<S>, page: int)
    requires ChainOk(chain)
    requires NeverFails(onPage)
    ensures Walk(s, chain, onPage, page).run.Done?
    ensures Walk(s, chain, onPage, page).calls == DataCalls(chain, page)
    decreases |chain|
  {
    assert PageFault(chain[0]).None?;
    var env := chain[0].body.value;
    var st := if env.data.Some? then onPage(s, env.data.value, page) else Done(s);
    var head: seq<PageCall<T>> := if env.data.Some? then [PageCall(env.data.value, page)] else [];
    assert st.Done?;
    if HasNext(env) {
      var rest := chain[1..];
      assert forall k :: 0 <= k < |rest| ==> rest[k] == chain[k + 1];
      WalkWellFormed(st.state, rest, onPage, page + 1);
    } else {
      assert |chain| == 1;
      assert chain[1..] == [];
    }
  }

  /** Each page with data of a fault-free chain is called back with its own
      number, start + position. */
  lemma {:induction false} DataCallsCoverPages<T>(chain: seq<Response<T>>, start: int, k: int)
    requires forall j :: 0 <= j < |chain| ==> chain[j].body.Some?
    requires 0 <= k < |chain| && chain[k].body.value.data.Some?
    ensures PageCall(chain[k].body.value.data.value, start + k) in DataCalls(chain, start)
    decreases |chain|
  {
    if k > 0 {
      var rest := chain[1..];
      assert rest[k - 1] == chain[k];
      DataCallsCoverPages(rest, start + 1, k - 1);
    }
  }

  /** A page that faults ends the walk: no callback is made for it or for
      any later page. */
  lemma {:induction false} WalkStopsAtFault<S(!new), T(!new)>(s: S, chain: seq<Response<T>>, onPage: (S, seq<T>, int) -> Run<S>, page: int, k: int)
    requires 0 <= k < |chain| && PageFault(chain[k]).Some?
    ensures forall c :: c in Walk(s, chain, onPage, page).calls ==> c.page < page + k
    ensures (forall j :: 0 <= j < k ==> PageFault(chain[j]).None? && HasNext(chain[j].body.value)) && NeverFails(onPage)
            ==> Walk(s, chain, onPage, page).run == Failed(Walk(s, chain, onPage, page).run.state, PageFault(chain[k]).value)
    decreases |chain|
  {
    if k > 0 && PageFault(chain[0]).None? {
      var env := chain[0].body.value;
      var st := if env.data.Some? then onPage(s, env.data.value, page) else Done(s);
      if !st.Failed? && HasNext(env) {
        var rest := chain[1..];
        assert rest[k - 1] == chain[k];
        assert forall j :: 0 <= j < k - 1 ==> rest[j] == chain[j + 1];
        WalkStopsAtFault(st.state, rest, onPage, page + 1, k - 1);
      }
    }
  }

  /** The walk stops at the first page without `links.next`: whatever the
      chain holds after it is never fetched. */
  lemma {:induction false} WalkEndsAtLastLink<S, T>(s: S, chain: seq<Response<T>>, onPage: (S, seq<T>, int) -> Run<S>, page: int, k: int)
    requires 0 <= k < |chain| && PageFault(chain[k]).None? && !HasNext(chain[k].body.value)
    ensures Walk(s, chain, onPage, page) == Walk(s, chain[..k + 1], onPage, page)
    decreases |chain|
  {
    var pre := chain[..k + 1];
    assert pre[0] == chain[0];
    if k > 0 && PageFault(chain[0]).None? {
      var env := chain[0].body.value;
      var st := if env.data.Some? then onPage(s, env.data.value, page) else Done(s);
      if !st.Failed? && HasNext(env) {
        var rest := chain[1..];
        assert rest[k - 1] == chain[k];
        assert pre[1..] == rest[..k];
        WalkEndsAtLastLink(st.state, rest, onPage, page + 1, k - 1);
      }
    }
  }

  /** A property that every callback keeps holds of the state a walk leaves,
      however the walk ends. */
  lemma {:induction false} WalkPreserves<S, T>(s: S, chain: seq<Response<T>>, onPage: (S, seq<T>, int) -> Run<S>, page: int, P: S -> bool)
    requires P(s)
    requires forall st, items, p :: P(st) ==> P(onPage(st, items, p).state)
    ensures P(Walk(s, chain, onPage, page).run.state)
    decreases |chain|
  {
    if chain != [] && PageFault(chain[0]).None? {
      var env := chain[0].body.value;
      var st := if env.data.Some? then onPage(s, env.data.value, page) else Done(s);
      if !st.Failed? && HasNext(env) {
        WalkPreserves(st.state, chain[1..], onPage, page + 1, P);
      }
    }
  }

  lemma ListingPreserves<S, T>(s: S, listing: Listing<T>, onPage: (S, seq<T>, int) -> Run<S>, P: S -> bool)
    requires P(s)
    requires forall st, items, p :: P(st) ==> P(onPage(st, items, p).state)
    ensures P(ListingWalk(s, listing, onPage).run.state)
  {
    if listing.first.Some? {
      WalkPreserves(s, ListingChain(listing), onPage, 1, P);
    }
  }

  // ---------------------------------------------------------------------
  // signRequestBody

  /** Lower-case hexadecimal digit. */
  function HexDigit(n: nat): char
    requires n < 16
  {
    if n < 10 then ('0' as int + n) as char else ('a' as int + n - 10) as char
  }

  /** QuoteJSONString's escape for one code point. */
  function EscapeChar(c: char): (e: string)
    ensures |e| >= 1
    ensures e[0] == '\\' <==> (c == '"' || c == '\\' || c < ' ')
    ensures e[0] != '\\' ==> e == [c]
  {
    if c == '\U{8}' then "\\b"
    else if c == '\t' then "\\t"
    else if c == '\n' then "\\n"
    else if c == '\U{C}' then "\\f"
    else if c == '\r' then "\\r"
    else if c == '"' then "\\\""
    else if c == '\\' then "\\\\"
    else if c < ' ' then ['\\', 'u', '0', '0', HexDigit(c as int / 16), HexDigit(c as int % 16)]
    else [c]
  }

  function EscapeString(s: string): string
  {
    if s == [] then [] else EscapeChar(s[0]) + EscapeString(s[1..])
  }

  /** `JSON.stringify(s)` for a string `s`. */
  function JsonStringify(s: string): string
  {
    "\"" + EscapeString(s) + "\""
  }

  /** `signRequestBody(token, body)`: the signer applied to the secret and
      `JSON.stringify(body)`. The signer (HMAC-SHA256, section 2 of RFC 2104
      over FIPS 180-4) is a parameter. A body that is `undefined` makes
      `JSON.stringify` return `undefined`, which `update` refuses. */
  function SignRequestBody(hmac: (string, string) -> string, token: string, body: Option<string>): (r: Result<string>)
    ensures body.None? <==> r.Err?
    ensures body.Some? ==> r == Ok(hmac(token, JsonStringify(body.value)))
  {
    if body.None? then Err("The \"data\" argument must be of type string") else Ok(hmac(token, JsonStringify(body.value)))
  }

  lemma EscapeCharPrefixFree(c: char, d: char, x: string, y: string)
    requires EscapeChar(c) + x == EscapeChar(d) + y
    ensures c == d && x == y
  {
    var ec, ed := EscapeChar(c), EscapeChar(d);
    assert (ec + x)[0] == ec[0] && (ed + y)[0] == ed[0];
    if ec[0] != '\\' || ed[0] != '\\' {
      assert ec == [c] || ed == [d];
      assert c == d;
    } else {
      assert (ec + x)[1] == ec[1] && (ed + y)[1] == ed[1];
      if ec[1] == 'u' {
        assert ed[1] == 'u';
        assert c < ' ' && d < ' ';
        assert (ec + x)[4] == ec[4] && (ed + y)[4] == ed[4];
        assert (ec + x)[5] == ec[5] && (ed + y)[5] == ed[5];
        assert c as int / 16 == d as int / 16;
        assert c as int % 16 == d as int % 16;
        assert c as int == d as int;
      }
    }
    assert |ec| == |ed|;
    assert x == (ec + x)[|ec|..];
    assert y == (ed + y)[|ed|..];
  }

  lemma {:induction false} EscapeStringInjective(a: string, b: string)
    requires EscapeString(a) == EscapeString(b)
    ensures a == b
  {
    if a != [] && b != [] {
      EscapeCharPrefixFree(a[0], b[0], EscapeString(a[1..]), EscapeString(b[1..]));
      EscapeStringInjective(a[1..], b[1..]);
      assert a == [a[0]] + a[1..] && b == [b[0]] + b[1..];
    }
  }

  /** Distinct bodies are signed as distinct messages, so the signature is
      a function of the body itself (through its JSON encoding). */
  lemma JsonStringifyInjective(a: string, b: string)
    requires a != b
    ensures JsonStringify(a) != JsonStringify(b)
  {
    if JsonStringify(a) == JsonStringify(b) {
      var ea, eb := EscapeString(a), EscapeString(b);
      assert JsonStringify(a)[1..|JsonStringify(a)| - 1] == ea;
      assert JsonStringify(b)[1..|JsonStringify(b)| - 1] == eb;
      EscapeStringInjective(a, b);
    }
  }
}
