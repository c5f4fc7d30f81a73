/** Cursor pagination: the sequence of fetches one aggregating call makes,
    what it returns, and what that means for the records a caller receives. */
module Pagination {
  import opened Wrappers
  import opened Client

  /** One decoded page: retCode, retMsg, the record list of result (called
      list, or orderBody for coin exchange) and result.nextPageCursor. */
  datatype Page<R> = Page(retCode: int, retMsg: string, list: seq<R>, nextPageCursor: string)

  /** An endpoint to drain: the transport, its path, and the decoder for its
      page shape. */
  datatype Endpoint<!J, R> = Endpoint(transport: Transport<J>, path: string, decode: Decoder<Page<R>>)

  /** One fetch of the loop: the parameters sent and what came back. */
  datatype Exchange<R> = Exchange(sent: Params, reply: Result<Page<R>, Error>)

  /** After this fetch the loop stops: it failed, or its page has no next cursor. */
  predicate Terminal<R>(e: Exchange<R>) {
    e.reply.Failure? || e.reply.value.nextPageCursor == ""
  }

  /** The conversation is over: its last fetch is terminal. */
  predicate Ends<R>(conv: seq<Exchange<R>>) {
    |conv| > 0 && Terminal(conv[|conv| - 1])
  }

  /** The first `fuel` fetches of the loop, starting with fetch number n and
      parameters p: after a page with a next cursor, the same parameters are
      sent again with the cursor key set to it. */
  ghost function Conversation<J, R>(ep: Endpoint<J, R>, p: Params, n: nat, fuel: nat): (conv: seq<Exchange<R>>)
    ensures |conv| <= fuel
    ensures fuel > 0 ==> conv != [] && conv[0].sent == p
    decreases fuel
  {
    if fuel == 0 then []
    else
      var reply := Fetch(ep.transport, n, ep.path, p, ep.decode);
      if reply.Failure? || reply.value.nextPageCursor == "" then [Exchange(p, reply)]
      else [Exchange(p, reply)] + Conversation(ep, p["cursor" := reply.value.nextPageCursor], n + 1, fuel - 1)
  }

  /** Every record in `r` was delivered by some decoded page of `conv`. */
  ghost predicate FromPages<R>(r: seq<R>, conv: seq<Exchange<R>>) {
    forall x :: x in r ==>
      exists i :: 0 <= i < |conv| && conv[i].reply.Success? && x in conv[i].reply.value.list
  }

  /** Every record of every decoded page of `conv` is in `r`. */
  ghost predicate AllPagesIn<R>(conv: seq<Exchange<R>>, r: seq<R>) {
    forall i, x :: 0 <= i < |conv| && conv[i].reply.Success? && x in conv[i].reply.value.list ==> x in r
  }

  /** No fetch of `conv` delivered a page with a next cursor. */
  predicate NoCursorSeen<R>(conv: seq<Exchange<R>>) {
    forall i :: 0 <= i < |conv| ==> Terminal(conv[i])
  }

  /** `r` is the next cursor of the last fetch of `conv` that delivered one. */
  predicate LatestCursor<R>(r: Option<string>, conv: seq<Exchange<R>>) {
    exists i :: 0 <= i < |conv| && !Terminal(conv[i]) && r == Some(conv[i].reply.value.nextPageCursor)
      && forall j :: i < j < |conv| ==> Terminal(conv[j])
  }

  function PageRecords<R>(e: Exchange<R>): seq<R> {
    if e.reply.Success? then e.reply.value.list else []
  }

  /** The records of every decoded page, in fetch order, then in page order. */
  function Records<R>(conv: seq<Exchange<R>>): (r: seq<R>)
    ensures FromPages(r, conv)
    ensures AllPagesIn(conv, r)
  {
    if conv == [] then [] else PageRecords(conv[0]) + Records(conv[1..])
  }

  /** The request's cursor after the loop wrote back every next cursor it saw. */
  function CursorAfter<R>(c: Option<string>, conv: seq<Exchange<R>>): (r: Option<string>)
    ensures NoCursorSeen(conv) ==> r == c
    ensures !NoCursorSeen(conv) ==> LatestCursor(r, conv)
  {
    if conv == [] then c
    else
      var last := conv[|conv| - 1];
      if last.reply.Success? && last.reply.value.nextPageCursor != "" then Some(last.reply.value.nextPageCursor)
      else CursorAfter(c, conv[..|conv| - 1])
  }

  /** The response a successful aggregating call hands back: every record,
      retCode 0, retMsg "OK" and no cursor. */
  function Drained<R>(records: seq<R>): Result<Page<R>, Error> {
    Success(Page(0, "OK", records, ""))
  }

  /** What an aggregating call returns once its conversation is over: the
      error of the failed fetch, or one page holding every record with
      retCode 0, retMsg "OK" and no cursor. */
  function Outcome<R>(conv: seq<Exchange<R>>): (r: Result<Page<R>, Error>)
    requires Ends(conv)
    ensures r.Failure? <==> conv[|conv| - 1].reply.Failure?
    ensures r.Failure? ==> r.error == conv[|conv| - 1].reply.error
    ensures r.Success? ==>
      && r.value.retCode == 0 && r.value.retMsg == "OK" && r.value.nextPageCursor == ""
      && r.value.list == Records(conv)
  {
    var last := conv[|conv| - 1].reply;
    if last.Failure? then Failure(last.error) else Drained(Records(conv))
  }

  /** Every fetch before the last one delivered a page with a next cursor. */
  predicate NoEarlyStop<R>(conv: seq<Exchange<R>>) {
    forall i :: 0 <= i < |conv| - 1 ==> !Terminal(conv[i])
  }

  /** Fetch i of `conv` is numbered n + i and got what the endpoint answers
      to the parameters sent. */
  ghost predicate RepliesMatch<J, R>(ep: Endpoint<J, R>, n: nat, conv: seq<Exchange<R>>) {
    forall i :: 0 <= i < |conv| ==> conv[i].reply == Fetch(ep.transport, n + i, ep.path, conv[i].sent, ep.decode)
  }

  /** Each fetch after the first sends the previous parameters with the
      cursor key set to the previous page's next cursor. */
  predicate CursorsCarried<R>(conv: seq<Exchange<R>>) {
    forall i :: 0 <= i < |conv| - 1 ==>
      && conv[i].reply.Success?
      && conv[i + 1].sent == conv[i].sent["cursor" := conv[i].reply.value.nextPageCursor]
  }

  /** No fetch of `conv` is terminal: the loop went round after each. */
  predicate AllContinue<R>(conv: seq<Exchange<R>>) {
    forall i :: 0 <= i < |conv| ==> !Terminal(conv[i])
  }

  /** One round of the loop: when the fetches made so far all continued and
      the conversation ends, another fetch is due, and it either ends the
      conversation or leaves the rest to be made with the cursor carried. */
  lemma NextRound<J, R>(ep: Endpoint<J, R>, done: seq<Exchange<R>>, p: Params, n: nat, fuel: nat, full: seq<Exchange<R>>)
    requires done + Conversation(ep, p, n, fuel) == full
    requires Ends(full) && AllContinue(done)
    ensures fuel > 0
    ensures Terminal(Exchange(p, Fetch(ep.transport, n, ep.path, p, ep.decode))) ==>
      full == done + [Exchange(p, Fetch(ep.transport, n, ep.path, p, ep.decode))]
    ensures !Terminal(Exchange(p, Fetch(ep.transport, n, ep.path, p, ep.decode))) ==>
      && AllContinue(done + [Exchange(p, Fetch(ep.transport, n, ep.path, p, ep.decode))])
      && (done + [Exchange(p, Fetch(ep.transport, n, ep.path, p, ep.decode))])
         + Conversation(ep, p["cursor" := Fetch(ep.transport, n, ep.path, p, ep.decode).value.nextPageCursor], n + 1, fuel - 1) == full
  {
  }

  /** The loop between rounds: the fetches `done` so far all continued and
      gave `records`, and with the fetches still due from `p` and fetch
      number n they make up the whole conversation `full`, which ends. */
  ghost predicate Midway<J, R>(ep: Endpoint<J, R>, done: seq<Exchange<R>>, p: Params, n: nat, fuel: nat,
                               full: seq<Exchange<R>>, records: seq<R>) {
    done + Conversation(ep, p, n, fuel) == full && Ends(full) && AllContinue(done) && records == Records(done)
  }

  /** A round whose fetch `e` ends the conversation: the fetches made are
      complete, and what the call returns and where the cursor stands follow
      from the fetches before it and `e`. */
  lemma FinishRound<J, R>(ep: Endpoint<J, R>, done: seq<Exchange<R>>, p: Params, n: nat, fuel: nat,
                          full: seq<Exchange<R>>, records: seq<R>, c: Option<string>, e: Exchange<R>)
    requires Midway(ep, done, p, n, fuel, full, records)
    requires e == Exchange(p, Fetch(ep.transport, n, ep.path, p, ep.decode)) && Terminal(e)
    ensures full == done + [e]
    ensures e.reply.Failure? ==> Outcome(full) == Failure(e.reply.error)
    ensures e.reply.Success? ==> Outcome(full) == Drained(records + e.reply.value.list)
    ensures CursorAfter(c, full) == CursorAfter(c, done)
  {
    NextRound(ep, done, p, n, fuel, full);
    RecordsAppend(done, e);
    assert (done + [e])[..|done|] == done;
  }

  /** A round whose fetch `e` delivered a page with a next cursor: another
      fetch is due with that cursor, the page's records follow the earlier
      ones, and the cursor last seen is the new one. */
  lemma ContinueRound<J, R>(ep: Endpoint<J, R>, done: seq<Exchange<R>>, p: Params, n: nat, fuel: nat,
                            full: seq<Exchange<R>>, records: seq<R>, c: Option<string>, e: Exchange<R>)
    requires Midway(ep, done, p, n, fuel, full, records)
    requires e == Exchange(p, Fetch(ep.transport, n, ep.path, p, ep.decode)) && !Terminal(e)
    ensures fuel > 0
    ensures Midway(ep, done + [e], p["cursor" := e.reply.value.nextPageCursor], n + 1, fuel - 1, full,
                   records + e.reply.value.list)
    ensures CursorAfter(c, done + [e]) == Some(e.reply.value.nextPageCursor)
  {
    NextRound(ep, done, p, n, fuel, full);
    RecordsAppend(done, e);
  }

  lemma {:induction false} RecordsAppend<R>(conv: seq<Exchange<R>>, e: Exchange<R>)
    ensures Records(conv + [e]) == Records(conv) + PageRecords(e)
  {
    if conv != [] {
      assert (conv + [e])[1..] == conv[1..] + [e];
      RecordsAppend(conv[1..], e);
    }
  }

  /** Fetch i of the conversation is numbered n + i and its reply is exactly
      what the endpoint answered to the parameters sent. */
  lemma {:induction false} RepliesAreFetched<J, R>(ep: Endpoint<J, R>, p: Params, n: nat, fuel: nat)
    ensures RepliesMatch(ep, n, Conversation(ep, p, n, fuel))
    decreases fuel
  {
    if fuel > 0 {
      var conv := Conversation(ep, p, n, fuel);
      var reply := Fetch(ep.transport, n, ep.path, p, ep.decode);
      if !(reply.Failure? || reply.value.nextPageCursor == "") {
        var p' := p["cursor" := reply.value.nextPageCursor];
        RepliesAreFetched(ep, p', n + 1, fuel - 1);
        var rest := Conversation(ep, p', n + 1, fuel - 1);
        assert conv == [Exchange(p, reply)] + rest;
        forall i | 1 <= i < |conv|
          ensures conv[i].reply == Fetch(ep.transport, n + i, ep.path, conv[i].sent, ep.decode)
        {
          assert conv[i] == rest[i - 1];
        }
      }
    }
  }

  /** The loop stops at the first terminal fetch, and only runs out of fuel
      when none of the first `fuel` fetches was terminal. */
  lemma {:induction false} StopsAtFirstTerminal<J, R>(ep: Endpoint<J, R>, p: Params, n: nat, fuel: nat)
    ensures NoEarlyStop(Conversation(ep, p, n, fuel))
    ensures |Conversation(ep, p, n, fuel)| < fuel ==> Ends(Conversation(ep, p, n, fuel))
    decreases fuel
  {
    if fuel > 0 {
      var conv := Conversation(ep, p, n, fuel);
      var reply := Fetch(ep.transport, n, ep.path, p, ep.decode);
      if !(reply.Failure? || reply.value.nextPageCursor == "") {
        var p' := p["cursor" := reply.value.nextPageCursor];
        StopsAtFirstTerminal(ep, p', n + 1, fuel - 1);
        var rest := Conversation(ep, p', n + 1, fuel - 1);
        assert conv == [Exchange(p, reply)] + rest;
        forall i | 1 <= i < |conv| - 1
          ensures !Terminal(conv[i])
        {
          assert conv[i] == rest[i - 1];
        }
        if |conv| < fuel {
          assert conv[|conv| - 1] == rest[|rest| - 1];
        }
      }
    }
  }

  /** Each fetch after the first sends the previous fetch's parameters with
      only the cursor key changed, to the previous page's next cursor. */
  lemma {:induction false} CursorPropagation<J, R>(ep: Endpoint<J, R>, p: Params, n: nat, fuel: nat)
    ensures CursorsCarried(Conversation(ep, p, n, fuel))
    decreases fuel
  {
    if fuel > 0 {
      var conv := Conversation(ep, p, n, fuel);
      var reply := Fetch(ep.transport, n, ep.path, p, ep.decode);
      if !(reply.Failure? || reply.value.nextPageCursor == "") {
        var p' := p["cursor" := reply.value.nextPageCursor];
        CursorPropagation(ep, p', n + 1, fuel - 1);
        var rest := Conversation(ep, p', n + 1, fuel - 1);
        assert conv == [Exchange(p, reply)] + rest;
        forall i | 1 <= i < |conv| - 1
          ensures conv[i].reply.Success?
          ensures conv[i + 1].sent == conv[i].sent["cursor" := conv[i].reply.value.nextPageCursor]
        {
          assert conv[i] == rest[i - 1] && conv[i + 1] == rest[i];
        }
      }
    }
  }

  /** Once the conversation has ended, more fuel changes nothing: the loop
      would have stopped there anyway. */
  lemma {:induction false} MoreFuel<J, R>(ep: Endpoint<J, R>, p: Params, n: nat, fuel: nat, more: nat)
    requires Ends(Conversation(ep, p, n, fuel)) && more >= fuel
    ensures Conversation(ep, p, n, more) == Conversation(ep, p, n, fuel)
    decreases fuel
  {
    var conv := Conversation(ep, p, n, fuel);
    var reply := Fetch(ep.transport, n, ep.path, p, ep.decode);
    if !(reply.Failure? || reply.value.nextPageCursor == "") {
      var p' := p["cursor" := reply.value.nextPageCursor];
      var rest := Conversation(ep, p', n + 1, fuel - 1);
      assert conv == [Exchange(p, reply)] + rest;
      assert rest != [] && conv[|conv| - 1] == rest[|rest| - 1];
      MoreFuel(ep, p', n + 1, fuel - 1, more - 1);
    }
  }

  /** An ended conversation of k fetches is already reached with fuel k, so
      whatever the server, the bound an aggregating call needs is the
      number of fetches it makes. */
  lemma {:induction false} ExactFuel<J, R>(ep: Endpoint<J, R>, p: Params, n: nat, fuel: nat)
    requires Ends(Conversation(ep, p, n, fuel))
    ensures Conversation(ep, p, n, |Conversation(ep, p, n, fuel)|) == Conversation(ep, p, n, fuel)
    decreases fuel
  {
    var conv := Conversation(ep, p, n, fuel);
    var reply := Fetch(ep.transport, n, ep.path, p, ep.decode);
    if !(reply.Failure? || reply.value.nextPageCursor == "") {
      var p' := p["cursor" := reply.value.nextPageCursor];
      var rest := Conversation(ep, p', n + 1, fuel - 1);
      assert conv == [Exchange(p, reply)] + rest;
      assert rest != [] && conv[|conv| - 1] == rest[|rest| - 1];
      ExactFuel(ep, p', n + 1, fuel - 1);
    }
  }

  /** The first k fetches end the conversation exactly when fetch k - 1 is
      the first terminal one: then any bound of at least k gives the same
      k fetches, and no smaller bound lets the call finish. */
  lemma FirstTerminalBound<J, R>(ep: Endpoint<J, R>, p: Params, n: nat, k: nat, bound: nat)
    requires Ends(Conversation(ep, p, n, k)) && |Conversation(ep, p, n, k)| == k
    ensures bound >= k ==> Conversation(ep, p, n, bound) == Conversation(ep, p, n, k)
    ensures bound < k ==> !Ends(Conversation(ep, p, n, bound))
  {
    if bound >= k {
      MoreFuel(ep, p, n, k, bound);
    } else if Ends(Conversation(ep, p, n, bound)) {
      MoreFuel(ep, p, n, bound, k);
    }
  }

  /** A finished call succeeds exactly when every fetch decoded a page; when
      it fails, the error is that of the one failed fetch, the last. */
  lemma AllOrNothing<R>(conv: seq<Exchange<R>>)
    requires Ends(conv) && NoEarlyStop(conv)
    ensures Outcome(conv).Success? <==> forall i :: 0 <= i < |conv| ==> conv[i].reply.Success?
    ensures Outcome(conv).Failure? ==>
      && Outcome(conv).error == conv[|conv| - 1].reply.error
      && forall i :: 0 <= i < |conv| - 1 ==> conv[i].reply.Success?
  {
  }

  /** What a cursor-following request holds afterwards: the next cursor of
      the last page that had one, or its own cursor if the first fetch was
      already terminal. */
  lemma LastCursorSeen<R>(c: Option<string>, conv: seq<Exchange<R>>)
    requires Ends(conv) && NoEarlyStop(conv)
    ensures CursorAfter(c, conv) == if |conv| == 1 then c else Some(conv[|conv| - 2].reply.value.nextPageCursor)
  {
    var front := conv[..|conv| - 1];
    if |conv| > 1 {
      assert front[..|front| - 1] == conv[..|conv| - 2];
      assert !Terminal(front[|front| - 1]);
    }
  }

  // Servers that answer from a script, whatever the parameters.

  /** Fetch number i answers replies[i], whatever parameters it is sent. */
  ghost predicate Answers<J, R>(ep: Endpoint<J, R>, replies: seq<Result<Page<R>, Error>>) {
    forall i, q :: 0 <= i < |replies| ==> Fetch(ep.transport, i, ep.path, q, ep.decode) == replies[i]
  }

  /** The records of the pages, in order. */
  function Concat<R>(pages: seq<Page<R>>): seq<R> {
    if pages == [] then [] else pages[0].list + Concat(pages[1..])
  }

  lemma {:induction false} ScriptedConversation<J, R>(ep: Endpoint<J, R>, replies: seq<Result<Page<R>, Error>>, p: Params, n: nat, fuel: nat)
    requires Answers(ep, replies)
    requires n < |replies| && fuel >= |replies| - n
    requires forall i :: 0 <= i < |replies| - 1 ==> replies[i].Success? && replies[i].value.nextPageCursor != ""
    requires replies[|replies| - 1].Failure? || replies[|replies| - 1].value.nextPageCursor == ""
    ensures |Conversation(ep, p, n, fuel)| == |replies| - n
    ensures forall i :: 0 <= i < |replies| - n ==> Conversation(ep, p, n, fuel)[i].reply == replies[n + i]
    decreases |replies| - n
  {
    var conv := Conversation(ep, p, n, fuel);
    var reply := Fetch(ep.transport, n, ep.path, p, ep.decode);
    assert reply == replies[n];
    if n < |replies| - 1 {
      var p' := p["cursor" := reply.value.nextPageCursor];
      ScriptedConversation(ep, replies, p', n + 1, fuel - 1);
      var rest := Conversation(ep, p', n + 1, fuel - 1);
      assert conv == [Exchange(p, reply)] + rest;
      forall i | 1 <= i < |conv|
        ensures conv[i].reply == replies[n + i]
      {
        assert conv[i] == rest[i - 1];
      }
    }
  }

  lemma {:induction false} RecordsOfPages<R>(conv: seq<Exchange<R>>, pages: seq<Page<R>>)
    requires |conv| == |pages|
    requires forall i :: 0 <= i < |conv| ==> conv[i].reply == Success(pages[i])
    ensures Records(conv) == Concat(pages)
  {
    if conv != [] {
      RecordsOfPages(conv[1..], pages[1..]);
    }
  }

  /** If the server hands out pages whose cursors are all set except the
      last one's, the call makes exactly one fetch per page and returns all
      their records in order, normalised, whatever the last page said. */
  lemma Termination<J, R>(ep: Endpoint<J, R>, pages: seq<Page<R>>, p: Params, fuel: nat)
    requires forall i, q :: 0 <= i < |pages| ==> Fetch(ep.transport, i, ep.path, q, ep.decode) == Success(pages[i])
    requires |pages| > 0 && pages[|pages| - 1].nextPageCursor == ""
    requires forall i :: 0 <= i < |pages| - 1 ==> pages[i].nextPageCursor != ""
    requires fuel >= |pages|
    ensures |Conversation(ep, p, 0, fuel)| == |pages|
    ensures Ends(Conversation(ep, p, 0, fuel))
    ensures Outcome(Conversation(ep, p, 0, fuel)) == Drained(Concat(pages))
  {
    var replies := seq(|pages|, i requires 0 <= i < |pages| => Success(pages[i]));
    assert Answers(ep, replies);
    ScriptedConversation(ep, replies, p, 0, fuel);
    var conv := Conversation(ep, p, 0, fuel);
    RecordsOfPages(conv, pages);
  }

  /** A first page without a next cursor: one fetch, and its records. */
  lemma SinglePage<J, R>(ep: Endpoint<J, R>, page: Page<R>, p: Params, fuel: nat)
    requires forall q :: Fetch(ep.transport, 0, ep.path, q, ep.decode) == Success(page)
    requires page.nextPageCursor == "" && fuel > 0
    ensures |Conversation(ep, p, 0, fuel)| == 1
    ensures Outcome(Conversation(ep, p, 0, fuel)) == Drained(page.list)
  {
    var pages := [page];
    assert pages[1..] == [];
    assert Concat(pages) == page.list;
    Termination(ep, pages, p, fuel);
  }

  /** A failure after some pages with cursors: the call ends at the failed
      fetch and returns its error, with none of the records already read. */
  lemma AbortOnFailure<J, R>(ep: Endpoint<J, R>, pages: seq<Page<R>>, e: Error, p: Params, fuel: nat)
    requires forall i, q :: 0 <= i < |pages| ==> Fetch(ep.transport, i, ep.path, q, ep.decode) == Success(pages[i])
    requires forall i :: 0 <= i < |pages| ==> pages[i].nextPageCursor != ""
    requires forall q :: Fetch(ep.transport, |pages|, ep.path, q, ep.decode) == Failure(e)
    requires fuel > |pages|
    ensures |Conversation(ep, p, 0, fuel)| == |pages| + 1
    ensures Ends(Conversation(ep, p, 0, fuel))
    ensures Outcome(Conversation(ep, p, 0, fuel)) == Failure(e)
  {
    var replies := seq(|pages| + 1, i requires 0 <= i <= |pages| => if i < |pages| then Success(pages[i]) else Failure(e));
    assert Answers(ep, replies);
    ScriptedConversation(ep, replies, p, 0, fuel);
  }

  /** Pages ["a", "b"] with cursor "X", then ["c"] with none, give "abc". */
  lemma OrderExample<J>(ep: Endpoint<J, char>, p: Params)
    requires forall q :: Fetch(ep.transport, 0, ep.path, q, ep.decode) == Result<Page<char>, Error>.Success(Page(0, "OK", "ab", "X"))
    requires forall q :: Fetch(ep.transport, 1, ep.path, q, ep.decode) == Result<Page<char>, Error>.Success(Page(0, "partial", "c", ""))
    ensures Outcome(Conversation(ep, p, 0, 2)) == Drained("abc")
  {
    var pages := [Page(0, "OK", "ab", "X"), Page(0, "partial", "c", "")];
    assert pages[1..] == [pages[1]] && pages[1..][1..] == [];
    assert Concat(pages[1..]) == "c";
    assert Concat(pages) == "abc";
    Termination(ep, pages, p, 2);
  }
}
