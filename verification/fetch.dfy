/** The fetch state machine: `FetchBlocks` walks the chain one finalized block
    at a time and `FetchTransactions` pages through a block's transactions,
    turning every IBC event into a `MakeChainEvent` call. */
module Fetch {
  import opened Outcomes
  import opened Bytes
  import opened Ibc
  import opened IbcEvents
  import opened Voyager
  import opened Chain
  import opened Integers
  import opened EventSource

  /** `PER_PAGE_LIMIT`: transactions per `tx_search` page. */
  const PerPageLimit: nat := 10

  // ---------------------------------------------------------------------
  // FetchBlocks

  /** The `FetchBlocks(h)` arm of `call`: fetch page 1 of block `h`, and, in
      parallel, wait until `h + 1` is finalized and then move on to it. */
  function FetchBlocksStep(m: Module, h: Height): (r: Op)
    ensures r.ConcOp? && |r.concOps| == 2
    ensures r.concOps[0] == CallOp(Plugin(m.PluginName(), FetchTransactions(h, 1)))
    ensures r.concOps[1] == SeqOp([
              CallOp(WaitForHeight(m.chainId, h.Increment(), true)),
              CallOp(Plugin(m.PluginName(), FetchBlocks(h.Increment())))])
  {
    ConcOp([
      CallOp(Plugin(m.PluginName(), FetchTransactions(h, 1))),
      SeqOp([
        CallOp(WaitForHeight(m.chainId, h.Increment(), true)),
        CallOp(Plugin(m.PluginName(), FetchBlocks(h.Increment())))])])
  }

  /** The block whose transactions a `FetchBlocks` step fetches. */
  function FetchedBlock(op: Op): Option<Height> {
    if op.ConcOp? && |op.concOps| > 0 && op.concOps[0].CallOp? && op.concOps[0].call.Plugin?
       && op.concOps[0].call.message.FetchTransactions?
    then Some(op.concOps[0].call.message.height)
    else None
  }

  /** The block a `FetchBlocks` step moves on to, provided the move is gated
      by a finalized wait for that same block of the same chain. */
  function GatedSuccessor(chainId: ChainId, op: Op): Option<Height> {
    if && op.ConcOp? && |op.concOps| == 2 && op.concOps[1].SeqOp?
       && |op.concOps[1].seqOps| == 2
       && op.concOps[1].seqOps[0].CallOp? && op.concOps[1].seqOps[0].call.WaitForHeight?
       && op.concOps[1].seqOps[1].CallOp? && op.concOps[1].seqOps[1].call.Plugin?
       && op.concOps[1].seqOps[1].call.message.FetchBlocks?
    then
      var wait := op.concOps[1].seqOps[0].call;
      var next := op.concOps[1].seqOps[1].call.message.height;
      if wait.chainId == chainId && wait.finalized && wait.height == next then Some(next) else None
    else None
  }

  /** The blocks whose transactions `n` successive `FetchBlocks` steps from
      `h` fetch, following each step's gated successor. */
  function BlocksFetched(m: Module, h: Height, n: nat): seq<Option<Height>>
    decreases n
  {
    if n == 0 then []
    else
      var step := FetchBlocksStep(m, h);
      [FetchedBlock(step)] + match GatedSuccessor(m.chainId, step)
                             case None => []
                             case Some(next) => BlocksFetched(m, next, n - 1)
  }

  /** Starting from `h`, the first `n` steps fetch exactly the blocks
      `h, h+1, ..., h+n-1` of the same revision, one each, in order, each
      reached only through a finalized wait on this chain. */
  lemma {:induction false} BlocksFetchedInOrder(m: Module, h: Height, n: nat)
    ensures |BlocksFetched(m, h, n)| == n
    ensures forall k :: 0 <= k < n ==>
              BlocksFetched(m, h, n)[k] == Some(Height(h.revisionNumber, h.revisionHeight + k))
    decreases n
  {
    if n > 0 {
      var step := FetchBlocksStep(m, h);
      assert GatedSuccessor(m.chainId, step) == Some(h.Increment());
      BlocksFetchedInOrder(m, h.Increment(), n - 1);
      var rest := BlocksFetched(m, h.Increment(), n - 1);
      assert BlocksFetched(m, h, n) == [Some(h)] + rest;
      forall k | 0 < k < n
        ensures BlocksFetched(m, h, n)[k] == Some(Height(h.revisionNumber, h.revisionHeight + k))
      {
        assert BlocksFetched(m, h, n)[k] == rest[k - 1];
      }
    }
  }

  // ---------------------------------------------------------------------
  // Events of a page

  /** Keeps the elements satisfying `keep`, in order. */
  function Filter<T>(s: seq<T>, keep: T -> bool): (r: seq<T>)
    ensures |r| <= |s|
    ensures forall x :: x in r ==> x in s && keep(x)
  {
    if |s| == 0 then [] else (if keep(s[0]) then [s[0]] else []) + Filter(s[1..], keep)
  }

  lemma {:induction false} FilterAppend<T>(a: seq<T>, b: seq<T>, keep: T -> bool)
    ensures Filter(a + b, keep) == Filter(a, keep) + Filter(b, keep)
  {
    if |a| > 0 {
      assert (a + b)[1..] == a[1..] + b;
      FilterAppend(a[1..], b, keep);
    } else {
      assert a + b == b;
    }
  }

  /** Every event of every transaction, tagged with the hash of its
      transaction, transactions in the node's order. */
  function Flatten(txs: seq<TxResult>): (tagged: seq<(RawEvent, H256)>)
  {
    if |txs| == 0 then []
    else seq(|txs[0].events|, i requires 0 <= i < |txs[0].events| => (txs[0].events[i], txs[0].hash))
         + Flatten(txs[1..])
  }

  lemma {:induction false} FlattenAppend(a: seq<TxResult>, b: seq<TxResult>)
    ensures Flatten(a + b) == Flatten(a) + Flatten(b)
  {
    if |a| > 0 {
      assert (a + b)[0] == a[0];
      assert (a + b)[1..] == a[1..] + b;
      FlattenAppend(a[1..], b);
    } else {
      assert a + b == b;
    }
  }

  /** A tagged event the parser recognises as an IBC event. */
  predicate IsRecognised(parse: EventParser, t: (RawEvent, H256)) {
    parse(t.0).Some? && parse(t.0).value.Ok?
  }

  /** A tagged event the parser rejects. */
  predicate IsParseError(parse: EventParser, t: (RawEvent, H256)) {
    parse(t.0).Some? && parse(t.0).value.Err?
  }

  predicate ParsesCleanly(tagged: seq<(RawEvent, H256)>, parse: EventParser) {
    forall t :: t in tagged ==> !IsParseError(parse, t)
  }

  /** Reference definition: the recognised IBC events, each with the hash of the
      transaction it came from, in order; non-IBC events are skipped. */
  function Recognised(tagged: seq<(RawEvent, H256)>, parse: EventParser): seq<(IbcEvent, H256)> {
    var kept := Filter(tagged, t => IsRecognised(parse, t));
    seq(|kept|, i requires 0 <= i < |kept| =>
      assert kept[i] in kept;
      (parse(kept[i].0).value.value, kept[i].1))
  }

  lemma RecognisedAppend(a: seq<(RawEvent, H256)>, b: seq<(RawEvent, H256)>, parse: EventParser)
    ensures Recognised(a + b, parse) == Recognised(a, parse) + Recognised(b, parse)
  {
    FilterAppend(a, b, t => IsRecognised(parse, t));
  }

  /** `filter_map(try_from_tendermint_event).collect::<Result<Vec<_>, _>>()`:
      the recognised events when nothing fails to parse, and otherwise the first
      parse error. */
  function Collect(tagged: seq<(RawEvent, H256)>, parse: EventParser)
    : (r: Result<seq<(IbcEvent, H256)>, EventParseError>)
    ensures r.Ok? <==> ParsesCleanly(tagged, parse)
    ensures r.Ok? ==> r.value == Recognised(tagged, parse)
    ensures r.Err? ==> exists i :: 0 <= i < |tagged| && parse(tagged[i].0) == Some(Err(r.error))
                                   && ParsesCleanly(tagged[..i], parse)
  {
    if |tagged| == 0 then Ok([])
    else
      match parse(tagged[0].0)
      case None =>
        assert tagged == [tagged[0]] + tagged[1..];
        RecognisedAppend([tagged[0]], tagged[1..], parse);
        CollectSkipsHead(tagged, parse);
        Collect(tagged[1..], parse)
      case Some(Err(e)) =>
        assert ParsesCleanly(tagged[..0], parse);
        assert tagged[0] in tagged && IsParseError(parse, tagged[0]);
        Err(e)
      case Some(Ok(ev)) =>
        assert tagged == [tagged[0]] + tagged[1..];
        RecognisedAppend([tagged[0]], tagged[1..], parse);
        CollectSkipsHead(tagged, parse);
        var rest :- Collect(tagged[1..], parse);
        Ok([(ev, tagged[0].1)] + rest)
  }

  /** An error past a clean head is still the first error of the whole. */
  lemma CollectSkipsHead(tagged: seq<(RawEvent, H256)>, parse: EventParser)
    requires |tagged| > 0 && !IsParseError(parse, tagged[0])
    ensures forall i :: 0 <= i < |tagged| - 1 && ParsesCleanly(tagged[1..][..i], parse)
              ==> ParsesCleanly(tagged[..i + 1], parse)
  {
    forall i | 0 <= i < |tagged| - 1 && ParsesCleanly(tagged[1..][..i], parse)
      ensures ParsesCleanly(tagged[..i + 1], parse)
    {
      assert tagged[..i + 1] == [tagged[0]] + tagged[1..][..i];
    }
  }

  // ---------------------------------------------------------------------
  // FetchTransactions

  /** The `MakeChainEvent` calls for a page's events: one per event, same block,
      the hash of the event's own transaction. */
  function EventCalls(m: Module, h: Height, events: seq<(IbcEvent, H256)>): (ops: seq<Op>)
    ensures |ops| == |events|
    ensures forall i :: 0 <= i < |events| ==>
              ops[i] == CallOp(Plugin(m.PluginName(), MakeChainEvent(h, events[i].1, events[i].0)))
  {
    seq(|events|, i requires 0 <= i < |events| =>
      CallOp(Plugin(m.PluginName(), MakeChainEvent(h, events[i].1, events[i].0))))
  }

  lemma EventCallsAppend(m: Module, h: Height, a: seq<(IbcEvent, H256)>, b: seq<(IbcEvent, H256)>)
    ensures EventCalls(m, h, a + b) == EventCalls(m, h, a) + EventCalls(m, h, b)
  {
  }

  /** Whether page `page` of `total` transactions has a successor:
      `page * PER_PAGE_LIMIT < total_count`, computed in `u32`, whose overflow
      aborts. The `checked_add` that numbers the next page never fails, since
      `page * 10 < total_count` keeps `page + 1` within `u32`. */
  function NextPage(page: nat, total: U32): (r: Outcome<Option<nat>>)
    ensures r.Panic? <==> page * PerPageLimit >= U32Limit
    ensures r.Done? ==> (r.value.Some? <==> page * PerPageLimit < total)
    ensures r.Done? && r.value.Some? ==> r.value.value == page + 1 && r.value.value < U32Limit
  {
    if page * PerPageLimit >= U32Limit then Panic("attempt to multiply with overflow")
    else if page * PerPageLimit < total then Done(Some(page + 1))
    else Done(None)
  }

  /** The `FetchTransactions(h, page)` arm of `call`: one `tx_search` page of
      block `h`, a `MakeChainEvent` call per recognised event, then the next
      page while `page * 10 < total_count`. A failed search or one event that
      fails to parse fails the whole page. */
  function FetchTransactionsStep(m: Module, node: Node, parse: EventParser, h: Height, page: PageNumber)
    : (r: Outcome<Op>)
    ensures node.txSearch(h.revisionHeight, page).Err? ==> r == Fail(TxSearchFailed(h))
    ensures node.txSearch(h.revisionHeight, page).Ok? ==>
              var resp := node.txSearch(h.revisionHeight, page).value;
              var tagged := Flatten(resp.txs);
              && (!ParsesCleanly(tagged, parse) ==> r == Fail(EventParseFailed(h, page)))
              && (ParsesCleanly(tagged, parse) && page * PerPageLimit >= U32Limit ==> r.Panic?)
              && (ParsesCleanly(tagged, parse) && page * PerPageLimit < U32Limit ==>
                    r == Done(ConcOp(EventCalls(m, h, Recognised(tagged, parse))
                                     + if page * PerPageLimit < resp.totalCount
                                       then [CallOp(Plugin(m.PluginName(), FetchTransactions(h, page + 1)))]
                                       else [])))
  {
    var resp :- Lift(node.txSearch(h.revisionHeight, page).MapError(_ => TxSearchFailed(h)));
    var events :- match Collect(Flatten(resp.txs), parse)
                  case Ok(events) => Done(events)
                  case Err(_) => Fail(EventParseFailed(h, page));
    var next :- NextPage(page, resp.totalCount);
    var continuation := match next
                        case None => []
                        case Some(p) => [CallOp(Plugin(m.PluginName(), FetchTransactions(h, p)))];
    Done(ConcOp(EventCalls(m, h, events) + continuation))
  }

  // ---------------------------------------------------------------------
  // Pagination

  /** The last page a block of `total` transactions has (page 1 always exists). */
  function LastPage(total: nat): nat {
    if total == 0 then 1 else (total + PerPageLimit - 1) / PerPageLimit
  }

  /** Page `p` is requested when fetching a block whose node reports `total`
      transactions on every page: page 1 is, and each later page is requested
      by the continuation of the page before it. */
  predicate Requested(p: nat, total: U32)
    decreases p
  {
    p == 1 || (p > 1 && Requested(p - 1, total) && NextPage(p - 1, total) == Done(Some(p)))
  }

  /** Pagination terminates: exactly the pages `1 ..= ceil(total / 10)` are
      requested (just page 1 for an empty block). */
  lemma {:induction false} RequestedPages(p: nat, total: U32)
    ensures Requested(p, total) <==> 1 <= p <= LastPage(total)
    decreases p
  {
    if p > 1 {
      RequestedPages(p - 1, total);
      assert (p - 1) * PerPageLimit < total <==> p <= LastPage(total);
    }
  }

  /** A block of 25 transactions is read in three pages: 1, 2 and 3, and
      never page 4. */
  lemma TwentyFiveTransactionsThreePages()
    ensures Requested(1, 25) && Requested(2, 25) && Requested(3, 25)
    ensures !Requested(4, 25)
  {
    RequestedPages(1, 25);
    RequestedPages(2, 25);
    RequestedPages(3, 25);
    RequestedPages(4, 25);
  }

  // ---------------------------------------------------------------------
  // A whole block, page by page

  function Min(a: nat, b: nat): nat {
    if a <= b then a else b
  }

  /** Page `p` of a block's transactions as the node serves it. */
  function PageSlice(txs: seq<TxResult>, p: nat): seq<TxResult>
    requires p >= 1
  {
    txs[Min((p - 1) * PerPageLimit, |txs|)..Min(p * PerPageLimit, |txs|)]
  }

  /** Pages `1 ..= n`, concatenated in order. */
  function PagesUpTo(txs: seq<TxResult>, n: nat): seq<TxResult> {
    if n == 0 then [] else PagesUpTo(txs, n - 1) + PageSlice(txs, n)
  }

  lemma {:induction false} PagesUpToPrefix(txs: seq<TxResult>, n: nat)
    ensures PagesUpTo(txs, n) == txs[..Min(n * PerPageLimit, |txs|)]
  {
    if n > 0 {
      PagesUpToPrefix(txs, n - 1);
      var lo := Min((n - 1) * PerPageLimit, |txs|);
      var hi := Min(n * PerPageLimit, |txs|);
      assert txs[..lo] + txs[lo..hi] == txs[..hi];
    }
  }

  /** The requested pages partition the block: every transaction is fetched
      once, none is skipped. */
  lemma PagesCoverBlock(txs: seq<TxResult>)
    ensures PagesUpTo(txs, LastPage(|txs|)) == txs
  {
    PagesUpToPrefix(txs, LastPage(|txs|));
  }

  /** The node serves the block `txs` at block number `b`, ten per page. */
  ghost predicate ServesBlock(node: Node, b: nat, txs: seq<TxResult>) {
    && |txs| < U32Limit
    && forall p :: 1 <= p ==> node.txSearch(b, p) == Ok(TxSearchResponse(PageSlice(txs, p), |txs|))
  }

  predicate IsEventCall(op: Op) {
    op.CallOp? && op.call.Plugin? && op.call.message.MakeChainEvent?
  }

  /** The `MakeChainEvent` calls of pages `1 ..= n` of block `h`, in page order. */
  function PageEventCalls(m: Module, node: Node, parse: EventParser, h: Height, n: nat): seq<Op>
    requires n < U32Limit
  {
    if n == 0 then []
    else
      var r := FetchTransactionsStep(m, node, parse, h, n);
      PageEventCalls(m, node, parse, h, n - 1)
      + if r.Done? && r.value.ConcOp? then Filter(r.value.concOps, IsEventCall) else []
  }

  lemma {:induction false} FilterKeepsAll<T>(s: seq<T>, keep: T -> bool)
    requires forall i :: 0 <= i < |s| ==> keep(s[i])
    ensures Filter(s, keep) == s
  {
    if |s| > 0 {
      FilterKeepsAll(s[1..], keep);
      assert [s[0]] + s[1..] == s;
    }
  }

  lemma {:induction false} SliceParsesCleanly(txs: seq<TxResult>, lo: nat, hi: nat, parse: EventParser)
    requires lo <= hi <= |txs|
    requires ParsesCleanly(Flatten(txs), parse)
    ensures ParsesCleanly(Flatten(txs[lo..hi]), parse)
  {
    var a, b, c := txs[..lo], txs[lo..hi], txs[hi..];
    assert txs == a + b + c;
    FlattenAppend(a + b, c);
    FlattenAppend(a, b);
    MiddleParsesCleanly(Flatten(a), Flatten(b), Flatten(c), parse);
  }

  lemma {:induction false} MiddleParsesCleanly(x: seq<(RawEvent, H256)>, y: seq<(RawEvent, H256)>, z: seq<(RawEvent, H256)>,
                            parse: EventParser)
    requires ParsesCleanly(x + y + z, parse)
    ensures ParsesCleanly(y, parse)
  {
    forall t | t in y
      ensures t in x + y + z
    {
    }
  }

  /** One page of a served block contributes exactly its recognised events. */
  lemma PageContributes(m: Module, node: Node, parse: EventParser, h: Height, txs: seq<TxResult>, p: nat)
    requires ServesBlock(node, h.revisionHeight, txs)
    requires 1 <= p && p * PerPageLimit < U32Limit
    requires ParsesCleanly(Flatten(txs), parse)
    ensures FetchTransactionsStep(m, node, parse, h, p).Done?
    ensures FetchTransactionsStep(m, node, parse, h, p).value.ConcOp?
    ensures Filter(FetchTransactionsStep(m, node, parse, h, p).value.concOps, IsEventCall)
            == EventCalls(m, h, Recognised(Flatten(PageSlice(txs, p)), parse))
  {
    var slice := PageSlice(txs, p);
    SliceParsesCleanly(txs, Min((p - 1) * PerPageLimit, |txs|), Min(p * PerPageLimit, |txs|), parse);
    var calls := EventCalls(m, h, Recognised(Flatten(slice), parse));
    var ops := FetchTransactionsStep(m, node, parse, h, p).value.concOps;
    var tail := ops[|calls|..];
    assert ops == calls + tail;
    FilterAppend(calls, tail, IsEventCall);
    FilterKeepsAll(calls, IsEventCall);
    assert Filter(tail, IsEventCall) == [] by {
      if |tail| > 0 {
        assert tail[1..] == [];
      }
    }
  }

  /** Reading a served block page by page issues exactly one `MakeChainEvent`
      call per IBC event of the block, with the hash of its transaction, in
      block order: nothing twice, nothing skipped. */
  lemma {:induction false} BlockFullyFetched(m: Module, node: Node, parse: EventParser, h: Height,
                                            txs: seq<TxResult>)
    requires ServesBlock(node, h.revisionHeight, txs)
    requires LastPage(|txs|) * PerPageLimit < U32Limit
    requires ParsesCleanly(Flatten(txs), parse)
    ensures PageEventCalls(m, node, parse, h, LastPage(|txs|))
            == EventCalls(m, h, Recognised(Flatten(txs), parse))
  {
    PagesPrefixFetched(m, node, parse, h, txs, LastPage(|txs|));
    PagesCoverBlock(txs);
  }

  lemma {:induction false} PagesPrefixFetched(m: Module, node: Node, parse: EventParser, h: Height,
                                             txs: seq<TxResult>, n: nat)
    requires ServesBlock(node, h.revisionHeight, txs)
    requires n * PerPageLimit < U32Limit
    requires ParsesCleanly(Flatten(txs), parse)
    ensures PageEventCalls(m, node, parse, h, n)
            == EventCalls(m, h, Recognised(Flatten(PagesUpTo(txs, n)), parse))
  {
    if n > 0 {
      PagesPrefixFetched(m, node, parse, h, txs, n - 1);
      PageContributes(m, node, parse, h, txs, n);
      var before := PagesUpTo(txs, n - 1);
      var page := PageSlice(txs, n);
      FlattenAppend(before, page);
      RecognisedAppend(Flatten(before), Flatten(page), parse);
      EventCallsAppend(m, h, Recognised(Flatten(before), parse), Recognised(Flatten(page), parse));
    }
  }
}
