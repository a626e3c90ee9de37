/** Paging through a queue's pending messages: a half-open slice of the in-memory mirror, and an inclusive
    range of the Redis list. */
module Pagination {

  type Msg = string

  const DEFAULT_LIMIT := 100
  const MAX_LIMIT := 10000

  function EffectiveLimit(limit: int): nat {
    if limit <= 0 then DEFAULT_LIMIT else if limit > MAX_LIMIT then MAX_LIMIT else limit
  }

  function EffectiveOffset(offset: int): nat {
    if offset < 0 then 0 else offset
  }

  /** What a page is: the messages from the offset on, up to the limit, which is 100 if none is given and
      10000 at most. */
  predicate IsPage(list: seq<Msg>, offset: int, limit: int, page: seq<Msg>) {
    var o := if offset < 0 then 0 else offset;
    var l := if limit <= 0 then 100 else if limit > 10000 then 10000 else limit;
    && |page| == (if |list| <= o then 0 else if |list| <= o + l then |list| - o else l)
    && forall k | 0 <= k < |page| :: o + k < |list| && page[k] == list[o + k]
  }

  /** The pending lists of the in-memory broker. */
  class MemoryPending {
    var pending: map<string, seq<Msg>>

    constructor ()
      ensures pending == map[]
    {
      pending := map[];
    }

    method GetPendingWithPagination(queue: string, offset: int, limit: int) returns (page: seq<Msg>, total: nat)
      ensures total == if queue in pending then |pending[queue]| else 0
      ensures IsPage(if queue in pending then pending[queue] else [], offset, limit, page)
    {
      if queue !in pending { return [], 0; }
      var list := pending[queue];
      total := |list|;
      if total == 0 { return [], 0; }
      var from, most := offset, limit;
      if from < 0 { from := 0; }
      if from >= total { return [], total; }
      if most <= 0 { most := DEFAULT_LIMIT; }
      if most > MAX_LIMIT { most := MAX_LIMIT; }
      var end := from + most;
      if end > total { end := total; }
      page := list[from..end];
    }
  }

  /** LRANGE of Redis: both ends are included, negative ones count from the end, and the range is cut to
      the list. */
  function LRange(list: seq<Msg>, start: int, stop: int): seq<Msg> {
    var first := if start < 0 then (if start + |list| < 0 then 0 else start + |list|) else start;
    var last := if stop < 0 then stop + |list| else if stop >= |list| then |list| - 1 else stop;
    if first > last then [] else list[first..last + 1]
  }

  /** The length is asked for before the range is; `counted` and `list` are the list at these moments. */
  method RedisPage(counted: seq<Msg>, list: seq<Msg>, offset: int, limit: int) returns (page: seq<Msg>, total: nat)
    ensures total == |counted|
    ensures IsPage(if EffectiveOffset(offset) < |counted| then list else [], offset, limit, page)
  {
    total := |counted|;
    if total == 0 { return [], 0; }
    var from, most := offset, limit;
    if from < 0 { from := 0; }
    if from >= total { return [], total; }
    if most <= 0 { most := DEFAULT_LIMIT; }
    if most > MAX_LIMIT { most := MAX_LIMIT; }
    page := LRange(list, from, from + most - 1);
  }

  /** Only one sequence is the page, so on the same list both brokers answer the same. */
  lemma PageIsUnique(list: seq<Msg>, offset: int, limit: int, p: seq<Msg>, q: seq<Msg>)
    requires IsPage(list, offset, limit, p) && IsPage(list, offset, limit, q)
    ensures p == q
  {
  }

  method BothBrokersAgree(m: MemoryPending, queue: string, offset: int, limit: int)
    returns (mine: seq<Msg>, theirs: seq<Msg>)
    ensures mine == theirs
    ensures IsPage(if queue in m.pending then m.pending[queue] else [], offset, limit, mine)
  {
    var list := if queue in m.pending then m.pending[queue] else [];
    var n: nat;
    mine, n := m.GetPendingWithPagination(queue, offset, limit);
    theirs, n := RedisPage(list, list, offset, limit);
    var asked := if EffectiveOffset(offset) < |list| then list else [];
    assert IsPage(asked, offset, limit, mine);
    PageIsUnique(asked, offset, limit, mine, theirs);
  }

  /** Where page i starts. */
  function Start(i: nat, l: nat): nat {
    i * l
  }

  lemma StartOfNext(i: nat, l: nat)
    ensures Start(i + 1, l) == Start(i, l) + l
  {
  }

  /** Pages asked for one after the other, each offset one limit further. */
  ghost predicate ArePages(list: seq<Msg>, limit: int, pages: seq<seq<Msg>>) {
    forall i | 0 <= i < |pages| :: IsPage(list, Start(i, EffectiveLimit(limit)), limit, pages[i])
  }

  function Concat(pages: seq<seq<Msg>>): seq<Msg> {
    if pages == [] then [] else Concat(pages[..|pages| - 1]) + pages[|pages| - 1]
  }

  function First(list: seq<Msg>, n: nat): seq<Msg> {
    if n < |list| then list[..n] else list
  }

  lemma PageExtends(list: seq<Msg>, o: nat, limit: int, page: seq<Msg>)
    requires IsPage(list, o, limit, page)
    ensures First(list, o) + page == First(list, o + EffectiveLimit(limit))
  {
  }

  /** They tile the list: the first n pages are its first n * L messages, each once and in order. So
      enough pages are the whole list. */
  lemma {:induction false} PagesTile(list: seq<Msg>, limit: int, pages: seq<seq<Msg>>)
    requires ArePages(list, limit, pages)
    ensures Concat(pages) == First(list, Start(|pages|, EffectiveLimit(limit)))
  {
    if pages == [] {
      assert First(list, 0) == [];
    } else {
      var n, l := |pages| - 1, EffectiveLimit(limit);
      assert ArePages(list, limit, pages[..n]);
      PagesTile(list, limit, pages[..n]);
      assert IsPage(list, Start(n, l), limit, pages[n]);
      PageExtends(list, Start(n, l), limit, pages[n]);
      StartOfNext(n, l);
    }
  }
}
