/** The crawl frontier (`CrawlerQueue` in crawler/main.py), sequential part: the
    set of URLs ever seen and the FIFO queue of URLs still to visit. `add_urls`
    admits each unseen URL once; `get_next_url` takes the oldest queued URL.
    The lock around `add_urls`, the worker threads, the `None` shutdown
    sentinels and the per-site process pool are not part of this model. */
module Frontier {
  import opened Seqs

  type Url = string

  /** The URLs of `batch` that `add_urls` enqueues when `seen` holds the URLs seen
      so far: each unseen URL at its first occurrence, in batch order. */
  function Admitted(seen: set<Url>, batch: seq<Url>): (r: seq<Url>)
    ensures forall u :: u in r <==> u in batch && u !in seen
    ensures Distinct(r)
    ensures (forall u :: u in batch ==> u in seen) ==> r == []
    decreases |batch|
  {
    if batch == [] then []
    else if batch[0] in seen then Admitted(seen, batch[1..])
    else
      var rest := Admitted(seen + {batch[0]}, batch[1..]);
      assert forall u :: u in batch <==> u == batch[0] || u in batch[1..];
      [batch[0]] + rest
  }

  /** Every element of `r` occurs in `batch`, and earlier elements of `r` first
      occur earlier in `batch`. */
  ghost predicate InFirstOrder(batch: seq<Url>, r: seq<Url>) {
    (forall u :: u in r ==> u in batch)
    && forall i, j :: 0 <= i < j < |r| ==> FirstIndex(batch, r[i]) < FirstIndex(batch, r[j])
  }

  /** Admitted URLs keep the order in which the batch first names them. */
  lemma {:induction false} AdmittedInBatchOrder(seen: set<Url>, batch: seq<Url>)
    ensures InFirstOrder(batch, Admitted(seen, batch))
    decreases |batch|
  {
    if batch != [] {
      var b0 := batch[0];
      if b0 in seen {
        AdmittedInBatchOrder(seen, batch[1..]);
        ShiftOrder(batch, Admitted(seen, batch[1..]));
      } else {
        var tail := Admitted(seen + {b0}, batch[1..]);
        AdmittedInBatchOrder(seen + {b0}, batch[1..]);
        ShiftOrder(batch, tail);
        ConsOrder(batch, tail);
      }
    }
  }

  /** Order in the tail of a batch carries over to the batch when the head is
      not involved. */
  lemma {:induction false} ShiftOrder(batch: seq<Url>, r: seq<Url>)
    requires batch != [] && batch[0] !in r && InFirstOrder(batch[1..], r)
    ensures InFirstOrder(batch, r)
    ensures forall u :: u in r ==> 0 < FirstIndex(batch, u)
  {
    forall u | u in r ensures u in batch && 0 < FirstIndex(batch, u) == 1 + FirstIndex(batch[1..], u) {
      FirstIndexOfTail(batch, u);
    }
  }

  lemma {:induction false} ConsOrder(batch: seq<Url>, r: seq<Url>)
    requires batch != [] && InFirstOrder(batch, r)
    requires forall u :: u in r ==> 0 < FirstIndex(batch, u)
    ensures InFirstOrder(batch, [batch[0]] + r)
  {
    var r' := [batch[0]] + r;
    assert FirstIndex(batch, batch[0]) == 0;
    forall u | u in r' ensures u in batch {
      if u != batch[0] {
        assert u in r;
      }
    }
    forall i, j | 0 <= i < j < |r'| ensures FirstIndex(batch, r'[i]) < FirstIndex(batch, r'[j]) {
      assert r'[j] == r[j - 1] && r[j - 1] in r;
      if i > 0 {
        assert r'[i] == r[i - 1];
      } else {
        assert r'[i] == batch[0];
      }
    }
  }

  lemma FirstIndexOfTail(s: seq<Url>, x: Url)
    requires s != [] && x in s[1..] && x != s[0]
    ensures x in s && FirstIndex(s, x) == 1 + FirstIndex(s[1..], x)
  {
  }

  /** The queue is a suffix of the URLs ever admitted, which never repeat and are
      exactly the seen URLs. */
  ghost predicate Consistent(toVisit: seq<Url>, seen: set<Url>, admitted: seq<Url>) {
    && Distinct(admitted)
    && (forall u :: u in admitted <==> u in seen)
    && |toVisit| <= |admitted|
    && toVisit == admitted[|admitted| - |toVisit|..]
  }

  /** Enqueuing an unseen URL keeps the frontier consistent. */
  lemma EnqueueConsistent(toVisit: seq<Url>, seen: set<Url>, admitted: seq<Url>, url: Url)
    requires Consistent(toVisit, seen, admitted) && url !in seen
    ensures Consistent(toVisit + [url], seen + {url}, admitted + [url])
  {
    var a := admitted + [url];
    assert a[|a| - |toVisit + [url]|..] == admitted[|admitted| - |toVisit|..] + [url];
  }

  /** The URLs named in a run. */
  function UrlsOf(s: seq<Url>): (r: set<Url>)
    ensures forall u :: u in r <==> u in s
  {
    set u | u in s
  }

  lemma UrlsOfAppend(s: seq<Url>, u: Url)
    ensures UrlsOf(s + [u]) == UrlsOf(s) + {u}
  {
  }

  /** One step of `add_urls`' loop: the URL at `i` is admitted exactly when it
      has not been seen. */
  lemma AdmitNext(seen: set<Url>, urls: seq<Url>, i: nat)
    requires i < |urls|
    ensures Admitted(seen, urls[i..]) ==
      if urls[i] in seen then Admitted(seen, urls[i + 1..])
      else [urls[i]] + Admitted(seen + {urls[i]}, urls[i + 1..])
  {
    assert urls[i..][0] == urls[i] && urls[i..][1..] == urls[i + 1..];
  }

  /** One round of `add_urls`' loop keeps the frontier consistent and keeps
      what is still to be admitted in step with the goal. */
  lemma AddStep(queue0: seq<Url>, all0: seq<Url>, goal: seq<Url>,
                queue: seq<Url>, seen: set<Url>, all: seq<Url>, urls: seq<Url>, i: nat)
    requires i < |urls| && Consistent(queue, seen, all)
    requires queue0 + goal == queue + Admitted(seen, urls[i..])
    requires all0 + goal == all + Admitted(seen, urls[i..])
    ensures urls[i] in seen ==>
      && queue0 + goal == queue + Admitted(seen, urls[i + 1..])
      && all0 + goal == all + Admitted(seen, urls[i + 1..])
    ensures urls[i] !in seen ==>
      && Consistent(queue + [urls[i]], seen + {urls[i]}, all + [urls[i]])
      && queue0 + goal == (queue + [urls[i]]) + Admitted(seen + {urls[i]}, urls[i + 1..])
      && all0 + goal == (all + [urls[i]]) + Admitted(seen + {urls[i]}, urls[i + 1..])
  {
    var url := urls[i];
    AdmitNext(seen, urls, i);
    if url !in seen {
      var rest := Admitted(seen + {url}, urls[i + 1..]);
      EnqueueConsistent(queue, seen, all, url);
      AppendAssoc(queue, url, rest);
      AppendAssoc(all, url, rest);
    }
  }

  lemma AppendAssoc(a: seq<Url>, x: Url, b: seq<Url>)
    ensures a + ([x] + b) == (a + [x]) + b
  {
  }

  /** The loop of `add_urls` on the frontier's state: each URL of the batch not
      seen yet is marked seen and queued. */
  method EnqueueBatch(queue0: seq<Url>, seen0: set<Url>, ghost all0: seq<Url>, urls: seq<Url>)
    returns (queue: seq<Url>, seen: set<Url>, ghost all: seq<Url>)
    requires Consistent(queue0, seen0, all0)
    ensures Consistent(queue, seen, all)
    ensures seen == seen0 + UrlsOf(urls)
    ensures queue == queue0 + Admitted(seen0, urls)
    ensures all == all0 + Admitted(seen0, urls)
  {
    ghost var goal := Admitted(seen0, urls);
    queue, seen, all := queue0, seen0, all0;
    var i := 0;
    while i < |urls|
      invariant 0 <= i <= |urls|
      invariant Consistent(queue, seen, all)
      invariant seen == seen0 + UrlsOf(urls[..i])
      invariant queue0 + goal == queue + Admitted(seen, urls[i..])
      invariant all0 + goal == all + Admitted(seen, urls[i..])
    {
      var url := urls[i];
      TakeOneMore(urls, i);
      UrlsOfAppend(urls[..i], url);
      AddStep(queue0, all0, goal, queue, seen, all, urls, i);
      if url !in seen {
        seen := seen + {url};
        queue := queue + [url];
        all := all + [url];
      }
      i := i + 1;
    }
    assert urls[..i] == urls && urls[i..] == [];
  }

  /** `CrawlerQueue`. The ghost `admitted` records every URL ever enqueued, in
      order: the queue is always a suffix of it, and it never repeats a URL. */
  class CrawlerQueue {
    var toVisit: seq<Url>
    var seenUrls: set<Url>
    ghost var admitted: seq<Url>

    ghost predicate Valid()
      reads this
    {
      Consistent(toVisit, seenUrls, admitted)
    }

    constructor ()
      ensures Valid() && toVisit == [] && seenUrls == {} && admitted == []
    {
      toVisit, seenUrls, admitted := [], {}, [];
    }

    /** Every queued URL has been seen. */
    lemma QueuedAreSeen()
      requires Valid()
      ensures forall u :: u in toVisit ==> u in seenUrls
    {
      forall u | u in toVisit ensures u in seenUrls {
        var i :| 0 <= i < |toVisit| && toVisit[i] == u;
        assert admitted[|admitted| - |toVisit| + i] == u;
      }
    }

    method AddUrls(urls: seq<Url>)
      requires Valid()
      modifies this
      ensures Valid()
      ensures seenUrls == old(seenUrls) + UrlsOf(urls)
      ensures toVisit == old(toVisit) + Admitted(old(seenUrls), urls)
      ensures admitted == old(admitted) + Admitted(old(seenUrls), urls)
    {
      var queue, seen, all := EnqueueBatch(toVisit, seenUrls, admitted, urls);
      toVisit, seenUrls, admitted := queue, seen, all;
    }

    method GetNextUrl() returns (url: Url)
      requires Valid() && toVisit != []
      modifies this`toVisit
      ensures Valid()
      ensures url == old(toVisit)[0] && toVisit == old(toVisit)[1..]
      ensures url in seenUrls
    {
      QueuedAreSeen();
      url := toVisit[0];
      toVisit := toVisit[1..];
    }

    /** `len(cq.seen_urls)`, what `crawl` returns. */
    function SeenCount(): (n: nat)
      reads this
      requires Valid()
      ensures n == |admitted|
    {
      assert UrlsOf(admitted) == seenUrls;
      DistinctCard(admitted);
      |seenUrls|
    }
  }

  lemma {:induction false} DistinctCard(s: seq<Url>)
    requires Distinct(s)
    ensures |UrlsOf(s)| == |s|
  {
    if s != [] {
      DistinctCard(s[1..]);
      assert UrlsOf(s) == {s[0]} + UrlsOf(s[1..]);
    }
  }

  /** `crawl`'s first two steps: a fresh frontier seeded with the start URL. From
      here `seen_urls` only grows, so the count `crawl` returns is at least 1. */
  method StartCrawl(start: Url) returns (cq: CrawlerQueue)
    ensures fresh(cq) && cq.Valid()
    ensures cq.seenUrls == {start} && cq.toVisit == [start] && cq.SeenCount() == 1
  {
    cq := new CrawlerQueue();
    cq.AddUrls([start]);
    assert UrlsOf([start]) == {start};
  }
}
