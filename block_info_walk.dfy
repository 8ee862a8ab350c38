/**
 * The block-info resync walk as a function of the cached records and the
 * network's answers: heights are visited from the top of the window down, a
 * height whose cached hash equals the fetched hash ends the walk, an answer
 * without a hash aborts it with one error notification, and a height with no
 * cached record receives the fetched record.
 */
module BlockInfoWalk {

  import opened Wrappers
  import opened JsValues
  import opened ChainData

  const InfoErrorMessage := "Error getting block info"

  /** What a walk leaves behind: the records, the notifications in order, the heights requested in order. */
  datatype WalkOutcome = WalkOutcome(info: map<int, BlockInfo>, events: seq<Event>, fetched: seq<int>)

  /** An answer that carries a record with a non-empty hash. */
  predicate Usable(r: Option<BlockInfo>)
  {
    r.Some? && r.value.hash != ""
  }

  /** The fetched record as it is stored for height `i`. */
  function Stamped(r: Option<BlockInfo>, i: int): BlockInfo
    requires r.Some?
  {
    r.value.(height := i)
  }

  /** The hash of the record cached for height `h`, if there is one. */
  function CachedHash(info: map<int, BlockInfo>, h: int): Option<string>
  {
    if h in info then Some(info[h].hash) else None
  }

  /** The fetched hash equals the hash cached for height `h`. */
  predicate Matches(info: map<int, BlockInfo>, net: int -> Option<BlockInfo>, h: int)
  {
    Usable(net(h)) && h in info && info[h].hash == net(h).value.hash
  }

  /** The walk ended on an answer without a hash. */
  predicate Aborted(w: WalkOutcome, net: int -> Option<BlockInfo>)
  {
    |w.fetched| > 0 && !Usable(net(w.fetched[|w.fetched| - 1]))
  }

  /**
   * The walk from height `i` down to `starting`. The test for replacing a cached
   * record is the source's `!cached || !cached.hash === fetched.hash`, in which a
   * boolean is compared strictly with a string.
   */
  function Walk(info: map<int, BlockInfo>, i: int, starting: int, net: int -> Option<BlockInfo>): WalkOutcome
    decreases if i < starting then 0 else i - starting + 1
  {
    if i < starting then WalkOutcome(info, [], [])
    else if !Usable(net(i)) then WalkOutcome(info, [ConsensusError(InfoErrorMessage)], [i])
    else
      var rec := Stamped(net(i), i);
      if i in info && info[i].hash == rec.hash then WalkOutcome(info, [], [i])
      else if i !in info || StrictEquals(JsBool(info[i].hash == ""), JsString(rec.hash)) then
        var deleted := if CachedHash(info, i) != None && CachedHash(info, i) != Some(rec.hash) then [BlockDeleted(rec.hash, i)] else [];
        var rest := Walk(info[i := rec], i - 1, starting, net);
        WalkOutcome(rest.info, deleted + [BlockInfoDownloaded(rec)] + rest.events, [i] + rest.fetched)
      else
        var rest := Walk(info, i - 1, starting, net);
        WalkOutcome(rest.info, rest.events, [i] + rest.fetched)
  }

  /** The number of block-info-downloaded notifications for height `h`. */
  function DownloadedCount(events: seq<Event>, h: int): nat
  {
    if events == [] then 0
    else (if events[0].BlockInfoDownloaded? && events[0].info.height == h then 1 else 0) + DownloadedCount(events[1..], h)
  }

  lemma {:induction false} DownloadedCountAppend(a: seq<Event>, b: seq<Event>, h: int)
    ensures DownloadedCount(a + b, h) == DownloadedCount(a, h) + DownloadedCount(b, h)
  {
    if a == [] {
      assert a + b == b;
    } else {
      assert (a + b)[1..] == a[1..] + b;
      DownloadedCountAppend(a[1..], b, h);
    }
  }

  /**
   * Heights are requested one at a time in strictly descending order, starting at
   * `i` and never below `starting`; a non-empty window requests at least `i`.
   */
  lemma {:induction false} WalkDescends(info: map<int, BlockInfo>, i: int, starting: int, net: int -> Option<BlockInfo>)
    ensures var w := Walk(info, i, starting, net);
      (forall k :: 0 <= k < |w.fetched| ==> w.fetched[k] == i - k) &&
      (i >= starting ==> 1 <= |w.fetched| <= i - starting + 1) &&
      (i < starting ==> w.fetched == [])
    decreases if i < starting then 0 else i - starting + 1
  {
    if i >= starting && Usable(net(i)) {
      var rec := Stamped(net(i), i);
      if !(i in info && info[i].hash == rec.hash) {
        WalkDescends(if i !in info then info[i := rec] else info, i - 1, starting, net);
      }
    }
  }

  lemma WalkFetchedBounds(info: map<int, BlockInfo>, i: int, starting: int, net: int -> Option<BlockInfo>)
    ensures var w := Walk(info, i, starting, net);
      forall h :: h in w.fetched ==> starting <= h <= i
  {
    WalkDescends(info, i, starting, net);
  }

  /**
   * The records after the walk: heights that had a record keep it unchanged
   * (whatever the fetched hash), and exactly the requested heights with a usable
   * answer and no record gain the fetched record stamped with their height.
   */
  lemma {:induction false} WalkRecords(info: map<int, BlockInfo>, i: int, starting: int, net: int -> Option<BlockInfo>)
    ensures var w := Walk(info, i, starting, net);
      (forall h :: h in w.info <==> h in info || (h in w.fetched && Usable(net(h)))) &&
      (forall h :: h in w.info ==> w.info[h] == if h in info then info[h] else Stamped(net(h), h))
    decreases if i < starting then 0 else i - starting + 1
  {
    if i >= starting && Usable(net(i)) {
      var rec := Stamped(net(i), i);
      if !(i in info && info[i].hash == rec.hash) {
        var info' := if i !in info then info[i := rec] else info;
        WalkRecords(info', i - 1, starting, net);
      }
    }
  }

  /** The reorganisation branch is unreachable: the walk never emits block-deleted. */
  lemma {:induction false} WalkNeverDeletes(info: map<int, BlockInfo>, i: int, starting: int, net: int -> Option<BlockInfo>)
    ensures forall e :: e in Walk(info, i, starting, net).events ==> !e.BlockDeleted?
    decreases if i < starting then 0 else i - starting + 1
  {
    if i >= starting && Usable(net(i)) {
      var rec := Stamped(net(i), i);
      if i !in info {
        WalkNeverDeletes(info[i := rec], i - 1, starting, net);
        assert Walk(info, i, starting, net).events == [BlockInfoDownloaded(rec)] + Walk(info[i := rec], i - 1, starting, net).events;
      } else if info[i].hash != rec.hash {
        assert !StrictEquals(JsBool(info[i].hash == ""), JsString(rec.hash));
        WalkNeverDeletes(info, i - 1, starting, net);
      }
    }
  }

  /**
   * An error notification can only come last; there is one exactly when the walk
   * aborted, and it carries the block-info error message.
   */
  predicate ErrorAtEnd(w: WalkOutcome, net: int -> Option<BlockInfo>)
  {
    (forall k :: 0 <= k < |w.events| && w.events[k].ConsensusError? ==> k == |w.events| - 1) &&
    (Aborted(w, net) <==> |w.events| > 0 && w.events[|w.events| - 1].ConsensusError?) &&
    (Aborted(w, net) ==> w.events[|w.events| - 1] == ConsensusError(InfoErrorMessage))
  }

  /** Every walk keeps its error notification, if any, at the end. */
  lemma {:induction false} WalkErrorEndsWalk(info: map<int, BlockInfo>, i: int, starting: int, net: int -> Option<BlockInfo>)
    ensures ErrorAtEnd(Walk(info, i, starting, net), net)
    decreases if i < starting then 0 else i - starting + 1
  {
    if i >= starting && Usable(net(i)) {
      var rec := Stamped(net(i), i);
      if !(i in info && info[i].hash == rec.hash) {
        var info' := if i !in info then info[i := rec] else info;
        var rest := Walk(info', i - 1, starting, net);
        WalkErrorEndsWalk(info', i - 1, starting, net);
        var lead := if i !in info then [BlockInfoDownloaded(rec)] else [];
        WalkContinues(info, i, starting, net);
        ErrorEndsAfterLead(lead, rest, i, net);
      }
    }
  }

  /**
   * The walk returns at the first answer without a hash: every requested height
   * but the last one was answered with a hash.
   */
  lemma {:induction false} WalkReturnsOnUnusable(info: map<int, BlockInfo>, i: int, starting: int, net: int -> Option<BlockInfo>)
    ensures var w := Walk(info, i, starting, net);
      forall k :: 0 <= k < |w.fetched| - 1 ==> Usable(net(w.fetched[k]))
    decreases if i < starting then 0 else i - starting + 1
  {
    if i >= starting && Usable(net(i)) && !(i in info && info[i].hash == Stamped(net(i), i).hash) {
      var info' := if i !in info then info[i := Stamped(net(i), i)] else info;
      WalkContinues(info, i, starting, net);
      WalkReturnsOnUnusable(info', i - 1, starting, net);
    }
  }

  /**
   * One step of the walk past a height it did not stop at: at most one
   * notification for that height, then the rest of the walk.
   */
  lemma WalkContinues(info: map<int, BlockInfo>, i: int, starting: int, net: int -> Option<BlockInfo>)
    requires i >= starting && Usable(net(i)) && !(i in info && info[i].hash == Stamped(net(i), i).hash)
    ensures var rec := Stamped(net(i), i);
      var info' := if i !in info then info[i := rec] else info;
      var rest := Walk(info', i - 1, starting, net);
      Walk(info, i, starting, net) ==
        WalkOutcome(rest.info, (if i !in info then [BlockInfoDownloaded(rec)] else []) + rest.events, [i] + rest.fetched)
  {
    if i in info {
      assert !StrictEquals(JsBool(info[i].hash == ""), JsString(Stamped(net(i), i).hash));
    }
  }

  /** Prefixing a walk with a usable height and no error keeps the error at the end. */
  lemma ErrorEndsAfterLead(lead: seq<Event>, rest: WalkOutcome, i: int, net: int -> Option<BlockInfo>)
    requires forall k :: 0 <= k < |lead| ==> !lead[k].ConsensusError?
    requires Usable(net(i))
    requires ErrorAtEnd(rest, net)
    ensures ErrorAtEnd(WalkOutcome(rest.info, lead + rest.events, [i] + rest.fetched), net)
  {
    var w := WalkOutcome(rest.info, lead + rest.events, [i] + rest.fetched);
    forall k | 0 <= k < |w.events| && w.events[k].ConsensusError?
      ensures k == |w.events| - 1
    {
      if k >= |lead| {
        assert w.events[k] == rest.events[k - |lead|];
      }
    }
    if rest.fetched != [] {
      assert w.fetched[|w.fetched| - 1] == rest.fetched[|rest.fetched| - 1];
    }
    if rest.events != [] {
      assert w.events[|w.events| - 1] == rest.events[|rest.events| - 1];
    }
  }

  /**
   * Each height gets exactly one block-info-downloaded notification when it was
   * requested, answered with a hash and had no record, and none otherwise; the
   * notification carries the stored record.
   */
  lemma {:induction false} WalkDownloads(info: map<int, BlockInfo>, i: int, starting: int, net: int -> Option<BlockInfo>, h: int)
    ensures var w := Walk(info, i, starting, net);
      DownloadedCount(w.events, h) == if h in w.fetched && Usable(net(h)) && h !in info then 1 else 0
    ensures var w := Walk(info, i, starting, net);
      forall k :: 0 <= k < |w.events| && w.events[k].BlockInfoDownloaded? ==>
        var r := w.events[k].info; Usable(net(r.height)) && r == Stamped(net(r.height), r.height)
    decreases if i < starting then 0 else i - starting + 1
  {
    if i >= starting && Usable(net(i)) {
      var rec := Stamped(net(i), i);
      if !(i in info && info[i].hash == rec.hash) {
        var info' := if i !in info then info[i := rec] else info;
        var rest := Walk(info', i - 1, starting, net);
        WalkDownloads(info', i - 1, starting, net, h);
        WalkFetchedBounds(info', i - 1, starting, net);
        if i !in info {
          DownloadedCountAppend([BlockInfoDownloaded(rec)], rest.events, h);
          assert [] + [BlockInfoDownloaded(rec)] + rest.events == [BlockInfoDownloaded(rec)] + rest.events;
        }
      }
    }
  }

  /**
   * A height whose cached hash equals the fetched hash stops the walk: no lower
   * height is requested, and when every height above it is answered and differs
   * from its record, the walk ends exactly there.
   */
  lemma {:induction false} WalkStopsAtMatch(info: map<int, BlockInfo>, i: int, starting: int, net: int -> Option<BlockInfo>, j: int)
    requires starting <= j <= i
    requires Matches(info, net, j)
    ensures var w := Walk(info, i, starting, net);
      forall k :: 0 <= k < |w.fetched| ==> w.fetched[k] >= j
    ensures (forall h :: j < h <= i ==> Usable(net(h)) && !Matches(info, net, h)) ==>
      |Walk(info, i, starting, net).fetched| == i - j + 1
    decreases i - j
  {
    WalkDescends(info, i, starting, net);
    if i > j && Usable(net(i)) {
      var rec := Stamped(net(i), i);
      if !(i in info && info[i].hash == rec.hash) {
        var info' := if i !in info then info[i := rec] else info;
        assert Matches(info', net, j);
        assert forall h :: j < h <= i - 1 ==> (Matches(info', net, h) <==> Matches(info, net, h));
        WalkStopsAtMatch(info', i - 1, starting, net, j);
      }
    }
  }

  /**
   * With no record anywhere in the window and every height answered, the walk
   * requests every height and emits one block-info-downloaded per height and
   * nothing else.
   */
  lemma {:induction false} WalkFullWindow(info: map<int, BlockInfo>, i: int, starting: int, net: int -> Option<BlockInfo>)
    requires starting <= i + 1
    requires forall h :: starting <= h <= i ==> Usable(net(h))
    requires forall h :: starting <= h <= i ==> h !in info
    ensures |Walk(info, i, starting, net).fetched| == i - starting + 1
    ensures |Walk(info, i, starting, net).events| == i - starting + 1
    ensures forall k :: 0 <= k <= i - starting ==>
      Usable(net(i - k)) && Walk(info, i, starting, net).events[k] == BlockInfoDownloaded(Stamped(net(i - k), i - k))
    decreases i - starting + 1
  {
    if i >= starting {
      var rec := Stamped(net(i), i);
      WalkFullWindow(info[i := rec], i - 1, starting, net);
      var rest := Walk(info[i := rec], i - 1, starting, net);
      assert Walk(info, i, starting, net).events == [BlockInfoDownloaded(rec)] + rest.events;
    }
  }

  /**
   * Running the walk again over its own result with the same answers changes
   * nothing and emits nothing, unless the first run aborted.
   */
  lemma {:induction false} WalkRerunQuiet(info: map<int, BlockInfo>, i: int, starting: int, net: int -> Option<BlockInfo>)
    requires !Aborted(Walk(info, i, starting, net), net)
    ensures var w := Walk(info, i, starting, net);
      Walk(w.info, i, starting, net).events == [] && Walk(w.info, i, starting, net).info == w.info
    decreases if i < starting then 0 else i - starting + 1
  {
    if i >= starting && Usable(net(i)) {
      var rec := Stamped(net(i), i);
      if i !in info {
        WalkRecords(info[i := rec], i - 1, starting, net);
        WalkFetchedBounds(info[i := rec], i - 1, starting, net);
      } else if info[i].hash != rec.hash {
        var rest := Walk(info, i - 1, starting, net);
        WalkRecords(info, i - 1, starting, net);
        WalkFetchedBounds(info, i - 1, starting, net);
        if rest.fetched != [] {
          assert Walk(info, i, starting, net).fetched[|Walk(info, i, starting, net).fetched| - 1]
              == rest.fetched[|rest.fetched| - 1];
        }
        WalkRerunQuiet(info, i - 1, starting, net);
      }
    }
  }
}
