/** Search results as the page holds them: each completed search contributes one batch,
    tagged with the query it answered, to the end of the page's list of batches. */
module Search {

  /** A catalog track, reduced to the fields the page reads. */
  datatype Track = Track(uri: string, name: string, albumType: string, artists: seq<string>)

  /** One entry of the page's `songs` list: the query (`chunkChar`) and the first page of
      tracks the catalog returned for it. */
  datatype Batch = Batch(chunkChar: string, items: seq<Track>)

  /** How one search request ended: with the catalog's tracks, or rejected. */
  datatype SearchOutcome = Found(items: seq<Track>) | SearchFailed

  /** A search completion, in the order in which completions reach the page. */
  datatype Arrival = Arrival(query: string, outcome: SearchOutcome)

  /** The batches a sequence of completions appends, in arrival order: one per successful
      search, nothing for a failed one. */
  function Accepted(arrivals: seq<Arrival>): seq<Batch> {
    if arrivals == [] then []
    else
      var a := arrivals[0];
      (match a.outcome
       case Found(items) => [Batch(a.query, items)]
       case SearchFailed => [])
      + Accepted(arrivals[1..])
  }

  /** The number of successful completions. */
  function Successes(arrivals: seq<Arrival>): nat {
    if arrivals == [] then 0
    else (if arrivals[0].outcome.Found? then 1 else 0) + Successes(arrivals[1..])
  }

  /** Completions can be taken in any grouping: handling `xs` and then `ys` appends what
      handling `xs + ys` at once appends. */
  lemma {:induction false} AcceptedAppend(xs: seq<Arrival>, ys: seq<Arrival>)
    ensures Accepted(xs + ys) == Accepted(xs) + Accepted(ys)
  {
    if xs != [] {
      assert (xs + ys)[0] == xs[0];
      assert (xs + ys)[1..] == xs[1..] + ys;
      AcceptedAppend(xs[1..], ys);
    } else {
      assert xs + ys == ys;
    }
  }

  /** Exactly one batch per successful search, each tagged with the query it answered and
      carrying that search's tracks, in arrival order. */
  lemma {:induction false} AcceptedCountsSuccesses(arrivals: seq<Arrival>)
    ensures |Accepted(arrivals)| == Successes(arrivals)
    ensures forall b :: b in Accepted(arrivals) ==> Arrival(b.chunkChar, Found(b.items)) in arrivals
  {
    if arrivals != [] {
      AcceptedCountsSuccesses(arrivals[1..]);
      forall b | b in Accepted(arrivals)
        ensures Arrival(b.chunkChar, Found(b.items)) in arrivals
      {
        if b !in Accepted(arrivals[1..]) {
          assert arrivals[0] == Arrival(b.chunkChar, Found(b.items));
        } else {
          assert Arrival(b.chunkChar, Found(b.items)) in arrivals[1..];
        }
      }
    }
  }

  /** When every search succeeds, the i-th completion becomes the i-th new batch. */
  lemma {:induction false} AllFoundAccepted(arrivals: seq<Arrival>)
    requires forall i :: 0 <= i < |arrivals| ==> arrivals[i].outcome.Found?
    ensures |Accepted(arrivals)| == |arrivals|
    ensures forall i :: 0 <= i < |arrivals| ==>
      Accepted(arrivals)[i] == Batch(arrivals[i].query, arrivals[i].outcome.items)
  {
    if arrivals != [] {
      AllFoundAccepted(arrivals[1..]);
    }
  }

  /** A failed search contributes nothing. */
  lemma {:induction false} FailuresAddNothing(arrivals: seq<Arrival>)
    requires forall i :: 0 <= i < |arrivals| ==> arrivals[i].outcome.SearchFailed?
    ensures Accepted(arrivals) == []
  {
    if arrivals != [] {
      FailuresAddNothing(arrivals[1..]);
    }
  }
}
