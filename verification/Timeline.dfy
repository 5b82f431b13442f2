/** The interference probe's timeline: request samples counted in buckets of wall time. */
module Timeline {
  const BUCKET := 5.0

  /** A request: when it was made and how long it took. */
  datatype Sample = Sample(at: real, milliseconds: real)

  datatype Bucket = Bucket(from: real, to: real, requests: nat, uploads: nat)

  /** The samples of a half-open interval of time. */
  function Window(samples: seq<Sample>, from: real, to: real): (w: seq<Sample>)
  {
    if samples == [] then []
    else
      var n := |samples| - 1;
      var before := Window(samples[..n], from, to);
      if from <= samples[n].at < to then before + [samples[n]] else before
  }

  /** Neighbouring windows add up. */
  lemma {:induction false} WindowsAddUp(samples: seq<Sample>, from: real, mid: real, to: real)
    requires from <= mid <= to
    ensures |Window(samples, from, mid)| + |Window(samples, mid, to)| == |Window(samples, from, to)|
  {
    if samples != [] { WindowsAddUp(samples[..|samples| - 1], from, mid, to); }
  }

  lemma {:induction false} EmptyWindow(samples: seq<Sample>, from: real)
    ensures Window(samples, from, from) == []
  {
    if samples != [] { EmptyWindow(samples[..|samples| - 1], from); }
  }

  function Requests(buckets: seq<Bucket>): (n: nat)
  {
    if buckets == [] then 0 else Requests(buckets[..|buckets| - 1]) + buckets[|buckets| - 1].requests
  }

  function Uploads(buckets: seq<Bucket>): (n: nat)
  {
    if buckets == [] then 0 else Uploads(buckets[..|buckets| - 1]) + buckets[|buckets| - 1].uploads
  }

  /** Buckets of at most five seconds that follow each other without gap or overlap from 0 to `end`. */
  ghost predicate Tiles(buckets: seq<Bucket>, end: real) {
    && (if buckets == [] then end == 0.0 else buckets[0].from == 0.0 && buckets[|buckets| - 1].to == end)
    && (forall i :: 0 <= i < |buckets| ==> buckets[i].from < buckets[i].to <= buckets[i].from + BUCKET)
    && (forall i :: 0 < i < |buckets| ==> buckets[i].from == buckets[i - 1].to)
  }

  function Left(start: real, seconds: real): (n: nat)
  {
    if start >= seconds then 0 else ((seconds - start) / BUCKET).Floor + 1
  }

  ghost predicate Counts(b: Bucket, stats: seq<Sample>, puts: seq<Sample>, uploads: seq<Sample>) {
    && b.requests == |Window(stats, b.from, b.to)| + |Window(puts, b.from, b.to)|
    && b.uploads == |Window(uploads, b.from, b.to)|
  }

  /** The buckets tile the time up to `end`, each counts its own interval, and together they count it all. */
  ghost predicate Faithful(
      buckets: seq<Bucket>, stats: seq<Sample>, puts: seq<Sample>, uploads: seq<Sample>, end: real)
  {
    && Tiles(buckets, end)
    && Requests(buckets) == |Window(stats, 0.0, end)| + |Window(puts, 0.0, end)|
    && Uploads(buckets) == |Window(uploads, 0.0, end)|
    && (forall i :: 0 <= i < |buckets| ==> Counts(buckets[i], stats, puts, uploads))
  }

  lemma FaithfulStart(stats: seq<Sample>, puts: seq<Sample>, uploads: seq<Sample>)
    ensures Faithful([], stats, puts, uploads, 0.0)
  {
    EmptyWindow(stats, 0.0);
    EmptyWindow(puts, 0.0);
    EmptyWindow(uploads, 0.0);
  }

  lemma FaithfulStep(buckets: seq<Bucket>, b: Bucket, stats: seq<Sample>, puts: seq<Sample>, uploads: seq<Sample>)
    requires 0.0 <= b.from < b.to <= b.from + BUCKET
    requires Faithful(buckets, stats, puts, uploads, b.from) && Counts(b, stats, puts, uploads)
    ensures Faithful(buckets + [b], stats, puts, uploads, b.to)
  {
    WindowsAddUp(stats, 0.0, b.from, b.to);
    WindowsAddUp(puts, 0.0, b.from, b.to);
    WindowsAddUp(uploads, 0.0, b.from, b.to);
    assert (buckets + [b])[..|buckets|] == buckets;
  }

  /** The buckets tile the whole time, so no request in it is lost or counted twice. */
  method MakeTimeline(stats: seq<Sample>, puts: seq<Sample>, uploads: seq<Sample>, seconds: real)
    returns (buckets: seq<Bucket>)
    ensures Faithful(buckets, stats, puts, uploads, if seconds > 0.0 then seconds else 0.0)
  {
    buckets := [];
    var start := 0.0;
    FaithfulStart(stats, puts, uploads);
    while start < seconds
      invariant 0.0 <= start && (start == 0.0 || start <= seconds)
      invariant Faithful(buckets, stats, puts, uploads, start)
      decreases Left(start, seconds)
    {
      var end := if start + BUCKET < seconds then start + BUCKET else seconds;
      var requests := |Window(stats, start, end)| + |Window(puts, start, end)|;
      var bucket := Bucket(start, end, requests, |Window(uploads, start, end)|);
      FaithfulStep(buckets, bucket, stats, puts, uploads);
      LeftShrinks(start, end, seconds);
      buckets := buckets + [bucket];
      start := end;
    }
  }

  lemma LeftShrinks(start: real, end: real, seconds: real)
    requires start < seconds && (end == start + BUCKET || end == seconds)
    ensures Left(end, seconds) < Left(start, seconds)
  {
    if end < seconds {
      assert (seconds - end) / BUCKET == (seconds - start) / BUCKET - 1.0;
    }
  }
}
