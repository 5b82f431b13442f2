/** `fixture_body` and `inspect_all`: a body of self-describing blocks, and the pagination of its cleanup
    ledger against any server. */
module Inspection {
  import opened BigEndian
  import opened Optional
  import opened Text

  const BLOCK_SIZE := 4096

  // ---------------------------------------------------------------- the fixture

  /** Block `n`: its number in four bytes, then one filler byte to the end. */
  function Block(n: nat): (b: seq<byte>)
    ensures |b| == BLOCK_SIZE
  {
    ToBytes(n, 4) + seq(BLOCK_SIZE - 4, _ => n % 251)
  }

  function Blocks(count: nat): (body: seq<byte>)
    ensures |body| == count * BLOCK_SIZE
  {
    if count == 0 then [] else Blocks(count - 1) + Block(count - 1)
  }

  /** None where a block number does not fit its four bytes. */
  function FixtureBody(count: nat): (body: Option<seq<byte>>)
  {
    if count <= Span(4) then Some(Blocks(count)) else None
  }

  /** A slice as the language takes it, cut off at the end. */
  function Slice(body: seq<byte>, low: nat, high: nat): (part: seq<byte>)
  {
    var stop := if high < |body| then high else |body|;
    if low < stop then body[low..stop] else []
  }

  function BlockAt(body: seq<byte>, n: nat): (part: seq<byte>)
  {
    Slice(body, n * BLOCK_SIZE, (n + 1) * BLOCK_SIZE)
  }

  /** Slicing the fixture at block `n` gives block `n`. */
  lemma {:induction false} SliceIsBlock(count: nat, n: nat)
    requires n < count
    ensures BlockAt(Blocks(count), n) == Block(n)
  {
    var before, last := Blocks(count - 1), Block(count - 1);
    if n == count - 1 {
      assert (before + last)[n * BLOCK_SIZE..] == last;
    } else {
      SliceIsBlock(count - 1, n);
      assert (n + 1) * BLOCK_SIZE <= (count - 1) * BLOCK_SIZE;
      assert (before + last)[n * BLOCK_SIZE..(n + 1) * BLOCK_SIZE] == before[n * BLOCK_SIZE..(n + 1) * BLOCK_SIZE];
    }
  }

  /** Distinct blocks of a fixture differ. */
  lemma BlocksDiffer(m: nat, n: nat)
    requires m != n && m < Span(4) && n < Span(4)
    ensures Block(m) != Block(n)
  {
    WriteThenRead(m, 4);
    WriteThenRead(n, 4);
    assert Block(m)[..4] == ToBytes(m, 4) && Block(n)[..4] == ToBytes(n, 4);
  }

  // ---------------------------------------------------------------- pages

  /** What all pages of one inspection must share. */
  datatype Interval = Interval(
    operationToken: string, publicationToken: string, registered: int, cleaned: int, remaining: int, namespace: string)

  datatype Row = Row(sequence: int, length: nat, digest: string, identity: string)

  datatype Page = Page(
    succeeded: bool, operation: string, boundOperation: string, boundPublication: string,
    interval: Interval, rows: seq<Row>, nextCursor: Option<string>)

  datatype Fixture = Fixture(operation: string, publication: string, registered: nat, cleaned: nat, payload: seq<byte>)

  function HexDigit(d: nat): (c: char)
    requires d < 16
  {
    "0123456789abcdef"[d]
  }

  /** Lower-case hexadecimal in at least `width` digits. */
  function Hex(n: nat, width: nat): (text: string)
    ensures |text| >= width
  {
    if n == 0 && width == 0 then [] else Hex(n / 16, if width == 0 then 0 else width - 1) + [HexDigit(n % 16)]
  }

  /** The checks on one page by itself. */
  predicate Answers(f: Fixture, page: Page, limit: nat) {
    && page.succeeded
    && page.operation == f.operation
    && page.boundOperation == f.operation && page.boundPublication == f.publication
    && |page.rows| <= limit
  }

  predicate Describes(f: Fixture, i: Interval) {
    i.registered == f.registered && i.cleaned == f.cleaned && i.remaining == i.registered - i.cleaned
  }

  predicate RowIsExact(f: Fixture, sha: seq<byte> -> string, row: Row)
    requires row.sequence >= 0
  {
    var block := BlockAt(f.payload, row.sequence);
    row.length == |block| && row.digest == "sha256:" + sha(block)
      && EndsWith(row.identity, "/blocks/" + Hex(row.sequence, 16))
  }

  function Gathered(pages: seq<Page>): (rows: seq<Row>)
  {
    if pages == [] then [] else Gathered(pages[..|pages| - 1]) + pages[|pages| - 1].rows
  }

  lemma GatheredStep(pages: seq<Page>, page: Page)
    ensures Gathered(pages + [page]) == Gathered(pages) + page.rows
  {
    assert (pages + [page])[..|pages|] == pages;
  }

  /** Nonempty pages of at most `limit` rows bound the number of rows from both sides. */
  lemma {:induction false} PageCounts(pages: seq<Page>, limit: nat)
    requires forall k :: 0 <= k < |pages| ==> |pages[k].rows| <= limit
    requires forall k :: 0 <= k < |pages| - 1 ==> pages[k].rows != []
    ensures |Gathered(pages)| <= |pages| * limit
    ensures |pages| <= |Gathered(pages)| + 1
    ensures pages != [] && pages[|pages| - 1].rows != [] ==> |pages| <= |Gathered(pages)|
  {
    if pages != [] {
      var n := |pages| - 1;
      PageCounts(pages[..n], limit);
      assert n > 0 ==> pages[..n][n - 1] == pages[n - 1];
      assert |pages| * limit == n * limit + limit;
    }
  }

  /** The server: any page, or none at all. */
  class Server {
    ghost var served: nat

    constructor ()
      ensures served == 0
    {
      served := 0;
    }

    method Inspect(operation: string, limit: nat, cursor: Option<string>) returns (page: Option<Page>)
      modifies this
      ensures served == old(served) + 1
    {
      page := *;
      served := served + 1;
    }
  }

  /** What a successful inspection shows: every remaining sequence once, in order, with the digest of its
      own block. */
  ghost predicate ListsRemaining(f: Fixture, sha: seq<byte> -> string, rows: seq<Row>) {
    && f.cleaned + |rows| == (if f.cleaned <= f.registered then f.registered else f.cleaned)
    && (forall k :: 0 <= k < |rows| ==> rows[k].sequence == f.cleaned + k && RowIsExact(f, sha, rows[k]))
  }

  method CheckSequences(rows: seq<Row>, low: int, high: int) returns (ok: bool)
    ensures ok <==> |rows| == (if low <= high then high - low else 0)
                    && forall k :: 0 <= k < |rows| ==> rows[k].sequence == low + k
  {
    if |rows| != (if low <= high then high - low else 0) {
      return false;
    }
    for k := 0 to |rows|
      invariant forall j :: 0 <= j < k ==> rows[j].sequence == low + j
    {
      if rows[k].sequence != low + k {
        return false;
      }
    }
    return true;
  }

  method CheckRows(f: Fixture, sha: seq<byte> -> string, rows: seq<Row>) returns (ok: bool)
    requires forall k :: 0 <= k < |rows| ==> rows[k].sequence >= 0
    ensures ok <==> forall k :: 0 <= k < |rows| ==> RowIsExact(f, sha, rows[k])
  {
    for k := 0 to |rows|
      invariant forall j :: 0 <= j < k ==> RowIsExact(f, sha, rows[j])
    {
      if !RowIsExact(f, sha, rows[k]) {
        return false;
      }
    }
    return true;
  }

  /** Pages that answer, share one interval, and all but the last have rows. */
  ghost predicate Chained(f: Fixture, limit: nat, pages: seq<Page>) {
    && pages != []
    && (forall k :: 0 <= k < |pages| ==> Answers(f, pages[k], limit) && pages[k].interval == pages[0].interval)
    && (forall k :: 0 <= k < |pages| - 1 ==> pages[k].rows != [])
  }

  lemma ChainedStep(f: Fixture, limit: nat, pages: seq<Page>, page: Page)
    requires pages == [] || (Chained(f, limit, pages) && pages[|pages| - 1].rows != []
             && page.interval == pages[0].interval)
    requires Answers(f, page, limit)
    ensures Chained(f, limit, pages + [page]) && (pages + [page])[|pages|] == page
  {
  }

  /** Follows the cursors; against any server it ends within `registered + 2` pages. */
  method FetchPages(server: Server, f: Fixture, limit: nat) returns (fetched: Option<seq<Page>>, rows: seq<Row>)
    modifies server
    ensures old(server.served) < server.served <= old(server.served) + f.registered + 2
    ensures fetched.Some? ==> |fetched.value| == server.served - old(server.served)
    ensures fetched.Some? ==> Chained(f, limit, fetched.value) && rows == Gathered(fetched.value)
  {
    var cursor: Option<string> := None;
    var pages: seq<Page> := [];
    rows := [];
    while true
      invariant rows == Gathered(pages)
      invariant server.served == old(server.served) + |pages|
      invariant |pages| <= f.registered + 1
      invariant pages != [] ==> Chained(f, limit, pages) && pages[|pages| - 1].rows != []
      decreases f.registered + 1 - |pages|
    {
      var page := server.Inspect(f.operation, limit, cursor);
      if page.None? || !Answers(f, page.value, limit) {
        return None, rows;
      }
      if pages != [] && page.value.interval != pages[0].interval {
        return None, rows;
      }
      GatheredStep(pages, page.value);
      ChainedStep(f, limit, pages, page.value);
      pages := pages + [page.value];
      rows := rows + page.value.rows;
      cursor := page.value.nextCursor;
      if cursor.None? {
        return Some(pages), rows;
      }
      if page.value.rows == [] || |pages| > f.registered + 1 {
        return None, rows;
      }
    }
  }

  method CheckLedger(f: Fixture, sha: seq<byte> -> string, first: Interval, rows: seq<Row>) returns (ok: bool)
    ensures ok <==> Describes(f, first) && ListsRemaining(f, sha, rows)
  {
    if !Describes(f, first) {
      return false;
    }
    ok := CheckSequences(rows, first.cleaned, first.registered);
    if ok {
      ok := CheckRows(f, sha, rows);
    }
  }

  /** If the loop accepts, the pages list every remaining sequence exactly once with its own block's
      digest, and their number is between remaining / limit, rounded up, and remaining + 1. */
  method InspectAll(server: Server, f: Fixture, sha: seq<byte> -> string, limit: nat)
    returns (accepted: Option<seq<Page>>)
    modifies server
    ensures old(server.served) < server.served <= old(server.served) + f.registered + 2
    ensures accepted.Some? ==>
              var pages := accepted.value;
              && |pages| == server.served - old(server.served)
              && Chained(f, limit, pages) && Describes(f, pages[0].interval)
              && ListsRemaining(f, sha, Gathered(pages))
              && |Gathered(pages)| <= |pages| * limit && |pages| <= |Gathered(pages)| + 1
  {
    var pages, rows := FetchPages(server, f, limit);
    if pages.None? {
      return None;
    }
    PageCounts(pages.value, limit);
    var ok := CheckLedger(f, sha, pages.value[0].interval, rows);
    return if ok then pages else None;
  }

  lemma AcceptedRow(f: Fixture, sha: seq<byte> -> string, rows: seq<Row>, i: nat)
    requires FixtureBody(f.registered) == Some(f.payload) && ListsRemaining(f, sha, rows) && i < |rows|
    ensures rows[i].length == BLOCK_SIZE && rows[i].digest == "sha256:" + sha(Block(f.cleaned + i))
  {
    SliceIsBlock(f.registered, f.cleaned + i);
    assert RowIsExact(f, sha, rows[i]);
  }

  lemma PrefixedDiffer(a: string, b: string)
    requires "sha256:" + a == "sha256:" + b
    ensures a == b
  {
    assert a == ("sha256:" + a)[7..] && b == ("sha256:" + b)[7..];
  }

  /** For the fixture's own body and a digest without collisions, an accepted row identifies its block:
      it carries the digest of that block and no other row does. */
  lemma AcceptedRowsIdentifyBlocks(f: Fixture, sha: seq<byte> -> string, rows: seq<Row>, i: nat, j: nat)
    requires FixtureBody(f.registered) == Some(f.payload) && ListsRemaining(f, sha, rows)
    requires i < |rows| && j < |rows|
    requires forall a: seq<byte>, b: seq<byte> :: sha(a) == sha(b) ==> a == b
    ensures rows[i].length == BLOCK_SIZE && rows[i].digest == "sha256:" + sha(Block(f.cleaned + i))
    ensures rows[i].digest == rows[j].digest ==> i == j
  {
    AcceptedRow(f, sha, rows, i);
    AcceptedRow(f, sha, rows, j);
    if rows[i].digest == rows[j].digest {
      PrefixedDiffer(sha(Block(f.cleaned + i)), sha(Block(f.cleaned + j)));
      if i != j { BlocksDiffer(f.cleaned + i, f.cleaned + j); }
    }
  }
}
