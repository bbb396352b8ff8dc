/**
 * The integer bookkeeping of a download: which chunk size and request bound `start` picks,
 * where a resumed download continues, and what one run of `startDownloadRequest` does to
 * the request list and the offset cursor.
 */
module Chunking {
  import opened JavaInt

  const DOWNLOAD_CHUNK_SIZE: int := 1024 * 32
  const DOWNLOAD_CHUNK_SIZE_BIG: int := 1024 * 128
  const MAX_DOWNLOAD_REQUESTS: int := 4
  const MAX_DOWNLOAD_REQUESTS_BIG: int := 2
  const BIG_FILE_SIZE_FROM: int := 1024 * 1024

  datatype Policy = Policy(chunkSize: int, maxRequests: int)

  predicate IsChunkSize(c: int) {
    c == DOWNLOAD_CHUNK_SIZE || c == DOWNLOAD_CHUNK_SIZE_BIG
  }

  /**
   * Files of at least 1 MiB go in 128 KiB chunks, two at a time; smaller ones (and an unknown or
   * negative total) in 32 KiB chunks, four at a time. Either way at most 256 KiB is requested at once.
   */
  function ChunkPolicy(total: Int32): (p: Policy)
    ensures IsChunkSize(p.chunkSize)
    ensures p.chunkSize == DOWNLOAD_CHUNK_SIZE_BIG <==> total >= BIG_FILE_SIZE_FROM
    ensures p.maxRequests == MAX_DOWNLOAD_REQUESTS_BIG <==> total >= BIG_FILE_SIZE_FROM
    ensures p.maxRequests == MAX_DOWNLOAD_REQUESTS <==> total < BIG_FILE_SIZE_FROM
    ensures 0 < p.chunkSize * p.maxRequests <= 256 * 1024
  {
    if total >= BIG_FILE_SIZE_FROM then Policy(DOWNLOAD_CHUNK_SIZE_BIG, MAX_DOWNLOAD_REQUESTS_BIG)
    else Policy(DOWNLOAD_CHUNK_SIZE, MAX_DOWNLOAD_REQUESTS)
  }

  /**
   * `downloadedBytes = (int) tempLength; downloadedBytes / chunk * chunk`: the temp file's length,
   * cast to `int`, rounded to a chunk multiple with Java's truncating division.
   */
  function ResumeOffset(tempLength: nat, chunk: int): (r: Int32)
    requires IsChunkSize(chunk)
    ensures r % chunk == 0
  {
    var q := Div(Wrap32(tempLength), chunk);
    assert (q * chunk) % chunk == 0 by {
      if chunk == DOWNLOAD_CHUNK_SIZE { assert q * chunk == q * 0x8000; } else { assert q * chunk == q * 0x2_0000; }
    }
    q * chunk
  }

  /** A temp file below 2 GiB resumes at the last whole chunk it holds: never past its end, never a full chunk short. */
  lemma ResumeRoundsDown(tempLength: nat, chunk: int)
    requires IsChunkSize(chunk)
    requires tempLength <= INT_MAX
    ensures var r := ResumeOffset(tempLength, chunk);
      0 <= r <= tempLength && tempLength - r < chunk && r == (tempLength / chunk) * chunk
  {
    var q := tempLength / chunk;
    assert tempLength == q * chunk + tempLength % chunk;
  }

  /** A temp file of 50000 bytes with 32 KiB chunks resumes at 32768, not at 50000. */
  lemma ResumeExample()
    ensures ResumeOffset(50000, DOWNLOAD_CHUNK_SIZE) == 32768
  {
    ResumeRoundsDown(50000, DOWNLOAD_CHUNK_SIZE);
  }

  /** What the `for` loop of `startDownloadRequest` achieves: requests added and the offset it stops at. */
  datatype Issue = Issue(added: nat, offset: Int32)

  /**
   * The loop run with `budget` iterations left from `offset`: it stops early once a known total
   * is reached, and otherwise adds one request and advances the offset by one chunk, wrapping
   * as `int` does.
   */
  function IssueLoop(total: Int32, offset: Int32, chunk: int, budget: nat): (r: Issue)
    ensures r.added <= budget
    decreases budget
  {
    if budget == 0 || (total > 0 && offset >= total) then Issue(0, offset)
    else
      var rest := IssueLoop(total, Wrap32(offset + chunk), chunk, budget - 1);
      Issue(rest.added + 1, rest.offset)
  }

  /**
   * One call of `startDownloadRequest`, given its state, the total, the cursor, the chunk size,
   * the number of requests already recorded and the bound. It does nothing unless downloading,
   * below a known total and under the bound; then it may add as many requests as the bound
   * leaves room for, or exactly one when the total is not positive.
   */
  function Schedule(downloading: bool, total: Int32, offset: Int32, chunk: int, pending: nat, maxRequests: int): (r: Issue)
    ensures !downloading || (total > 0 && offset >= total) || pending >= maxRequests ==> r == Issue(0, offset)
    ensures pending <= maxRequests ==> pending + r.added <= maxRequests
    ensures total <= 0 ==> r.added <= 1
  {
    if !downloading || (total > 0 && offset >= total) || pending >= maxRequests then Issue(0, offset)
    else
      var count := if total > 0 then (if maxRequests - pending > 0 then maxRequests - pending else 0) else 1;
      IssueLoop(total, offset, chunk, count)
  }

  /** The loop keeps the offset a multiple of the chunk size, wrap-around included. */
  lemma {:induction false} IssueLoopAligned(total: Int32, offset: Int32, chunk: int, budget: nat)
    requires IsChunkSize(chunk) && offset % chunk == 0
    ensures IssueLoop(total, offset, chunk, budget).offset % chunk == 0
    decreases budget
  {
    if !(budget == 0 || (total > 0 && offset >= total)) {
      StepKeepsAlignment(offset, chunk);
      IssueLoopAligned(total, Wrap32(offset + chunk), chunk, budget - 1);
    }
  }

  /** `nextDownloadOffset += chunk` keeps an aligned cursor aligned, wrap-around included. */
  lemma StepKeepsAlignment(offset: Int32, chunk: int)
    requires IsChunkSize(chunk) && offset % chunk == 0
    ensures Wrap32(offset + chunk) % chunk == 0
  {
    if chunk == DOWNLOAD_CHUNK_SIZE {
      assert (offset + 0x8000) % 0x8000 == 0;
    } else {
      assert (offset + 0x2_0000) % 0x2_0000 == 0;
    }
    WrapKeepsMultiple(offset + chunk, chunk);
  }

  /**
   * Without wrap-around, each added request advances the offset by exactly one chunk, and the
   * loop stops short of its budget only at a known total.
   */
  lemma {:induction false} IssueLoopAdvance(total: Int32, offset: Int32, chunk: int, budget: nat)
    requires chunk > 0
    requires offset + budget * chunk <= INT_MAX
    ensures var r := IssueLoop(total, offset, chunk, budget);
      r.offset == offset + r.added * chunk &&
      (r.added < budget ==> total > 0 && r.offset >= total) &&
      (total > 0 && r.added > 0 ==> r.offset - chunk < total)
    decreases budget
  {
    if !(budget == 0 || (total > 0 && offset >= total)) {
      MulStep(budget - 1, chunk);
      assert Wrap32(offset + chunk) == offset + chunk;
      IssueLoopAdvance(total, offset + chunk, chunk, budget - 1);
      var rest := IssueLoop(total, offset + chunk, chunk, budget - 1);
      MulStep(rest.added, chunk);
    }
  }

  lemma MulStep(a: nat, c: int)
    requires c > 0
    ensures (a + 1) * c == a * c + c && a * c >= 0
  {
  }

  /** One scheduling run keeps the cursor chunk-aligned. */
  lemma ScheduleAligned(downloading: bool, total: Int32, offset: Int32, chunk: int, pending: nat, maxRequests: int)
    requires IsChunkSize(chunk) && offset % chunk == 0
    ensures Schedule(downloading, total, offset, chunk, pending, maxRequests).offset % chunk == 0
  {
    if !(!downloading || (total > 0 && offset >= total) || pending >= maxRequests) {
      var count := if total > 0 then (if maxRequests - pending > 0 then maxRequests - pending else 0) else 1;
      IssueLoopAligned(total, offset, chunk, count);
    }
  }

  /**
   * For a file of known size below 2 GiB - 256 KiB, a scheduling run that does anything either
   * fills the bound or reaches the total, and every request it adds starts below the total.
   */
  lemma ScheduleFillsOrFinishes(total: Int32, offset: Int32, pending: nat)
    requires 0 < total && 0 <= offset < total && total <= INT_MAX - 256 * 1024
    requires pending < ChunkPolicy(total).maxRequests
    ensures var p := ChunkPolicy(total);
      var r := Schedule(true, total, offset, p.chunkSize, pending, p.maxRequests);
      r.added >= 1 &&
      r.offset == offset + r.added * p.chunkSize &&
      (pending + r.added == p.maxRequests || r.offset >= total) &&
      r.offset - p.chunkSize < total
  {
    var p := ChunkPolicy(total);
    var count := p.maxRequests - pending;
    assert count * p.chunkSize <= p.maxRequests * p.chunkSize;
    IssueLoopAdvance(total, offset, p.chunkSize, count);
  }

  /** A 40000-byte file: 32 KiB chunks, bound 4; the first run adds exactly two requests (offsets 0 and 32768). */
  lemma SmallFileExample()
    ensures ChunkPolicy(40000) == Policy(32768, 4)
    ensures Schedule(true, 40000, 0, 32768, 0, 4) == Issue(2, 65536)
    ensures Schedule(true, 40000, 65536, 32768, 2, 4) == Issue(0, 65536)
  {
  }

  /** A 2000000-byte file: 128 KiB chunks, bound 2. */
  lemma BigFileExample()
    ensures ChunkPolicy(2000000) == Policy(131072, 2)
    ensures Schedule(true, 2000000, 0, 131072, 0, 2) == Issue(2, 262144)
  {
  }
}
