/** Reading at most maxSize bytes from a source that delivers in arbitrary chunks. */
module BoundedRead {
  import opened Wrappers

  type Byte = bv8
  type Bytes = seq<Byte>
  type IOError = string

  predicate IsInt64(n: int) {
    -MAX_INT64 - 1 <= n <= MAX_INT64
  }

  /** Two's-complement addition of int64 values. */
  function Add64(a: int, b: int): int
    requires IsInt64(a) && IsInt64(b)
  {
    var n := a + b;
    if n > MAX_INT64 then n - 0x1_0000_0000_0000_0000
    else if n < -MAX_INT64 - 1 then n + 0x1_0000_0000_0000_0000
    else n
  }

  function Concat(chunks: seq<Bytes>): Bytes {
    if chunks == [] then [] else chunks[0] + Concat(chunks[1..])
  }

  function Max(a: int, b: int): int {
    if a < b then b else a
  }

  datatype Status = More | Eof | Failed(err: IOError)

  /**
   An io.ReadCloser: chunks of any size, empty ones included, then end of file
   or an error. With `eager` the last chunk arrives together with that end.
   */
  class Source {
    var chunks: seq<Bytes>
    var failure: Option<IOError>
    var eager: bool
    var consumed: nat
    var closes: nat

    constructor (chunks: seq<Bytes>, failure: Option<IOError>, eager: bool)
      ensures this.chunks == chunks && this.failure == failure && this.eager == eager
      ensures consumed == 0 && closes == 0
    {
      this.chunks, this.failure, this.eager := chunks, failure, eager;
      consumed, closes := 0, 0;
    }

    function Content(): Bytes
      reads this
    {
      Concat(chunks)
    }

    function End(): Status
      reads this
    {
      if failure.None? then Eof else Failed(failure.value)
    }

    /** Read into a buffer with room for `room` bytes. */
    method Read(room: nat) returns (data: Bytes, status: Status)
      requires room > 0
      modifies this
      ensures failure == old(failure) && eager == old(eager) && closes == old(closes)
      ensures old(Content()) == data + Content() && |data| <= room
      ensures consumed == old(consumed) + |data|
      ensures status == More || (status == End() && Content() == [])
      ensures status == More ==> |Content()| + |chunks| < old(|Content()| + |chunks|)
    {
      if |chunks| == 0 {
        return [], End();
      }
      var chunk := chunks[0];
      var n := if |chunk| < room then |chunk| else room;
      data := chunk[..n];
      consumed := consumed + n;
      assert chunk == chunk[..n] + chunk[n..];
      if n < |chunk| {
        chunks := [chunk[n..]] + chunks[1..];
        assert chunks[1..] == old(chunks)[1..];
      } else {
        chunks := chunks[1..];
      }
      status := if eager && chunks == [] then End() else More;
    }

    method Close()
      modifies this
      ensures closes == old(closes) + 1
      ensures chunks == old(chunks) && failure == old(failure) && eager == old(eager) && consumed == old(consumed)
    {
      closes := closes + 1;
    }
  }

  function Prefix(s: Bytes, n: int): Bytes {
    if n <= 0 then [] else if n < |s| then s[..n] else s
  }

  /** io.ReadAll(io.LimitReader(src, limit)), with whatever buffer growth append chooses. */
  method ReadAllLimited(src: Source, limit: int) returns (data: Bytes, err: Option<IOError>)
    modifies src
    ensures data == Prefix(old(src.Content()), limit)
    ensures src.consumed == old(src.consumed) + |data| && src.closes == old(src.closes)
    ensures src.failure == old(src.failure)
    ensures err == None || err == old(src.failure)
    ensures |old(src.Content())| < limit ==> err == old(src.failure)
    ensures |old(src.Content())| > limit || limit <= 0 ==> err == None
  {
    data, err := [], None;
    var remaining := limit;
    ghost var content := src.Content();
    while remaining > 0
      invariant content == data + src.Content()
      invariant remaining == limit - |data| && |data| <= Max(limit, 0)
      invariant src.consumed == old(src.consumed) + |data| && src.closes == old(src.closes)
      invariant src.failure == old(src.failure)
      decreases |src.Content()| + |src.chunks|
    {
      var room: nat :| room > 0;
      var piece, status := src.Read(if room < remaining then room else remaining);
      data := data + piece;
      remaining := remaining - |piece|;
      if status != More {
        if status.Failed? {
          err := Some(status.err);
        }
        return;
      }
    }
  }

  datatype ReadError = ReadFailed(err: IOError) | TooLarge

  /** What a caller wants: the whole content, if it is small enough and was read to its end. */
  function Wanted(content: Bytes, failure: Option<IOError>, maxSize: int): Option<Bytes> {
    if failure.None? && |content| <= maxSize then Some(content) else None
  }

  /** ReadWithContext when the context is not cancelled. */
  method ReadBounded(src: Source, maxSize: int) returns (res: Result<Bytes, ReadError>)
    requires IsInt64(maxSize)
    modifies src
    ensures src.closes == old(src.closes) + 1
    ensures src.consumed <= old(src.consumed) + Max(maxSize + 1, 0)
    ensures maxSize != MAX_INT64 ==>
              (res.Ok? <==> Wanted(old(src.Content()), old(src.failure), maxSize).Some?) &&
              (res.Ok? ==> res.value == old(src.Content()))
    // Too large is said of content that is too large; a failed read is reported unless the bound hid it.
    ensures maxSize != MAX_INT64 && |old(src.Content())| > maxSize + 1 ==> res == Err(TooLarge)
    ensures maxSize != MAX_INT64 && 0 <= maxSize && |old(src.Content())| <= maxSize ==>
              res == match old(src.failure) case Some(e) => Err(ReadFailed(e)) case None => Ok(old(src.Content()))
    ensures maxSize != MAX_INT64 && |old(src.Content())| == maxSize + 1 ==>
              res == Err(TooLarge) || (old(src.failure).Some? && res == Err(ReadFailed(old(src.failure).value)))
    ensures maxSize == MAX_INT64 ==> res == Ok([]) && src.consumed == old(src.consumed)
  {
    var data, err := ReadAllLimited(src, Add64(maxSize, 1));
    src.Close();
    if err.Some? {
      return Err(ReadFailed(err.value));
    }
    if |data| > maxSize {
      return Err(TooLarge);
    }
    return Ok(data);
  }

  /** The largest limit reads nothing at all: the bound wraps, and a non-empty secret comes out empty. */
  method LargestLimitLosesContent(content: Bytes) returns (res: Result<Bytes, ReadError>)
    requires 0 < |content| <= MAX_INT64
    ensures res == Ok([]) && Wanted(content, None, MAX_INT64) == Some(content)
  {
    var src := new Source([content], None, false);
    res := ReadBounded(src, MAX_INT64);
  }

  /** int64 addition: the one int64 that is the sum but for a multiple of 2^64. */
  lemma Add64Wraps(a: int, b: int)
    requires IsInt64(a) && IsInt64(b)
    ensures IsInt64(Add64(a, b)) && (Add64(a, b) - (a + b)) % 18_446_744_073_709_551_616 == 0
    ensures -9_223_372_036_854_775_808 <= Add64(a, b) <= 9_223_372_036_854_775_807
  {
  }
}
