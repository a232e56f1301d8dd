/** The size limit on a response body. */
module Download {

  type Byte = bv8

  function Concat(chunks: seq<seq<Byte>>): seq<Byte>
    decreases chunks
  {
    if chunks == [] then [] else chunks[0] + Concat(chunks[1..])
  }

  /** One attempt to download a body. `delivered` is what the write callback, if any, has consumed. */
  class Attempt {
    const limit: int
    const callback: bool
    var downloaded: int
    var delivered: seq<Byte>

    /** A limit of zero or less means none. */
    constructor (limit: int, callback: bool)
      ensures this.limit == limit && this.callback == callback && downloaded == 0 && delivered == []
    {
      this.limit, this.callback := limit, callback;
      downloaded, delivered := 0, [];
    }

    /** What has been counted is what has been handed over, and it is within the limit. */
    ghost predicate Valid()
      reads this
    {
      downloaded >= 0 && (callback ==> downloaded == |delivered|) && (limit > 0 ==> downloaded <= limit)
    }

    /** The user's write callback, which consumes all it is given. */
    method Consume(bytes: seq<Byte>) returns (w: nat)
      modifies this`delivered
      ensures w == |bytes| && delivered == old(delivered) + bytes
    {
      delivered := delivered + bytes;
      w := |bytes|;
    }

    /** write_thunk: libcurl goes on only if the answer is the size of the chunk. */
    method Write(chunk: seq<Byte>) returns (answer: nat)
      requires Valid()
      modifies this
      ensures Valid()
      ensures var before := old(downloaded);
        if limit > 0 && before + |chunk| > limit
        then answer == 0 && (callback ==> delivered == old(delivered) + chunk[..limit - before])
        else answer == |chunk| && downloaded == before + |chunk| && (callback ==> delivered == old(delivered) + chunk)
    {
      var total := |chunk|;
      if limit > 0 {
        if downloaded + total > limit {
          var allowed := if limit - downloaded > 0 then limit - downloaded else 0;
          if allowed > 0 && callback {
            var w := Consume(chunk[..allowed]);
            downloaded := downloaded + w;
          }
          return 0;
        }
      }
      downloaded := downloaded + total;
      if !callback {
        return total;
      }
      answer := Consume(chunk);
    }

    /**
     A whole attempt, however libcurl cuts the body into chunks: it delivers exactly the first `limit`
     bytes, in order, and is aborted exactly when the body is longer than that.
    */
    method Receive(chunks: seq<seq<Byte>>) returns (aborted: bool)
      requires Valid() && downloaded == 0 && delivered == []
      modifies this
      ensures aborted <==> limit > 0 && |Concat(chunks)| > limit
      ensures callback ==> delivered == if aborted then Concat(chunks)[..limit] else Concat(chunks)
    {
      var i := 0;
      ghost var body := Concat(chunks);
      while i < |chunks|
        invariant 0 <= i <= |chunks| && Valid() && downloaded + |Concat(chunks[i..])| == |body|
        invariant callback ==> delivered + Concat(chunks[i..]) == body
        invariant limit > 0 ==> downloaded <= limit
      {
        assert chunks[i..][1..] == chunks[i + 1..] && chunks[i] in chunks;
        ghost var before, rest := delivered, Concat(chunks[i + 1..]);
        var answer := Write(chunks[i]);
        if answer != |chunks[i]| {
          Truncated(before, chunks[i], rest, limit);
          return true;
        }
        Chunked(before, chunks[i], rest);
        i := i + 1;
      }
      assert chunks[i..] == [] && delivered + [] == delivered;
      aborted := false;
    }

    static lemma Chunked(before: seq<Byte>, chunk: seq<Byte>, rest: seq<Byte>)
      ensures before + (chunk + rest) == (before + chunk) + rest
    {}

    static lemma Truncated(before: seq<Byte>, chunk: seq<Byte>, rest: seq<Byte>, limit: int)
      ensures |before| <= limit < |before| + |chunk| ==>
        before + chunk[..limit - |before|] == (before + (chunk + rest))[..limit]
    {}
  }
}
