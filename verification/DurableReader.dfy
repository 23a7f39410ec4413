/** The reconnectable reader of one output file: a byte cursor, a buffer and, in text mode, a decoder. */
module DurableReaders {
  import opened Options
  import opened Jobs
  import opened Utf8
  import opened RemoteJob
  import opened StatusCaches

  const CHUNK_SIZE: nat := 65536

  const NEWLINE: int := 10

  /** The index of the first newline, or the length. */
  function FindNewline(units: seq<int>): (n: nat)
    ensures n <= |units| && NEWLINE !in units[..n] && (n < |units| ==> units[n] == NEWLINE)
  {
    if units == [] || units[0] == NEWLINE then 0
    else
      var n := 1 + FindNewline(units[1..]);
      assert units[..n] == [units[0]] + units[1..][..n - 1];
      n
  }

  function Least(a: int, b: int): int {
    if a <= b then a else b
  }

  class DurableReader {
    const cache: StatusCache
    const stream: Stream
    const text: bool
    const captured: bool
    var offset: nat
    var buffer: seq<int>    // bytes, or in text mode scalar values
    var kept: seq<Byte>     // the decoder's incomplete last character
    var eof: bool
    var eofReported: bool
    ghost var returned: seq<int>  // everything callers have been given
    ghost var sampled: nat        // the file's length when a terminal status was last sampled
    ghost var garbled: bool       // the decoder has met malformed output

    /** What a byte string reads as: its units, and the bytes a decoder would keep. */
    ghost function Reading(bytes: seq<Byte>): Option<(seq<int>, seq<Byte>)> {
      if text then DecodePrefix(bytes) else Some((bytes, []))
    }

    ghost predicate Valid()
      reads this, cache, cache.remote
    {
      var file := cache.remote.File(stream);
      && cache.Valid()
      && offset <= |file|
      && (!captured ==> eof && offset == 0)
      && (garbled ==> text && DecodePrefix(file).None?)
      && (!garbled ==> Reading(file[..offset]) == Some((returned + buffer, kept)))
      && (eof && captured ==> Terminal(cache.status.state) && sampled <= offset && (!garbled ==> kept == []))
    }

    constructor (cache: StatusCache, stream: Stream, text: bool, captured: bool)
      requires cache.Valid()
      ensures Valid() && this.cache == cache && this.stream == stream && this.text == text && this.captured == captured
      ensures returned == [] && buffer == [] && !eofReported && eof == !captured && !garbled
    {
      this.cache, this.stream, this.text, this.captured := cache, stream, text, captured;
      offset, buffer, kept := 0, [], [];
      eof, eofReported := !captured, false;
      returned, sampled, garbled := [], 0, false;
      new;
      assert cache.remote.File(stream)[..0] == [] && returned + buffer == [];
    }

    /** Growth of the file never disturbs what was read of it. */
    lemma ReadingGrows(before: seq<Byte>, after: seq<Byte>)
      requires before <= after && offset <= |before|
      ensures after[..offset] == before[..offset]
      ensures DecodePrefix(before).None? ==> DecodePrefix(after).None?
    {
      assert after == before + after[|before|..];
      DecodeInTwo(before, after[|before|..]);
    }

    /** A chunk read at the cursor extends the reading by what the decoder makes of it. */
    lemma ReadingExtends(file: seq<Byte>, units: seq<int>, rest: seq<Byte>, chunk: seq<Byte>)
      requires offset + |chunk| <= |file| && chunk == file[offset..offset + |chunk|]
      requires Reading(file[..offset]) == Some((units, rest))
      ensures !text ==> Reading(file[..offset + |chunk|]) == Some((units + chunk, []))
      ensures text && Decode(rest, chunk, false).Some? ==>
        var (cs, more) := Decode(rest, chunk, false).value;
        Reading(file[..offset + |chunk|]) == Some((units + cs, more))
      ensures text && Decode(rest, chunk, false).None? ==> DecodePrefix(file).None?
    {
      var end := offset + |chunk|;
      assert file[..end] == file[..offset] + chunk;
      assert file == file[..end] + file[end..];
      if text {
        TextExtends(file[..offset], chunk, file[end..], units, rest);
      }
    }

    static lemma TextExtends(a: seq<Byte>, chunk: seq<Byte>, later: seq<Byte>, units: seq<int>, rest: seq<Byte>)
      requires DecodePrefix(a) == Some((units, rest))
      ensures Decode(rest, chunk, false).Some? ==>
        var (cs, more) := Decode(rest, chunk, false).value;
        DecodePrefix(a + chunk) == Some((units + cs, more))
      ensures Decode(rest, chunk, false).None? ==> DecodePrefix((a + chunk) + later).None?
    {
      DecodeInTwo(a, chunk);
      DecodeInTwo(a + chunk, later);
    }

    /** Announce the end once; the handle may then clean up. */
    method ReportEof()
      modifies this`eofReported
      ensures eofReported
    {
      eofReported := true;
    }

    /** Take a chunk that was read at the cursor; the cursor passes it even if it does not decode. */
    method Take(chunk: seq<Byte>) returns (decoded: bool)
      requires Valid() && !eof
      requires offset + |chunk| <= |cache.remote.File(stream)|
      requires chunk == cache.remote.File(stream)[offset..offset + |chunk|]
      modifies this`offset, this`buffer, this`kept, this`garbled
      ensures Valid() && offset == old(offset) + |chunk| && old(buffer) <= buffer
      ensures !decoded ==> text && buffer == old(buffer)
    {
      ghost var file := cache.remote.File(stream);
      if !garbled {
        ReadingExtends(file, returned + buffer, kept, chunk);
      }
      offset := offset + |chunk|;
      if text {
        var result := Decode(kept, chunk, false);
        if result.None? {
          garbled := true;
          return false;
        }
        assert (returned + buffer) + result.value.0 == returned + (buffer + result.value.0);
        buffer, kept := buffer + result.value.0, result.value.1;
      } else {
        assert (returned + buffer) + chunk == returned + (buffer + chunk);
        buffer := buffer + chunk;
      }
      return true;
    }

    /** Flush the decoder and declare the end; an unfinished character is an error that changes nothing. */
    method Finish(ghost length: nat) returns (decoded: bool)
      requires Valid() && !eof && Terminal(cache.status.state) && length <= offset
      modifies this`buffer, this`kept, this`eof, this`eofReported, this`sampled
      ensures Valid() && eof == decoded && (eof ==> eofReported && sampled == length) && old(buffer) <= buffer
      ensures !decoded ==> text && buffer == old(buffer)
    {
      if text {
        var result := Decode(kept, [], true);
        if result.None? {
          return false;
        }
        FlushGivesNothing();
        assert buffer + [] == buffer;
        buffer, kept := buffer + result.value.0, [];
      }
      sampled := length;
      eof := true;
      ReportEof();
      return true;
    }

    /** Flushing the decoder succeeds only when it keeps nothing. */
    lemma FlushGivesNothing()
      requires Valid() && text && Decode(kept, [], true).Some?
      ensures !garbled ==> kept == [] && Decode(kept, [], true).value == ([], [])
    {
      assert kept + [] == kept;
      KeptIsIncomplete();
    }

    /** The kept bytes hold no whole character. */
    lemma KeptIsIncomplete()
      requires Valid()
      ensures text && !garbled ==> Scan(kept) == Incomplete
    {
      if text && !garbled {
        EncodeDecoded(cache.remote.File(stream)[..offset]);
      }
    }

    /** The two round trips of a fetch: is the job over, and what follows the cursor? */
    method Ask() returns (r: Result<(bool, seq<Byte>), Failure>, ghost length: nat)
      requires Valid() && !eof
      modifies cache, cache.remote
      ensures Valid()
      ensures r.Ok? ==>
        && r.value.1 == Slice(cache.remote.File(stream), offset, CHUNK_SIZE)
        && (r.value.0 ==> Terminal(cache.status.state)) && (Terminal(old(cache.status.state)) ==> r.value.0)
        && |old(cache.remote.File(stream))| <= length <= |cache.remote.File(stream)|
      ensures r.Ok? ==> |cache.remote.script| < |old(cache.remote.script)|
      ensures r.Err? ==> r.error == ConnectionLost
      ensures Progress(old(cache.status), cache.status)
      ensures old(cache.remote.stdout) <= cache.remote.stdout && old(cache.remote.stderr) <= cache.remote.stderr
      ensures |cache.remote.script| <= |old(cache.remote.script)|
    {
      ghost var file0 := cache.remote.File(stream);
      var status := cache.Refresh();
      ghost var file1 := cache.remote.File(stream);
      length := |file1|;
      ReadingGrows(file0, file1);
      if status.Err? {
        return Err(status.error), length;
      }
      var served, _, _ := cache.Await(OutputRequest(stream));
      ReadingGrows(file1, cache.remote.File(stream));
      if !served {
        return Err(ConnectionLost), length;
      }
      return Ok((Terminal(status.value.state), Slice(cache.remote.File(stream), offset, CHUNK_SIZE))), length;
    }

    /** An empty answer is the end only if the job was already known to be over when it was asked for. */
    method NothingRead(terminalBeforeRead: bool, ghost length: nat) returns (r: Result<(), Failure>)
      requires Valid() && !eof && (terminalBeforeRead ==> Terminal(cache.status.state) && length <= offset)
      modifies this`buffer, this`kept, this`eof, this`eofReported, this`sampled
      modifies cache, cache.remote
      ensures Valid() && old(buffer) <= buffer
      ensures eof ==> terminalBeforeRead && r.Ok? && eofReported && sampled == length
      ensures r.Ok? && terminalBeforeRead ==> eof
      ensures r.Err? ==> r.error == Undecodable && text && buffer == old(buffer)
      ensures Progress(old(cache.status), cache.status)
      ensures old(cache.remote.stdout) <= cache.remote.stdout && old(cache.remote.stderr) <= cache.remote.stderr
      ensures |cache.remote.script| <= |old(cache.remote.script)|
    {
      if !terminalBeforeRead {
        cache.Pause(0.1);
        Undisturbed();
        return Ok(());
      }
      var decoded := Finish(length);
      return if decoded then Ok(()) else Err(Undecodable);
    }

    /** What a fetch does with an answer: take the chunk, or find that nothing was read. */
    method UseAnswer(terminalBeforeRead: bool, chunk: seq<Byte>, ghost length: nat) returns (r: Result<(), Failure>)
      requires Valid() && !eof && (terminalBeforeRead ==> Terminal(cache.status.state))
      requires length <= |cache.remote.File(stream)| && chunk == Slice(cache.remote.File(stream), offset, CHUNK_SIZE)
      modifies this`offset, this`buffer, this`kept, this`eof, this`eofReported, this`sampled, this`garbled
      modifies cache, cache.remote
      ensures Valid() && old(buffer) <= buffer && offset == old(offset) + |chunk|
      ensures eof ==> r.Ok? && eofReported && chunk == [] && sampled == length
      ensures r.Ok? && terminalBeforeRead && chunk == [] ==> eof
      ensures r.Err? ==> r.error == Undecodable && text && buffer == old(buffer) && !eof
      ensures Progress(old(cache.status), cache.status)
      ensures old(cache.remote.stdout) <= cache.remote.stdout && old(cache.remote.stderr) <= cache.remote.stderr
      ensures |cache.remote.script| <= |old(cache.remote.script)|
    {
      if chunk != [] {
        var decoded := Take(chunk);
        return if decoded then Ok(()) else Err(Undecodable);
      }
      r := NothingRead(terminalBeforeRead, length);
    }

    /**
     One fetch. Bytes enter the buffer exactly when the cursor passes them, a failed request changes
     nothing, and the end is declared only when the file held nothing past the cursor after a terminal
     status had been seen. A fetch that succeeds passes what lay past the cursor, up to one chunk, and
     declares the end if the job was known to be over and nothing did.
     */
    method Fetch() returns (r: Result<(), Failure>)
      requires Valid()
      modifies this`offset, this`buffer, this`kept, this`eof, this`eofReported, this`sampled, this`garbled
      modifies cache, cache.remote
      ensures Valid()
      ensures old(eof) ==>
        && r.Ok? && eofReported && unchanged(cache) && unchanged(cache.remote)
        && unchanged(`offset, `buffer, `kept, `eof, `sampled, `garbled)
      ensures !old(eof) && r.Ok? ==> |cache.remote.script| < |old(cache.remote.script)|
      ensures old(buffer) <= buffer && old(offset) <= offset
      ensures eof && !old(eof) ==>
        r.Ok? && eofReported && offset == old(offset) && |old(cache.remote.File(stream))| <= sampled
      ensures r.Ok? && !old(eof) ==> offset >= Least(|old(cache.remote.File(stream))|, old(offset) + CHUNK_SIZE)
      ensures r.Ok? && !old(eof) && Terminal(old(cache.status.state)) && offset == old(offset) ==> eof
      ensures r.Err? ==>
        && (r.error == ConnectionLost || (r.error == Undecodable && text))
        && buffer == old(buffer) && eof == old(eof)
      ensures r == Err(ConnectionLost) ==> offset == old(offset)
      ensures Progress(old(cache.status), cache.status)
      ensures old(cache.remote.stdout) <= cache.remote.stdout && old(cache.remote.stderr) <= cache.remote.stderr
      ensures |cache.remote.script| <= |old(cache.remote.script)|
    {
      if eof {
        ReportEof();
        return Ok(());
      }
      var answer, length := Ask();
      if answer.Err? {
        return Err(answer.error);
      }
      r := UseAnswer(answer.value.0, answer.value.1, length);
    }

    /** Give the first `n` units of the buffer to the caller. */
    method Give(n: nat) returns (result: seq<int>)
      requires Valid() && n <= |buffer|
      modifies this`buffer, this`returned
      ensures Valid() && result == old(buffer)[..n] && buffer == old(buffer)[n..] && returned == old(returned) + result
    {
      result := buffer[..n];
      assert returned + buffer == (returned + result) + buffer[n..];
      buffer := buffer[n..];
      returned := returned + result;
    }

    /** Fetch until the end. */
    method FetchToEnd() returns (r: Result<(), Failure>)
      requires Valid()
      modifies this`offset, this`buffer, this`kept, this`eof, this`eofReported, this`sampled, this`garbled
      modifies cache, cache.remote
      ensures Valid() && old(buffer) <= buffer
      ensures r.Ok? ==> eof
      ensures old(eof) ==> r.Ok? && unchanged(cache) && unchanged(cache.remote) && unchanged(`buffer) && eof
      ensures eof && !old(eof) ==> eofReported && |old(cache.remote.File(stream))| <= sampled
      ensures Progress(old(cache.status), cache.status)
      ensures old(cache.remote.stdout) <= cache.remote.stdout && old(cache.remote.stderr) <= cache.remote.stderr
    {
      while !eof
        invariant Valid() && returned == old(returned) && old(buffer) <= buffer
        invariant old(eof) ==> unchanged(cache) && unchanged(cache.remote) && unchanged(`buffer) && eof
        invariant eof && !old(eof) ==> eofReported && |old(cache.remote.File(stream))| <= sampled
        invariant Progress(old(cache.status), cache.status)
        invariant old(cache.remote.stdout) <= cache.remote.stdout && old(cache.remote.stderr) <= cache.remote.stderr
        decreases |cache.remote.script|
      {
        var fetched := Fetch();
        if fetched.Err? {
          return fetched;
        }
      }
      return Ok(());
    }

    /** Fetch until there is something to give or the end. */
    method FetchSome() returns (r: Result<(), Failure>)
      requires Valid()
      modifies this`offset, this`buffer, this`kept, this`eof, this`eofReported, this`sampled, this`garbled
      modifies cache, cache.remote
      ensures Valid() && old(buffer) <= buffer
      ensures r.Ok? ==> buffer != [] || eof
      ensures old(eof) ==> r.Ok? && unchanged(cache) && unchanged(cache.remote) && unchanged(`buffer) && eof
      ensures eof && !old(eof) ==> eofReported && |old(cache.remote.File(stream))| <= sampled
      ensures Progress(old(cache.status), cache.status)
      ensures old(cache.remote.stdout) <= cache.remote.stdout && old(cache.remote.stderr) <= cache.remote.stderr
    {
      while buffer == [] && !eof
        invariant Valid() && returned == old(returned) && old(buffer) <= buffer
        invariant old(eof) ==> unchanged(cache) && unchanged(cache.remote) && unchanged(`buffer) && eof
        invariant eof && !old(eof) ==> eofReported && |old(cache.remote.File(stream))| <= sampled
        invariant Progress(old(cache.status), cache.status)
        invariant old(cache.remote.stdout) <= cache.remote.stdout && old(cache.remote.stderr) <= cache.remote.stderr
        decreases |cache.remote.script|
      {
        var fetched := Fetch();
        if fetched.Err? {
          return fetched;
        }
      }
      return Ok(());
    }

    /** Fetch until there is a whole line or the end. */
    method FetchLine() returns (r: Result<(), Failure>)
      requires Valid()
      modifies this`offset, this`buffer, this`kept, this`eof, this`eofReported, this`sampled, this`garbled
      modifies cache, cache.remote
      ensures Valid() && old(buffer) <= buffer
      ensures r.Ok? ==> FindNewline(buffer) < |buffer| || eof
      ensures old(eof) ==> r.Ok? && unchanged(cache) && unchanged(cache.remote) && unchanged(`buffer) && eof
      ensures eof && !old(eof) ==> eofReported && |old(cache.remote.File(stream))| <= sampled
      ensures Progress(old(cache.status), cache.status)
      ensures old(cache.remote.stdout) <= cache.remote.stdout && old(cache.remote.stderr) <= cache.remote.stderr
    {
      while FindNewline(buffer) == |buffer| && !eof
        invariant Valid() && returned == old(returned) && old(buffer) <= buffer
        invariant old(eof) ==> unchanged(cache) && unchanged(cache.remote) && unchanged(`buffer) && eof
        invariant eof && !old(eof) ==> eofReported && |old(cache.remote.File(stream))| <= sampled
        invariant Progress(old(cache.status), cache.status)
        invariant old(cache.remote.stdout) <= cache.remote.stdout && old(cache.remote.stderr) <= cache.remote.stderr
        decreases |cache.remote.script|
      {
        var fetched := Fetch();
        if fetched.Err? {
          return fetched;
        }
      }
      return Ok(());
    }

    /**
     `read`: with n < 0 everything up to the end, otherwise at most n units and at least one unless the
     end has been reached. A failure gives the caller nothing and loses nothing.
     */
    method Read(n: int) returns (r: Result<seq<int>, Failure>)
      requires Valid()
      modifies this, cache, cache.remote
      ensures Valid()
      ensures r.Ok? ==> returned == old(returned) + r.value
      ensures r.Err? ==> returned == old(returned) && old(buffer) <= buffer
      ensures r.Ok? && n < 0 ==> eof && buffer == []
      ensures r.Ok? && n >= 0 ==> |r.value| <= n
      ensures r.Ok? && n > 0 && r.value == [] ==> eof && buffer == []
      ensures r.Ok? && n > 0 ==> |r.value| == n || buffer == []
      ensures n == 0 ==> r == Ok([]) && unchanged(this) && unchanged(cache) && unchanged(cache.remote)
      ensures old(eof) ==> r.Ok? && unchanged(cache) && unchanged(cache.remote) && eof
      ensures eof && !old(eof) ==> eofReported && |old(cache.remote.File(stream))| <= sampled
      ensures Progress(old(cache.status), cache.status)
      ensures old(cache.remote.stdout) <= cache.remote.stdout && old(cache.remote.stderr) <= cache.remote.stderr
    {
      if n == 0 {
        return Ok([]);
      }
      if eof {
        ReportEof();
      }
      var fetched;
      if n < 0 { fetched := FetchToEnd(); } else { fetched := FetchSome(); }
      if fetched.Err? {
        return Err(fetched.error);
      }
      var result := Give(if 0 < n < |buffer| then n else |buffer|);
      return Ok(result);
    }

    /** `readline`: up to and including the first newline, or what is left at the end. */
    method ReadLine() returns (r: Result<seq<int>, Failure>)
      requires Valid()
      modifies this, cache, cache.remote
      ensures Valid()
      ensures r.Ok? ==> returned == old(returned) + r.value
      ensures r.Err? ==> returned == old(returned) && old(buffer) <= buffer
      ensures r.Ok? && r.value != [] ==> NEWLINE !in r.value[..|r.value| - 1]
      ensures r.Ok? && (r.value == [] || r.value[|r.value| - 1] != NEWLINE) ==> eof && buffer == []
      ensures old(eof) ==> r.Ok? && unchanged(cache) && unchanged(cache.remote) && eof
      ensures eof && !old(eof) ==> eofReported && |old(cache.remote.File(stream))| <= sampled
      ensures Progress(old(cache.status), cache.status)
      ensures old(cache.remote.stdout) <= cache.remote.stdout && old(cache.remote.stderr) <= cache.remote.stderr
    {
      if eof {
        ReportEof();
      }
      var fetched := FetchLine();
      if fetched.Err? {
        return Err(fetched.error);
      }
      var position := FindNewline(buffer);
      var line := Give(if position < |buffer| then position + 1 else |buffer|);
      return Ok(line);
    }

    /** `wait_eof`. */
    method WaitEof() returns (r: Result<(), Failure>)
      requires Valid()
      modifies this, cache, cache.remote
      ensures Valid() && returned == old(returned) && old(buffer) <= buffer
      ensures r.Ok? ==> eof && eofReported
      ensures eof && !old(eof) ==> |old(cache.remote.File(stream))| <= sampled
      ensures old(eof) ==> r.Ok? && unchanged(cache) && unchanged(cache.remote) && eof
      ensures Progress(old(cache.status), cache.status)
      ensures old(cache.remote.stdout) <= cache.remote.stdout && old(cache.remote.stderr) <= cache.remote.stderr
    {
      r := FetchToEnd();
      if r.Ok? {
        ReportEof();
      }
    }

    /** What other parts of the handle do to the cache and the remote does not disturb this reader. */
    twostate lemma Undisturbed()
      requires old(Valid()) && unchanged(this) && cache.Valid()
      requires old(cache.remote.stdout) <= cache.remote.stdout && old(cache.remote.stderr) <= cache.remote.stderr
      requires Progress(old(cache.status), cache.status)
      ensures Valid()
    {
      ReadingGrows(old(cache.remote.File(stream)), cache.remote.File(stream));
    }

    // What the invariant means to a caller

    /**
     Exactly-once output: what was returned and what is buffered is what the file's first bytes read as,
     in text mode for every file that is well-formed UTF-8 but perhaps for its last character.
     */
    lemma ReturnedIsPrefix()
      requires Valid() && (text ==> DecodePrefix(cache.remote.File(stream)).Some?)
      ensures !text ==> returned + buffer == cache.remote.File(stream)[..offset]
      ensures text ==>
        AllScalars(returned + buffer) && Encode(returned + buffer) + kept == cache.remote.File(stream)[..offset]
    {
      if text {
        EncodeDecoded(cache.remote.File(stream)[..offset]);
      }
    }

    /** At the end every byte that was there when a terminal status was sampled has reached the client. */
    lemma EofIsConclusive()
      requires Valid() && eof && captured && (text ==> DecodePrefix(cache.remote.File(stream)).Some?)
      ensures Terminal(cache.status.state) && sampled <= offset <= |cache.remote.File(stream)|
      ensures text ==> DecodeAll(cache.remote.File(stream)[..offset]) == Some(returned + buffer)
      ensures !text ==> returned + buffer == cache.remote.File(stream)[..offset]
    {
      if text {
        assert [] + cache.remote.File(stream)[..offset] == cache.remote.File(stream)[..offset];
      }
    }
  }
}
