/** The thread that drains a worker's pipe and keeps a bounded tail of it. */
module BoundedTail {

  type Bytes = seq<char>

  /** One read(2): some bytes, the end of the stream, an interruption, or another error. */
  datatype Read = Data(bytes: Bytes) | Eof | Interrupted | ReadError

  /** The stream up to its end or to the first error; interruptions are not errors, and a read of
      nothing is the end. */
  function Received(answers: seq<Read>): Bytes {
    if answers == [] then []
    else match answers[0]
      case Data(bytes) => if bytes == [] then [] else bytes + Received(answers[1..])
      case Interrupted => Received(answers[1..])
      case _ => []
  }

  function LastBytes(stream: Bytes, max: nat): Bytes {
    if |stream| <= max then stream else stream[|stream| - max..]
  }

  /** Dropping from the front as one goes along leaves the tail of the whole. */
  lemma TailOfTail(before: Bytes, chunk: Bytes, max: nat)
    ensures LastBytes(LastBytes(before, max) + chunk, max) == LastBytes(before + chunk, max)
  {
    var kept := LastBytes(before, max);
    var dropped := |before| - |kept|;
    assert before == before[..dropped] + kept;
    assert before + chunk == before[..dropped] + (kept + chunk);
  }

  /** One more chunk, and the excess dropped from the front. */
  method Extend(ghost before: Bytes, buf: Bytes, truncated: bool, chunk: Bytes, max: nat) returns (buf': Bytes, truncated': bool)
    requires buf == LastBytes(before, max) && truncated == (|before| > max)
    ensures buf' == LastBytes(before + chunk, max) && truncated' == (|before + chunk| > max)
  {
    TailOfTail(before, chunk, max);
    buf', truncated' := buf + chunk, truncated;
    if |buf'| > max {
      buf' := buf'[|buf'| - max..];
      truncated' := true;
    }
  }

  /** `spawn_drainer`: the last `max` bytes of the stream however it arrives in chunks, and the marker in
      front of them exactly when there were more. */
  method Drain(answers: seq<Read>, max: nat, marker: Bytes) returns (result: Bytes)
    ensures |Received(answers)| <= max ==> result == Received(answers)
    ensures |Received(answers)| > max ==> result == marker + Received(answers)[|Received(answers)| - max..]
  {
    var buf: Bytes, truncated := [], false;
    ghost var before: Bytes := [];
    var k := 0;
    SoFarStarts(answers);
    while k < |answers|
      invariant k <= |answers| && SoFar(answers, k, before)
      invariant buf == LastBytes(before, max) && truncated == (|before| > max)
    {
      SoFarGoesOn(answers, k, before);
      if answers[k].Data? && answers[k].bytes != [] {
        var chunk := answers[k].bytes;
        buf, truncated := Extend(before, buf, truncated, chunk, max);
        before := before + chunk;
      } else if !answers[k].Interrupted? {
        break;
      }
      k := k + 1;
    }
    if k == |answers| {
      SoFarEnds(answers, before);
    }
    assert Received(answers) == before;
    return if truncated then marker + buf else buf;
  }

  /** The stream is what was read so far, followed by what the remaining answers bring. */
  ghost predicate SoFar(answers: seq<Read>, k: nat, before: Bytes)
    requires k <= |answers|
  {
    Received(answers) == before + Received(answers[k..])
  }

  lemma SoFarStarts(answers: seq<Read>)
    ensures SoFar(answers, 0, [])
  {
    assert answers[0..] == answers;
    assert [] + Received(answers) == Received(answers);
  }

  lemma SoFarGoesOn(answers: seq<Read>, k: nat, before: Bytes)
    requires k < |answers| && SoFar(answers, k, before)
    ensures answers[k].Data? && answers[k].bytes != [] ==> SoFar(answers, k + 1, before + answers[k].bytes)
    ensures answers[k].Interrupted? ==> SoFar(answers, k + 1, before)
    ensures !(answers[k].Data? && answers[k].bytes != []) && !answers[k].Interrupted? ==> Received(answers) == before
  {
    assert answers[k..][1..] == answers[k + 1..];
    if answers[k].Data? && answers[k].bytes != [] {
      assert before + (answers[k].bytes + Received(answers[k + 1..])) == (before + answers[k].bytes) + Received(answers[k + 1..]);
    }
  }

  lemma SoFarEnds(answers: seq<Read>, before: Bytes)
    requires SoFar(answers, |answers|, before)
    ensures Received(answers) == before
  {}
}
