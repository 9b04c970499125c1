/** The reader that stops an upload at its size limit, over any source that obeys the reader contract. */
module BoundedReader {
  type Byte = x | 0 <= x < 256

  datatype Error = NoError | EndOfFile | TooLarge | SourceFailed

  datatype Read = Read(bytes: seq<Byte>, error: Error)

  /**
   What a source with these bytes left may answer to a request for at most n bytes: the next bytes in order, any
   number of them, the end only when nothing is left, or a failure at any time.
   */
  predicate SourceMay(left: seq<Byte>, n: nat, answer: Read) {
    && |answer.bytes| <= n && answer.bytes <= left
    && answer.error != TooLarge
    && (answer.error == EndOfFile ==> answer.bytes == left)
  }

  class Bounded {
    const data: seq<Byte>
    ghost const limit: nat
    var position: nat
    var remaining: nat
    var count: nat

    ghost predicate Valid()
      reads this
    {
      remaining + count == limit && count <= position <= |data| && (position > count ==> remaining == 0)
    }

    constructor (data: seq<Byte>, limit: nat)
      ensures Valid() && position == 0 && this.data == data && this.limit == limit && remaining == limit && count == 0
    {
      this.data, this.limit := data, limit;
      position, remaining, count := 0, limit, 0;
    }

    /**
     One Read with a buffer of n bytes; `answer` is what the source replies to the request passed on to it. When the
     limit is used up a single byte is asked for, to tell the end of the source from an upload that is too large.
     */
    method ReadInto(n: nat, answer: Read) returns (r: Read)
      requires Valid() && SourceMay(data[position..], Requested(remaining, n), answer)
      modifies this
      ensures Valid()
      ensures r == Delivered(old(remaining), answer)
      ensures position == old(position) + |answer.bytes|
      ensures count == old(count) + |r.bytes| && remaining == old(remaining) - |r.bytes|
    {
      if remaining == 0 {
        position := position + |answer.bytes|;
        if |answer.bytes| > 0 {
          return Read([], TooLarge);
        }
        return Read([], answer.error);
      }
      remaining := remaining - |answer.bytes|;
      count := count + |answer.bytes|;
      position := position + |answer.bytes|;
      return answer;
    }
  }

  /** How many bytes are asked of the source. */
  function Requested(remaining: nat, n: nat): nat {
    if remaining == 0 then 1 else if n > remaining then remaining else n
  }

  function Delivered(remaining: nat, answer: Read): Read {
    if remaining > 0 then answer
    else if |answer.bytes| > 0 then Read([], TooLarge)
    else Read([], answer.error)
  }

  // ---------------------------------------------------------------- whole uploads

  /** The answers of the source up to and including the first error that the reader passes on. */
  ghost predicate Upload(data: seq<Byte>, limit: nat, sizes: seq<nat>, answers: seq<Read>) {
    |sizes| == |answers| && forall k :: 0 <= k < |answers| ==> AnswerAt(data, limit, sizes, answers, k)
  }

  ghost predicate AnswerAt(data: seq<Byte>, limit: nat, sizes: seq<nat>, answers: seq<Read>, k: nat)
    requires |sizes| == |answers| && k < |answers|
  {
    && Position(answers, k) <= |data|
    && Stored(limit, answers, k) <= limit
    && (k > 0 ==> ResultAt(limit, answers, k - 1).error == NoError)
    && SourceMay(data[Position(answers, k)..], Requested(limit - Stored(limit, answers, k), sizes[k]), answers[k])
  }

  /** The bytes the source has given up before read k. */
  ghost function Position(answers: seq<Read>, k: nat): nat
    requires k <= |answers|
  {
    if k == 0 then 0 else Position(answers, k - 1) + |answers[k - 1].bytes|
  }

  /** The bytes the reader has passed on before read k. */
  ghost function Stored(limit: nat, answers: seq<Read>, k: nat): nat
    requires k <= |answers|
    decreases k, 0
  {
    if k == 0 then 0 else Stored(limit, answers, k - 1) + |ResultAt(limit, answers, k - 1).bytes|
  }

  ghost function ResultAt(limit: nat, answers: seq<Read>, k: nat): Read
    requires k < |answers|
    decreases k, 1
  {
    Delivered(if Stored(limit, answers, k) < limit then limit - Stored(limit, answers, k) else 0, answers[k])
  }

  ghost function Received(limit: nat, answers: seq<Read>, k: nat): seq<Byte>
    requires k <= |answers|
  {
    if k == 0 then [] else Received(limit, answers, k - 1) + ResultAt(limit, answers, k - 1).bytes
  }

  /** What has been passed on is always a prefix of the source, and nothing was skipped. */
  lemma {:induction false} ReceivedIsPrefix(data: seq<Byte>, limit: nat, sizes: seq<nat>, answers: seq<Read>, k: nat)
    requires Upload(data, limit, sizes, answers) && k <= |answers|
    requires k == |answers| ==> k == 0 || ResultAt(limit, answers, k - 1).error != TooLarge
    ensures Position(answers, k) == Stored(limit, answers, k) <= limit && Position(answers, k) <= |data|
    ensures Received(limit, answers, k) == data[..Stored(limit, answers, k)]
  {
    if k > 0 {
      assert AnswerAt(data, limit, sizes, answers, k - 1);
      if k < |answers| {
        assert AnswerAt(data, limit, sizes, answers, k);
      }
      ReceivedIsPrefix(data, limit, sizes, answers, k - 1);
      var at, answer := Stored(limit, answers, k - 1), answers[k - 1];
      assert answer.bytes == data[at..][..|answer.bytes|] == data[at..at + |answer.bytes|];
      assert data[..at] + data[at..at + |answer.bytes|] == data[..at + |answer.bytes|];
    }
  }

  /**
   At its first error an upload is complete exactly when it ends with the end of the source, and then it fits; it is
   reported too large exactly when the limit was reached with more to come.
   */
  lemma UploadEnds(data: seq<Byte>, limit: nat, sizes: seq<nat>, answers: seq<Read>)
    requires Upload(data, limit, sizes, answers) && |answers| > 0
    ensures var last := ResultAt(limit, answers, |answers| - 1).error; var got := Received(limit, answers, |answers|);
            && got <= data && |got| <= limit
            && (last == EndOfFile ==> got == data && |data| <= limit)
            && (last == TooLarge ==> |got| == limit < |data|)
  {
    var n := |answers| - 1;
    ReceivedIsPrefix(data, limit, sizes, answers, n);
    assert AnswerAt(data, limit, sizes, answers, n);
    if ResultAt(limit, answers, n).error != TooLarge {
      ReceivedIsPrefix(data, limit, sizes, answers, n + 1);
    }
  }

  /** Which of the two endings a source that does not fail can have is decided by its size alone. */
  lemma EndingIsDecidedBySize(data: seq<Byte>, limit: nat, sizes: seq<nat>, answers: seq<Read>)
    requires Upload(data, limit, sizes, answers) && |answers| > 0
    requires ResultAt(limit, answers, |answers| - 1).error in {EndOfFile, TooLarge}
    ensures ResultAt(limit, answers, |answers| - 1).error == EndOfFile <==> |data| <= limit
    ensures Received(limit, answers, |answers|) == if |data| <= limit then data else data[..limit]
  {
    UploadEnds(data, limit, sizes, answers);
  }

  /** A byte is asked for wherever there is room for one, never more than fits, nor more than one beyond the limit. */
  lemma RequestIsRight(remaining: nat, n: nat)
    ensures n > 0 ==> 1 <= Requested(remaining, n) <= n
    ensures remaining > 0 ==> Requested(remaining, n) <= remaining
    ensures Requested(remaining, n) < n ==> Requested(remaining, n) == if remaining > 0 then remaining else 1
    ensures remaining == 0 ==> Requested(remaining, n) == 1
  {
  }

  /** Of a source that is too large at most one byte beyond the limit is read, and that byte is not passed on. */
  lemma OneByteBeyond(data: seq<Byte>, limit: nat, sizes: seq<nat>, answers: seq<Read>)
    requires Upload(data, limit, sizes, answers) && |answers| > 0
    ensures Position(answers, |answers|) <= limit + 1
    ensures Position(answers, |answers|) == limit + 1 <==>
            ResultAt(limit, answers, |answers| - 1).error == TooLarge
  {
    var n := |answers| - 1;
    ReceivedIsPrefix(data, limit, sizes, answers, n);
    assert AnswerAt(data, limit, sizes, answers, n);
  }

  /** The storage side of an upload: it reads until the first error. */
  method Drain(data: seq<Byte>, limit: nat, sizes: seq<nat>, answers: seq<Read>) returns (got: seq<Byte>, last: Error)
    requires Upload(data, limit, sizes, answers)
    ensures got == Received(limit, answers, |answers|)
    ensures |answers| > 0 ==> last == ResultAt(limit, answers, |answers| - 1).error
  {
    var b := new Bounded(data, limit);
    got, last := [], NoError;
    for k := 0 to |answers|
      invariant b.Valid() && b.data == data && b.limit == limit
      invariant k < |answers| ==> b.position == Position(answers, k)
      invariant b.count == Stored(limit, answers, k) && got == Received(limit, answers, k)
      invariant k > 0 ==> last == ResultAt(limit, answers, k - 1).error
    {
      assert AnswerAt(data, limit, sizes, answers, k);
      var r := b.ReadInto(sizes[k], answers[k]);
      got, last := got + r.bytes, r.error;
    }
  }
}
