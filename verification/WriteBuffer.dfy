/** The response body: treq_write_callback() and the buffer it grows. */
module WriteBuffer {
  import opened Encoding
  import opened Lifecycle

  const CURL_WRITEFUNC_ERROR: nat := 0xffff_ffff

  /** The part of a request that libcurl writes into. */
  class Body {
    var content: array?<Byte>
    var contentSize: nat
    var state: ReqState
    var error: bool

    ghost predicate Valid()
      reads this
    {
      if contentSize == 0 then content == null else content != null && content.Length == contentSize
    }

    /** The bytes received so far. */
    ghost function Received(): Bytes
      reads this, content
      requires Valid()
    {
      if content == null then [] else content[..]
    }

    constructor ()
      ensures Valid() && Received() == [] && !error && state == InProgress
    {
      content, contentSize, state, error := null, 0, InProgress, false;
    }

    /** treq_write_callback(). Memory for the larger buffer may not be there: then the
        buffer stays as it is, the error is recorded, and libcurl is told to stop. */
    method WriteCallback(chunk: Bytes, memory: bool) returns (taken: nat)
      requires Valid()
      modifies this
      ensures Valid() && (content == old(content) || fresh(content))
      ensures memory || chunk == [] ==>
                taken == |chunk| && Received() == old(Received()) + chunk && state == old(state) && error == old(error)
      ensures !memory && chunk != [] ==>
                && taken == CURL_WRITEFUNC_ERROR && state == Error && error
                && content == old(content) && contentSize == old(contentSize) && Received() == old(Received())
      ensures |chunk| < 0xffff_ffff ==> (taken == |chunk| <==> memory || chunk == [])
    {
      if |chunk| > 0 {
        if !memory {
          state, error := Error, true;
          return CURL_WRITEFUNC_ERROR;
        }
        var tmp := new Byte[contentSize + |chunk|];
        if content != null {
          forall i | 0 <= i < contentSize {
            tmp[i] := content[i];
          }
        }
        forall i | 0 <= i < |chunk| {
          tmp[contentSize + i] := chunk[i];
        }
        assert tmp[..] == Received() + chunk;
        content := tmp;
        contentSize := contentSize + |chunk|;
      }
      taken := |chunk|;
    }

    /** libcurl's calls, one after the other: the buffer is exactly the accepted
        chunks put together, and the error tells whether one was refused. */
    method Feed(writes: seq<Write>)
      requires Valid()
      modifies this
      ensures Valid() && Received() == old(Received()) + Accepted(writes)
      ensures error <==> old(error) || AnyRefused(writes)
      ensures AnyRefused(writes) ==> state == Error
      ensures !AnyRefused(writes) ==> state == old(state)
    {
      hide Accepted, AnyRefused;
      NothingAccepted(writes);
      var i := 0;
      while i < |writes|
        invariant 0 <= i <= |writes| && Valid()
        invariant content == null || content == old(content) || fresh(content)
        invariant Received() == old(Received()) + Accepted(writes[..i])
        invariant error <==> old(error) || AnyRefused(writes[..i])
        invariant if AnyRefused(writes[..i]) then state == Error else state == old(state)
      {
        AcceptedNext(writes, i);
        ghost var before := Received();
        var taken := WriteCallback(writes[i].chunk, writes[i].memory);
        assert Received() == before + if Refused(writes[i]) then [] else writes[i].chunk;
        i := i + 1;
      }
      assert writes[..|writes|] == writes;
    }
  }

  datatype Write = Write(chunk: Bytes, memory: bool)

  predicate Refused(w: Write) {
    !w.memory && w.chunk != []
  }

  predicate AnyRefused(writes: seq<Write>) {
    exists i :: 0 <= i < |writes| && Refused(writes[i])
  }

  function Accepted(writes: seq<Write>): Bytes {
    if writes == [] then []
    else (if Refused(writes[0]) then [] else writes[0].chunk) + Accepted(writes[1..])
  }

  lemma NothingAccepted(writes: seq<Write>)
    ensures Accepted(writes[..0]) == [] && !AnyRefused(writes[..0])
  {}

  lemma {:induction false} AcceptedNext(writes: seq<Write>, i: nat)
    requires i < |writes|
    ensures Accepted(writes[..i + 1]) == Accepted(writes[..i]) + if Refused(writes[i]) then [] else writes[i].chunk
    ensures AnyRefused(writes[..i + 1]) <==> AnyRefused(writes[..i]) || Refused(writes[i])
  {
    if i == 0 {
      assert writes[..1][1..] == [] && writes[..1][0] == writes[0];
    } else {
      var tail := writes[1..];
      assert writes[..i + 1][1..] == tail[..i] && writes[..i][1..] == tail[..i - 1];
      AcceptedNext(tail, i - 1);
    }
    var a, b := writes[..i], writes[..i + 1];
    assert b[i] == writes[i];
    assert forall k :: 0 <= k < i ==> a[k] == b[k];
  }
}
