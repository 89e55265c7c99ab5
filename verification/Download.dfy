/** The byte-bounded read loop of a download. */
module Download {
  import opened Basics

  /** A response body that arrives in pieces of the sender's choosing, with the clock ticking between
      reads. A read returns nothing only at the end of the body. */
  class Response {
    const body: Bytes
    const declared: Option<int>
    var position: nat
    var pieces: seq<nat>
    var late: seq<bool>

    constructor (body: Bytes, declared: Option<int>, pieces: seq<nat>, late: seq<bool>)
      ensures Valid() && this.body == body && this.declared == declared && position == 0
      ensures this.pieces == pieces && this.late == late
    {
      this.body, this.declared, this.position, this.pieces, this.late := body, declared, 0, pieces, late;
    }

    ghost predicate Valid()
      reads this
    {
      position <= |body|
    }

    /** At most limit bytes, and at least one unless the body is exhausted. */
    method Read(limit: nat) returns (chunk: Bytes)
      requires Valid() && limit > 0
      modifies this`position, this`pieces
      ensures Valid() && position == old(position) + |chunk| && |chunk| <= limit
      ensures chunk == body[old(position)..position]
      ensures chunk == [] <==> old(position) == |body|
    {
      var left := |body| - position;
      var offered := if pieces == [] || pieces[0] == 0 then left else pieces[0];
      if pieces != [] {
        pieces := pieces[1..];
      }
      var size := if offered < limit then offered else limit;
      if left < size {
        size := left;
      }
      chunk := body[position..position + size];
      position := position + size;
    }

    method TimeIsUp() returns (up: bool)
      modifies this`late
      ensures up ==> true in old(late)
      ensures true in late ==> true in old(late)
    {
      if late == [] {
        return false;
      }
      up, late := late[0], late[1..];
    }
  }

  const PIECE := 65536

  /** However the body is split, and unless the time bound is reached, the download is the whole body
      when it fits the limit and is refused otherwise; the buffer never holds more than one byte over. */
  method Download(r: Response, limit: nat) returns (result: Result<Bytes>, ghost peak: nat)
    requires r.Valid() && r.position == 0
    modifies r
    ensures peak <= limit + 1
    ensures result == Raised(TransportOffline) ==> true in old(r.late)
    ensures result != Raised(TransportOffline) ==>
      result == (if r.declared.Some? && r.declared.value > limit then Raised(TooLarge)
                 else if |r.body| <= limit then Returned(r.body) else Raised(TooLarge))
  {
    peak := 0;
    if r.declared.Some? && r.declared.value > limit {
      return Raised(TooLarge), peak;
    }
    var chunks: seq<Bytes>, total := [], 0;
    ghost var late := r.late;
    while true
      invariant r.Valid() && total == r.position == |Joined(chunks)| <= limit
      invariant Joined(chunks) == r.body[..r.position] && peak <= limit
      invariant true in r.late ==> true in late
      decreases limit + 1 - total
    {
      var up := r.TimeIsUp();
      if up {
        return Raised(TransportOffline), peak;
      }
      var most := if PIECE < limit + 1 - total then PIECE else limit + 1 - total;
      var chunk := r.Read(most);
      if chunk == [] {
        break;
      }
      JoinedAppend(chunks, chunk);
      chunks, total := chunks + [chunk], total + |chunk|;
      peak := total;
      if total > limit {
        return Raised(TooLarge), peak;
      }
    }
    assert r.body[..|r.body|] == r.body;
    return Returned(Joined(chunks)), peak;
  }

  function Joined(chunks: seq<Bytes>): Bytes
  {
    if chunks == [] then [] else chunks[0] + Joined(chunks[1..])
  }

  lemma {:induction false} JoinedAppend(chunks: seq<Bytes>, last: Bytes)
    ensures Joined(chunks + [last]) == Joined(chunks) + last
  {
    if chunks == [] {
      assert Joined([last]) == last + Joined([]);
    } else {
      JoinedAppend(chunks[1..], last);
      assert (chunks + [last])[1..] == chunks[1..] + [last];
    }
  }
}
