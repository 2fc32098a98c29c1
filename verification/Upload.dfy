/** The two loops that take in an upload: the multipart spool in front of the service, and the copy
    into the staging area. Reservations are granted or refused by the cache, which other threads
    use in between; here a refusal may come at any of them. */
module Upload {
  import opened Basics
  import opened Model

  function Concat(chunks: seq<Bytes>): Bytes {
    if chunks == [] then [] else chunks[0] + Concat(chunks[1..])
  }

  lemma Regroup(a: Bytes, b: Bytes, c: Bytes)
    ensures (a + b) + c == a + (b + c)
  {
  }

  lemma ConcatFirst(a: Bytes, b: seq<Bytes>)
    ensures Concat([a] + b) == a + Concat(b)
  {
    assert ([a] + b)[1..] == b;
  }

  lemma {:induction false} ConcatAppend(a: seq<Bytes>, b: seq<Bytes>)
    ensures Concat(a + b) == Concat(a) + Concat(b)
  {
    if a == [] {
      assert a + b == b;
    } else {
      var rest := a[1..];
      ConcatAppend(rest, b);
      ConcatFirst(a[0], rest + b);
      assert a + b == [a[0]] + (rest + b);
      Regroup(a[0], Concat(rest), Concat(b));
    }
  }

  lemma PrefixShorter(chunks: seq<Bytes>, k: nat)
    requires k <= |chunks|
    ensures |Concat(chunks[..k])| <= |Concat(chunks)|
  {
    ConcatAppend(chunks[..k], chunks[k..]);
    assert chunks[..k] + chunks[k..] == chunks;
  }

  // ---- the copy loop of _ingest_source ----

  // What happens before the i-th chunk is taken: the request may have been cancelled; and whether
  // its reservation is granted. `declared` tells of the reservation made before the first chunk.
  datatype Fate = Fate(declared: bool, cancelled: nat -> bool, granted: nat -> bool)

  datatype Copied =
    | Whole(digest: Digest)
    | Cancelled
    | TooLarge
    | NoCapacity
    | WrongSize
    | WrongDigest

  // `room`: the reservation in force. It starts at the declared size and then follows the bytes
  // read, so it may first go down.
  datatype Copy = Copy(raw: Bytes, room: nat, out: Copied)

  predicate Undisturbed(fate: Fate, n: nat) {
    fate.declared && forall i: nat :: i < n ==> !fate.cancelled(i) && fate.granted(i)
  }

  /** What the loop and its checks ask of an upload. */
  predicate Acceptable(whole: Bytes, declared: nat, expected: Option<Digest>, maxBytes: nat) {
    && |whole| == declared
    && |whole| <= maxBytes
    && (expected.Some? ==> expected.value == Sha256(whole))
  }

  /** Why the copy ends after k chunks: one of the requests before the next chunk fails, in this order, or there
      are no more chunks and the whole is checked for its size and then for its digest. */
  predicate EndsAt(chunks: seq<Bytes>, declared: nat, expected: Option<Digest>, maxBytes: nat, fate: Fate, out: Copied,
                   k: nat)
    requires k <= |chunks|
  {
    if !fate.declared then k == 0 && out == NoCapacity
    else
      && Undisturbed(fate, k)
      && if k == |chunks| then
           out == if |Concat(chunks)| != declared then WrongSize
                  else if expected.Some? && expected.value != Sha256(Concat(chunks)) then WrongDigest
                  else Whole(Sha256(Concat(chunks)))
         else if fate.cancelled(k) then out == Cancelled
         else if |Concat(chunks[..k + 1])| > maxBytes then out == TooLarge
         else !fate.granted(k) && out == NoCapacity
  }

  /** What is written are the first k chunks, and the reservation in force is for as much, or for what was
      declared while there is nothing. */
  method CopyUpload(chunks: seq<Bytes>, declared: nat, expected: Option<Digest>, maxBytes: nat, fate: Fate)
    returns (c: Copy)
    requires forall i :: 0 <= i < |chunks| ==> chunks[i] != []
    ensures exists k ::
      && 0 <= k <= |chunks| && c.raw == Concat(chunks[..k])
      && EndsAt(chunks, declared, expected, maxBytes, fate, c.out, k)
    ensures |c.raw| <= maxBytes && c.room == if c.raw != [] then |c.raw| else if fate.declared then declared else 0
    ensures c.out.Whole? <==> Undisturbed(fate, |chunks|) && Acceptable(Concat(chunks), declared, expected, maxBytes)
    ensures Undisturbed(fate, |chunks|) && |Concat(chunks)| > maxBytes ==> c.out == TooLarge
  {
    var raw, hashed, actual, room := [], [], 0, 0;
    assert chunks[..0] == [];
    if !fate.declared { return Copy(raw, room, NoCapacity); }
    room := declared;
    var i := 0;
    while i < |chunks|
      invariant 0 <= i <= |chunks|
      invariant raw == hashed == Concat(chunks[..i]) && actual == |raw| <= maxBytes
      invariant room == if raw != [] then |raw| else declared
      invariant Undisturbed(fate, i)
    {
      var chunk := chunks[i];
      assert chunks[..i + 1] == chunks[..i] + [chunk];
      ConcatAppend(chunks[..i], [chunk]);
      PrefixShorter(chunks, i + 1);
      if fate.cancelled(i) { return Copy(raw, room, Cancelled); }
      actual := actual + |chunk|;
      if actual > maxBytes { return Copy(raw, room, TooLarge); }
      if !fate.granted(i) { return Copy(raw, room, NoCapacity); }
      room := actual;
      hashed := hashed + chunk;
      raw := raw + chunk;
      i := i + 1;
    }
    assert chunks[..i] == chunks;
    if actual != declared { return Copy(raw, room, WrongSize); }
    if expected.Some? && expected.value != Sha256(hashed) { return Copy(raw, room, WrongDigest); }
    return Copy(raw, room, Whole(Sha256(hashed)));
  }

  // ---- UploadAdmission's receive and send ----

  const MULTIPART_ALLOWANCE: nat := 1024 * 1024

  datatype Refusal = SpoolTooLarge | SpoolRefused

  datatype Reply<M> = Passed(message: M) | Rejected(why: Refusal)

  /** The closures around the application: `passed` counts the bytes that the parser was given,
      `sent` is what the client was sent. */
  class UploadSpool<M> {
    const limit: nat
    var received: nat
    var room: nat
    var passed: nat
    var failure: Option<Refusal>
    var sentFailure: bool
    var sent: seq<Reply<M>>

    /** The parser is only ever given reserved bytes, within the limit; a client that is told of a
        failure is told once, and nothing after. */
    predicate Valid() reads this {
      && passed <= room <= received && room <= limit
      && (sentFailure ==> failure.Some? && sent != [] && sent[|sent| - 1].Rejected?)
      && (forall i :: 0 <= i < |sent| && sent[i].Rejected? ==> sentFailure && i == |sent| - 1)
    }

    constructor (settings: Settings)
      ensures Valid() && limit == settings.maxSourceBytes + MULTIPART_ALLOWANCE
      ensures received == room == passed == 0 && failure == None && !sentFailure && sent == []
    {
      limit := settings.maxSourceBytes + MULTIPART_ALLOWANCE;
      received, room, passed, failure, sentFailure, sent := 0, 0, 0, None, false, [];
    }

    /** bounded_receive of a message with a body; false where it raises. */
    method Receive(body: nat, granted: bool) returns (delivered: bool)
      requires Valid()
      modifies this
      ensures Valid() && received == old(received) + body && sent == old(sent) && sentFailure == old(sentFailure)
      ensures delivered <==> received <= limit && granted
      ensures delivered ==> room == received && passed == old(passed) + body && failure == old(failure)
      ensures !delivered ==>
          room == old(room) && passed == old(passed) &&
              failure == Some(if received > limit then SpoolTooLarge else SpoolRefused)
    {
      received := received + body;
      if received > limit {
        failure := Some(SpoolTooLarge);
        return false;
      }
      if !granted {
        failure := Some(SpoolRefused);
        return false;
      }
      room := received;
      passed := passed + body;
      return true;
    }

    /** bounded_send: the first message after a failure becomes the rejection, the others vanish. */
    method Send(message: M)
      requires Valid()
      modifies this
      ensures Valid() && received == old(received) && room == old(room) && passed == old(passed)
      ensures failure == old(failure)
      ensures sent == old(sent) +
        (if failure.None? then [Passed(message)] else if old(sentFailure) then [] else [Rejected(failure.value)])
      ensures sentFailure <==> failure.Some?
    {
      match failure {
        case Some(why) =>
          if !sentFailure {
            sentFailure := true;
            sent := sent + [Rejected(why)];
          }
        case None =>
          sent := sent + [Passed(message)];
      }
    }
  }
}
