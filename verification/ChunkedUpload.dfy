/** The chunked upload protocol (apps/clipline-app/src/cloud_upload.rs): part arithmetic, the check of
    the server's work list, and the client loop with its retries and its fallback. */
module ChunkedUpload {
  import opened Wrappers

  newtype byte = x: int | 0 <= x < 256

  type Bytes = seq<byte>

  const MAX_UPLOAD_PART_BYTES := 64 * 1024 * 1024
  const MAX_PARTS := 0xFFFF
  const U64_MAX := 0xFFFF_FFFF_FFFF_FFFF
  const DIRECT_PUT_MAX_ATTEMPTS := 3
  const PROXY_PUT_MAX_ATTEMPTS := 3

  type u16 = x: nat | x <= 0xFFFF
  type u64 = x: nat | x <= U64_MAX

  datatype UploadError =
    | PartSizeZero | PartSizeTooLarge | PartNumberZero | OffsetOverflow | BeyondFile | TooManyParts
    | DuplicatePart | RequestFailed | UnsupportedMode

  datatype Slice = Slice(offset: nat, length: nat)

  function DivCeil(size: nat, part: nat): nat
    requires part > 0
  {
    size / part + if size % part == 0 then 0 else 1
  }

  function PartSliceFor(size: u64, part: u64, number: u16): Result<Slice, UploadError> {
    if part == 0 then Err(PartSizeZero)
    else if part > MAX_UPLOAD_PART_BYTES then Err(PartSizeTooLarge)
    else if number == 0 then Err(PartNumberZero)
    else if (number - 1) * part > U64_MAX then Err(OffsetOverflow)
    else if (number - 1) * part >= size then Err(BeyondFile)
    else
      var start := (number - 1) * part;
      Ok(Slice(start, if part <= size - start then part else size - start))
  }

  predicate ValidSizes(size: nat, part: nat) {
    0 < part <= MAX_UPLOAD_PART_BYTES && DivCeil(size, part) <= MAX_PARTS
  }

  /** Distinct part numbers of the file. */
  predicate ValidWork(missing: seq<u16>, size: nat, part: nat)
    requires part > 0
  {
    && (forall i | 0 <= i < |missing| :: 1 <= missing[i] <= DivCeil(size, part))
    && (forall i, j | 0 <= i < j < |missing| :: missing[i] != missing[j])
  }

  method ValidateMissingParts(missing: seq<u16>, size: u64, part: u64) returns (r: Result<(), UploadError>)
    ensures r.Ok? <==> ValidSizes(size, part) && ValidWork(missing, size, part)
    ensures r == Err(PartSizeZero) <==> part == 0
    ensures r == Err(PartSizeTooLarge) <==> part > MAX_UPLOAD_PART_BYTES
    ensures r == Err(TooManyParts) <==> 0 < part <= MAX_UPLOAD_PART_BYTES && DivCeil(size, part) > MAX_PARTS
    ensures r == Err(PartNumberZero) ==> exists k | 0 <= k < |missing| :: missing[k] == 0
    ensures r == Err(BeyondFile) ==> part > 0 && exists k | 0 <= k < |missing| :: missing[k] > DivCeil(size, part)
    ensures r == Err(DuplicatePart) ==> exists i, j | 0 <= i < j < |missing| :: missing[i] == missing[j]
    ensures r.Err? ==>
              r.error in {PartSizeZero, PartSizeTooLarge, TooManyParts, PartNumberZero, BeyondFile, DuplicatePart}
  {
    if part == 0 {
      return Err(PartSizeZero);
    }
    if part > MAX_UPLOAD_PART_BYTES {
      return Err(PartSizeTooLarge);
    }
    var total := DivCeil(size, part);
    if total > MAX_PARTS {
      return Err(TooManyParts);
    }
    var seen: set<u16> := {};
    for i := 0 to |missing|
      invariant seen == set k | 0 <= k < i :: missing[k]
      invariant ValidWork(missing[..i], size, part)
    {
      var number := missing[i];
      if number == 0 {
        return Err(PartNumberZero);
      }
      if number > total {
        return Err(BeyondFile);
      }
      if number in seen {
        return Err(DuplicatePart);
      }
      seen := seen + {number};
    }
    assert missing[..|missing|] == missing;
    return Ok(());
  }

  // ---- Part arithmetic ----

  lemma DivCeilBounds(size: nat, part: nat)
    requires part > 0
    ensures size <= DivCeil(size, part) * part < size + part
  {
    assert size == size / part * part + size % part;
  }

  /** Where a part ends: the last one with the file. */
  function PartEnd(size: nat, part: nat, number: nat): (end: nat)
    requires part > 0 && number <= DivCeil(size, part)
    ensures end <= size
  {
    if number < DivCeil(size, part) then
      DivCeilBounds(size, part);
      MulMonotone(number, DivCeil(size, part) - 1, part);
      MulSuccessor(DivCeil(size, part) - 1, part);
      number * part
    else size
  }

  lemma MulSuccessor(a: nat, b: nat)
    ensures (a + 1) * b == a * b + b
  {
  }

  /** Exactly the parts 1 to ceil(size / part) exist; a part is non-empty, in range, full except
      possibly the last, and its offset never overflows. */
  lemma PartsExist(size: u64, part: u64, number: u16)
    requires ValidSizes(size, part)
    ensures PartSliceFor(size, part, number).Ok? <==> 1 <= number <= DivCeil(size, part)
    ensures 1 <= number <= DivCeil(size, part) ==>
              var s := PartSliceFor(size, part, number).value;
              && s.offset == (number - 1) * part && 0 < s.length <= MAX_UPLOAD_PART_BYTES
              && s.offset + s.length == PartEnd(size, part, number)
  {
    DivCeilBounds(size, part);
    if number > 0 {
      assert (number - 1) * part <= 0xFFFE * MAX_UPLOAD_PART_BYTES by {
        MulMonotone(number - 1, 0xFFFE, part);
        MulMonotone(part, MAX_UPLOAD_PART_BYTES, 0xFFFE);
      }
      var total := DivCeil(size, part);
      if number < total {
        MulMonotone(number, total - 1, part);
      } else if number > total {
        MulMonotone(total, number - 1, part);
      }
      assert number * part == (number - 1) * part + part;
      assert total * part == (total - 1) * part + part;
    }
  }

  lemma MulMonotone(a: nat, b: nat, c: nat)
    requires a <= b
    ensures a * c <= b * c
  {
  }

  /** Different parts never share a byte. */
  lemma PartsDisjoint(size: u64, part: u64, a: u16, b: u16)
    requires ValidSizes(size, part) && 1 <= a < b <= DivCeil(size, part)
    ensures var r, s := PartSliceFor(size, part, a), PartSliceFor(size, part, b);
            r.Ok? && s.Ok? && r.value.offset + r.value.length <= s.value.offset
  {
    PartsExist(size, part, a);
    PartsExist(size, part, b);
    MulMonotone(a, b - 1, part);
  }

  function PartOf(file: Bytes, part: u64, number: u16): Bytes
    requires |file| <= U64_MAX && ValidSizes(|file|, part) && 1 <= number <= DivCeil(|file|, part)
  {
    PartsExist(|file|, part, number);
    var s := PartSliceFor(|file|, part, number).value;
    file[s.offset..s.offset + s.length]
  }

  /** Each part carries on where the one before it ends. */
  lemma PartExtends(file: Bytes, part: u64, number: u16)
    requires |file| <= U64_MAX && ValidSizes(|file|, part) && 1 <= number <= DivCeil(|file|, part)
    ensures file[..PartEnd(|file|, part, number - 1)] + PartOf(file, part, number)
            == file[..PartEnd(|file|, part, number)]
  {
    PartsExist(|file|, part, number);
  }

  lemma NothingBefore(size: nat, part: nat)
    requires part > 0
    ensures PartEnd(size, part, 0) == 0
  {
    DivCeilBounds(size, part);
  }

  // ---- The server's side ----

  /** The parts stored for one upload. */
  type Parts = map<u16, Bytes>

  /** What completing the upload makes of the parts 1 to `count`. */
  function Assemble(parts: Parts, count: nat): Bytes
    requires forall n: u16 | 1 <= n <= count :: n in parts
    requires count <= MAX_PARTS
  {
    if count == 0 then [] else Assemble(parts, count - 1) + parts[count]
  }

  /** Every stored part of this file's upload is that part of the file. */
  ghost predicate Genuine(parts: Parts, file: Bytes, part: u64)
    requires |file| <= U64_MAX && ValidSizes(|file|, part)
  {
    forall n: u16 | n in parts :: 1 <= n <= DivCeil(|file|, part) && parts[n] == PartOf(file, part, n)
  }

  lemma {:induction false} AssembledPrefix(parts: Parts, file: Bytes, part: u64, count: nat)
    requires |file| <= U64_MAX && ValidSizes(|file|, part) && Genuine(parts, file, part)
    requires count <= DivCeil(|file|, part) && forall n: u16 | 1 <= n <= count :: n in parts
    ensures Assemble(parts, count) == file[..PartEnd(|file|, part, count)]
  {
    if count > 0 {
      AssembledPrefix(parts, file, part, count - 1);
      PartExtends(file, part, count);
    } else {
      NothingBefore(|file|, part);
    }
  }

  /** Genuine parts without a gap reassemble to exactly the file. */
  lemma PartsReassemble(parts: Parts, file: Bytes, part: u64)
    requires |file| <= U64_MAX && ValidSizes(|file|, part) && Genuine(parts, file, part)
    requires forall n: u16 | 1 <= n <= DivCeil(|file|, part) :: n in parts
    ensures Assemble(parts, DivCeil(|file|, part)) == file
  {
    AssembledPrefix(parts, file, part, DivCeil(|file|, part));
    assert file[..|file|] == file;
  }

  // ---- Retry delays ----

  const BACKOFF_BASE_MS := 250
  const BACKOFF_MAX_MS := 30_000

  function Pow2(n: nat): nat {
    if n == 0 then 1 else 2 * Pow2(n - 1)
  }

  /** The pause after a failed attempt, in milliseconds; `hash` depends on upload, part and attempt. */
  function RetryDelay(hash: nat, failedAttempt: nat, retryAfter: Option<nat>): nat {
    var exponent := if failedAttempt <= 1 then 0 else if failedAttempt > 17 then 16 else failedAttempt - 1;
    var exponential := BACKOFF_BASE_MS * Pow2(exponent);
    var delay := exponential + hash % (exponential / 2 + 1);
    var wished := if retryAfter.Some? && retryAfter.value > delay then retryAfter.value else delay;
    if wished > BACKOFF_MAX_MS then BACKOFF_MAX_MS else wished
  }

  const STEPS_MS: seq<nat> := [250, 500, 1000, 2000, 4000, 8000, 16000]

  lemma {:induction false} Pow2Grows(m: nat, n: nat)
    requires m <= n
    ensures Pow2(m) <= Pow2(n)
    decreases n
  {
    if m < n {
      Pow2Grows(m, n - 1);
    }
  }

  /** The pauses double from a quarter of a second on, each with up to half of it on top, until the
      ceiling is all there is. */
  lemma RetryDelayWindow(hash: nat, failedAttempt: nat)
    requires failedAttempt >= 1
    ensures var delay := RetryDelay(hash, failedAttempt, None);
            if failedAttempt <= 7
            then STEPS_MS[failedAttempt - 1] <= delay <= STEPS_MS[failedAttempt - 1] * 3 / 2
            else delay == BACKOFF_MAX_MS
  {
    var exponent := if failedAttempt > 17 then 16 else failedAttempt - 1;
    assert Pow2(0) == 1 && Pow2(1) == 2 && Pow2(2) == 4 && Pow2(3) == 8;
    assert Pow2(4) == 16 && Pow2(5) == 32 && Pow2(6) == 64 && Pow2(7) == 128;
    ModBelow(hash, BACKOFF_BASE_MS * Pow2(exponent) / 2 + 1);
    if failedAttempt > 7 {
      Pow2Grows(7, exponent);
    }
  }

  /** A server's wish is honoured up to the ceiling, and never shortens the wait. */
  lemma RetryAfterIsHonoured(hash: nat, failedAttempt: nat, wish: nat)
    ensures var alone, asked := RetryDelay(hash, failedAttempt, None), RetryDelay(hash, failedAttempt, Some(wish));
            && asked <= BACKOFF_MAX_MS && asked >= alone
            && asked == if wish <= alone then alone else if wish <= BACKOFF_MAX_MS then wish else BACKOFF_MAX_MS
  {
  }

  /** Whatever the jitter, a later attempt waits longer, until the ceiling is reached. */
  lemma RetryDelaysGrow(early: nat, late: nat, failedAttempt: nat)
    requires 1 <= failedAttempt <= 16
    ensures RetryDelay(early, failedAttempt, None) < RetryDelay(late, failedAttempt + 1, None)
            || RetryDelay(late, failedAttempt + 1, None) == BACKOFF_MAX_MS
  {
    var exponential := BACKOFF_BASE_MS * Pow2(failedAttempt - 1);
    assert Pow2(failedAttempt) == 2 * Pow2(failedAttempt - 1);
    Pow2Positive(failedAttempt - 1);
    ModBelow(early, exponential / 2 + 1);
    assert BACKOFF_BASE_MS * Pow2(failedAttempt) == 2 * exponential;
  }

  lemma {:induction false} Pow2Positive(n: nat)
    ensures Pow2(n) > 0
  {
    if n > 0 {
      Pow2Positive(n - 1);
    }
  }

  lemma ModBelow(a: nat, b: nat)
    requires b > 0
    ensures a % b < b
  {
  }

  // ---- The client ----

  /** How a request ends.  The `Done` replies took effect: `DoneUnheard` looked like a retryable failure
      to the client, and `DoneUnreadable` was a success whose answer, or whose ETag, could not be read. */
  datatype Reply = Done | DoneUnheard | DoneUnreadable | Retryable | Unsupported | Refused

  predicate TookEffect(reply: Reply) {
    reply.Done? || reply.DoneUnheard? || reply.DoneUnreadable?
  }

  /** How the server wants the upload; `templates` tells whether it offers direct transfer. */
  datatype Mode = SinglePut | Chunked(templates: bool) | OtherMode

  /** What a presigned request is for. */
  datatype Presign = Presign(forUpload: bool, number: nat, isPut: bool, size: nat)

  predicate Matches(p: Presign, number: u16, size: nat) {
    p.forUpload && p.number == number && p.isPut && p.size == size
  }

  datatype Failure = Fallback | Failed(error: UploadError)

  /** The cloud server and its object store, for one upload.  The scripts say how every request ends,
      the mode and part size a creation names, what the server lists as missing, given what is, and
      what a presigned request turns out to be for. */
  class Server {
    const replies: nat -> Reply
    const modes: nat -> Mode
    const partSizes: nat -> u64
    const lists: (nat, seq<u16>) -> seq<u16>
    const presigns: (nat, u16, nat) -> Presign
    var calls: nat
    var mode: Mode
    var part: u64
    var parts: Parts
    var objects: Parts
    var completed: Option<Bytes>
    /** Which of the calls were requests of a direct transfer: presign, put or acknowledgement. */
    ghost var directCalls: set<nat>

    /** Only this file's parts are stored, and only this file was completed; nothing is stored under an
        unusable part size. */
    ghost predicate Consistent(file: Bytes)
      reads this
    {
      && |file| <= U64_MAX
      && (forall n: u16 | n in parts ::
            ValidSizes(|file|, part) && 1 <= n <= DivCeil(|file|, part) && parts[n] == PartOf(file, part, n))
      && (completed.Some? ==> completed.value == file)
      && (forall i <- directCalls :: i < calls)
    }

    /** The server lists exactly what is missing. */
    ghost predicate ListsMissing() {
      forall i, missing :: lists(i, missing) == missing
    }

    ghost predicate PresignsMatch() {
      forall i, number, size :: Matches(presigns(i, number, size), number, size)
    }

    ghost predicate AllStored(size: nat)
      requires part > 0
      reads this
    {
      forall n: u16 | 1 <= n <= DivCeil(size, part) :: n in parts
    }

    /** Every part is stored or listed. */
    ghost predicate Covers(missing: seq<u16>, size: nat)
      requires part > 0
      reads this
    {
      forall n: u16 | 1 <= n <= DivCeil(size, part) :: n in parts || n in missing
    }

    /** Every request from number `from` on was answered with success. */
    ghost predicate AllDone(from: nat)
      reads this
    {
      forall i | from <= i < calls :: replies(i).Done?
    }

    /** Every request from number `from` on was answered with success, but for direct ones that turned
        out unsupported. */
    ghost predicate Smooth(from: nat)
      reads this
    {
      forall i | from <= i < calls :: replies(i).Done? || (i in directCalls && replies(i).Unsupported?)
    }

    /** How the latest request ended. */
    function LastReply(): Reply
      requires calls > 0
      reads this
    {
      replies(calls - 1)
    }

    method Ask() returns (reply: Reply)
      modifies this`calls
      ensures calls == old(calls) + 1 && reply == replies(old(calls))
    {
      reply := replies(calls);
      calls := calls + 1;
    }

    /** Creating an upload resumes the stored parts when the part size is the same. */
    method CreateUpload() returns (ok: bool)
      modifies this`calls, this`mode, this`part, this`parts, this`objects, this`completed
      ensures (part == old(part) && parts == old(parts)) || parts == map[]
      ensures completed == old(completed) || completed.None?
      ensures calls == old(calls) + 1 && (ok <==> replies(old(calls)).Done?)
      ensures part == partSizes(calls) && mode == modes(calls)
    {
      var reply := Ask();
      if partSizes(calls) != part {
        part, parts, objects, completed := partSizes(calls), map[], map[], None;
      }
      mode := modes(calls);
      return reply.Done?;
    }

    /** The parts up to number `total` that are not stored, in order. */
    method ListMissing(total: nat) returns (listed: seq<u16>)
      requires total <= MAX_PARTS
      ensures forall n: u16 | 1 <= n <= total :: n in parts || n in listed
      ensures forall i | 0 <= i < |listed| :: 1 <= listed[i] <= total
      ensures forall i, j | 0 <= i < j < |listed| :: listed[i] < listed[j]
    {
      listed := [];
      for n := 1 to total + 1
        invariant forall k: u16 | 1 <= k < n :: k in parts || k in listed
        invariant forall i | 0 <= i < |listed| :: 1 <= listed[i] < n
        invariant forall i, j | 0 <= i < j < |listed| :: listed[i] < listed[j]
      {
        if n !in parts {
          listed := listed + [n];
        }
      }
    }

    /** The server's work list: anything at all, unless the server is honest. */
    method Progress(file: Bytes) returns (missing: Option<seq<u16>>)
      requires Consistent(file)
      modifies this`calls
      ensures calls == old(calls) + 1 && (missing.Some? <==> replies(old(calls)).Done?)
      ensures missing.Some? && ListsMissing() && ValidSizes(|file|, part) ==>
                Covers(missing.value, |file|) && ValidWork(missing.value, |file|, part)
    {
      var reply := Ask();
      if !reply.Done? {
        return None;
      }
      var truly: seq<u16> := [];
      if ValidSizes(|file|, part) {
        truly := ListMissing(DivCeil(|file|, part));
      }
      return Some(lists(calls, truly));
    }

    /** The server assembles what it has, and refuses as long as a part is missing. */
    method Complete(file: Bytes) returns (ok: bool)
      requires Consistent(file) && ValidSizes(|file|, part)
      modifies this`calls, this`completed
      ensures completed == old(completed)
              || (AllStored(|file|) && completed == Some(Assemble(parts, DivCeil(|file|, part))))
      ensures ok ==> AllStored(|file|) && completed == Some(Assemble(parts, DivCeil(|file|, part)))
      ensures calls == old(calls) + 1 && (ok <==> replies(old(calls)).Done? && AllStored(|file|))
    {
      var reply := Ask();
      if TookEffect(reply) && forall n: u16 | 1 <= n <= DivCeil(|file|, part) :: n in parts {
        completed := Some(Assemble(parts, DivCeil(|file|, part)));
        return reply.Done?;
      }
      return false;
    }

    /** Up to three attempts to store a part through the server; only the last one can be a success,
        and only a lasting failure or the third attempt ends in an error. */
    method PutProxyPart(number: u16, body: Bytes) returns (r: Result<(), Failure>)
      modifies this`calls, this`parts
      ensures old(calls) < calls <= old(calls) + PROXY_PUT_MAX_ATTEMPTS
      ensures r.Ok? <==> LastReply().Done?
      ensures r.Err? ==>
                && r.error.Failed?
                && (calls == old(calls) + PROXY_PUT_MAX_ATTEMPTS
                    || !(LastReply().Retryable? || LastReply().DoneUnheard?))
      ensures parts == old(parts) || parts == old(parts)[number := body]
      ensures r.Ok? ==> number in parts && parts[number] == body
    {
      for attempt := 1 to PROXY_PUT_MAX_ATTEMPTS + 1
        invariant calls == old(calls) + attempt - 1
        invariant parts == old(parts) || parts == old(parts)[number := body]
        invariant attempt <= PROXY_PUT_MAX_ATTEMPTS
      {
        var reply := Ask();
        if TookEffect(reply) {
          parts := parts[number := body];
        }
        if reply.Done? {
          return Ok(());
        }
        if !(attempt < PROXY_PUT_MAX_ATTEMPTS && (reply.Retryable? || reply.DoneUnheard?)) {
          return Err(Failed(RequestFailed));
        }
      }
      return Err(Failed(RequestFailed));
    }

    /** The calls from number `from` on, and none before them, were added to the direct ones. */
    ghost predicate AddedDirect(before: set<nat>, from: nat)
      reads this
    {
      forall i: nat :: i in directCalls <==> i in before || from <= i < calls
    }

    /** One request of a direct transfer. */
    method AskDirectly() returns (reply: Reply)
      modifies this`calls, this`directCalls
      ensures calls == old(calls) + 1 && reply == replies(old(calls))
      ensures directCalls == old(directCalls) + {old(calls)}
    {
      directCalls := directCalls + {calls};
      reply := Ask();
    }

    /** One round of a direct transfer: presign, put, and once that is done the acknowledgement.  `None`
        asks for another round. */
    method DirectRound(number: u16, body: Bytes) returns (settled: Option<Result<(), Failure>>)
      modifies this`calls, this`parts, this`objects, this`directCalls
      ensures old(calls) < calls <= old(calls) + 3 && AddedDirect(old(directCalls), old(calls))
      ensures settled.None? <==> calls == old(calls) + 2 && (LastReply().Retryable? || LastReply().DoneUnheard?)
      ensures settled.None? ==> parts == old(parts) && replies(old(calls)).Done?
      ensures parts == old(parts) || parts == old(parts)[number := body]
      ensures settled.Some? && settled.value.Ok? ==>
                calls == old(calls) + 3 && LastReply().Done? && number in parts && parts[number] == body
      ensures settled.Some? && settled.value.Err? ==>
                (settled.value.error.Fallback? <==> LastReply().Unsupported? || LastReply().Done?)
      ensures PresignsMatch() && LastReply().Done? ==> settled.Some? && settled.value.Ok?
    {
      var presign := AskDirectly();
      if !presign.Done? {
        return Some(Err(if presign.Unsupported? then Fallback else Failed(RequestFailed)));
      }
      if !Matches(presigns(calls, number, |body|), number, |body|) {
        return Some(Err(Fallback));
      }
      var put := AskDirectly();
      if TookEffect(put) {
        objects := objects[number := body];
      }
      match put
      case Done =>
        var ack := AskDirectly();
        if TookEffect(ack) {
          parts := parts[number := objects[number]];
        }
        return Some(match ack
                    case Done => Ok(())
                    case Unsupported => Err(Fallback)
                    case _ => Err(Failed(RequestFailed)));
      case Unsupported => return Some(Err(Fallback));
      case Refused => return Some(Err(Failed(RequestFailed)));
      case DoneUnreadable => return Some(Err(Failed(RequestFailed)));
      case _ => return None;
    }

    /** Up to three rounds of direct transfer.  Only an acknowledgement is a success.  A put, every second
        request, that may be retried is, up to the third.  An endpoint that is not supported, and a
        presigned request for something else, are what asks for the fallback. */
    method PutDirectPart(number: u16, body: Bytes) returns (r: Result<(), Failure>)
      modifies this`calls, this`parts, this`objects, this`directCalls
      ensures old(calls) < calls <= old(calls) + 2 * DIRECT_PUT_MAX_ATTEMPTS + 1
      ensures AddedDirect(old(directCalls), old(calls))
      ensures r.Ok? ==> LastReply().Done?
      ensures r.Err? && (LastReply().Retryable? || LastReply().DoneUnheard?) ==>
                calls == old(calls) + 2 * DIRECT_PUT_MAX_ATTEMPTS || (calls - old(calls)) % 2 == 1
      ensures r.Err? ==> (r.error.Fallback? <==> LastReply().Unsupported? || LastReply().Done?)
      ensures PresignsMatch() ==> (r.Ok? <==> LastReply().Done?)
      ensures parts == old(parts) || parts == old(parts)[number := body]
      ensures r.Ok? ==> number in parts && parts[number] == body
    {
      for attempt := 1 to DIRECT_PUT_MAX_ATTEMPTS + 1
        invariant calls == old(calls) + 2 * (attempt - 1) && AddedDirect(old(directCalls), old(calls))
        invariant parts == old(parts)
        invariant attempt > 1 ==> LastReply().Retryable? || LastReply().DoneUnheard?
      {
        var settled := DirectRound(number, body);
        if settled.Some? {
          return settled.value;
        }
      }
      return Err(Failed(RequestFailed));
    }

    method UploadPart(file: Bytes, direct: bool, number: u16) returns (r: Result<(), Failure>)
      requires Consistent(file) && ValidSizes(|file|, part) && 1 <= number <= DivCeil(|file|, part)
      modifies this`calls, this`parts, this`objects, this`directCalls
      ensures Consistent(file)
      ensures DirectOnly(old(directCalls), old(calls), direct)
      ensures direct ==> old(calls) in directCalls
      ensures Smooth(old(calls)) ==> r.Ok? || r.error.Fallback?
      ensures forall n | n in old(parts) :: n in parts
      ensures r.Ok? ==> number in parts
      ensures old(calls) < calls && (!direct || PresignsMatch() ==> (r.Ok? <==> LastReply().Done?))
      ensures !direct && r.Err? ==> r.error.Failed?
    {
      PartsExist(|file|, part, number);
      var slice := PartSliceFor(|file|, part, number);
      var body := file[slice.value.offset..slice.value.offset + slice.value.length];
      assert body == PartOf(file, part, number);
      if direct {
        r := PutDirectPart(number, body);
      } else {
        r := PutProxyPart(number, body);
      }
    }

    /** Earlier calls are remembered as they were, and later ones are direct only in a direct transfer. */
    ghost predicate DirectOnly(before: set<nat>, from: nat, direct: bool)
      reads this
    {
      && (forall i <- before :: i in directCalls)
      && (forall i <- directCalls :: i in before || from <= i < calls)
      && (!direct ==> directCalls == before)
    }

    method FinishUpload(file: Bytes) returns (r: Result<(), Failure>)
      requires Consistent(file) && ValidSizes(|file|, part)
      modifies this`calls, this`completed
      ensures Consistent(file)
      ensures r.Ok? ==> completed == Some(file)
      ensures calls == old(calls) + 1 && (r.Ok? <==> LastReply().Done? && AllStored(|file|))
      ensures r.Err? ==> r.error.Failed?
    {
      if AllStored(|file|) {
        PartsReassemble(parts, file, part);
      }
      var ok := Complete(file);
      return if ok then Ok(()) else Err(Failed(RequestFailed));
    }

    /** One turn of the work-list loop: a part, and how the server then stands. */
    method UploadOne(file: Bytes, direct: bool, number: u16) returns (r: Result<(), Failure>)
      requires Consistent(file) && ValidSizes(|file|, part) && 1 <= number <= DivCeil(|file|, part)
      modifies this`calls, this`parts, this`objects, this`directCalls
      ensures Consistent(file) && old(calls) < calls
      ensures DirectOnly(old(directCalls), old(calls), direct)
      ensures direct ==> old(calls) in directCalls
      ensures forall n | n in old(parts) :: n in parts
      ensures r.Ok? ==> number in parts
      ensures Smooth(old(calls)) ==> r.Ok? || r.error.Fallback?
      ensures AllDone(old(calls)) && (!direct || PresignsMatch()) ==> r.Ok?
      ensures !direct && r.Err? ==> r.error.Failed?
    {
      r := UploadPart(file, direct, number);
      if r.Err? {
        return r;
      }
      var progress := Ask();
      if !progress.Done? {
        return Err(Failed(RequestFailed));
      }
    }

    /** Uploads the listed parts one by one.  When every request succeeds and the list is legal, all of
        them are stored; failure of any kind leaves only genuine parts behind. */
    method UploadListed(file: Bytes, direct: bool, missing: seq<u16>) returns (r: Result<(), Failure>)
      requires Consistent(file) && ValidSizes(|file|, part) && ValidWork(missing, |file|, part)
      modifies this`calls, this`parts, this`objects, this`directCalls
      ensures Consistent(file) && old(calls) <= calls
      ensures DirectOnly(old(directCalls), old(calls), direct)
      ensures if missing == [] then calls == old(calls) else direct ==> old(calls) in directCalls
      ensures r.Err? && r.error.Fallback? ==> missing != []
      ensures Smooth(old(calls)) ==> r.Ok? || r.error.Fallback?
      ensures r.Ok? ==> forall n: u16 | n in old(parts) || n in missing :: n in parts
      ensures AllDone(old(calls)) && (!direct || PresignsMatch()) ==> r.Ok?
      ensures !direct && r.Err? ==> r.error.Failed?
    {
      for i := 0 to |missing|
        invariant Consistent(file) && old(calls) <= calls
        invariant DirectOnly(old(directCalls), old(calls), direct)
        invariant if i == 0 then calls == old(calls) else direct ==> old(calls) in directCalls
        invariant forall n | n in old(parts) :: n in parts
        invariant forall k | 0 <= k < i :: missing[k] in parts
      {
        var stored := UploadOne(file, direct, missing[i]);
        if stored.Err? {
          return stored;
        }
      }
      return Ok(());
    }

    /** Uploads the listed parts, whatever they are, and completes.  Success means the completed upload
        is the file; failure of any kind leaves only genuine parts behind, and has a cause: an illegal
        or incomplete work list, a presigned request for something else, or a request that failed. */
    method UploadChunked(file: Bytes, direct: bool, missing: seq<u16>) returns (r: Result<(), Failure>)
      requires Consistent(file)
      modifies this`calls, this`parts, this`objects, this`completed, this`directCalls
      ensures Consistent(file) && old(calls) <= calls
      ensures DirectOnly(old(directCalls), old(calls), direct)
      ensures direct && (calls > old(calls) + 1 || (r.Err? && r.error.Fallback?)) ==> old(calls) in directCalls
      ensures (&& ValidSizes(|file|, part) && ValidWork(missing, |file|, part) && old(Covers(missing, |file|))
               && Smooth(old(calls))) ==> r.Ok? || r.error.Fallback?
      ensures r.Ok? ==> completed == Some(file)
      ensures (&& ValidSizes(|file|, part) && ValidWork(missing, |file|, part) && old(Covers(missing, |file|))
               && AllDone(old(calls)) && (!direct || PresignsMatch())) ==> r.Ok?
      ensures !direct && r.Err? ==> r.error.Failed?
    {
      var valid := ValidateMissingParts(missing, |file|, part);
      if valid.Err? {
        return Err(Failed(valid.error));
      }
      r := UploadListed(file, direct, missing);
      if r.Err? {
        return r;
      }
      r := FinishUpload(file);
    }

    /** The whole file in one request, unless the upload is complete already. */
    method UploadSingle(file: Bytes) returns (r: Result<(), Failure>)
      requires Consistent(file)
      modifies this`calls, this`completed
      ensures Consistent(file) && old(calls) < calls
      ensures r.Ok? ==> completed == Some(file)
      ensures r.Ok? <==> LastReply().Done? && (calls == old(calls) + 2 || old(completed).Some?)
      ensures AllDone(old(calls)) ==> r.Ok?
      ensures r.Err? ==> r.error.Failed?
    {
      var progress := Ask();
      if !progress.Done? {
        return Err(Failed(RequestFailed));
      }
      if completed.Some? {
        return Ok(());
      }
      var put := Ask();
      if TookEffect(put) {
        completed := Some(file);
      }
      return if put.Done? then Ok(()) else Err(Failed(RequestFailed));
    }

    /** Asks for the work list and uploads by parts. */
    method UploadMissing(file: Bytes, direct: bool) returns (r: Result<(), Failure>)
      requires Consistent(file)
      modifies this`calls, this`parts, this`objects, this`completed, this`directCalls
      ensures Consistent(file) && old(calls) <= calls
      ensures DirectOnly(old(directCalls), old(calls), direct)
      ensures direct && (calls > old(calls) + 2 || (r.Err? && r.error.Fallback?)) ==> old(calls) + 1 in directCalls
      ensures r.Ok? ==> completed == Some(file)
      ensures Smooth(old(calls)) && ListsMissing() && ValidSizes(|file|, part) ==> r.Ok? || r.error.Fallback?
      ensures !direct && r.Err? ==> r.error.Failed?
    {
      var missing := Progress(file);
      if missing.None? {
        return Err(Failed(RequestFailed));
      }
      r := UploadChunked(file, direct, missing.value);
    }

    /** Carries an upload on in the server's mode. */
    method UploadExisting(file: Bytes, directAvailable: bool) returns (r: Result<(), Failure>)
      requires Consistent(file)
      modifies this`calls, this`parts, this`objects, this`completed, this`directCalls
      ensures Consistent(file) && old(calls) <= calls
      ensures DirectOnly(old(directCalls), old(calls), directAvailable && mode == Chunked(true))
      ensures directAvailable && mode == Chunked(true) && (calls > old(calls) + 2 || (r.Err? && r.error.Fallback?)) ==>
                old(calls) + 1 in directCalls
      ensures r.Ok? ==> completed == Some(file)
      ensures mode.OtherMode? ==> r == Err(Failed(UnsupportedMode)) && calls == old(calls)
      ensures (&& Smooth(old(calls)) && ListsMissing() && !mode.OtherMode?
               && (mode.Chunked? ==> ValidSizes(|file|, part))) ==> r.Ok? || r.error.Fallback?
      ensures !directAvailable && r.Err? ==> r.error.Failed?
    {
      match mode
      case SinglePut => r := UploadSingle(file);
      case Chunked(templates) => r := UploadMissing(file, templates && directAvailable);
      case OtherMode => r := Err(Failed(UnsupportedMode));
    }

    /** The whole upload: direct when available, once more through the server when direct transfer
        turns out unsupported.  Whatever is retried, resumed or given up, an upload that completes
        is exactly the file.  And it does complete with a server that lists what is missing and whose
        requests succeed, even if direct ones turn out unsupported or presigned for something else. */
    method Upload(file: Bytes, directAvailable: bool) returns (r: Result<(), Failure>)
      requires Consistent(file)
      modifies this
      ensures Consistent(file) && old(calls) < calls
      ensures !directAvailable ==> directCalls == old(directCalls)
      ensures directAvailable && modes(old(calls) + 1) == Chunked(true) && calls > old(calls) + 3 ==>
                old(calls) + 2 in directCalls
      ensures r.Ok? ==> completed == Some(file)
      ensures (&& Smooth(old(calls)) && ListsMissing()
               && forall i :: modes(i).SinglePut? || (modes(i).Chunked? && ValidSizes(|file|, partSizes(i)))) ==> r.Ok?
      ensures r.Err? ==> r.error.Failed?
    {
      var created := CreateUpload();
      if !created {
        return Err(Failed(RequestFailed));
      }
      r := UploadExisting(file, directAvailable);
      if r.Ok? || r.error.Failed? {
        return r;
      }
      created := CreateUpload();
      if !created {
        return Err(Failed(RequestFailed));
      }
      r := UploadExisting(file, false);
    }
  }
}
