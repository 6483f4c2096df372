/** The bus beneath the driver and the retry discipline of
    `QwiicLEDStick._write`: up to `Retries` attempts, stopping at the first
    one that succeeds, counting each failed one. */
module Transport {
  import opened Types

  /** Attempts per `_write` call (RETRIES in the driver module). */
  const Retries: nat := 4

  /** One bus write attempt: the target address and the bytes sent. */
  datatype Attempt = Attempt(address: int, frame: Frame)

  /** Whether the next attempt on a bus with these scripted outcomes fails
      (true in `faults` stands for an OSError; once the script is used up,
      attempts succeed). */
  predicate FailsNext(faults: seq<bool>) {
    faults != [] && faults[0]
  }

  /** `s` without its first `k` elements (empty when `k` exceeds its length). */
  function Drop<T>(s: seq<T>, k: nat): (r: seq<T>)
    ensures |r| == if k <= |s| then |s| - k else 0
    ensures forall i :: 0 <= i < |r| ==> r[i] == s[k + i]
  {
    if k <= |s| then s[k..] else []
  }

  /** The I2C bus, reduced to what the driver observes: every write attempt
      is logged with its target address, and each attempt succeeds or raises
      OSError as the scripted `faults` say. */
  class Bus {
    var log: seq<Attempt>
    var faults: seq<bool>

    constructor (faults: seq<bool>)
      ensures log == [] && this.faults == faults
    {
      log := [];
      this.faults := faults;
    }

    /** `bus.write(data)` on the device at `address`; `ok` is false when the
        attempt raised OSError. */
    method Write(address: int, frame: Frame) returns (ok: bool)
      modifies this
      ensures log == old(log) + [Attempt(address, frame)]
      ensures ok == !FailsNext(old(faults))
      ensures faults == Drop(old(faults), 1)
    {
      ok := !FailsNext(faults);
      log := log + [Attempt(address, frame)];
      faults := Drop(faults, 1);
    }
  }

  /** How many attempts fail before one succeeds, given at most `budget`
      attempts: the length of the run of failures at the head of `faults`,
      cut at `budget`. */
  function FailedAttempts(faults: seq<bool>, budget: nat): (n: nat)
    ensures n <= budget && n <= |faults|
    ensures forall i :: 0 <= i < n ==> faults[i]
    ensures n < budget ==> !FailsNext(Drop(faults, n))
  {
    if budget == 0 || !FailsNext(faults) then 0
    else 1 + FailedAttempts(faults[1..], budget - 1)
  }

  /** The count of failed attempts is pinned down by where the first
      success falls: attempt `k + 1` is the first that succeeds, or all
      `budget` attempts fail and `k == budget`. */
  lemma {:induction false} FailedAttemptsExact(faults: seq<bool>, budget: nat, k: nat)
    requires k <= budget
    requires k <= |faults| && forall i :: 0 <= i < k ==> faults[i]
    requires k < budget ==> !FailsNext(Drop(faults, k))
    ensures FailedAttempts(faults, budget) == k
  {
    if k == 0 {
      assert Drop(faults, 0) == faults;
    } else {
      assert faults[0];
      var tail := faults[1..];
      forall i | 0 <= i < k - 1
        ensures tail[i]
      {
        assert faults[i + 1];
      }
      assert Drop(tail, k - 1) == Drop(faults, k);
      FailedAttemptsExact(tail, budget - 1, k - 1);
    }
  }

  /** Whether a retrying write on a bus with these outcomes gets its frame
      through within `Retries` attempts. */
  predicate Delivered(faults: seq<bool>) {
    FailedAttempts(faults, Retries) < Retries
  }

  /** Everything the driver's writes change: the bus's log of attempts,
      the bus's outcomes still to come, and the driver's retry count. */
  datatype Channel = Channel(log: seq<Attempt>, faults: seq<bool>, retries: nat)

  /** The effect of `_write(frame)` at `address`: attempts until the first
      success, at most `Retries` of them, each failure counted. */
  function RetryingWrite(c: Channel, address: int, frame: Frame): (d: Channel)
    ensures |c.log| + 1 <= |d.log| <= |c.log| + Retries
    ensures d.retries == c.retries + if Delivered(c.faults) then |d.log| - |c.log| - 1 else Retries
    ensures d.faults == Drop(c.faults, |d.log| - |c.log|)
  {
    var n := FailedAttempts(c.faults, Retries);
    var k := if n < Retries then n + 1 else Retries;
    Channel(c.log + seq(k, _ => Attempt(address, frame)), Drop(c.faults, k), c.retries + n)
  }

  /** A retrying write only appends to the bus log, and everything it
      appends is an attempt to send `frame` to `address`. */
  lemma RetryingWriteLog(c: Channel, address: int, frame: Frame)
    ensures var d := RetryingWrite(c, address, frame);
      c.log <= d.log && forall i :: |c.log| <= i < |d.log| ==> d.log[i] == Attempt(address, frame)
  {
  }

  /** The write is lost exactly when all `Retries` attempts fail. */
  lemma DeliveredIff(faults: seq<bool>)
    ensures !Delivered(faults) <==> |faults| >= Retries && forall i :: 0 <= i < Retries ==> faults[i]
  {
    if |faults| >= Retries && forall i :: 0 <= i < Retries ==> faults[i] {
      FailedAttemptsExact(faults, Retries, Retries);
    }
  }

  /** When attempt `k` is the first to succeed, the write makes `k` attempts
      and adds `k - 1` to the retry count. */
  lemma SucceedsAtAttempt(c: Channel, address: int, frame: Frame, k: nat)
    requires 1 <= k <= Retries
    requires k - 1 <= |c.faults| && forall i :: 0 <= i < k - 1 ==> c.faults[i]
    requires !FailsNext(Drop(c.faults, k - 1))
    ensures Delivered(c.faults)
    ensures |RetryingWrite(c, address, frame).log| == |c.log| + k
    ensures RetryingWrite(c, address, frame).retries == c.retries + k - 1
  {
    FailedAttemptsExact(c.faults, Retries, k - 1);
  }

  /** When every attempt fails, the write makes `Retries` attempts, adds
      `Retries` to the retry count and still returns: the loss is silent. */
  lemma AllAttemptsFail(c: Channel, address: int, frame: Frame)
    requires |c.faults| >= Retries && forall i :: 0 <= i < Retries ==> c.faults[i]
    ensures !Delivered(c.faults)
    ensures |RetryingWrite(c, address, frame).log| == |c.log| + Retries
    ensures RetryingWrite(c, address, frame).retries == c.retries + Retries
  {
    FailedAttemptsExact(c.faults, Retries, Retries);
  }

  /** Retrying writes of `frames`, in order, all at `address`: each write
      starts from the outcomes the previous one left. */
  function WriteAll(c: Channel, address: int, frames: seq<Frame>): (d: Channel)
    ensures |c.log| + |frames| <= |d.log| <= |c.log| + Retries * |frames|
    ensures c.retries <= d.retries <= c.retries + Retries * |frames|
    decreases |frames|
  {
    if frames == [] then c
    else RetryingWrite(WriteAll(c, address, frames[..|frames| - 1]), address, frames[|frames| - 1])
  }

  /** A sequence of writes only appends to the bus log, and every attempt
      it appends goes to `address`. */
  lemma {:induction false} WriteAllLog(c: Channel, address: int, frames: seq<Frame>)
    ensures var d := WriteAll(c, address, frames);
      c.log <= d.log && forall i :: |c.log| <= i < |d.log| ==> d.log[i].address == address
    decreases |frames|
  {
    if frames != [] {
      var prior := WriteAll(c, address, frames[..|frames| - 1]);
      WriteAllLog(c, address, frames[..|frames| - 1]);
      RetryingWriteLog(prior, address, frames[|frames| - 1]);
    }
  }

  /** Writing a sequence and then one more frame is writing the extended
      sequence. */
  lemma WriteAllStep(c: Channel, address: int, frames: seq<Frame>, frame: Frame)
    ensures WriteAll(c, address, frames + [frame]) == RetryingWrite(WriteAll(c, address, frames), address, frame)
  {
    assert (frames + [frame])[..|frames|] == frames;
  }

  /** The attempts of a fault-free run: one per frame, in the given order. */
  function OneAttemptEach(address: int, frames: seq<Frame>): (r: seq<Attempt>)
    ensures |r| == |frames|
    ensures forall i :: 0 <= i < |r| ==> r[i] == Attempt(address, frames[i])
  {
    seq(|frames|, i requires 0 <= i < |frames| => Attempt(address, frames[i]))
  }

  /** On a bus that never fails, one write is one attempt and no retry. */
  lemma HealthyWrite(log: seq<Attempt>, retries: nat, address: int, frame: Frame)
    ensures RetryingWrite(Channel(log, [], retries), address, frame)
         == Channel(log + [Attempt(address, frame)], [], retries)
  {
    FailedAttemptsExact([], Retries, 0);
    assert seq(1, _ => Attempt(address, frame)) == [Attempt(address, frame)];
  }

  /** On a bus that never fails, a sequence of writes puts each frame on the
      bus exactly once, in order, and counts no retries. */
  lemma {:induction false} HealthyBusWrites(log: seq<Attempt>, retries: nat, address: int, frames: seq<Frame>)
    ensures WriteAll(Channel(log, [], retries), address, frames)
         == Channel(log + OneAttemptEach(address, frames), [], retries)
    decreases |frames|
  {
    if frames != [] {
      var init, last := frames[..|frames| - 1], frames[|frames| - 1];
      HealthyBusWrites(log, retries, address, init);
      HealthyWrite(log + OneAttemptEach(address, init), retries, address, last);
      assert OneAttemptEach(address, frames) == OneAttemptEach(address, init) + [Attempt(address, last)];
    }
  }
}
