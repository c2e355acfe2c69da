/** The bulk-transfer helpers `full_read` and `full_write` that every program
    of the system carries a copy of.

    A descriptor is modelled by the bytes it will deliver (for a read) or the
    bytes the caller hands over (for a write), together with a schedule that
    says what each successive read(2) or write(2) call does: it is interrupted
    by a signal, it fails, or it moves between one byte and a limit. Once the
    schedule is used up every further call moves as much as it may. */
module Transfer {

  newtype byte = x: int | 0 <= x < 256

  type Positive = n: nat | n > 0 witness 1

  /** What one read(2) call does. `ReadReady(limit)` returns at most `limit`
      bytes, and 0 only when the peer has closed and nothing is left. */
  datatype ReadEvent = ReadInterrupted | ReadFailed | ReadReady(limit: Positive)

  /** What one write(2) call does. `WriteReady(limit)` accepts at most `limit`
      bytes, and at least one. */
  datatype WriteEvent = WriteInterrupted | WriteFailed | WriteReady(limit: Positive)

  /** The helper returns the count of bytes it did NOT move, or the process
      exits with the failed call's return value. */
  datatype Outcome = Returned(left: nat) | Exited(status: int)

  /** The C return value of a failed read(2) or write(2). */
  const SyscallError := -1

  function Min(a: nat, b: nat): nat {
    if a <= b then a else b
  }

  /** full_read: reads until `count` bytes have arrived or the stream ends,
      retrying interrupted calls. `stream` is everything the peer sends before
      closing; `got` is what lands in the caller's buffer. */
  method FullRead(stream: seq<byte>, schedule: seq<ReadEvent>, count: nat)
    returns (outcome: Outcome, got: seq<byte>)
    ensures outcome.Returned? ==> outcome.left <= count
    ensures outcome.Returned? ==> count - outcome.left <= |stream|
    ensures outcome.Returned? ==> got == stream[..count - outcome.left]
    ensures outcome.Returned? && outcome.left > 0 ==> got == stream
    ensures outcome.Returned? && count <= |stream| ==> outcome.left == 0
    ensures outcome.Exited? ==> outcome.status == SyscallError && ReadFailed in schedule
    ensures ReadFailed !in schedule ==> outcome.Returned?
  {
    var nleft: nat := count;
    var rest := stream;
    var i := 0;
    got := [];
    while nleft > 0
      invariant nleft + |got| == count
      invariant got + rest == stream
      invariant i <= |schedule|
      invariant ReadFailed !in schedule[..i]
      decreases |schedule| - i, nleft
    {
      var event := if i < |schedule| then schedule[i] else ReadReady(nleft);
      if i < |schedule| {
        i := i + 1;
      }
      match event
      case ReadInterrupted =>
        continue;
      case ReadFailed =>
        assert schedule[i - 1] == ReadFailed;
        outcome := Exited(SyscallError);
        return;
      case ReadReady(limit) =>
        var nread := Min(Min(limit, nleft), |rest|);
        if nread == 0 {
          break;
        }
        got := got + rest[..nread];
        rest := rest[nread..];
        nleft := nleft - nread;
    }
    assert got + rest == stream;
    assert got == stream[..|got|];
    outcome := Returned(nleft);
  }

  /** full_write: writes the first `count` bytes of `data`, retrying
      interrupted calls; `sent` is what reaches the peer. */
  method FullWrite(data: seq<byte>, schedule: seq<WriteEvent>, count: nat)
    returns (outcome: Outcome, sent: seq<byte>)
    requires count <= |data|
    ensures outcome.Returned? ==> outcome.left == 0 && sent == data[..count]
    ensures outcome.Exited? ==> outcome.status == SyscallError && WriteFailed in schedule
    ensures WriteFailed !in schedule ==> outcome.Returned?
  {
    var nleft: nat := count;
    var i := 0;
    sent := [];
    while nleft > 0
      invariant nleft + |sent| == count
      invariant sent == data[..|sent|]
      invariant i <= |schedule|
      invariant WriteFailed !in schedule[..i]
      decreases |schedule| - i, nleft
    {
      var event := if i < |schedule| then schedule[i] else WriteReady(nleft);
      if i < |schedule| {
        i := i + 1;
      }
      match event
      case WriteInterrupted =>
        continue;
      case WriteFailed =>
        assert schedule[i - 1] == WriteFailed;
        outcome := Exited(SyscallError);
        return;
      case WriteReady(limit) =>
        var nwritten := Min(limit, nleft);
        sent := sent + data[|sent|..|sent| + nwritten];
        nleft := nleft - nwritten;
    }
    outcome := Returned(nleft);
  }
}
