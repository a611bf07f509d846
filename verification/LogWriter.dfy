/** The job log writer of init/log.c: bytes read from a job go to a file that may refuse
    them, in whole or in part, and wait in memory until it takes them. */
module LogWriter {

  type Bytes = seq<bv8>

  datatype Errno = NoSpace | OtherError

  /** What write() answers: how much it took at most, or an error. */
  datatype WriteAnswer = Wrote(n: nat) | Refused(error: Errno)

  datatype OpenAnswer = Opened | NotOpened(error: Errno)

  /** The system's answers while one piece of output is handled: whether an open file
      still has a name, how opening it anew goes, and how the write of waiting data and
      the write of new data go. */
  datatype Disk = Disk(linked: bool, open: OpenAnswer, flush: WriteAnswer, write: WriteAnswer)

  /** What a final read from the job gives; a read that fails may have been interrupted,
      or tells that the job's end is closed. */
  datatype FinalRead = Got(data: Bytes, disk: Disk) | Interrupted(disk: Disk) | Ended(closed: bool, disk: Disk)

  /** The disk does not say that it is full. */
  predicate Spacious(disk: Disk) {
    disk.open != NotOpened(NoSpace) && disk.flush != Refused(NoSpace) && disk.write != Refused(NoSpace)
  }

  /** The file can be opened, and takes at least `n` new bytes at once. */
  predicate Takes(disk: Disk, n: nat) {
    disk.open == Opened && disk.write.Wrote? && disk.write.n >= n
  }

  function Taken(a: WriteAnswer, offered: Bytes): (n: nat)
    ensures n <= |offered|
    ensures a.Wrote? && a.n <= |offered| ==> n == a.n
    ensures a.Wrote? && a.n > |offered| ==> n == |offered|
  {
    if a.Refused? then 0 else if a.n < |offered| then a.n else |offered|
  }

  // ----- order-preserving parts -----

  /** Whether `a` is `b` with some bytes left out. */
  ghost predicate Subsequence(a: Bytes, b: Bytes) {
    a == [] || (b != [] && (Subsequence(a, b[..|b| - 1])
                            || (a[|a| - 1] == b[|b| - 1] && Subsequence(a[..|a| - 1], b[..|b| - 1]))))
  }

  lemma {:induction false} SubsequenceSelf(a: Bytes)
    ensures Subsequence(a, a)
  {
    if a != [] { SubsequenceSelf(a[..|a| - 1]); }
  }

  lemma {:induction false} SubsequenceMore(a: Bytes, b: Bytes, more: Bytes)
    requires Subsequence(a, b)
    ensures Subsequence(a, b + more)
  {
    if more == [] {
      assert b + more == b;
    } else {
      var front := more[..|more| - 1];
      SubsequenceMore(a, b, front);
      assert (b + more)[..|b + more| - 1] == b + front;
    }
  }

  lemma {:induction false} SubsequenceBoth(a: Bytes, b: Bytes, more: Bytes)
    requires Subsequence(a, b)
    ensures Subsequence(a + more, b + more)
  {
    if more == [] {
      assert a + more == a && b + more == b;
    } else {
      var front := more[..|more| - 1];
      SubsequenceBoth(a, b, front);
      assert (a + more)[..|a + more| - 1] == a + front;
      assert (b + more)[..|b + more| - 1] == b + front;
    }
  }

  lemma {:induction false} SubsequencePrefix(a: Bytes, dropped: Bytes, b: Bytes)
    requires Subsequence(a + dropped, b)
    ensures Subsequence(a, b)
    decreases |b|
  {
    if dropped == [] {
      assert a + dropped == a;
    } else if a != [] {
      var front := b[..|b| - 1];
      var s := a + dropped;
      assert s[..|s| - 1] == a + dropped[..|dropped| - 1];
      if Subsequence(s, front) {
        SubsequencePrefix(a, dropped, front);
      } else {
        SubsequencePrefix(a, dropped[..|dropped| - 1], front);
      }
    }
  }

  // ----- the writer -----

  class Log {
    var unflushed: Bytes        // waits for the file to take it
    var recv: Bytes             // read from the job and not yet handled
    var fdOpen: bool
    var openErrno: Errno
    var remoteClosed: bool
    ghost var file: Bytes       // everything the file has taken
    ghost var produced: Bytes   // everything read from the job
    ghost var lost: bool        // whether output was discarded for lack of space

    /** Everything there is of the job's output, in order. */
    ghost function Held(): Bytes
      reads this
    {
      file + unflushed + recv
    }

    /** Nothing waits. */
    ghost predicate Idle()
      reads this
    {
      unflushed == [] && recv == []
    }

    /** Nothing is lost, repeated or reordered, except for what a full disk discards. */
    ghost predicate Valid()
      reads this
    {
      && (!lost ==> Held() == produced)
      && Subsequence(Held(), produced)
    }

    constructor ()
      ensures Valid() && produced == [] && !lost && !fdOpen
    {
      unflushed, recv, fdOpen, openErrno, remoteClosed := [], [], false, OtherError, false;
      file, produced, lost := [], [], false;
    }

    /** log_file_open. */
    method FileOpen(disk: Disk) returns (ok: bool)
      modifies this`fdOpen, this`openErrno
      ensures ok == fdOpen == ((old(fdOpen) && disk.linked) || disk.open.Opened?)
      ensures !ok ==> openErrno == disk.open.error
    {
      if fdOpen && disk.linked { return true; }
      fdOpen := false;
      match disk.open {
        case Opened =>
          fdOpen := true;
          return true;
        case NotOpened(error) =>
          openErrno := error;
          return false;
      }
    }

    /** Whether writing `waiting` and then `more` discards `more`: a full disk refused. */
    ghost predicate Discards(disk: Disk, waiting: Bytes, more: Bytes) {
      more != [] &&
      if waiting != [] && disk.flush.Refused? then disk.flush.error.NoSpace?
      else Flushed(disk, waiting) && disk.write.Refused? && disk.write.error.NoSpace?
    }

    ghost predicate Flushed(disk: Disk, waiting: Bytes) {
      waiting == [] || (disk.flush.Wrote? && Taken(disk.flush, waiting) == |waiting|)
    }

    /** log_file_write: first what waits, and only once that is all written the new data,
        which is the receive buffer if `withNew` and otherwise nothing.  The file gets
        just what the writes take; what it does not take waits; and only a write that a
        full disk refuses discards the new data. */
    method FileWrite(disk: Disk, withNew: bool) returns (ok: bool)
      requires fdOpen
      modifies this`unflushed, this`recv, this`fdOpen, this`file, this`lost
      ensures
        var waiting, more := old(unflushed), if withNew then old(recv) else [];
        var n := Taken(disk.flush, waiting);
        var m := if Flushed(disk, waiting) then Taken(disk.write, more) else 0;
        && file == old(file) + waiting[..n] + more[..m]
        && ok == fdOpen == (Flushed(disk, waiting) && (more == [] || disk.write.Wrote?))
        && (ok ==> unflushed == [])
        && (!ok && withNew ==> recv == [])
        && (!withNew ==> recv == old(recv))
        && lost == (old(lost) || Discards(disk, waiting, more))
        && Held() == if Discards(disk, waiting, more) then old(file + unflushed) else old(Held())
    {
      var more: Bytes := if withNew then recv else [];
      ok := FlushWaiting(disk, more);
      if ok && more != [] { ok := WriteNew(disk); }
    }

    /** The write of what waits; without success the new data `more` waits as well. */
    method FlushWaiting(disk: Disk, more: Bytes) returns (ok: bool)
      requires fdOpen && (more == [] || more == recv)
      modifies this`unflushed, this`recv, this`fdOpen, this`file, this`lost
      ensures ok == fdOpen == Flushed(disk, old(unflushed))
      ensures file == old(file) + old(unflushed)[..Taken(disk.flush, old(unflushed))]
      ensures ok ==> unflushed == [] && recv == old(recv) && lost == old(lost)
      ensures !ok ==>
        && recv == (if more == [] then old(recv) else [])
        && lost == (old(lost) || Discards(disk, old(unflushed), more))
      ensures file + unflushed == old(file + unflushed) +
        if ok || Discards(disk, old(unflushed), more) then [] else more
    {
      ghost var waiting := unflushed;
      ok := true;
      if unflushed == [] { return; }
      match disk.flush {
        case Refused(error) =>
          if more != [] {
            if error != NoSpace {
              unflushed := unflushed + more;
            } else {
              lost := true;
            }
            recv := [];
          }
          fdOpen := false;
          return false;
        case Wrote(_) =>
          var n := Taken(disk.flush, unflushed);
          assert file + unflushed[..n] + unflushed[n..] == file + unflushed;
          file, unflushed := file + unflushed[..n], unflushed[n..];
      }
      if unflushed != [] {
        if more != [] {
          assert file + (unflushed + more) == file + unflushed + more;
          unflushed, recv := unflushed + more, [];
        }
        fdOpen := false;
        return false;
      }
    }

    /** The write of new data when nothing waits before it. */
    method WriteNew(disk: Disk) returns (ok: bool)
      requires fdOpen && unflushed == [] && recv != []
      modifies this`unflushed, this`recv, this`fdOpen, this`file, this`lost
      ensures ok == fdOpen == disk.write.Wrote?
      ensures file == old(file) + old(recv)[..Taken(disk.write, old(recv))]
      ensures ok ==> unflushed == []
      ensures !ok ==> recv == []
      ensures lost == (old(lost) || Discards(disk, [], old(recv)))
      ensures Held() == if Discards(disk, [], old(recv)) then old(file) else old(file + recv)
    {
      match disk.write {
        case Refused(error) =>
          if error != NoSpace {
            unflushed := recv;
          } else {
            lost := true;
          }
          recv := [];
          fdOpen := false;
          ok := false;
        case Wrote(_) =>
          var n := Taken(disk.write, recv);
          file, recv := file + recv[..n], recv[n..];
          ok := true;
      }
    }

    // ----- what every operation keeps -----

    /** Room for what an operation did to the log to be told as the invariant. */
    twostate lemma KeepsOrder(droppedNew: bool)
      requires old(Valid()) && produced == old(produced)
      requires Held() == if droppedNew then old(file + unflushed) else old(Held())
      requires lost == (old(lost) || droppedNew)
      ensures Valid()
    {
      if droppedNew {
        SubsequencePrefix(old(file + unflushed), old(recv), produced);
      }
    }

    /** Output of the job arrives in the receive buffer. */
    method Receive(data: Bytes)
      requires Valid()
      modifies this`recv, this`produced
      ensures Valid() && recv == old(recv) + data && produced == old(produced) + data
    {
      SubsequenceBoth(Held(), produced, data);
      assert Held() + data == file + unflushed + (recv + data);
      recv, produced := recv + data, produced + data;
    }

    /** log_io_reader: the receive buffer is handled. */
    method IoReader(disk: Disk)
      requires Valid() && recv != []
      modifies this`unflushed, this`recv, this`fdOpen, this`openErrno, this`file, this`lost
      ensures Valid()
      ensures
        var isOpen := (old(fdOpen) && disk.linked) || disk.open.Opened?;
        var discards := if isOpen then Discards(disk, old(unflushed), old(recv)) else disk.open.error.NoSpace?;
        && lost == (old(lost) || discards)
        && Held() == (if discards then old(file + unflushed) else old(Held()))
        && (!isOpen ==> file == old(file))
        && (isOpen ==> file == old(file) + old(unflushed)[..Taken(disk.flush, old(unflushed))]
                               + old(recv)[..if Flushed(disk, old(unflushed)) then Taken(disk.write, old(recv)) else 0])
        && (recv != [] ==> fdOpen && unflushed == [])
      ensures
        var isOpen := (old(fdOpen) && disk.linked) || disk.open.Opened?;
        var refused := if !isOpen then disk.open.error
                       else if old(unflushed) != [] && disk.flush.Refused? then disk.flush.error
                       else if old(unflushed) == [] && disk.write.Refused? then disk.write.error
                       else OtherError;
        && (refused == NoSpace ==> lost && recv == [] && file + unflushed == old(file + unflushed))
        && (old(unflushed) == [] && refused != NoSpace ==>
              lost == old(lost) && file + unflushed + recv == old(file + unflushed + recv))
      ensures old(unflushed) == [] && Takes(disk, |old(recv)|) ==> Idle()
    {
      var isOpen := FileOpen(disk);
      if !isOpen {
        if openErrno != NoSpace {
          assert file + unflushed + recv == file + (unflushed + recv) + [];
          unflushed := unflushed + recv;
        } else {
          lost := true;
        }
        recv := [];
        KeepsOrder(disk.open.error.NoSpace?);
        return;
      }
      var written := FileWrite(disk, true);
      KeepsOrder(Discards(disk, old(unflushed), old(recv)));
    }

    /** log_read_watch: read until there is no more, handling what is read each time. */
    method ReadWatch(input: seq<FinalRead>)
      requires Valid()
      modifies this
      ensures Valid() && produced == old(produced) + FinalBytes(input)
      ensures (forall i :: 0 <= i < |input| ==> Spacious(input[i].disk)) ==> lost == old(lost)
      ensures old(Idle()) && (forall i :: 0 <= i < |input| && input[i].Got? ==> Takes(input[i].disk, |input[i].data|))
        ==> Idle()
    {
      var more := input;
      while more != []
        invariant Valid() && produced + FinalBytes(more) == old(produced) + FinalBytes(input)
        invariant forall i :: 0 <= i < |more| ==> more[i] in input
        invariant (forall r :: r in input ==> Spacious(r.disk)) ==> lost == old(lost)
        invariant old(Idle()) && (forall r :: r in input && r.Got? ==> Takes(r.disk, |r.data|)) ==> Idle()
        decreases |more|
      {
        var r := more[0];
        assert r in input;
        ReadOnce(r);
        if r.Got? {
          assert old(produced) + FinalBytes(input) == produced + FinalBytes(more[1..]);
        }
        more := if r.Ended? then [] else more[1..];
      }
    }

    /** One read, with what the receive buffer then holds handled. */
    method ReadOnce(r: FinalRead)
      requires Valid()
      modifies this
      ensures Valid() && produced == old(produced) + if r.Got? then r.data else []
      ensures Spacious(r.disk) ==> lost == old(lost)
      ensures old(Idle()) && (r.Got? ==> Takes(r.disk, |r.data|)) ==> Idle()
    {
      if r.Got? { Receive(r.data); }
      if recv != [] { IoReader(r.disk); }
      if r.Ended? {
        if r.closed { remoteClosed := true; }
        fdOpen := false;
      }
    }

    /** log_flush, for a log whose output may have ended: a last attempt to write what
        waits, and then to read what is left. */
    method Flush(disk: Disk, input: seq<FinalRead>, haveIo: bool)
      requires Valid()
      modifies this
      ensures Valid() && !fdOpen
      ensures Spacious(disk) && (forall i :: 0 <= i < |input| ==> Spacious(input[i].disk)) ==> lost == old(lost)
      ensures
        var isOpen := (old(fdOpen) && disk.linked) || disk.open.Opened?;
        var written := old(unflushed) == [] || (isOpen && Flushed(disk, old(unflushed)));
        && produced == old(produced) + (if written && haveIo && !old(remoteClosed) then FinalBytes(input) else [])
        && (!written ==>
            && lost == old(lost)
            && file == old(file) + if isOpen then old(unflushed)[..Taken(disk.flush, old(unflushed))] else [])
      ensures old(Idle()) && (forall i :: 0 <= i < |input| && input[i].Got? ==> Takes(input[i].disk, |input[i].data|))
        ==> Idle()
    {
      if unflushed != [] {
        var isOpen := FileOpen(disk);
        if !isOpen {
          fdOpen := false;
          return;
        }
        var ok := FileWrite(disk, false);
        KeepsOrder(false);
        if !ok { return; }
      }
      if haveIo && !remoteClosed { ReadWatch(input); }
      fdOpen := false;
    }
  }

  /** The bytes a final read gets before it ends. */
  ghost function FinalBytes(input: seq<FinalRead>): Bytes {
    if input == [] || input[0].Ended? then []
    else if input[0].Got? then input[0].data + FinalBytes(input[1..])
    else FinalBytes(input[1..])
  }

  /** What reads get adds up, whether or not one is interrupted, until one ends it. */
  lemma {:induction false} FinalBytesAdd(a: seq<FinalRead>, b: seq<FinalRead>)
    ensures (forall i :: 0 <= i < |a| ==> !a[i].Ended?) ==> FinalBytes(a + b) == FinalBytes(a) + FinalBytes(b)
    ensures a != [] && a[|a| - 1].Ended? ==> FinalBytes(a + b) == FinalBytes(a)
    ensures |a| == 1 ==> FinalBytes(a) == if a[0].Got? then a[0].data else []
  {
    if a == [] {
      assert a + b == b && FinalBytes(a) == [];
    } else {
      assert (a + b)[1..] == a[1..] + b && (a + b)[0] == a[0];
      if |a| == 1 { assert a[1..] == [] && FinalBytes(a[1..]) == []; }
      FinalBytesAdd(a[1..], b);
    }
  }

  // ----- any sequence of operations -----

  datatype Action =
    | Arrives(data: Bytes, disk: Disk)
    | Drains(input: seq<FinalRead>)
    | Flushes(disk: Disk, input: seq<FinalRead>, haveIo: bool)

  /** What a job puts out over the actions: what arrives, what the final reads get, and
      what those flushes get that come to read. */
  ghost function Output(actions: seq<Action>, reading: seq<bool>): Bytes
    requires |actions| == |reading|
  {
    if actions == [] then []
    else
      var last := |actions| - 1;
      Output(actions[..last], reading[..last]) +
      match actions[last]
      case Arrives(data, _) => data
      case Drains(input) => FinalBytes(input)
      case Flushes(_, input, _) => if reading[last] then FinalBytes(input) else []
  }

  lemma OneMoreOutput(actions: seq<Action>, reading: seq<bool>, i: nat, r: bool)
    requires |reading| == i < |actions|
    ensures Output(actions[..i + 1], reading + [r]) ==
      Output(actions[..i], reading) +
      match actions[i]
      case Arrives(data, _) => data
      case Drains(input) => FinalBytes(input)
      case Flushes(_, input, _) => if r then FinalBytes(input) else []
  {
    assert actions[..i + 1][..i] == actions[..i] && (reading + [r])[..i] == reading;
  }

  /** A flush comes to read exactly if what waits is all written, the log has its reader,
      and the job's end is not known to be closed. */
  ghost predicate ComesToRead(log: Log, disk: Disk, haveIo: bool)
    reads log
  {
    var isOpen := (log.fdOpen && disk.linked) || disk.open.Opened?;
    (log.unflushed == [] || (isOpen && log.Flushed(disk, log.unflushed))) && haveIo && !log.remoteClosed
  }

  ghost predicate AlwaysRoom(a: Action) {
    match a
    case Arrives(_, disk) => Spacious(disk)
    case Drains(input) => forall i :: 0 <= i < |input| ==> Spacious(input[i].disk)
    case Flushes(disk, input, _) => Spacious(disk) && forall i :: 0 <= i < |input| ==> Spacious(input[i].disk)
  }

  ghost predicate AlwaysTaken(a: Action) {
    match a
    case Arrives(data, disk) => Takes(disk, |data|)
    case Drains(input) => forall i :: 0 <= i < |input| && input[i].Got? ==> Takes(input[i].disk, |input[i].data|)
    case Flushes(_, input, _) =>
      forall i :: 0 <= i < |input| && input[i].Got? ==> Takes(input[i].disk, |input[i].data|)
  }

  /** However reads, writes and failures follow each other, what the file has, what waits
      and what is not yet handled are together the job's output in order, less what a
      full disk discarded. */
  method Play(actions: seq<Action>) returns (log: Log, ghost reading: seq<bool>)
    ensures fresh(log) && log.Valid() && |reading| == |actions|
    ensures log.produced == Output(actions, reading)
    ensures forall i :: 0 <= i < |actions| && actions[i].Flushes? && reading[i] ==> actions[i].haveIo
    ensures !log.lost ==> log.file + log.unflushed + log.recv == Output(actions, reading)
    ensures Subsequence(log.file + log.unflushed + log.recv, Output(actions, reading))
    ensures (forall i :: 0 <= i < |actions| ==> AlwaysRoom(actions[i])) ==> !log.lost
    ensures (forall i :: 0 <= i < |actions| ==> AlwaysTaken(actions[i]) && AlwaysRoom(actions[i])) ==>
      log.Idle() && log.file == Output(actions, reading)
  {
    log := new Log();
    reading := [];
    for i := 0 to |actions|
      invariant log.Valid() && |reading| == i && log.produced == Output(actions[..i], reading)
      invariant forall k :: 0 <= k < i && actions[k].Flushes? && reading[k] ==> actions[k].haveIo
      invariant (forall k :: 0 <= k < i ==> AlwaysRoom(actions[k])) ==> !log.lost
      invariant (forall k :: 0 <= k < i ==> AlwaysTaken(actions[k])) ==> log.Idle()
    {
      ghost var r := actions[i].Flushes? && ComesToRead(log, actions[i].disk, actions[i].haveIo);
      OneMoreOutput(actions, reading, i, r);
      Do(log, actions[i]);
      reading := reading + [r];
    }
    assert actions[..|actions|] == actions;
  }

  method Do(log: Log, a: Action)
    requires log.Valid()
    modifies log
    ensures log.Valid() && (AlwaysRoom(a) ==> log.lost == old(log.lost))
    ensures old(log.Idle()) && AlwaysTaken(a) ==> log.Idle()
    ensures log.produced == old(log.produced) +
      match a
      case Arrives(data, _) => data
      case Drains(input) => FinalBytes(input)
      case Flushes(disk, input, haveIo) => if old(ComesToRead(log, disk, haveIo)) then FinalBytes(input) else []
  {
    match a {
      case Arrives(data, disk) =>
        log.Receive(data);
        if log.recv != [] { log.IoReader(disk); }
      case Drains(input) => log.ReadWatch(input);
      case Flushes(disk, input, haveIo) => log.Flush(disk, input, haveIo);
    }
  }
}
