/**
 The growing byte buffer (myTinymuduo/resoure/Buffer.h, Buffer.cpp): an array with a reader and
 a writer index that stands for the queue of readable bytes.

 makeSpace grows the size, as the picture in the header needs; what its statement, which only
 reserves capacity, does to the indices is AppendIndicesAsWritten, at the end.
 */
module ByteBuffer {
  import opened Prelude

  const CHEAP_PREPEND := 8
  const INITIAL_SIZE := 1024
  const EXTRA := 65536

  const CR := '\r'
  const LF := '\n'

  /** The first CRLF: no CRLF starts before it. */
  predicate CRLFAt(s: string, k: int) {
    0 <= k && k + 1 < |s| && s[k] == CR && s[k + 1] == LF
  }

  function FirstCRLF(s: string): (r: Option<nat>)
    ensures r.Some? ==> CRLFAt(s, r.value) && forall k :: 0 <= k < r.value ==> !CRLFAt(s, k)
    ensures r.None? ==> forall k :: !CRLFAt(s, k)
  {
    if |s| < 2 then None
    else if CRLFAt(s, 0) then Some(0)
    else
      var r := FirstCRLF(s[1..]);
      assert forall k :: k >= 1 ==> (CRLFAt(s, k) <==> CRLFAt(s[1..], k - 1));
      if r.Some? then Some(r.value + 1) else None
  }

  // ---- the queue ----

  datatype Op =
    | Append(text: string)
    | Retrieve(len: nat)
    | RetrieveAll
    | Prepend(text: string)
    | Unwrite(len: nat)
    | ReadFd(text: string)

  /** What an operation does to the readable bytes, if its assert holds; otherwise it is skipped. */
  function Apply(q: string, op: Op, done: bool): string {
    if !done then q else
    match op
    case Append(text) => q + text
    case Retrieve(len) => if len <= |q| then q[len..] else q
    case RetrieveAll => ""
    case Prepend(text) => text + q
    case Unwrite(len) => if len <= |q| then q[..|q| - len] else q
    case ReadFd(text) => q + text
  }

  function ApplyAll(q: string, ops: seq<Op>, done: seq<bool>): string
    requires |done| == |ops|
    decreases |ops|
  {
    if ops == [] then q else ApplyAll(Apply(q, ops[0], done[0]), ops[1..], done[1..])
  }

  lemma {:induction false} ApplyAllSnoc(q: string, ops: seq<Op>, done: seq<bool>, op: Op, d: bool)
    requires |done| == |ops|
    ensures ApplyAll(q, ops + [op], done + [d]) == Apply(ApplyAll(q, ops, done), op, d)
    decreases |ops|
  {
    if ops != [] {
      assert (ops + [op])[1..] == ops[1..] + [op] && (done + [d])[1..] == done[1..] + [d];
      ApplyAllSnoc(Apply(q, ops[0], done[0]), ops[1..], done[1..], op, d);
    }
  }

  // ---- the indices ----

  datatype Indices = Indices(size: nat, reader: nat, writer: nat)

  predicate InOrder(x: Indices) {
    x.reader <= x.writer <= x.size
  }

  /** makeSpace, when there is less room than len: grow the size, or move to the front. */
  function Grown(x: Indices, len: nat): (y: Indices)
    requires InOrder(x) && CHEAP_PREPEND <= x.size
    ensures InOrder(y) && CHEAP_PREPEND <= y.size && len <= y.size - y.writer
  {
    if len <= x.size - x.writer then x
    else if (x.size - x.writer) + x.reader < len + CHEAP_PREPEND then x.(size := x.writer + len)
    else x.(reader := CHEAP_PREPEND, writer := CHEAP_PREPEND + (x.writer - x.reader))
  }

  /** The most that readv can return. */
  function ReadLimit(x: Indices): int {
    var writable := x.size - x.writer;
    writable + (if writable < EXTRA then EXTRA else 0)
  }

  /** The assert of the operation holds, and a read is one that readv can return. */
  predicate Runs(x: Indices, op: Op) {
    match op
    case Append(_) => true
    case Retrieve(len) => len <= x.writer - x.reader
    case RetrieveAll => true
    case Prepend(text) => |text| <= x.reader
    case Unwrite(len) => len <= x.writer - x.reader
    case ReadFd(text) => |text| <= ReadLimit(x)
  }

  function Moved(x: Indices, op: Op): (y: Indices)
    requires InOrder(x) && CHEAP_PREPEND <= x.size
    ensures InOrder(y) && CHEAP_PREPEND <= y.size
  {
    if !Runs(x, op) then x else
    match op
    case Append(text) => Filled(Grown(x, |text|), |text|)
    case Retrieve(len) => if len < x.writer - x.reader then x.(reader := x.reader + len) else Emptied(x)
    case RetrieveAll => Emptied(x)
    case Prepend(text) => x.(reader := x.reader - |text|)
    case Unwrite(len) => x.(writer := x.writer - len)
    case ReadFd(text) =>
      if |text| <= x.size - x.writer then Filled(x, |text|)
      else Filled(Grown(x.(writer := x.size), |text| - (x.size - x.writer)), |text| - (x.size - x.writer))
  }

  function Filled(x: Indices, len: nat): Indices {
    x.(writer := x.writer + len)
  }

  function Emptied(x: Indices): Indices {
    x.(reader := CHEAP_PREPEND, writer := CHEAP_PREPEND)
  }

  function MovedAll(x: Indices, ops: seq<Op>): (y: Indices)
    requires InOrder(x) && CHEAP_PREPEND <= x.size
    ensures InOrder(y) && CHEAP_PREPEND <= y.size
    decreases |ops|
  {
    if ops == [] then x else Moved(MovedAll(x, ops[..|ops| - 1]), ops[|ops| - 1])
  }

  /** An operation is done exactly when it may run, given the indices it meets. */
  ghost predicate DoneIfRuns(x: Indices, ops: seq<Op>, done: seq<bool>)
    requires InOrder(x) && CHEAP_PREPEND <= x.size && |done| == |ops|
  {
    forall i :: 0 <= i < |ops| ==> done[i] == Runs(MovedAll(x, ops[..i]), ops[i])
  }

  lemma MovedAllSnoc(x: Indices, ops: seq<Op>, op: Op)
    requires InOrder(x) && CHEAP_PREPEND <= x.size
    ensures MovedAll(x, ops + [op]) == Moved(MovedAll(x, ops), op)
  {
    assert (ops + [op])[..|ops|] == ops;
  }

  lemma DoneSnoc(x: Indices, ops: seq<Op>, done: seq<bool>, op: Op, d: bool)
    requires InOrder(x) && CHEAP_PREPEND <= x.size && |done| == |ops| && DoneIfRuns(x, ops, done)
    requires d == Runs(MovedAll(x, ops), op)
    ensures DoneIfRuns(x, ops + [op], done + [d]) && MovedAll(x, ops + [op]) == Moved(MovedAll(x, ops), op)
  {
    MovedAllSnoc(x, ops, op);
    forall i | 0 <= i < |ops + [op]| ensures (done + [d])[i] == Runs(MovedAll(x, (ops + [op])[..i]), (ops + [op])[i]) {
      assert (ops + [op])[..i] == ops[..i];
      assert i == |ops| ==> ops[..i] == ops;
    }
  }

  /** The queue p and the indices y are what the operations, those of them that were done, make of q and x. */
  ghost predicate After(q: string, x: Indices, ops: seq<Op>, done: seq<bool>, p: string, y: Indices)
    requires InOrder(x) && CHEAP_PREPEND <= x.size && |done| == |ops|
  {
    p == ApplyAll(q, ops, done) && y == MovedAll(x, ops) && DoneIfRuns(x, ops, done)
  }

  lemma AfterSnoc(q: string, x: Indices, ops: seq<Op>, done: seq<bool>, p: string, y: Indices, op: Op)
    requires InOrder(x) && CHEAP_PREPEND <= x.size && |done| == |ops| && After(q, x, ops, done, p, y)
    ensures After(q, x, ops + [op], done + [Runs(y, op)], Apply(p, op, Runs(y, op)), Moved(y, op))
  {
    ApplyAllSnoc(q, ops, done, op, Runs(y, op));
    DoneSnoc(x, ops, done, op, Runs(y, op));
  }

  lemma TakeOneMore(ops: seq<Op>, i: nat)
    requires i < |ops|
    ensures ops[..i + 1] == ops[..i] + [ops[i]]
  {
  }

  /** One operation keeps the length of the queue equal to the distance of the indices. */
  lemma LengthStep(q: string, x: Indices, op: Op)
    requires InOrder(x) && CHEAP_PREPEND <= x.size && |q| == x.writer - x.reader
    ensures var y := Moved(x, op); |Apply(q, op, Runs(x, op))| == y.writer - y.reader
  {
  }

  /**
   The array grows exactly when the bytes fit neither behind the writer nor, with the space to
   prepend, after moving to the front; it never shrinks, and a retrieve that empties the queue
   gives the space to prepend back.
   */
  lemma GrowsIff(x: Indices, op: Op)
    requires InOrder(x) && CHEAP_PREPEND <= x.size && Runs(x, op)
    ensures var y := Moved(x, op);
            var len := if op.Append? || op.ReadFd? then |op.text| else 0;
            && (y.size > x.size <==> x.size - x.writer < len && x.size - (x.writer - x.reader) < len + CHEAP_PREPEND)
            && x.size <= y.size
            && (op.Retrieve? || op.RetrieveAll? ==> y.reader < y.writer || y.reader == CHEAP_PREPEND)
  {
  }

  lemma DonePrefix(x: Indices, ops: seq<Op>, done: seq<bool>, n: nat)
    requires InOrder(x) && CHEAP_PREPEND <= x.size && |done| == |ops| && DoneIfRuns(x, ops, done) && n <= |ops|
    ensures DoneIfRuns(x, ops[..n], done[..n])
  {
    forall i | 0 <= i < n ensures done[..n][i] == Runs(MovedAll(x, ops[..n][..i]), ops[..n][i]) {
      assert ops[..n][..i] == ops[..i];
    }
  }

  lemma {:induction false} LengthsAgree(q: string, x: Indices, ops: seq<Op>, done: seq<bool>)
    requires InOrder(x) && CHEAP_PREPEND <= x.size && |q| == x.writer - x.reader
    requires |done| == |ops| && DoneIfRuns(x, ops, done)
    ensures var y := MovedAll(x, ops); |ApplyAll(q, ops, done)| == y.writer - y.reader
    decreases |ops|
  {
    if ops != [] {
      var n := |ops| - 1;
      var front, before := ops[..n], done[..n];
      assert ops == front + [ops[n]] && done == before + [done[n]];
      DonePrefix(x, ops, done, n);
      LengthsAgree(q, x, front, before);
      ApplyAllSnoc(q, front, before, ops[n], done[n]);
      LengthStep(ApplyAll(q, front, before), MovedAll(x, front), ops[n]);
    }
  }

  lemma DoneByLength(q: string, x: Indices, ops: seq<Op>, done: seq<bool>)
    requires InOrder(x) && CHEAP_PREPEND <= x.size && |q| == x.writer - x.reader
    requires |done| == |ops| && DoneIfRuns(x, ops, done)
    ensures forall i :: 0 <= i < |ops| && (ops[i].Retrieve? || ops[i].Unwrite?) ==>
              (done[i] <==> ops[i].len <= |ApplyAll(q, ops[..i], done[..i])|)
  {
    forall i | 0 <= i < |ops| && (ops[i].Retrieve? || ops[i].Unwrite?)
      ensures done[i] <==> ops[i].len <= |ApplyAll(q, ops[..i], done[..i])|
    {
      DonePrefix(x, ops, done, i);
      LengthsAgree(q, x, ops[..i], done[..i]);
    }
  }

  lemma ShorterSlice(a: array<char>, lo: nat, mid: nat, hi: nat)
    requires lo <= mid <= hi <= a.Length
    ensures a[lo..mid] == a[lo..hi][..mid - lo]
  {
  }

  class Buffer {
    var data: array<char>
    var reader: nat
    var writer: nat

    ghost predicate Valid()
      reads this
    {
      reader <= writer <= data.Length && CHEAP_PREPEND <= data.Length
    }

    ghost function Contents(): (q: string)
      reads this, data
      requires Valid()
      ensures |q| == writer - reader
    {
      data[reader..writer]
    }

    ghost function Marks(): (x: Indices)
      reads this
      requires Valid()
      ensures InOrder(x) && CHEAP_PREPEND <= x.size
    {
      Indices(data.Length, reader, writer)
    }

    constructor ()
      ensures Valid() && Contents() == "" && fresh(data)
      ensures Marks() == Indices(CHEAP_PREPEND + INITIAL_SIZE, CHEAP_PREPEND, CHEAP_PREPEND)
    {
      data := new char[CHEAP_PREPEND + INITIAL_SIZE](_ => '\0');
      reader, writer := CHEAP_PREPEND, CHEAP_PREPEND;
    }

    function ReadableBytes(): int
      reads this
    {
      writer - reader
    }

    function WritableBytes(): int
      reads this
    {
      data.Length - writer
    }

    function PrependableBytes(): int
      reads this
    {
      reader
    }

    method RetrieveAll()
      requires Valid()
      modifies this`reader, this`writer
      ensures Valid() && Contents() == "" && Marks() == Emptied(old(Marks()))
    {
      reader, writer := CHEAP_PREPEND, CHEAP_PREPEND;
    }

    method Retrieve(len: nat)
      requires Valid() && len <= ReadableBytes()
      modifies this`reader, this`writer
      ensures Valid() && Contents() == old(Contents())[len..]
      ensures Marks() == Moved(old(Marks()), Op.Retrieve(len))
    {
      if len < ReadableBytes() {
        reader := reader + len;
      } else {
        RetrieveAll();
      }
    }

    method RetrieveAsString(len: nat) returns (text: string)
      requires Valid() && len <= ReadableBytes()
      modifies this`reader, this`writer
      ensures Valid() && old(Contents()) == text + Contents() && |text| == len
    {
      text := data[reader..reader + len];
      Retrieve(len);
    }

    method Unwrite(len: nat)
      requires Valid() && len <= ReadableBytes()
      modifies this`writer
      ensures Valid() && Contents() == old(Contents())[..|old(Contents())| - len]
      ensures Marks() == Moved(old(Marks()), Op.Unwrite(len))
    {
      ShorterSlice(data, reader, writer - len, writer);
      writer := writer - len;
    }

    /** std::copy of text to position at. */
    method CopyIn(text: string, at: nat)
      requires at + |text| <= data.Length
      modifies data
      ensures data[at..at + |text|] == text
      ensures data[..at] == old(data[..at]) && data[at + |text|..] == old(data[at + |text|..])
    {
      for k := 0 to |text|
        invariant data[at..at + k] == text[..k]
        invariant data[..at] == old(data[..at]) && data[at + k..] == old(data[at + k..])
      {
        data[at + k] := text[k];
      }
    }

    method Prepend(text: string)
      requires Valid() && |text| <= PrependableBytes()
      modifies this`reader, data
      ensures Valid() && Contents() == text + old(Contents())
      ensures Marks() == Moved(old(Marks()), Op.Prepend(text))
    {
      ghost var q := Contents();
      reader := reader - |text|;
      CopyIn(text, reader);
      assert data[reader + |text|..][..|q|] == q;
      assert data[reader..writer] == data[reader..reader + |text|] + data[reader + |text|..writer];
    }

    /** std::copy to a lower position, where the two ranges may overlap. */
    method MoveDown(start: nat, to: nat, count: nat)
      requires to <= start && start + count <= data.Length
      modifies data
      ensures data[to..to + count] == old(data[start..start + count])
    {
      ghost var was := data[..];
      for i := 0 to count
        invariant data[to..to + i] == was[start..start + i]
        invariant data[start + i..] == was[start + i..]
      {
        assert data[start + i] == data[start + i..][0];
        data[to + i] := data[start + i];
      }
    }

    /** The readable bytes move to the front. */
    method Compact()
      requires Valid() && CHEAP_PREPEND < reader
      modifies this`reader, this`writer, data
      ensures Valid() && Contents() == old(Contents())
      ensures reader == CHEAP_PREPEND && writer == CHEAP_PREPEND + old(writer - reader)
    {
      var readable := ReadableBytes();
      MoveDown(reader, CHEAP_PREPEND, readable);
      reader := CHEAP_PREPEND;
      writer := reader + readable;
      assert readable == ReadableBytes();
    }

    /** The vector grows to the given size and keeps what it holds. */
    method Resize(size: nat)
      requires Valid() && data.Length <= size
      modifies this`data
      ensures Valid() && fresh(data) && data.Length == size && Contents() == old(Contents())
    {
      var bigger := new char[size](i requires 0 <= i reads this, data =>
        if i < data.Length then data[i] else '\0');
      data := bigger;
    }

    method MakeSpace(len: nat)
      requires Valid() && WritableBytes() < len
      modifies this, data
      ensures Valid() && (data == old(data) || fresh(data))
      ensures Contents() == old(Contents()) && len <= WritableBytes() && Marks() == Grown(old(Marks()), len)
    {
      if WritableBytes() + PrependableBytes() < len + CHEAP_PREPEND {
        Resize(writer + len);
      } else {
        assert CHEAP_PREPEND < reader;
        Compact();
      }
    }

    method EnsureWritableBytes(len: nat)
      requires Valid()
      modifies this, data
      ensures Valid() && (data == old(data) || fresh(data))
      ensures Contents() == old(Contents()) && len <= WritableBytes() && Marks() == Grown(old(Marks()), len)
    {
      if WritableBytes() < len {
        MakeSpace(len);
      }
    }

    /** Copy to the writable part and advance the writer (hasWritten). */
    method Fill(text: string)
      requires Valid() && |text| <= WritableBytes()
      modifies this`writer, data
      ensures Valid() && Contents() == old(Contents()) + text && writer == old(writer) + |text|
    {
      ghost var q := Contents();
      var w := writer;
      assert q == data[..w][reader..];
      CopyIn(text, w);
      writer := writer + |text|;
      assert data[reader..w] == data[..w][reader..] == q;
      assert data[reader..writer] == data[reader..w] + data[w..writer];
    }

    method Append(text: string)
      requires Valid()
      modifies this, data
      ensures Valid() && (data == old(data) || fresh(data))
      ensures Contents() == old(Contents()) + text && Marks() == Moved(old(Marks()), Op.Append(text))
    {
      EnsureWritableBytes(|text|);
      Fill(text);
    }

    /**
     readFd: readv fills the writable part first and then a stack buffer, which is only offered
     when the writable part is smaller than it.  A failed read changes nothing.
     */
    method ReadFd(incoming: Option<string>) returns (n: int)
      requires Valid()
      requires incoming.Some? ==> |incoming.value| <= ReadLimit(Marks())
      modifies this, data
      ensures Valid() && (data == old(data) || fresh(data))
      ensures incoming.Some? ==> n == |incoming.value| && Contents() == old(Contents()) + incoming.value
                                 && Marks() == Moved(old(Marks()), Op.ReadFd(incoming.value))
      ensures incoming.None? ==> n == -1 && Contents() == old(Contents()) && Marks() == old(Marks())
    {
      var writable := WritableBytes();
      if incoming.None? {
        return -1;
      }
      var bytes := incoming.value;
      n := |bytes|;
      if n <= writable {
        Fill(bytes);
      } else {
        Fill(bytes[..writable]);
        assert writer == data.Length;
        Append(bytes[writable..]);
        assert old(Contents()) + bytes[..writable] + bytes[writable..] == old(Contents()) + bytes;
      }
    }

    /** writeFd: the bytes offered to write are the readable ones. */
    method WriteFd() returns (offered: string)
      requires Valid()
      ensures offered == Contents()
    {
      offered := data[reader..writer];
    }

    /** The first bytes from peek() on. */
    method Peek(len: nat) returns (text: string)
      requires Valid() && len <= ReadableBytes()
      ensures text == Contents()[..len]
    {
      text := data[reader..reader + len];
    }

    /** findCRLF, as an offset from peek(). */
    method FindCRLF() returns (r: Option<nat>)
      requires Valid()
      ensures r == FirstCRLF(Contents())
    {
      var i := reader;
      while i + 1 < writer
        invariant reader <= i && (i <= writer || i == reader)
        invariant forall k :: 0 <= k < i - reader ==> !CRLFAt(Contents(), k)
      {
        if data[i] == CR && data[i + 1] == LF {
          assert CRLFAt(Contents(), i - reader);
          return Some(i - reader);
        }
        assert !CRLFAt(Contents(), i - reader);
        i := i + 1;
      }
      r := None;
    }

    /**
     Any sequence of operations: those whose assert fails, and reads of more than readv can
     return, are skipped, and exactly those.  The readable bytes are those of the queue after
     the same operations, and a retrieve or unwrite is done exactly when the queue is that long.
     */
    method Run(ops: seq<Op>) returns (done: seq<bool>)
      requires Valid()
      modifies this, data
      ensures Valid() && |done| == |ops| && Contents() == ApplyAll(old(Contents()), ops, done)
      ensures Marks() == MovedAll(old(Marks()), ops) && DoneIfRuns(old(Marks()), ops, done)
      ensures forall i :: 0 <= i < |ops| && (ops[i].Retrieve? || ops[i].Unwrite?) ==>
                (done[i] <==> ops[i].len <= |ApplyAll(old(Contents()), ops[..i], done[..i])|)
    {
      ghost var q, x := Contents(), Marks();
      done := RunAll(ops);
      DoneByLength(q, x, ops, done);
    }

    method RunAll(ops: seq<Op>) returns (done: seq<bool>)
      requires Valid()
      modifies this, data
      ensures Valid() && |done| == |ops| && After(old(Contents()), old(Marks()), ops, done, Contents(), Marks())
    {
      ghost var q, x := Contents(), Marks();
      done := [];
      for i := 0 to |ops|
        invariant Valid() && (data == old(data) || fresh(data)) && |done| == i
        invariant After(q, x, ops[..i], done, Contents(), Marks())
      {
        TakeOneMore(ops, i);
        var d := RunNext(q, x, ops[..i], done, ops[i]);
        done := done + [d];
      }
      assert ops[..|ops|] == ops;
    }

    /** One more operation of a sequence of them. */
    method RunNext(ghost q: string, ghost x: Indices, ghost ops: seq<Op>, ghost done: seq<bool>, op: Op) returns (d: bool)
      requires Valid() && InOrder(x) && CHEAP_PREPEND <= x.size && |done| == |ops|
      requires After(q, x, ops, done, Contents(), Marks())
      modifies this, data
      ensures Valid() && (data == old(data) || fresh(data))
      ensures After(q, x, ops + [op], done + [d], Contents(), Marks())
    {
      AfterSnoc(q, x, ops, done, Contents(), Marks(), op);
      d := RunOne(op);
    }

    method RunOne(op: Op) returns (done: bool)
      requires Valid()
      modifies this, data
      ensures Valid() && (data == old(data) || fresh(data))
      ensures Contents() == Apply(old(Contents()), op, done)
      ensures done == Runs(old(Marks()), op) && Marks() == Moved(old(Marks()), op)
    {
      done := true;
      match op
      case Append(text) => Append(text);
      case Retrieve(len) =>
        done := len <= ReadableBytes();
        if done { Retrieve(len); }
      case RetrieveAll => RetrieveAll();
      case Prepend(text) =>
        done := |text| <= PrependableBytes();
        if done { Prepend(text); }
      case Unwrite(len) =>
        done := len <= ReadableBytes();
        if done { Unwrite(len); }
      case ReadFd(text) =>
        done := |text| <= WritableBytes() + (if WritableBytes() < EXTRA then EXTRA else 0);
        if done { var n := ReadFd(Some(text)); }
    }
  }

  // ---- the statement as written ----

  const WORD := 0x1_0000_0000_0000_0000

  /** size_t subtraction wraps. */
  function Writable(x: Indices): nat {
    (x.size - x.writer) % WORD
  }

  /** append when makeSpace reserves capacity: the size stays, and the writer moves on. */
  function AppendIndicesAsWritten(x: Indices, len: nat): Indices {
    var y := if Writable(x) < len && !(Writable(x) + x.reader < len + CHEAP_PREPEND) && x.writer >= x.reader
             then x.(reader := CHEAP_PREPEND, writer := CHEAP_PREPEND + (x.writer - x.reader)) else x;
    y.(writer := y.writer + len)
  }

  /** It keeps the picture in the header exactly when the growing branch of makeSpace is not taken. */
  lemma AppendAsWrittenIff(x: Indices, len: nat)
    requires InOrder(x) && x.size < WORD
    ensures InOrder(AppendIndicesAsWritten(x, len))
       <==> !(Writable(x) < len && Writable(x) + x.reader < len + CHEAP_PREPEND)
  {
  }

  /** For example after 2000 bytes into a new buffer, whose writable size then wraps. */
  lemma AppendAsWrittenExample()
    ensures var x := AppendIndicesAsWritten(Indices(CHEAP_PREPEND + INITIAL_SIZE, CHEAP_PREPEND, CHEAP_PREPEND), 2000);
            !InOrder(x) && Writable(x) > x.size
  {
  }
}
