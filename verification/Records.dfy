/** The records that cross the binding boundary: what the native side writes and
    what the facade reads back. Numbers are little-endian; strings are their UTF-8
    bytes. A `Parsed` is what was read and the bytes that are left. */
module Records {
  import opened Wrappers
  import opened Pieces
  import opened Books

  type Parsed<T> = Option<(T, seq<byte>)>

  const TWO_31: nat := 0x8000_0000

  // ---- numbers ----

  /** The low `width` bytes of a number, lowest first. */
  function Little(n: nat, width: nat): (r: seq<byte>)
    ensures |r| == width
  {
    if width == 0 then [] else [(n % 256) as byte] + Little(n / 256, width - 1)
  }

  function FromLittle(s: seq<byte>): nat {
    if s == [] then 0 else s[0] as nat + 256 * FromLittle(s[1..])
  }

  function Power(width: nat): (p: nat)
    ensures p >= 1
  {
    if width == 0 then 1 else 256 * Power(width - 1)
  }

  lemma {:induction false} LittleRound(n: nat, width: nat)
    ensures FromLittle(Little(n, width)) == n % Power(width)
  {
    if width > 0 {
      var p := Power(width - 1);
      LittleRound(n / 256, width - 1);
      SplitModulo(n, p);
    }
  }

  lemma SplitModulo(n: nat, p: nat)
    requires p >= 1
    ensures n % 256 + 256 * ((n / 256) % p) == n % (256 * p)
  {
    var a, b := n / 256, n % 256;
    var q, r := a / p, a % p;
    assert a == q * p + r;
    assert n == 256 * (q * p + r) + b == (256 * p) * q + (256 * r + b);
    assert 256 * r + b < 256 * p by {
      assert r <= p - 1;
    }
    ModuloUnique(n, 256 * p, q, 256 * r + b);
  }

  lemma ModuloUnique(n: nat, m: nat, q: nat, r: nat)
    requires m > 0 && n == m * q + r && r < m
    ensures n % m == r
  {
    var d := n / m - q;
    assert m * d == r - n % m;
    if d >= 1 {
      MulMono(1, d, m);
    } else if d <= -1 {
      MulMono(d, -1, m);
    }
  }

  lemma Powers()
    ensures Power(1) == 256 && Power(4) == 0x1_0000_0000 && Power(8) == 0x1_0000_0000_0000_0000
  {
    assert Power(2) == 0x1_0000 && Power(3) == 0x100_0000;
    assert Power(5) == 0x100_0000_0000 && Power(6) == 0x1_0000_0000_0000 && Power(7) == 0x100_0000_0000_0000;
  }

  /** Reads a number of `width` bytes, if there are so many. */
  function ReadNumber(s: seq<byte>, width: nat): Parsed<nat> {
    if |s| < width then None else Some((FromLittle(s[..width]), s[width..]))
  }

  lemma NumberRound(n: nat, width: nat, rest: seq<byte>)
    requires n < Power(width)
    ensures ReadNumber(Little(n, width) + rest, width) == Some((n, rest))
  {
    var s := Little(n, width) + rest;
    assert s[..width] == Little(n, width) && s[width..] == rest;
    LittleRound(n, width);
    ModuloUnique(n, Power(width), 0, n);
  }

  /** What a 64-bit number becomes as a signed 32-bit one. */
  function ToInt(n: nat): int {
    var low := n % 0x1_0000_0000;
    if low >= TWO_31 then low - 0x1_0000_0000 else low
  }

  // ---- fields ----

  function WriteBool(b: bool): seq<byte> {
    Little(if b then 1 else 0, 1)
  }

  function ReadBool(s: seq<byte>): Parsed<bool> {
    var n := ReadNumber(s, 1);
    if n.None? then None else Some((n.value.0 != 0, n.value.1))
  }

  function WriteBytes(b: seq<byte>): seq<byte> {
    Little(|b|, 8) + b
  }

  /** A length that is negative as an int, or more than what is left, is an error. */
  function ReadBytes(s: seq<byte>): Parsed<seq<byte>> {
    var n := ReadNumber(s, 8);
    if n.None? then None
    else
      var len, rest := ToInt(n.value.0), n.value.1;
      if len > |rest| || len < 0 then None else Some((rest[..len], rest[len..]))
  }

  function WriteOptional<T>(v: Option<T>, one: T -> seq<byte>): seq<byte> {
    WriteBool(v.Some?) + if v.Some? then one(v.value) else []
  }

  function ReadOptional<T>(s: seq<byte>, one: seq<byte> -> Parsed<T>): Parsed<Option<T>> {
    var present := ReadBool(s);
    if present.None? then None
    else if !present.value.0 then Some((None, present.value.1))
    else
      var v := one(present.value.1);
      if v.None? then None else Some((Some(v.value.0), v.value.1))
  }

  function WriteU64(n: nat): seq<byte> {
    Little(n, 8)
  }

  function ReadU64(s: seq<byte>): Parsed<nat> {
    ReadNumber(s, 8)
  }

  function WriteSpan(r: PieceRange): seq<byte> {
    Little(r.start, 4) + Little(r.end, 4)
  }

  function ReadSpan(s: seq<byte>): Parsed<PieceRange> {
    var a := ReadNumber(s, 4);
    if a.None? then None
    else
      var b := ReadNumber(a.value.1, 4);
      if b.None? then None else Some((PieceRange(a.value.0, b.value.0), b.value.1))
  }

  function WriteAll<T>(xs: seq<T>, one: T -> seq<byte>): seq<byte>
    decreases |xs|
  {
    if xs == [] then [] else WriteAll(xs[..|xs| - 1], one) + one(xs[|xs| - 1])
  }

  /** A counted list; the count is cut to 32 bits. */
  function WriteList<T>(xs: seq<T>, one: T -> seq<byte>): seq<byte> {
    Little(|xs|, 4) + WriteAll(xs, one)
  }

  function ReadAll<T>(count: nat, s: seq<byte>, one: seq<byte> -> Parsed<T>): Parsed<seq<T>> {
    if count == 0 then Some(([], s))
    else
      var x := one(s);
      if x.None? then None
      else
        var xs := ReadAll(count - 1, x.value.1, one);
        if xs.None? then None else Some(([x.value.0] + xs.value.0, xs.value.1))
  }

  /** A list whose count is negative as an int is an error. */
  function ReadList<T>(s: seq<byte>, one: seq<byte> -> Parsed<T>): Parsed<seq<T>> {
    var n := ReadNumber(s, 4);
    if n.None? || ToInt(n.value.0) < 0 then None else ReadAll(ToInt(n.value.0), n.value.1, one)
  }

  // ---- round trips of the fields ----

  lemma BoolRound(b: bool, rest: seq<byte>)
    ensures ReadBool(WriteBool(b) + rest) == Some((b, rest))
  {
    Powers();
    NumberRound(if b then 1 else 0, 1, rest);
  }

  lemma U64Round(n: nat, rest: seq<byte>)
    requires n < TWO_64
    ensures ReadU64(WriteU64(n) + rest) == Some((n, rest))
  {
    Powers();
    NumberRound(n, 8, rest);
  }

  lemma U32Round(n: nat, rest: seq<byte>)
    requires n < TWO_32
    ensures ReadNumber(Little(n, 4) + rest, 4) == Some((n, rest))
  {
    Powers();
    NumberRound(n, 4, rest);
  }

  lemma BytesRound(b: seq<byte>, rest: seq<byte>)
    requires |b| < TWO_31
    ensures ReadBytes(WriteBytes(b) + rest) == Some((b, rest))
  {
    U64Round(|b|, b + rest);
    assert Little(|b|, 8) + b + rest == Little(|b|, 8) + (b + rest);
    ModuloUnique(|b|, TWO_32, 0, |b|);
    assert (b + rest)[..|b|] == b && (b + rest)[|b|..] == rest;
  }

  /** Exactly the lengths of a signed 32-bit int survive. */
  lemma BytesRoundExactly(b: seq<byte>, rest: seq<byte>)
    requires |b| < TWO_64
    ensures ReadBytes(WriteBytes(b) + rest) == Some((b, rest)) <==> |b| < TWO_31
  {
    if |b| < TWO_31 {
      BytesRound(b, rest);
    } else {
      U64Round(|b|, b + rest);
      assert Little(|b|, 8) + b + rest == Little(|b|, 8) + (b + rest);
    }
  }

  lemma SpanRound(r: PieceRange, rest: seq<byte>)
    requires r.start < TWO_32 && r.end < TWO_32
    ensures ReadSpan(WriteSpan(r) + rest) == Some((r, rest))
  {
    U32Round(r.start, Little(r.end, 4) + rest);
    U32Round(r.end, rest);
    assert Little(r.start, 4) + Little(r.end, 4) + rest == Little(r.start, 4) + (Little(r.end, 4) + rest);
  }

  lemma OptionalRound<T>(v: Option<T>, write: T -> seq<byte>, read: seq<byte> -> Parsed<T>, rest: seq<byte>)
    requires v.Some? ==> read(write(v.value) + rest) == Some((v.value, rest))
    ensures ReadOptional(WriteOptional(v, write) + rest, read) == Some((v, rest))
  {
    var tail := if v.Some? then write(v.value) else [];
    BoolRound(v.Some?, tail + rest);
    assert WriteBool(v.Some?) + tail + rest == WriteBool(v.Some?) + (tail + rest);
    assert [] + rest == rest;
  }

  lemma {:induction false} AllRound<T>(xs: seq<T>, write: T -> seq<byte>, read: seq<byte> -> Parsed<T>, rest: seq<byte>)
    requires forall x, more :: x in xs ==> read(write(x) + more) == Some((x, more))
    ensures ReadAll(|xs|, WriteAll(xs, write) + rest, read) == Some((xs, rest))
    decreases |xs|
  {
    if xs == [] {
      assert [] + rest == rest;
    } else {
      var init, last := xs[..|xs| - 1], xs[|xs| - 1];
      assert xs == init + [last];
      AllRound(init, write, read, write(last) + rest);
      assert WriteAll(xs, write) + rest == WriteAll(init, write) + (write(last) + rest);
      assert read(write(last) + rest) == Some((last, rest));
      ReadAllMore(|init|, WriteAll(init, write) + (write(last) + rest), read);
    }
  }

  /** One more element after `count` of them. */
  lemma {:induction false} ReadAllMore<T>(count: nat, s: seq<byte>, read: seq<byte> -> Parsed<T>)
    requires ReadAll(count, s, read).Some? && read(ReadAll(count, s, read).value.1).Some?
    ensures var (xs, rest) := ReadAll(count, s, read).value;
            var (x, more) := read(rest).value;
            ReadAll(count + 1, s, read) == Some((xs + [x], more))
  {
    if count == 0 {
      var (x, more) := read(s).value;
      assert ReadAll(0, more, read) == Some(([], more));
      assert [x] + [] == [] + [x];
    } else {
      var (x, rest) := read(s).value;
      ReadAllMore(count - 1, rest, read);
      var (xs, left) := ReadAll(count - 1, rest, read).value;
      var (y, more) := read(left).value;
      assert [x] + (xs + [y]) == ([x] + xs) + [y];
    }
  }

  lemma ListRound<T>(xs: seq<T>, write: T -> seq<byte>, read: seq<byte> -> Parsed<T>, rest: seq<byte>)
    requires |xs| < TWO_31
    requires forall x, more :: x in xs ==> read(write(x) + more) == Some((x, more))
    ensures ReadList(WriteList(xs, write) + rest, read) == Some((xs, rest))
  {
    U32Round(|xs|, WriteAll(xs, write) + rest);
    assert WriteList(xs, write) + rest == Little(|xs|, 4) + (WriteAll(xs, write) + rest);
    ModuloUnique(|xs|, TWO_32, 0, |xs|);
    AllRound(xs, write, read, rest);
  }

  /** Each element of a list is no longer than the list, and if none is empty there
      are no more elements than bytes. */
  lemma {:induction false} AllSize<T>(xs: seq<T>, write: T -> seq<byte>)
    ensures forall x :: x in xs ==> |write(x)| <= |WriteAll(xs, write)|
    ensures (forall x :: |write(x)| >= 1) ==> |xs| <= |WriteAll(xs, write)|
    decreases |xs|
  {
    if xs != [] {
      var init, last := xs[..|xs| - 1], xs[|xs| - 1];
      assert xs == init + [last];
      AllSize(init, write);
    }
  }

  // ---- the state of a transfer ----

  datatype TransferState = TransferState(
    commands: seq<Command>, nextDeadline: Option<nat>, late: bool, finished: bool, verifiedBytes: nat)

  function WriteCommand(c: Command): seq<byte> {
    match c
    case Request(peer, range) => Little(0, 1) + (WriteU64(peer) + WriteSpan(range))
    case FetchOrigin(range) => Little(1, 1) + WriteSpan(range)
    case Cancel(peer) => Little(2, 1) + WriteU64(peer)
    case Abandon(peer) => Little(3, 1) + WriteU64(peer)
    case Ban(peer) => Little(4, 1) + WriteU64(peer)
    case Deliver(bytes) => Little(5, 1) + WriteBytes(bytes)
    case Fail => Little(6, 1)
  }

  function Map<T, U>(p: Parsed<T>, f: T -> U): Parsed<U> {
    if p.None? then None else Some((f(p.value.0), p.value.1))
  }

  function ReadCommand(s: seq<byte>): Parsed<Command> {
    var tag := ReadNumber(s, 1);
    if tag.None? then None
    else
      var rest := tag.value.1;
      match tag.value.0
      case 0 =>
        var peer := ReadU64(rest);
        if peer.None? then None else Map(ReadSpan(peer.value.1), r => Request(peer.value.0, r))
      case 1 => Map(ReadSpan(rest), r => FetchOrigin(r))
      case 2 => Map(ReadU64(rest), p => Cancel(p))
      case 3 => Map(ReadU64(rest), p => Command.Abandon(p))
      case 4 => Map(ReadU64(rest), p => Ban(p))
      case 5 => Map(ReadBytes(rest), b => Deliver(b))
      case 6 => Some((Command.Fail, rest))
      case _ => None
  }

  predicate FitsSpan(r: PieceRange) {
    r.start < TWO_32 && r.end < TWO_32
  }

  /** The numbers are of the native side's widths. */
  predicate FitsCommand(c: Command) {
    match c
    case Request(peer, range) => peer < TWO_64 && FitsSpan(range)
    case FetchOrigin(range) => FitsSpan(range)
    case Cancel(peer) => peer < TWO_64
    case Abandon(peer) => peer < TWO_64
    case Ban(peer) => peer < TWO_64
    case Deliver(_) => true
    case Fail => true
  }

  lemma TagRound(tag: nat, body: seq<byte>, rest: seq<byte>)
    requires tag < 256
    ensures ReadNumber(Little(tag, 1) + body + rest, 1) == Some((tag, body + rest))
  {
    Powers();
    NumberRound(tag, 1, body + rest);
    assert Little(tag, 1) + body + rest == Little(tag, 1) + (body + rest);
  }

  lemma CommandRound(c: Command, rest: seq<byte>)
    requires FitsCommand(c) && |WriteCommand(c)| < TWO_31
    ensures ReadCommand(WriteCommand(c) + rest) == Some((c, rest))
  {
    hide Little, ReadNumber, ReadSpan, WriteSpan, ReadBytes;
    match c
    case Request(peer, range) =>
      TagRound(0, WriteU64(peer) + WriteSpan(range), rest);
      U64Round(peer, WriteSpan(range) + rest);
      SpanRound(range, rest);
      assert WriteU64(peer) + WriteSpan(range) + rest == WriteU64(peer) + (WriteSpan(range) + rest);
    case FetchOrigin(range) =>
      TagRound(1, WriteSpan(range), rest);
      SpanRound(range, rest);
    case Cancel(peer) =>
      TagRound(2, WriteU64(peer), rest);
      U64Round(peer, rest);
    case Abandon(peer) =>
      TagRound(3, WriteU64(peer), rest);
      U64Round(peer, rest);
    case Ban(peer) =>
      TagRound(4, WriteU64(peer), rest);
      U64Round(peer, rest);
    case Deliver(bytes) =>
      TagRound(5, WriteBytes(bytes), rest);
      BytesRound(bytes, rest);
    case Fail =>
      TagRound(6, [], rest);
      assert Little(6, 1) + [] == Little(6, 1) && [] + rest == rest;
  }

  function WriteStatus(v: TransferState): seq<byte> {
    WriteOptional(v.nextDeadline, WriteU64) + (WriteBool(v.late) + (WriteBool(v.finished) + WriteU64(v.verifiedBytes)))
  }

  function WriteState(v: TransferState): seq<byte> {
    WriteList(v.commands, WriteCommand) + WriteStatus(v)
  }

  /** The state with the commands that were read before. */
  function ReadStatus(commands: seq<Command>, s: seq<byte>): Parsed<TransferState> {
    var deadline := ReadOptional(s, ReadU64);
    if deadline.None? then None
    else
      var late := ReadBool(deadline.value.1);
      if late.None? then None
      else
        var finished := ReadBool(late.value.1);
        if finished.None? then None
        else Map(ReadU64(finished.value.1), n => TransferState(commands, deadline.value.0, late.value.0, finished.value.0, n))
  }

  /** Bytes that are left over are an error. */
  function Done<T>(p: Parsed<T>): Option<T> {
    if p.Some? && p.value.1 == [] then Some(p.value.0) else None
  }

  function ReadState(s: seq<byte>): Option<TransferState> {
    var commands := ReadList(s, ReadCommand);
    if commands.None? then None else Done(ReadStatus(commands.value.0, commands.value.1))
  }

  predicate FitsDeadline(d: Option<nat>) {
    d.Some? ==> d.value < TWO_64
  }

  predicate FitsState(v: TransferState) {
    (forall k :: 0 <= k < |v.commands| ==> FitsCommand(v.commands[k])) && FitsDeadline(v.nextDeadline) && v.verifiedBytes < TWO_64
  }

  lemma StatusRound(v: TransferState, rest: seq<byte>)
    requires FitsState(v)
    ensures ReadStatus(v.commands, WriteStatus(v) + rest) == Some((v, rest))
  {
    hide ReadBool, WriteBool, ReadU64, WriteU64, WriteOptional, ReadOptional;
    var d, n := WriteU64(v.verifiedBytes), v.verifiedBytes;
    var c := WriteBool(v.finished) + d;
    var b := WriteBool(v.late) + c;
    if v.nextDeadline.Some? {
      U64Round(v.nextDeadline.value, b + rest);
    }
    OptionalRound(v.nextDeadline, WriteU64, ReadU64, b + rest);
    BoolRound(v.late, c + rest);
    BoolRound(v.finished, d + rest);
    U64Round(n, rest);
    assert WriteStatus(v) + rest == WriteOptional(v.nextDeadline, WriteU64) + (b + rest);
    assert b + rest == WriteBool(v.late) + (c + rest) && c + rest == WriteBool(v.finished) + (d + rest);
  }

  /** Every state comes back as it was written, with no bytes left, if its record
      fits into an array of the facade's platform. */
  lemma StateRoundTrip(v: TransferState)
    requires FitsState(v) && |WriteState(v)| < TWO_31
    ensures ReadState(WriteState(v)) == Some(v)
  {
    hide WriteStatus, ReadStatus, WriteCommand, ReadCommand, ReadList;
    CommandsNotEmpty();
    AllSize(v.commands, WriteCommand);
    forall c, more | c in v.commands ensures ReadCommand(WriteCommand(c) + more) == Some((c, more)) {
      CommandRound(c, more);
    }
    ListRound(v.commands, WriteCommand, ReadCommand, WriteStatus(v));
    StatusRound(v, []);
    assert WriteStatus(v) + [] == WriteStatus(v);
  }

  lemma CommandsNotEmpty()
    ensures forall c :: |WriteCommand(c)| >= 1
  {
  }
}
