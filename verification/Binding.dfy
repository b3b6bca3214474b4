/** The two ends of the binding boundary as objects: the writer on the native side,
    the reader in the facade, and the packing of string lists the other way. */
module Binding {
  import opened Wrappers
  import opened Pieces
  import opened Sorting
  import opened Books
  import opened Records
  import R = LinkRecords

  /** Appends a record field by field. */
  class Binary {
    var out: seq<byte>

    constructor ()
      ensures out == []
    {
      out := [];
    }

    method Number(n: nat, width: nat)
      modifies this
      ensures out == old(out) + Little(n, width)
    {
      out := out + Little(n, width);
    }

    method Bytes(b: seq<byte>)
      modifies this
      ensures out == old(out) + WriteBytes(b)
    {
      Number(|b|, 8);
      out := out + b;
    }

    method OptionalU64(v: Option<nat>)
      modifies this
      ensures out == old(out) + WriteOptional(v, WriteU64)
    {
      Number(if v.Some? then 1 else 0, 1);
      if v.Some? {
        Number(v.value, 8);
      }
    }

    method OptionalBytes(v: Option<seq<byte>>)
      modifies this
      ensures out == old(out) + WriteOptional(v, WriteBytes)
    {
      hide WriteBytes;
      Number(if v.Some? then 1 else 0, 1);
      if v.Some? {
        Bytes(v.value);
      }
    }

    method Flag(b: bool)
      modifies this
      ensures out == old(out) + WriteBool(b)
    {
      Number(if b then 1 else 0, 1);
    }

    method Span(r: PieceRange)
      modifies this
      ensures out == old(out) + WriteSpan(r)
    {
      Number(r.start, 4);
      Number(r.end, 4);
    }

    method OneCommand(c: Command)
      modifies this
      ensures out == old(out) + WriteCommand(c)
    {
      hide Little, WriteSpan, WriteBytes;
      match c
      case Request(peer, range) =>
        Number(0, 1);
        Number(peer, 8);
        Span(range);
      case FetchOrigin(range) =>
        Number(1, 1);
        Span(range);
      case Cancel(peer) =>
        Number(2, 1);
        Number(peer, 8);
      case Abandon(peer) =>
        Number(3, 1);
        Number(peer, 8);
      case Ban(peer) =>
        Number(4, 1);
        Number(peer, 8);
      case Deliver(bytes) =>
        Number(5, 1);
        Bytes(bytes);
      case Fail =>
        Number(6, 1);
    }

    method TransferState(v: Records.TransferState)
      modifies this
      ensures out == old(out) + WriteState(v)
    {
      hide Little, WriteCommand, WriteOptional, WriteBool;
      Number(|v.commands|, 4);
      for i := 0 to |v.commands|
        invariant out == old(out) + (Little(|v.commands|, 4) + WriteAll(v.commands[..i], WriteCommand))
      {
        OneCommand(v.commands[i]);
        assert v.commands[..i + 1][..i] == v.commands[..i];
      }
      assert v.commands[..|v.commands|] == v.commands;
      OptionalU64(v.nextDeadline);
      Flag(v.late);
      Flag(v.finished);
      Number(v.verifiedBytes, 8);
    }

    method Report(e: R.LinkEvent)
      requires e.Report?
      modifies this
      ensures out == old(out) + R.WriteReport(e)
    {
      hide Little, WriteOptional, WriteBool;
      OptionalU64(e.id);
      Number(R.OutcomeTag(e.outcome), 1);
      Number(e.received, 8);
      Flag(e.metadata);
      Flag(e.draining);
      OptionalBytes(e.closeReason);
    }

    method Keys(keys: seq<R.Utf8>)
      modifies this
      ensures out == old(out) + WriteList(keys, WriteBytes)
    {
      hide Little, WriteBytes;
      Number(|keys|, 4);
      for i := 0 to |keys|
        invariant out == old(out) + (Little(|keys|, 4) + WriteAll(keys[..i], WriteBytes))
      {
        Bytes(keys[i]);
        assert keys[..i + 1][..i] == keys[..i];
      }
      assert keys[..|keys|] == keys;
    }

    method OneEvent(e: R.LinkEvent)
      modifies this
      ensures out == old(out) + R.WriteEvent(e)
    {
      hide Little, WriteSpan, WriteBytes, WriteOptional, R.WriteReport, WriteList;
      ghost var before := out;
      match e
      case SendText(text) =>
        Number(0, 1);
        Bytes(text);
        ConcatAssoc(before, Little(0, 1), WriteBytes(text));
      case SendBinary(bytes) =>
        Number(1, 1);
        Bytes(bytes);
        ConcatAssoc(before, Little(1, 1), WriteBytes(bytes));
      case Closed(reason) =>
        Number(2, 1);
        Bytes(reason);
        ConcatAssoc(before, Little(2, 1), WriteBytes(reason));
      case Report(_, _, _, _, _, _) =>
        Number(3, 1);
        Report(e);
        ConcatAssoc(before, Little(3, 1), R.WriteReport(e));
      case Resolved(id, payload) =>
        Number(4, 1);
        OptionalU64(id);
        OptionalBytes(payload);
        ConcatThree(before, Little(4, 1), WriteOptional(id, WriteU64), WriteOptional(payload, WriteBytes));
      case HaveChanged(keys) =>
        Number(5, 1);
        Keys(keys);
        ConcatAssoc(before, Little(5, 1), WriteList(keys, WriteBytes));
      case ScheduleChanged =>
        Number(6, 1);
      case ServeRequest(key) =>
        Number(7, 1);
        Bytes(key);
        ConcatAssoc(before, Little(7, 1), WriteBytes(key));
      case ServeRange(key, range) =>
        Number(8, 1);
        Bytes(key);
        Span(range);
        ConcatThree(before, Little(8, 1), WriteBytes(key), WriteSpan(range));
      case UploadCancelled(count) =>
        Number(9, 1);
        Number(count, 8);
        ConcatAssoc(before, Little(9, 1), Little(count, 8));
      case Progress(received, size) =>
        Number(10, 1);
        Number(received, 8);
        Number(size, 8);
        ConcatThree(before, Little(10, 1), Little(received, 8), Little(size, 8));
    }

    method LinkUpdate(v: R.LinkUpdate)
      modifies this
      ensures out == old(out) + R.WriteUpdate(v)
    {
      hide Little, R.WriteEvent, R.WriteLinkStatus;
      Number(|v.events|, 4);
      for i := 0 to |v.events|
        invariant out == old(out) + (Little(|v.events|, 4) + WriteAll(v.events[..i], R.WriteEvent))
      {
        OneEvent(v.events[i]);
        assert v.events[..i + 1][..i] == v.events[..i];
      }
      assert v.events[..|v.events|] == v.events;
      LinkStatus(v);
    }

    method Flags(v: R.LinkUpdate)
      modifies this
      ensures out == old(out) + R.WriteFlags(v)
    {
      hide Little, WriteBool;
      Flag(v.closed);
      Flag(v.busy);
      Flag(v.transferring);
      Number(v.outboundInFlight, 4);
    }

    method Counters(v: R.LinkUpdate)
      modifies this
      ensures out == old(out) + R.WriteCounters(v)
    {
      hide Little;
      Number(v.bytesIn, 8);
      Number(v.bytesOut, 8);
      Number(v.openedAt, 8);
      Number(v.lastServedAt, 8);
      Number(v.lastDeliveredAt, 8);
    }

    method LinkStatus(v: R.LinkUpdate)
      modifies this
      ensures out == old(out) + R.WriteLinkStatus(v)
    {
      hide Little, WriteBool, WriteOptional, R.WriteFlags, R.WriteCounters;
      OptionalU64(v.requestId);
      Number(v.version, 8);
      Flags(v);
      Counters(v);
      OptionalU64(v.nextDeadline);
      Flag(v.uploadWaiting);
    }
  }

  /** `xs` before what was read. */
  function Prefixed<T>(xs: seq<T>, p: Parsed<seq<T>>): Parsed<seq<T>> {
    if p.None? then None else Some((xs + p.value.0, p.value.1))
  }

  lemma PrefixedNothing<T>(p: Parsed<seq<T>>)
    ensures Prefixed([], p) == p
  {
    if p.Some? {
      assert [] + p.value.0 == p.value.0;
    }
  }

  /** Reads a record by moving a position; an exception is `None`. */
  class BinaryReader {
    const input: seq<byte>
    var at: nat

    ghost predicate Valid()
      reads this
    {
      at <= |input|
    }

    ghost function Left(): seq<byte>
      requires Valid()
      reads this
    {
      input[at..]
    }

    /** The value is what `p` is, and the position is after it. */
    ghost predicate Took<T(!new)>(p: Parsed<T>, r: Option<T>)
      reads this
    {
      Valid() && (r.Some? <==> p.Some?) && (r.Some? ==> r.value == p.value.0 && Left() == p.value.1)
    }

    constructor (input: seq<byte>)
      ensures Valid() && this.input == input && Left() == input
    {
      this.input, at := input, 0;
    }

    method Number(width: nat) returns (r: Option<nat>)
      requires Valid()
      modifies this
      ensures Took(ReadNumber(old(Left()), width), r)
    {
      if |input| - at < width {
        return None;
      }
      assert input[at..][..width] == input[at..at + width] && input[at..][width..] == input[at + width..];
      r := Some(FromLittle(input[at..at + width]));
      at := at + width;
    }

    method Flag() returns (r: Option<bool>)
      requires Valid()
      modifies this
      ensures Took(ReadBool(old(Left())), r)
    {
      var n := Number(1);
      r := if n.None? then None else Some(n.value != 0);
    }

    method Bytes() returns (r: Option<seq<byte>>)
      requires Valid()
      modifies this
      ensures Took(ReadBytes(old(Left())), r)
    {
      var n := Number(8);
      if n.None? {
        return None;
      }
      var len := ToInt(n.value);
      if len > |input| - at || len < 0 {
        return None;
      }
      assert input[at..][..len] == input[at..at + len] && input[at..][len..] == input[at + len..];
      r := Some(input[at..at + len]);
      at := at + len;
    }

    method OptionalU64() returns (r: Option<Option<nat>>)
      requires Valid()
      modifies this
      ensures Took(ReadOptional(old(Left()), ReadU64), r)
    {
      var present := Flag();
      if present.None? {
        return None;
      }
      if !present.value {
        return Some(None);
      }
      var n := Number(8);
      r := if n.None? then None else Some(Some(n.value));
    }

    method OptionalBytes() returns (r: Option<Option<seq<byte>>>)
      requires Valid()
      modifies this
      ensures Took(ReadOptional(old(Left()), ReadBytes), r)
    {
      hide ReadBytes;
      var present := Flag();
      if present.None? {
        return None;
      }
      if !present.value {
        return Some(None);
      }
      var b := Bytes();
      r := if b.None? then None else Some(Some(b.value));
    }

    method Span() returns (r: Option<PieceRange>)
      requires Valid()
      modifies this
      ensures Took(ReadSpan(old(Left())), r)
    {
      var start := Number(4);
      if start.None? {
        return None;
      }
      var end := Number(4);
      r := if end.None? then None else Some(PieceRange(start.value, end.value));
    }

    method OneCommand() returns (r: Option<Command>)
      requires Valid()
      modifies this
      ensures Took(ReadCommand(old(Left())), r)
    {
      hide ReadNumber, ReadSpan, ReadBytes;
      var tag := Number(1);
      if tag.None? {
        return None;
      }
      match tag.value
      case 0 =>
        var peer := Number(8);
        if peer.None? {
          return None;
        }
        var range := Span();
        r := if range.None? then None else Some(Request(peer.value, range.value));
      case 1 =>
        var range := Span();
        r := if range.None? then None else Some(FetchOrigin(range.value));
      case 2 =>
        var peer := Number(8);
        r := if peer.None? then None else Some(Cancel(peer.value));
      case 3 =>
        var peer := Number(8);
        r := if peer.None? then None else Some(Command.Abandon(peer.value));
      case 4 =>
        var peer := Number(8);
        r := if peer.None? then None else Some(Ban(peer.value));
      case 5 =>
        var bytes := Bytes();
        r := if bytes.None? then None else Some(Deliver(bytes.value));
      case 6 =>
        r := Some(Command.Fail);
      case _ =>
        r := None;
    }

    method Commands() returns (r: Option<seq<Command>>)
      requires Valid()
      modifies this
      ensures Took(ReadList(old(Left()), ReadCommand), r)
    {
      hide ReadNumber, ReadCommand;
      var n := Number(4);
      if n.None? || ToInt(n.value) < 0 {
        return None;
      }
      var count, commands: seq<Command> := ToInt(n.value), [];
      ghost var start := Left();
      PrefixedNothing(ReadAll(count, start, ReadCommand));
      for i := 0 to count
        invariant Valid() && ReadAll(count, start, ReadCommand) == Prefixed(commands, ReadAll(count - i, Left(), ReadCommand))
      {
        var c := OneCommand();
        if c.None? {
          return None;
        }
        assert forall more: seq<Command> :: commands + ([c.value] + more) == (commands + [c.value]) + more;
        commands := commands + [c.value];
      }
      assert commands + [] == commands;
      r := Some(commands);
    }

    /** Whether nothing is left; anything left is an error. */
    predicate AtEnd()
      reads this
    {
      at == |input|
    }

    method Status(commands: seq<Command>) returns (r: Option<TransferState>)
      requires Valid()
      modifies this
      ensures Took(ReadStatus(commands, old(Left())), r)
    {
      hide ReadNumber, ReadBool, ReadOptional;
      var deadline := OptionalU64();
      if deadline.None? {
        return None;
      }
      var late := Flag();
      if late.None? {
        return None;
      }
      var finished := Flag();
      if finished.None? {
        return None;
      }
      var n := Number(8);
      r := if n.None? then None else Some(TransferState(commands, deadline.value, late.value, finished.value, n.value));
    }

    method Outcome() returns (r: Option<R.L.Outcome>)
      requires Valid()
      modifies this
      ensures Took(R.ReadOutcome(old(Left())), r)
    {
      hide ReadNumber;
      var tag := Number(1);
      r := if tag.None? || tag.value >= 8 then None else Some(R.OUTCOMES[tag.value]);
    }

    method Report() returns (r: Option<R.LinkEvent>)
      requires Valid()
      modifies this
      ensures Took(R.ReadReport(old(Left())), r)
    {
      hide ReadNumber, ReadBool, ReadOptional, R.ReadOutcome;
      var id := OptionalU64();
      if id.None? {
        return None;
      }
      var outcome := Outcome();
      if outcome.None? {
        return None;
      }
      var received := Number(8);
      if received.None? {
        return None;
      }
      var metadata := Flag();
      if metadata.None? {
        return None;
      }
      var draining := Flag();
      if draining.None? {
        return None;
      }
      var reason := OptionalBytes();
      r := if reason.None? then None
           else Some(R.Report(id.value, outcome.value, received.value, metadata.value, draining.value, reason.value));
    }

    method Keys() returns (r: Option<seq<R.Utf8>>)
      requires Valid()
      modifies this
      ensures Took(ReadList(old(Left()), ReadBytes), r)
    {
      hide ReadNumber, ReadBytes;
      var n := Number(4);
      if n.None? || ToInt(n.value) < 0 {
        return None;
      }
      var count, keys: seq<R.Utf8> := ToInt(n.value), [];
      ghost var start := Left();
      PrefixedNothing(ReadAll(count, start, ReadBytes));
      for i := 0 to count
        invariant Valid() && ReadAll(count, start, ReadBytes) == Prefixed(keys, ReadAll(count - i, Left(), ReadBytes))
      {
        var key := Bytes();
        if key.None? {
          return None;
        }
        assert forall more: seq<R.Utf8> :: keys + ([key.value] + more) == (keys + [key.value]) + more;
        keys := keys + [key.value];
      }
      assert keys + [] == keys;
      r := Some(keys);
    }

    method OneEvent() returns (r: Option<R.LinkEvent>)
      requires Valid()
      modifies this
      ensures Took(R.ReadEvent(old(Left())), r)
    {
      hide ReadNumber, ReadSpan, ReadBytes, ReadOptional, ReadList, R.ReadReport;
      var tag := Number(1);
      if tag.None? {
        return None;
      }
      match tag.value
      case 0 =>
        var text := Bytes();
        r := if text.None? then None else Some(R.SendText(text.value));
      case 1 =>
        var bytes := Bytes();
        r := if bytes.None? then None else Some(R.SendBinary(bytes.value));
      case 2 =>
        var reason := Bytes();
        r := if reason.None? then None else Some(R.Closed(reason.value));
      case 3 =>
        r := Report();
      case 4 =>
        var id := OptionalU64();
        if id.None? {
          return None;
        }
        var payload := OptionalBytes();
        r := if payload.None? then None else Some(R.Resolved(id.value, payload.value));
      case 5 =>
        var keys := Keys();
        r := if keys.None? then None else Some(R.HaveChanged(keys.value));
      case 6 =>
        r := Some(R.ScheduleChanged);
      case 7 =>
        var key := Bytes();
        r := if key.None? then None else Some(R.ServeRequest(key.value));
      case 8 =>
        var key := Bytes();
        if key.None? {
          return None;
        }
        var range := Span();
        r := if range.None? then None else Some(R.ServeRange(key.value, range.value));
      case 9 =>
        var count := Number(8);
        r := if count.None? then None else Some(R.UploadCancelled(count.value));
      case 10 =>
        var received := Number(8);
        if received.None? {
          return None;
        }
        var size := Number(8);
        r := if size.None? then None else Some(R.Progress(received.value, size.value));
      case _ =>
        r := None;
    }

    method Events() returns (r: Option<seq<R.LinkEvent>>)
      requires Valid()
      modifies this
      ensures Took(ReadList(old(Left()), R.ReadEvent), r)
    {
      hide ReadNumber, R.ReadEvent;
      var n := Number(4);
      if n.None? || ToInt(n.value) < 0 {
        return None;
      }
      var count, events: seq<R.LinkEvent> := ToInt(n.value), [];
      ghost var start := Left();
      PrefixedNothing(ReadAll(count, start, R.ReadEvent));
      for i := 0 to count
        invariant Valid() && ReadAll(count, start, R.ReadEvent) == Prefixed(events, ReadAll(count - i, Left(), R.ReadEvent))
      {
        var e := OneEvent();
        if e.None? {
          return None;
        }
        assert forall more: seq<R.LinkEvent> :: events + ([e.value] + more) == (events + [e.value]) + more;
        events := events + [e.value];
      }
      assert events + [] == events;
      r := Some(events);
    }

    method Flags(v: R.LinkUpdate) returns (r: Option<R.LinkUpdate>)
      requires Valid()
      modifies this
      ensures Took(R.ReadFlags(v, old(Left())), r)
    {
      hide ReadNumber, ReadBool;
      var closed := Flag();
      if closed.None? {
        return None;
      }
      var busy := Flag();
      if busy.None? {
        return None;
      }
      var transferring := Flag();
      if transferring.None? {
        return None;
      }
      var n := Number(4);
      r := if n.None? then None
           else Some(v.(closed := closed.value, busy := busy.value, transferring := transferring.value, outboundInFlight := n.value));
    }

    method Counters(v: R.LinkUpdate) returns (r: Option<R.LinkUpdate>)
      requires Valid()
      modifies this
      ensures Took(R.ReadCounters(v, old(Left())), r)
    {
      hide ReadNumber;
      var bytesIn := Number(8);
      if bytesIn.None? {
        return None;
      }
      var bytesOut := Number(8);
      if bytesOut.None? {
        return None;
      }
      var openedAt := Number(8);
      if openedAt.None? {
        return None;
      }
      var servedAt := Number(8);
      if servedAt.None? {
        return None;
      }
      var n := Number(8);
      r := if n.None? then None
           else Some(v.(bytesIn := bytesIn.value, bytesOut := bytesOut.value, openedAt := openedAt.value,
                        lastServedAt := servedAt.value, lastDeliveredAt := n.value));
    }

    method LinkStatus(events: seq<R.LinkEvent>) returns (r: Option<R.LinkUpdate>)
      requires Valid()
      modifies this
      ensures Took(R.ReadLinkStatus(events, old(Left())), r)
    {
      hide ReadNumber, ReadBool, ReadOptional, R.ReadFlags, R.ReadCounters;
      var id := OptionalU64();
      if id.None? {
        return None;
      }
      var version := Number(8);
      if version.None? {
        return None;
      }
      var flags := Flags(R.Blank(events).(requestId := id.value, version := version.value));
      if flags.None? {
        return None;
      }
      var counters := Counters(flags.value);
      if counters.None? {
        return None;
      }
      var deadline := OptionalU64();
      if deadline.None? {
        return None;
      }
      var waiting := Flag();
      r := if waiting.None? then None else Some(counters.value.(nextDeadline := deadline.value, uploadWaiting := waiting.value));
    }
  }

  /** What the facade makes of a transfer's record. */
  method TransferStateBinary(bytes: seq<byte>) returns (r: Option<TransferState>)
    ensures r == ReadState(bytes)
  {
    hide ReadList, ReadStatus;
    var reader := new BinaryReader(bytes);
    var commands := reader.Commands();
    if commands.None? {
      return None;
    }
    r := reader.Status(commands.value);
    if r.None? || !reader.AtEnd() {
      return None;
    }
  }

  /** What the facade makes of a link's record. */
  method LinkUpdateBinary(bytes: seq<byte>) returns (r: Option<R.LinkUpdate>)
    ensures r == R.ReadUpdate(bytes)
  {
    hide ReadList, R.ReadLinkStatus;
    var reader := new BinaryReader(bytes);
    var events := reader.Events();
    if events.None? {
      return None;
    }
    r := reader.LinkStatus(events.value);
    if r.None? || !reader.AtEnd() {
      return None;
    }
  }

  /** A transfer's record crosses the boundary unchanged. */
  method CrossTransfer(v: TransferState) returns (r: Option<TransferState>)
    requires FitsState(v) && |WriteState(v)| < TWO_31
    ensures r == Some(v)
  {
    hide WriteState, ReadState, FitsState;
    var binary := new Binary();
    binary.TransferState(v);
    assert [] + WriteState(v) == WriteState(v);
    StateRoundTrip(v);
    r := TransferStateBinary(binary.out);
  }

  /** A link's record crosses the boundary unchanged. */
  method CrossLink(v: R.LinkUpdate) returns (r: Option<R.LinkUpdate>)
    requires R.FitsUpdate(v) && |R.WriteUpdate(v)| < TWO_31
    ensures r == Some(v)
  {
    hide R.WriteUpdate, R.ReadUpdate, R.FitsUpdate;
    var binary := new Binary();
    binary.LinkUpdate(v);
    assert [] + R.WriteUpdate(v) == R.WriteUpdate(v);
    R.UpdateRoundTrip(v);
    r := LinkUpdateBinary(binary.out);
  }

  // ---- packed strings ----

  function Sizes(list: seq<seq<byte>>): seq<nat> {
    seq(|list|, k requires 0 <= k < |list| => |list[k]|)
  }

  function Joined(list: seq<seq<byte>>): seq<byte>
    decreases |list|
  {
    if list == [] then [] else Joined(list[..|list| - 1]) + list[|list| - 1]
  }

  lemma {:induction false} JoinedSplit(list: seq<seq<byte>>, k: nat)
    requires k <= |list|
    ensures Joined(list) == Joined(list[..k]) + Joined(list[k..])
    decreases |list|
  {
    if k == |list| {
      assert list[..k] == list && list[k..] == [];
    } else {
      var n := |list| - 1;
      JoinedSplit(list[..n], k);
      assert list[..n][..k] == list[..k] && list[..n][k..] == list[k..][..n - k];
      assert Joined(list[k..]) == Joined(list[k..][..n - k]) + list[n];
    }
  }

  /** The list that packed `input` with these lengths stands for: strings that
      fill it exactly, each of them valid text. */
  ghost predicate Unpacks(input: seq<byte>, lengths: seq<nat>, list: seq<seq<byte>>, text: seq<byte> -> bool) {
    Joined(list) == input && Sizes(list) == lengths && forall k :: 0 <= k < |list| ==> text(list[k])
  }

  /** Unpacks a list: the one list that it can be, or `None` when there is none. */
  method PackedStrings(input: seq<byte>, lengths: seq<nat>, text: seq<byte> -> bool) returns (r: Option<seq<seq<byte>>>)
    ensures r.Some? ==> Unpacks(input, lengths, r.value, text)
    ensures r.None? ==> forall list :: !Unpacks(input, lengths, list, text)
  {
    var offset, list: seq<seq<byte>> := 0, [];
    for i := 0 to |lengths|
      invariant offset <= |input| && Joined(list) == input[..offset] && |list| == i
      invariant forall k :: 0 <= k < i ==> |list[k]| == lengths[k] && text(list[k])
      invariant forall other :: Unpacks(input, lengths, other, text) ==> other[..i] == list
    {
      forall other | Unpacks(input, lengths, other, text)
        ensures offset + lengths[i] <= |input| && other[i] == input[offset..offset + lengths[i]]
      {
        NextPacked(input, other, i);
      }
      var end := offset + lengths[i];
      if end > |input| || !text(input[offset..end]) {
        return None;
      }
      assert (list + [input[offset..end]])[..i] == list;
      assert input[..offset] + input[offset..end] == input[..end];
      forall other | Unpacks(input, lengths, other, text) ensures other[..i + 1] == list + [input[offset..end]] {
        assert other[..i + 1] == other[..i] + [other[i]];
      }
      list := list + [input[offset..end]];
      offset := end;
    }
    forall other | Unpacks(input, lengths, other, text) ensures offset == |input| {
      assert |other| == |Sizes(other)| && other[..|lengths|] == other;
    }
    if offset != |input| {
      return None;
    }
    assert input[..offset] == input;
    r := Some(list);
  }

  lemma NextPacked(input: seq<byte>, list: seq<seq<byte>>, i: nat)
    requires Joined(list) == input && i < |list|
    ensures var offset := |Joined(list[..i])|;
            offset + |list[i]| <= |input| && list[i] == input[offset..offset + |list[i]|]
  {
    JoinedSplit(list, i + 1);
    assert list[..i + 1][..i] == list[..i];
  }

  /** A list that packs to `input` can be unpacked to no other. */
  lemma {:induction false} UnpacksOnce(a: seq<seq<byte>>, b: seq<seq<byte>>)
    requires Joined(a) == Joined(b) && Sizes(a) == Sizes(b)
    ensures a == b
    decreases |a|
  {
    assert |a| == |Sizes(a)| == |Sizes(b)| == |b|;
    if a != [] {
      var n := |a| - 1;
      assert |a[n]| == Sizes(a)[n] == Sizes(b)[n] == |b[n]|;
      NextPacked(Joined(a), a, n);
      NextPacked(Joined(b), b, n);
      assert |Joined(a[..n])| == |Joined(b[..n])|;
      assert Joined(a[..n]) == Joined(a)[..|Joined(a[..n])|] && Joined(b[..n]) == Joined(b)[..|Joined(b[..n])|];
      forall k | 0 <= k < n ensures |a[..n][k]| == |b[..n][k]| {
        assert |a[k]| == Sizes(a)[k] == Sizes(b)[k] == |b[k]|;
      }
      assert Sizes(a[..n]) == Sizes(b[..n]);
      UnpacksOnce(a[..n], b[..n]);
      assert a == a[..n] + [a[n]] && b == b[..n] + [b[n]];
    }
  }

  /** Packs a list into one array: every string is copied after those before it. */
  method Pack(list: seq<seq<byte>>) returns (packed: array<byte>, lengths: seq<nat>)
    ensures packed[..] == Joined(list) && lengths == Sizes(list) && fresh(packed)
  {
    lengths := Sizes(list);
    packed := new byte[|Joined(list)|];
    var offset := 0;
    for i := 0 to |list|
      invariant offset == |Joined(list[..i])| <= packed.Length && packed[..offset] == Joined(list[..i])
    {
      JoinedSplit(list, i + 1);
      assert list[..i + 1][..i] == list[..i];
      CopyInto(packed, offset, list[i]);
      offset := offset + |list[i]|;
    }
    assert list[..|list|] == list;
  }

  method CopyInto(packed: array<byte>, offset: nat, bytes: seq<byte>)
    requires offset + |bytes| <= packed.Length
    modifies packed
    ensures packed[..offset] == old(packed[..offset]) && packed[offset..offset + |bytes|] == bytes
    ensures packed[offset + |bytes|..] == old(packed[offset + |bytes|..])
  {
    for k := 0 to |bytes|
      invariant packed[..offset] == old(packed[..offset]) && packed[offset..offset + k] == bytes[..k]
      invariant packed[offset + |bytes|..] == old(packed[offset + |bytes|..])
    {
      packed[offset + k] := bytes[k];
    }
  }

  /** A list of texts crosses the boundary unchanged. */
  method CrossStrings(list: seq<seq<byte>>, text: seq<byte> -> bool) returns (r: Option<seq<seq<byte>>>)
    requires forall k :: 0 <= k < |list| ==> text(list[k])
    ensures r == Some(list)
  {
    var packed, lengths := Pack(list);
    r := PackedStrings(packed[..], lengths, text);
    assert Unpacks(Joined(list), Sizes(list), list, text);
    if r.Some? {
      UnpacksOnce(r.value, list);
    }
  }
}
