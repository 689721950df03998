/** The Ledger BLE framing: a command is cut into packets of at most one MTU, a response is put together
    again and split into payload and status word. */
module BleFraming {
  import opened Common

  // ---------------------------------------------------------------- data

  newtype byte = x: int | 0 <= x < 256

  const PACKET_TYPE_APDU: byte := 0x05
  const FIRST_HEADER: nat := 5
  const SUB_HEADER: nat := 3

  /** `OutOfBounds` is the array exception of an MTU too small for the first header. */
  datatype Error = OutOfBounds | EmptySequence | MalformedFirstPacket | TooShort

  datatype StatusWord =
    | Success
    | UserRefused
    | SecurityNotSatisfied
    | IncorrectData
    | InvalidP1P2
    | InsNotSupported
    | ClaNotSupported
    | AppNotStarted
    | TechnicalError
    | Unknown(rawCode: nat)

  datatype Response = Response(payload: seq<byte>, status: StatusWord)

  function Code(w: StatusWord): nat {
    match w
    case Success => 0x9000
    case UserRefused => 0x6985
    case SecurityNotSatisfied => 0x6982
    case IncorrectData => 0x6A80
    case InvalidP1P2 => 0x6B00
    case InsNotSupported => 0x6D00
    case ClaNotSupported => 0x6E00
    case AppNotStarted => 0x6511
    case TechnicalError => 0x6F00
    case Unknown(rawCode) => rawCode
  }

  function FromCode(code: nat): (w: StatusWord)
    ensures Code(w) == code
  {
    if code == 0x9000 then Success
    else if code == 0x6985 then UserRefused
    else if code == 0x6982 then SecurityNotSatisfied
    else if code == 0x6A80 then IncorrectData
    else if code == 0x6B00 then InvalidP1P2
    else if code == 0x6D00 then InsNotSupported
    else if code == 0x6E00 then ClaNotSupported
    else if code == 0x6511 then AppNotStarted
    else if code == 0x6F00 then TechnicalError
    else Unknown(code)
  }

  // ---------------------------------------------------------------- framing

  function High(n: nat): byte { (n / 256 % 256) as byte }

  function Low(n: nat): byte { (n % 256) as byte }

  function Word(high: byte, low: byte): nat { high as nat * 256 + low as nat }

  function Min(a: int, b: int): int { if a <= b then a else b }

  function SubPacket(data: seq<byte>, offset: nat, index: nat, mtu: nat): seq<byte>
    requires offset < |data| && FIRST_HEADER <= mtu
  {
    [PACKET_TYPE_APDU, High(index), Low(index)] + data[offset..offset + Min(mtu - SUB_HEADER, |data| - offset)]
  }

  function SubPackets(data: seq<byte>, offset: nat, index: nat, mtu: nat): seq<seq<byte>>
    requires FIRST_HEADER <= mtu
    decreases |data| - offset
  {
    if offset >= |data| then []
    else
      [SubPacket(data, offset, index, mtu)]
      + SubPackets(data, offset + Min(mtu - SUB_HEADER, |data| - offset), index + 1, mtu)
  }

  function FirstPacket(data: seq<byte>, mtu: nat): seq<byte>
    requires FIRST_HEADER <= mtu
  {
    [PACKET_TYPE_APDU, High(0), Low(0), High(|data|), Low(|data|)] + data[..Min(mtu - FIRST_HEADER, |data|)]
  }

  function Frame(data: seq<byte>, mtu: int): Result<seq<seq<byte>>, Error> {
    if data == [] then Ok([])
    else if mtu < FIRST_HEADER then Err(OutOfBounds)
    else Ok([FirstPacket(data, mtu)] + SubPackets(data, Min(mtu - FIRST_HEADER, |data|), 1, mtu))
  }

  // ---------------------------------------------------------------- deframing

  /** The output stream once the packets after the first are read: short ones are skipped, and reading
      stops as soon as the announced length is reached. */
  function Collect(total: nat, stream: seq<byte>, packets: seq<seq<byte>>): seq<byte>
    decreases |packets|
  {
    if packets == [] then stream
    else if |packets[0]| < SUB_HEADER then Collect(total, stream, packets[1..])
    else
      var longer := stream + packets[0][SUB_HEADER..];
      if |longer| >= total then longer else Collect(total, longer, packets[1..])
  }

  function Split(assembled: seq<byte>): Result<Response, Error> {
    var n := |assembled|;
    if n < 2 then Err(TooShort)
    else Ok(Response(assembled[..n - 2], FromCode(Word(assembled[n - 2], assembled[n - 1]))))
  }

  function Deframe(packets: seq<seq<byte>>): Result<Response, Error> {
    if packets == [] then Err(EmptySequence)
    else if |packets[0]| < FIRST_HEADER then Err(MalformedFirstPacket)
    else Split(Collect(Word(packets[0][3], packets[0][4]), packets[0][FIRST_HEADER..], packets[1..]))
  }

  // ---------------------------------------------------------------- the buffers

  method ArrayCopy(source: seq<byte>, from: nat, target: array<byte>, at: nat, length: nat)
    requires from + length <= |source| && at + length <= target.Length
    modifies target
    ensures target[..] == old(target[..at]) + source[from..from + length] + old(target[at + length..])
  {
    for i := 0 to length
      invariant forall k :: 0 <= k < at || at + i <= k < target.Length ==> target[k] == old(target[k])
      invariant forall k :: at <= k < at + i ==> target[k] == source[from + k - at]
    {
      target[at + i] := source[from + i];
    }
  }

  method FrameApdu(data: seq<byte>, mtu: int) returns (r: Result<seq<seq<byte>>, Error>)
    ensures r == Frame(data, mtu)
  {
    if data == [] {
      return Ok([]);
    }
    if mtu < FIRST_HEADER {
      return Err(OutOfBounds);
    }
    var total, offset, sequence := |data|, 0, 0;
    var firstChunk := Min(mtu - FIRST_HEADER, |data|);
    var first := new byte[FIRST_HEADER + firstChunk];
    first[0] := PACKET_TYPE_APDU;
    first[1], first[2] := High(sequence), Low(sequence);
    first[3], first[4] := High(total), Low(total);
    assert first[..5] == [PACKET_TYPE_APDU, High(0), Low(0), High(total), Low(total)];
    ArrayCopy(data, 0, first, FIRST_HEADER, firstChunk);
    assert first[..] == FirstPacket(data, mtu);
    var packets := [first[..]];
    offset := firstChunk;
    sequence := 1;
    while offset < |data|
      invariant 0 <= offset <= |data|
      invariant packets + SubPackets(data, offset, sequence, mtu) == Frame(data, mtu).value
      decreases |data| - offset
    {
      var chunk := Min(mtu - SUB_HEADER, |data| - offset);
      var packet := new byte[SUB_HEADER + chunk];
      packet[0] := PACKET_TYPE_APDU;
      packet[1], packet[2] := High(sequence), Low(sequence);
      assert packet[..3] == [PACKET_TYPE_APDU, High(sequence), Low(sequence)];
      ArrayCopy(data, offset, packet, SUB_HEADER, chunk);
      assert packet[..] == SubPacket(data, offset, sequence, mtu);
      packets := packets + [packet[..]];
      offset := offset + chunk;
      sequence := sequence + 1;
    }
    assert packets + [] == packets;
    r := Ok(packets);
  }

  method DeframeResponse(packets: seq<seq<byte>>) returns (r: Result<Response, Error>)
    ensures r == Deframe(packets)
  {
    if packets == [] {
      return Err(EmptySequence);
    }
    var first := packets[0];
    if |first| < FIRST_HEADER {
      return Err(MalformedFirstPacket);
    }
    var total := first[3] as nat * 256 + first[4] as nat;
    var stream := first[FIRST_HEADER..];
    ghost var assembled := Collect(total, stream, packets[1..]);
    var i := 1;
    while i < |packets|
      invariant 1 <= i <= |packets|
      invariant Collect(total, stream, packets[i..]) == assembled
    {
      assert packets[i..][1..] == packets[i + 1..];
      if |packets[i]| >= SUB_HEADER {
        stream := stream + packets[i][SUB_HEADER..];
        if |stream| >= total {
          break;
        }
      }
      i := i + 1;
    }
    assert stream == assembled;
    if |stream| < 2 {
      return Err(TooShort);
    }
    var high, low := stream[|stream| - 2], stream[|stream| - 1];
    r := Ok(Response(stream[..|stream| - 2], FromCode(high as nat * 256 + low as nat)));
  }

  // ---------------------------------------------------------------- answers

  /** The nine known codes have their own status words, every other its number. */
  lemma KnownCodesAre(code: nat)
    ensures FromCode(code).Unknown?
            <==> code !in {0x9000, 0x6985, 0x6982, 0x6A80, 0x6B00, 0x6D00, 0x6E00, 0x6511, 0x6F00}
    ensures FromCode(code) == Success <==> code == 0x9000
    ensures FromCode(code) == UserRefused <==> code == 0x6985
    ensures FromCode(code) == SecurityNotSatisfied <==> code == 0x6982
    ensures FromCode(code) == IncorrectData <==> code == 0x6A80
    ensures FromCode(code) == InvalidP1P2 <==> code == 0x6B00
    ensures FromCode(code) == InsNotSupported <==> code == 0x6D00
    ensures FromCode(code) == ClaNotSupported <==> code == 0x6E00
    ensures FromCode(code) == AppNotStarted <==> code == 0x6511
    ensures FromCode(code) == TechnicalError <==> code == 0x6F00
    ensures FromCode(code).Unknown? ==> FromCode(code).rawCode == code
  {
  }

  /** What cannot be framed, and what is no frame at all. */
  lemma WhatIsNoFrame(data: seq<byte>, mtu: int, packets: seq<seq<byte>>)
    ensures Frame(data, mtu) == Ok([]) <==> data == []
    ensures Frame(data, mtu).Err? <==> data != [] && mtu < 5
    ensures Deframe(packets) == Err(EmptySequence) <==> packets == []
    ensures Deframe(packets) == Err(MalformedFirstPacket) <==> packets != [] && |packets[0]| < 5
    ensures Frame(data, mtu) != Err(TooShort) && Deframe(packets) != Err(OutOfBounds)
  {
    hide SubPackets, Collect, FromCode;
  }

  // ---------------------------------------------------------------- what framing puts into the packets

  /** What a packet after the first carries. */
  function Body(packet: seq<byte>): seq<byte> {
    if |packet| < SUB_HEADER then [] else packet[SUB_HEADER..]
  }

  function Bodies(packets: seq<seq<byte>>): seq<byte> {
    if packets == [] then [] else Body(packets[0]) + Bodies(packets[1..])
  }

  /** Every packet fits the MTU, is of APDU type, and carries its own position as its sequence number. */
  predicate IsWellFormed(packet: seq<byte>, index: nat, mtu: nat) {
    && SUB_HEADER <= |packet| <= mtu
    && packet[0] == PACKET_TYPE_APDU
    && Word(packet[1], packet[2]) == index % 0x1_0000
  }

  lemma WordOfHighLow(n: nat)
    ensures Word(High(n), Low(n)) == n % 0x1_0000
  {
    assert n % 0x1_0000 == n / 256 % 256 * 256 + n % 256;
  }

  lemma {:induction false} SubPacketsCarry(data: seq<byte>, offset: nat, index: nat, mtu: nat)
    requires FIRST_HEADER <= mtu && offset <= |data|
    ensures Bodies(SubPackets(data, offset, index, mtu)) == data[offset..]
    decreases |data| - offset
  {
    if offset >= |data| {
    } else {
      hide High, Low;
      var chunk := Min(mtu - SUB_HEADER, |data| - offset);
      var packet := SubPacket(data, offset, index, mtu);
      SubPacketsCarry(data, offset + chunk, index + 1, mtu);
      assert Body(packet) == data[offset..offset + chunk];
      assert data[offset..] == data[offset..offset + chunk] + data[offset + chunk..];
      assert SubPackets(data, offset, index, mtu)[1..] == SubPackets(data, offset + chunk, index + 1, mtu);
    }
  }

  /** Every packet after the first carries at least two bytes, but for the last. */
  lemma {:induction false} SubPacketsAreFew(data: seq<byte>, offset: nat, index: nat, mtu: nat)
    requires FIRST_HEADER <= mtu && offset <= |data|
    ensures 2 * |SubPackets(data, offset, index, mtu)| <= |data| - offset + 1
    decreases |data| - offset
  {
    if offset >= |data| {
    } else {
      hide SubPacket;
      SubPacketsAreFew(data, offset + Min(mtu - SUB_HEADER, |data| - offset), index + 1, mtu);
    }
  }

  lemma NoSubPackets(data: seq<byte>, mtu: nat)
    requires FIRST_HEADER <= mtu
    ensures SubPackets(data, |data|, 1, mtu) == []
  {
  }

  lemma {:induction false} SubPacketsAreNumbered(data: seq<byte>, offset: nat, index: nat, mtu: nat, k: nat)
    requires FIRST_HEADER <= mtu && k < |SubPackets(data, offset, index, mtu)|
    ensures IsWellFormed(SubPackets(data, offset, index, mtu)[k], index + k, mtu)
    ensures k + 1 < |SubPackets(data, offset, index, mtu)| ==> |SubPackets(data, offset, index, mtu)[k]| == mtu
    decreases k
  {
    if k == 0 {
      WordOfHighLow(index);
      NoSubPackets(data, mtu);
    } else {
      hide SubPacket, IsWellFormed;
      SubPacketsAreNumbered(data, offset + Min(mtu - SUB_HEADER, |data| - offset), index + 1, mtu, k - 1);
    }
  }

  /** Framing neither loses nor reorders a byte, and announces the length in 16 bits. */
  lemma FramesCarryTheData(data: seq<byte>, mtu: nat)
    requires data != [] && FIRST_HEADER <= mtu
    ensures var packets := Frame(data, mtu).value;
            && 5 <= |packets[0]|
            && packets[0][5..] + Bodies(packets[1..]) == data
            && packets[0][3] as nat * 256 + packets[0][4] as nat == |data| % 0x1_0000
  {
    hide SubPackets, Bodies, High, Low;
    var first := Min(mtu - FIRST_HEADER, |data|);
    SubPacketsCarry(data, first, 1, mtu);
    WordOfHighLow(|data|);
    var packets := Frame(data, mtu).value;
    assert packets[1..] == SubPackets(data, first, 1, mtu);
    assert packets[0][FIRST_HEADER..] == data[..first];
  }

  lemma FirstIsNumbered(data: seq<byte>, mtu: nat)
    requires data != [] && FIRST_HEADER <= mtu
    ensures var packet := FirstPacket(data, mtu);
            && packet[0] == 5 && packet[1] == 0 && packet[2] == 0
            && packet[3] as nat * 256 + packet[4] as nat == |data| % 0x1_0000
  {
    WordOfHighLow(|data|);
    hide Min;
  }

  /** Every packet keeps to the MTU, which all but the last use up; it is of type 5 and carries its position, high byte
      first, which fits its 16 bits whenever the length fits its own. */
  lemma FramesAreNumbered(data: seq<byte>, mtu: nat, k: nat)
    requires data != [] && FIRST_HEADER <= mtu && k < |Frame(data, mtu).value|
    ensures var packets := Frame(data, mtu).value;
            && 3 <= |packets[k]| <= mtu
            && (k + 1 < |packets| ==> |packets[k]| == mtu)
            && packets[k][0] == 5
            && packets[k][1] as nat * 256 + packets[k][2] as nat == k % 0x1_0000
            && (|data| < 0x1_0000 ==> packets[k][1] as nat * 256 + packets[k][2] as nat == k)
  {
    hide SubPackets, Bodies, High, Low;
    var first := Min(mtu - FIRST_HEADER, |data|);
    SubPacketsAreFew(data, first, 1, mtu);
    if first == |data| {
      assert SubPackets(data, first, 1, mtu) == [] by {
        NoSubPackets(data, mtu);
      }
    }
    var packets := Frame(data, mtu).value;
    if k == 0 {
      FirstIsNumbered(data, mtu);
    } else {
      assert packets[k] == SubPackets(data, first, 1, mtu)[k - 1];
      SubPacketsAreNumbered(data, first, 1, mtu, k - 1);
    }
  }

  // ---------------------------------------------------------------- the round trip

  /** Where the last packet's body starts. */
  function LastOffset(length: nat, offset: nat, mtu: nat): (last: nat)
    requires FIRST_HEADER <= mtu && offset < length
    ensures offset <= last < length <= last + mtu - SUB_HEADER
    ensures offset + mtu - SUB_HEADER < length ==> offset + mtu - SUB_HEADER <= last
    decreases length - offset
  {
    if length - offset <= mtu - SUB_HEADER then offset else LastOffset(length, offset + mtu - SUB_HEADER, mtu)
  }

  /** One framed packet read. */
  lemma CollectOneFramed(data: seq<byte>, offset: nat, index: nat, mtu: nat, total: nat)
    requires FIRST_HEADER <= mtu && offset < |data|
    ensures var next := offset + Min(mtu - SUB_HEADER, |data| - offset);
            && next <= |data|
            && Collect(total, data[..offset], SubPackets(data, offset, index, mtu))
               == if next >= total then data[..next]
                  else Collect(total, data[..next], SubPackets(data, next, index + 1, mtu))
  {
    hide High, Low;
    var next := offset + Min(mtu - SUB_HEADER, |data| - offset);
    var packet, rest := SubPacket(data, offset, index, mtu), SubPackets(data, next, index + 1, mtu);
    assert SubPackets(data, offset, index, mtu) == [packet] + rest;
    assert ([packet] + rest)[1..] == rest;
    assert data[..offset] + packet[SUB_HEADER..] == data[..next];
  }

  /** Reading stops at the first packet that completes the announced length, so everything is read exactly
      when one packet is left, or the last one starts before that length. */
  lemma {:induction false} CollectFramed(data: seq<byte>, offset: nat, index: nat, mtu: nat, total: nat)
    requires FIRST_HEADER <= mtu && offset < |data|
    ensures var assembled := Collect(total, data[..offset], SubPackets(data, offset, index, mtu));
            && |assembled| <= |data|
            && (|assembled| == |data| ==> assembled == data)
            && (assembled == data <==>
                  |data| - offset <= mtu - SUB_HEADER || LastOffset(|data|, offset, mtu) < total)
    decreases |data| - offset
  {
    hide Collect, SubPackets;
    var next := offset + Min(mtu - SUB_HEADER, |data| - offset);
    CollectOneFramed(data, offset, index, mtu, total);
    if next == |data| {
      assert data[..|data|] == data;
      NothingToCollect(data, index + 1, mtu);
    } else {
      CollectFramed(data, next, index + 1, mtu, total);
    }
  }

  /** What the deframer makes of a framed response: the data itself exactly when the announced length does
      not cut it short. */
  lemma DeframedIsWholeIff(data: seq<byte>, mtu: nat)
    requires data != [] && FIRST_HEADER <= mtu
    ensures var packets := Frame(data, mtu).value;
            var assembled := Collect(|data| % 0x1_0000, packets[0][FIRST_HEADER..], packets[1..]);
            && Deframe(packets) == Split(assembled)
            && |assembled| <= |data|
            && (|assembled| == |data| ==> assembled == data)
            && (assembled == data <==> |data| < 0x1_0000 || |data| <= 2 * mtu - 8)
  {
    hide SubPackets, Collect, Split, High, Low, Word, LastOffset;
    var first := Min(mtu - FIRST_HEADER, |data|);
    var packets := Frame(data, mtu).value;
    assert packets[1..] == SubPackets(data, first, 1, mtu);
    assert packets[0][FIRST_HEADER..] == data[..first];
    WordOfHighLow(|data|);
    if first == |data| {
      assert data[..first] == data;
      NothingToCollect(data, 1, mtu);
    } else {
      CollectFramed(data, first, 1, mtu, |data| % 0x1_0000);
      CutShortIff(|data|, mtu);
    }
  }

  lemma NothingToCollect(data: seq<byte>, index: nat, mtu: nat)
    requires FIRST_HEADER <= mtu
    ensures forall total: nat :: Collect(total, data, SubPackets(data, |data|, index, mtu)) == data
  {
  }

  /** A length that wraps around is announced too small, unless two packets hold everything. */
  lemma CutShortIff(n: nat, mtu: nat)
    requires FIRST_HEADER <= mtu && mtu - FIRST_HEADER < n
    ensures (n - (mtu - FIRST_HEADER) <= mtu - SUB_HEADER || LastOffset(n, mtu - FIRST_HEADER, mtu) < n % 0x1_0000)
       <==> (n < 0x1_0000 || n <= 2 * mtu - 8)
  {
    hide LastOffset;
  }

  predicate RoundTrips(data: seq<byte>, mtu: nat)
    requires 2 <= |data|
  {
    var n := |data|;
    && Frame(data, mtu).Ok?
    && Deframe(Frame(data, mtu).value)
       == Ok(Response(data[..n - 2], FromCode(data[n - 2] as nat * 256 + data[n - 1] as nat)))
  }

  /** Framing then deframing gives back the payload and the status word exactly when the MTU holds the first
      header, and the length fits 16 bits or two packets hold it all. */
  lemma RoundTripIff(data: seq<byte>, mtu: nat)
    requires 2 <= |data|
    ensures RoundTrips(data, mtu) <==> FIRST_HEADER <= mtu && (|data| < 0x1_0000 || |data| <= 2 * mtu - 8)
  {
    hide SubPackets, Collect, FromCode, Deframe;
    if FIRST_HEADER <= mtu {
      DeframedIsWholeIff(data, mtu);
      var packets := Frame(data, mtu).value;
      SplitShowsTheLength(Collect(|data| % 0x1_0000, packets[0][FIRST_HEADER..], packets[1..]), data);
    }
  }

  lemma SplitShowsTheLength(assembled: seq<byte>, data: seq<byte>)
    requires 2 <= |data|
    ensures Split(assembled) == Split(data) ==> |assembled| == |data|
  {
    if 2 <= |assembled| {
      assert |assembled[..|assembled| - 2]| == |assembled| - 2 && |data[..|data| - 2]| == |data| - 2;
    }
  }

  lemma RoundTrip(payload: seq<byte>, high: byte, low: byte, mtu: nat)
    requires FIRST_HEADER <= mtu && |payload| + 2 < 0x1_0000
    ensures var r := Deframe(Frame(payload + [high, low], mtu).value);
            r.Ok? && r.value.payload == payload && Code(r.value.status) == high as nat * 256 + low as nat
  {
    hide Frame, Deframe, FromCode;
    var data := payload + [high, low];
    RoundTripIff(data, mtu);
    assert data[..|payload|] == payload;
  }

  /** Too little data to hold a status word is never taken for a response. */
  lemma ShortDataIsRefused(data: seq<byte>, mtu: nat)
    requires |data| < 2 && FIRST_HEADER <= mtu
    ensures Deframe(Frame(data, mtu).value).Err?
  {
    if data != [] {
      DeframedIsWholeIff(data, mtu);
    }
  }

  // ---------------------------------------------------------------- packets that do not matter

  /** The packets the deframer looks at after the first. */
  function Long(packets: seq<seq<byte>>): seq<seq<byte>> {
    if packets == [] then []
    else (if |packets[0]| < SUB_HEADER then [] else [packets[0]]) + Long(packets[1..])
  }

  lemma {:induction false} CollectIgnoresShort(total: nat, stream: seq<byte>, packets: seq<seq<byte>>)
    ensures Collect(total, stream, packets) == Collect(total, stream, Long(packets))
    decreases |packets|
  {
    if packets == [] {
    } else if |packets[0]| < SUB_HEADER {
      CollectIgnoresShort(total, stream, packets[1..]);
      assert Long(packets) == Long(packets[1..]);
    } else {
      CollectIgnoresShort(total, stream + packets[0][SUB_HEADER..], packets[1..]);
      assert Long(packets)[1..] == Long(packets[1..]);
    }
  }

  /** Packets shorter than a header may come anywhere after the first, in any number. */
  lemma ShortPacketsDoNotMatter(first: seq<byte>, packets: seq<seq<byte>>, others: seq<seq<byte>>)
    requires Long(packets) == Long(others)
    ensures Deframe([first] + packets) == Deframe([first] + others)
  {
    assert ([first] + packets)[1..] == packets && ([first] + others)[1..] == others;
    if FIRST_HEADER <= |first| {
      CollectIgnoresShort(Word(first[3], first[4]), first[FIRST_HEADER..], packets);
      CollectIgnoresShort(Word(first[3], first[4]), first[FIRST_HEADER..], others);
    }
  }

  /** The announced length is reached while reading. */
  predicate Completes(total: nat, stream: seq<byte>, packets: seq<seq<byte>>)
    decreases |packets|
  {
    packets != [] &&
    if |packets[0]| < SUB_HEADER then Completes(total, stream, packets[1..])
    else
      var longer := stream + packets[0][SUB_HEADER..];
      |longer| >= total || Completes(total, longer, packets[1..])
  }

  lemma {:induction false} CollectStops(total: nat, stream: seq<byte>, packets: seq<seq<byte>>, extra: seq<seq<byte>>)
    ensures Completes(total, stream, packets)
            ==> Collect(total, stream, packets + extra) == Collect(total, stream, packets)
    ensures !Completes(total, stream, packets) ==>
              Collect(total, stream, packets + extra) == Collect(total, Collect(total, stream, packets), extra)
    decreases |packets|
  {
    if packets == [] {
      assert packets + extra == extra;
    } else {
      assert (packets + extra)[1..] == packets[1..] + extra;
      if |packets[0]| < SUB_HEADER {
        CollectStops(total, stream, packets[1..], extra);
      } else {
        CollectStops(total, stream + packets[0][SUB_HEADER..], packets[1..], extra);
      }
    }
  }

  /** A frame of two or more packets whose length is announced in full completes with its last packet. */
  lemma {:induction false} FramesComplete(data: seq<byte>, offset: nat, index: nat, mtu: nat)
    requires FIRST_HEADER <= mtu && offset < |data|
    ensures Completes(|data|, data[..offset], SubPackets(data, offset, index, mtu))
    decreases |data| - offset
  {
    hide High, Low;
    var chunk := Min(mtu - SUB_HEADER, |data| - offset);
    var packet := SubPacket(data, offset, index, mtu);
    var rest := SubPackets(data, offset + chunk, index + 1, mtu);
    assert SubPackets(data, offset, index, mtu) == [packet] + rest;
    assert ([packet] + rest)[1..] == rest;
    assert data[..offset] + packet[SUB_HEADER..] == data[..offset + chunk];
    if offset + chunk == |data| {
    } else {
      FramesComplete(data, offset + chunk, index + 1, mtu);
    }
  }

  /** Nothing that follows a complete frame of two or more packets matters. */
  lemma PacketsAfterAFrameDoNotMatter(data: seq<byte>, mtu: nat, extra: seq<seq<byte>>)
    requires FIRST_HEADER <= mtu && mtu - FIRST_HEADER < |data| < 0x1_0000
    ensures Deframe(Frame(data, mtu).value + extra) == Deframe(Frame(data, mtu).value)
  {
    var packets := Frame(data, mtu).value;
    var first := mtu - FIRST_HEADER;
    assert packets[1..] == SubPackets(data, first, 1, mtu);
    assert packets[0][FIRST_HEADER..] == data[..first];
    assert (packets + extra)[1..] == packets[1..] + extra;
    WordOfHighLow(|data|);
    FramesComplete(data, first, 1, mtu);
    CollectStops(|data|, data[..first], packets[1..], extra);
  }

  /** A frame of one packet is not protected: what follows is ignored exactly when its first packet long
      enough to look at carries nothing. */
  lemma PacketsAfterOnePacketMatterIff(data: seq<byte>, mtu: nat, extra: seq<seq<byte>>)
    requires FIRST_HEADER <= mtu && 2 <= |data| <= mtu - FIRST_HEADER && |data| < 0x1_0000
    ensures Deframe(Frame(data, mtu).value + extra) == Deframe(Frame(data, mtu).value)
       <==> Long(extra) == [] || |Long(extra)[0]| == SUB_HEADER
  {
    hide High, Low, Word, FromCode;
    var packets := Frame(data, mtu).value;
    assert packets == [packets[0]] && packets[0][FIRST_HEADER..] == data;
    assert (packets + extra)[1..] == extra;
    WordOfHighLow(|data|);
    CollectIgnoresShort(|data|, data, extra);
    if Long(extra) != [] {
      LongIsLong(extra);
      var body := Long(extra)[0][SUB_HEADER..];
      assert Collect(|data|, data, Long(extra)) == data + body;
      assert body == [] ==> data + body == data;
      SplitShowsTheLength(data + body, data);
    }
  }

  lemma {:induction false} LongIsLong(packets: seq<seq<byte>>)
    ensures forall k :: 0 <= k < |Long(packets)| ==> SUB_HEADER <= |Long(packets)[k]|
  {
    if packets == [] {
    } else {
      LongIsLong(packets[1..]);
    }
  }
}
