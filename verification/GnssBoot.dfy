/** GNSS boot acknowledgements and the download exchange that they drive. */
module GnssBoot {
  import opened Words
  import opened GnssFrames

  const BOOT_INFO_ACK := 0xfe31
  const FRAGMENT_ACK := 0xfe32

  datatype BootAck = BootAck(command: nat, index: nat, payload: seq<byte>)

  function AckSizeOf(command: nat): Option<nat> {
    if command == BOOT_INFO_ACK then Some(10) else if command == FRAGMENT_ACK then Some(2) else None
  }

  /** None is a well-formed frame that is no boot acknowledgement. */
  function DecodeBootAck(body: seq<byte>): Result<Option<BootAck>> {
    if |body| < 7 then Raise(ShortFrame)
    else if HalfWord(body, 0) % 0x1000 != |body| - 2 then Raise(LengthMismatch)
    else if Sum(body[..|body| - 2]) % 0x1_0000 != HalfWord(body, |body| - 2) then Raise(ChecksumMismatch)
    else
      var command, payload := HalfWord(body, 2), body[4..|body| - 2];
      if AckSizeOf(command).None? then Ok(None)
      else if |payload| != AckSizeOf(command).value then Raise(AckSize)
      else Ok(Some(BootAck(command, HalfWord(payload, 0), payload)))
  }

  // ---------------------------------------------------------------- integrity

  /** Encoded bodies pass the length and checksum tests, and give back command and payload. */
  lemma EncodedDecodes(command: int, payload: seq<byte>)
    requires Encodable(command, payload)
    ensures DecodeBootAck(Body(command, payload))
            == if command != 0xfe31 && command != 0xfe32 then Ok(None)
               else if (command == 0xfe31 && |payload| == 10) || (command == 0xfe32 && |payload| == 2)
               then Ok(Some(BootAck(command, HalfWord(payload, 0), payload)))
               else Raise(AckSize)
  {
    hide Sum;
    var covered, body := HalfBytes(|payload| + 4) + HalfBytes(command) + payload, Body(command, payload);
    assert body[..|body| - 2] == covered && body[4..|body| - 2] == payload;
    assert body[0..2] == HalfBytes(|payload| + 4) && body[2..4] == HalfBytes(command);
    assert body[|body| - 2..|body|] == HalfBytes(Sum(covered) % 0x1_0000);
    HalfOfBytes(body, 0, |payload| + 4);
    HalfOfBytes(body, 2, command);
    HalfOfBytes(body, |body| - 2, Sum(covered) % 0x1_0000);
  }

  /** Exactly these bodies are accepted: length in the low twelve bits, sum of all bytes before the checksum, and the size of its kind. */
  lemma DecodeExact(body: seq<byte>)
    ensures DecodeBootAck(body).Ok? <==>
            && |body| >= 7 && HalfWord(body, 0) % 0x1000 == |body| - 2
            && HalfWord(body, |body| - 2) == Sum(body[..|body| - 2]) % 0x1_0000
            && (HalfWord(body, 2) == 0xfe31 ==> |body| == 16) && (HalfWord(body, 2) == 0xfe32 ==> |body| == 8)
  {
    hide Sum, HalfWord;
  }

  lemma {:induction false} SumChange(s: seq<byte>, i: nat, b: byte)
    requires i < |s|
    ensures Sum(s[i := b]) == Sum(s) - s[i] + b
  {
    if i == |s| - 1 {
      assert s[i := b][..i] == s[..i];
    } else {
      assert s[i := b][..|s| - 1] == s[..|s| - 1][i := b];
      SumChange(s[..|s| - 1], i, b);
    }
  }

  lemma SmallChange(sum: nat, x: byte, y: byte)
    requires x != y && sum >= x
    ensures (sum - x + y) % 0x1_0000 != sum % 0x1_0000
  {}

  lemma {:induction false} SumCovers(s: seq<byte>, i: nat)
    requires i < |s|
    ensures Sum(s) >= s[i]
  {
    if i < |s| - 1 {
      SumCovers(s[..|s| - 1], i);
    }
  }

  /** Changing any one byte of a well-formed body makes it a ValueError, whatever the command. */
  lemma CorruptionRejected(body: seq<byte>, i: nat, b: byte)
    requires DecodeBootAck(body).Ok? && i < |body| && b != body[i]
    ensures DecodeBootAck(body[i := b]).Raise?
  {
    hide Sum;
    var bad, n := body[i := b], |body| - 2;
    if i < n {
      assert bad[..n] == body[..n][i := b];
      SumChange(body[..n], i, b);
      SumCovers(body[..n], i);
      SmallChange(Sum(body[..n]), body[i], b);
    } else {
      assert bad[..n] == body[..n];
    }
  }

  // ---------------------------------------------------------------- the exchange

  datatype Phase = BootInfo | Fragment | Complete

  datatype Exchange = Exchange(count: nat, phase: Phase, index: nat, pending: bool)

  function Fresh(count: nat): Exchange {
    Exchange(count, BootInfo, 0, false)
  }

  predicate MaySubmit(x: Exchange) {
    !x.pending && x.phase != Complete
  }

  /** The submitted body's acknowledgement, for the current phase and index. */
  predicate Matches(x: Exchange, body: seq<byte>) {
    && x.pending && DecodeBootAck(body).Ok? && DecodeBootAck(body).value.Some?
    && DecodeBootAck(body).value.value.command == (if x.phase == BootInfo then BOOT_INFO_ACK else FRAGMENT_ACK)
    && DecodeBootAck(body).value.value.index == x.index
  }

  function Advance(x: Exchange): Exchange {
    match x.phase
    case BootInfo => x.(pending := false, phase := Fragment, index := 1)
    case _ => if x.index == x.count then x.(pending := false, phase := Complete) else x.(pending := false, index := x.index + 1)
  }

  function AcceptExchange(x: Exchange, body: seq<byte>): Exchange {
    if Matches(x, body) then Advance(x) else x
  }

  /** The zero-based fragment that may be submitted now. */
  function OfferedFragment(x: Exchange): Option<int> {
    if x.phase == Fragment && !x.pending then Some(x.index - 1) else None
  }

  class BootExchange {
    const count: nat
    var phase: Phase
    var index: nat
    var pending: bool

    function Value(): Exchange
      reads this
    {
      Exchange(count, phase, index, pending)
    }

    constructor (count: nat)
      ensures Value() == Fresh(count)
    {
      this.count, phase, index, pending := count, BootInfo, 0, false;
    }

    /** None for a count outside 1..256. */
    static method Create(count: int) returns (r: Option<BootExchange>)
      ensures r.Some? <==> 1 <= count <= 256
      ensures r.Some? ==> fresh(r.value) && r.value.Value() == Fresh(count)
    {
      if !(1 <= count <= 256) {
        return None;
      }
      var x := new BootExchange(count);
      return Some(x);
    }

    /** False stands for the RuntimeError. */
    method MarkSubmitted() returns (ok: bool)
      modifies this
      ensures ok == MaySubmit(old(Value()))
      ensures Value() == if ok then old(Value()).(pending := true) else old(Value())
    {
      if pending || phase == Complete {
        return false;
      }
      pending := true;
      return true;
    }

    method Accept(body: seq<byte>) returns (r: Result<bool>)
      modifies this
      ensures Value() == AcceptExchange(old(Value()), body)
      ensures r == if DecodeBootAck(body).Raise? then Raise(DecodeBootAck(body).fault) else Ok(Matches(old(Value()), body))
    {
      hide DecodeBootAck;
      var ack := DecodeBootAck(body);
      if ack.Raise? {
        return Raise(ack.fault);
      }
      var expected := if phase == BootInfo then BOOT_INFO_ACK else FRAGMENT_ACK;
      if !pending || ack.value.None? || ack.value.value.command != expected || ack.value.value.index != index {
        return Ok(false);
      }
      pending := false;
      if phase == BootInfo {
        phase, index := Fragment, 1;
      } else if index == count {
        phase := Complete;
      } else {
        index := index + 1;
      }
      return Ok(true);
    }

    /** None stands for the RuntimeError. */
    method DriverFragmentIndex() returns (r: Option<int>)
      ensures r == OfferedFragment(Value())
    {
      if phase != Fragment || pending {
        return None;
      }
      return Some(index - 1);
    }
  }

  // ---------------------------------------------------------------- every run

  datatype Event = Submit | Receive(body: seq<byte>)

  /** What a run of the exchange did: submissions, accepted acknowledgements, fragments offered. */
  datatype Trace = Trace(x: Exchange, submitted: nat, accepted: seq<BootAck>, fragments: seq<int>)

  /** A driver that asks for the fragment index before each submission in the fragment phase. */
  function After(count: nat, events: seq<Event>): Trace {
    if events == [] then Trace(Fresh(count), 0, [], [])
    else
      var t := After(count, events[..|events| - 1]);
      match events[|events| - 1]
      case Submit =>
        if !MaySubmit(t.x) then t
        else t.(x := t.x.(pending := true), submitted := t.submitted + 1,
                fragments := if OfferedFragment(t.x).Some? then t.fragments + [OfferedFragment(t.x).value] else t.fragments)
      case Receive(body) =>
        if Matches(t.x, body) then t.(x := Advance(t.x), accepted := t.accepted + [DecodeBootAck(body).value.value]) else t
  }

  /** The position of the exchange, as a function of what was accepted and submitted alone. */
  ghost predicate Placed(count: nat, t: Trace) {
    var n := |t.accepted|;
    && n <= count + 1 && t.submitted == n + (if t.x.pending then 1 else 0)
    && t.x.count == count && (t.x.pending ==> n <= count)
    && t.x.phase == (if n == 0 then BootInfo else if n <= count then Fragment else Complete)
    && t.x.index == (if n <= count then n else count)
    && (forall k | 0 <= k < n :: t.accepted[k].index == k && t.accepted[k].command == (if k == 0 then BOOT_INFO_ACK else FRAGMENT_ACK))
    && |t.fragments| == (if t.submitted == 0 then 0 else t.submitted - 1)
    && (forall k | 0 <= k < |t.fragments| :: t.fragments[k] == k)
  }

  /**
   * In every run: the k-th accepted acknowledgement is that of request k, each had its own submission,
   * fragments are offered in the order 0, 1, ..., and the exchange is complete exactly after count + 1 of them.
   */
  lemma {:induction false} ExchangeRuns(count: nat, events: seq<Event>)
    requires 1 <= count <= 256
    ensures Placed(count, After(count, events))
    ensures After(count, events).x.phase == Complete <==> |After(count, events).accepted| == count + 1
  {
    hide DecodeBootAck;
    if events != [] {
      ExchangeRuns(count, events[..|events| - 1]);
    }
  }

  /**
   * In every run the driver is offered fragment k exactly when k + 1 requests are acknowledged, none is
   * outstanding and the image has a fragment k; the fragments submitted before are then 0, ..., k - 1.
   */
  lemma FragmentOffered(count: nat, events: seq<Event>, k: nat)
    requires 1 <= count <= 256
    ensures var t := After(count, events);
            && (OfferedFragment(t.x) == Some(k) <==> |t.accepted| == t.submitted == k + 1 && k < count)
            && (OfferedFragment(t.x) == Some(k) ==> |t.fragments| == k && forall i | 0 <= i < k :: t.fragments[i] == i)
  {
    hide After;
    ExchangeRuns(count, events);
  }

  /** The acknowledgement of request `k`: boot information first, then the fragments. */
  function AckPayload(k: nat): (payload: seq<byte>)
    requires k <= 256
    ensures |payload| == if k == 0 then 10 else 2
  {
    if k == 0 then [0, 0, 0, 0, 0, 0, 0, 0, 0, 0] else HalfBytes(k)
  }

  function AckBody(k: nat): seq<byte>
    requires k <= 256
  {
    Body(if k == 0 then 0xfe31 else 0xfe32, AckPayload(k))
  }

  lemma AckIndex(k: nat)
    requires k <= 256
    ensures HalfWord(AckPayload(k), 0) == k
  {
    if k > 0 {
      assert AckPayload(k)[0..2] == HalfBytes(k);
      HalfOfBytes(AckPayload(k), 0, k);
    }
  }

  /** Every request submitted and acknowledged in turn. */
  function Dialogue(n: nat): seq<Event>
    requires n <= 257
  {
    if n == 0 then [] else Dialogue(n - 1) + [Submit] + [Receive(AckBody(n - 1))]
  }

  lemma AfterSnoc(count: nat, events: seq<Event>, e: Event)
    ensures After(count, events + [e])
            == var t := After(count, events);
               match e
               case Submit =>
                 if !MaySubmit(t.x) then t
                 else t.(x := t.x.(pending := true), submitted := t.submitted + 1,
                         fragments := if OfferedFragment(t.x).Some? then t.fragments + [OfferedFragment(t.x).value] else t.fragments)
               case Receive(body) =>
                 if Matches(t.x, body) then t.(x := Advance(t.x), accepted := t.accepted + [DecodeBootAck(body).value.value]) else t
  {
    hide DecodeBootAck;
    assert (events + [e])[..|events|] == events;
  }

  lemma AckMatches(x: Exchange, k: nat)
    requires k <= 256 && x.pending && x.index == k && (x.phase == if k == 0 then BootInfo else Fragment)
    ensures Matches(x, AckBody(k))
  {
    hide DecodeBootAck, Body;
    AckIndex(k);
    EncodedDecodes(if k == 0 then 0xfe31 else 0xfe32, AckPayload(k));
  }

  /** A dialogue without losses goes through every request, offers every fragment, and completes. */
  lemma {:induction false} LosslessBoot(count: nat, n: nat)
    requires 1 <= count <= 256 && n <= count + 1
    ensures var t := After(count, Dialogue(n));
            && |t.accepted| == n && t.submitted == n && !t.x.pending
            && (n == count + 1 ==> t.x.phase == Complete && |t.fragments| == count)
  {
    hide After, DecodeBootAck, AckBody, Matches;
    ExchangeRuns(count, Dialogue(n));
    if n == 0 {
      NothingDone(count);
    } else {
      LosslessBoot(count, n - 1);
      ExchangeRuns(count, Dialogue(n - 1));
      var before := Dialogue(n - 1);
      AfterSnoc(count, before, Submit);
      AfterSnoc(count, before + [Submit], Receive(AckBody(n - 1)));
      AckMatches(After(count, before + [Submit]).x, n - 1);
    }
  }

  lemma NothingDone(count: nat)
    ensures After(count, []) == Trace(Fresh(count), 0, [], [])
  {}

  /** A corrupted body leaves the exchange where it was. */
  lemma CorruptionHolds(x: Exchange, body: seq<byte>, i: nat, b: byte)
    requires DecodeBootAck(body).Ok? && i < |body| && b != body[i]
    ensures DecodeBootAck(body[i := b]).Raise? && AcceptExchange(x, body[i := b]) == x
  {
    hide DecodeBootAck;
    CorruptionRejected(body, i, b);
  }
}
