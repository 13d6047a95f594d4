/** The five-byte handshake that tells the server which way a connection runs,
    sent and received over a socket that moves bytes in arbitrary pieces. */
module Handshake {

  newtype byte = x: int | 0 <= x < 256

  const LENGTH: nat := 5

  // --------------------------------------------------------------- byte order

  /** The bytes of a 32-bit word, most significant first. */
  function BigEndian(x: nat): (b: seq<byte>)
    requires x < 0x1_0000_0000
    ensures |b| == 4
  {
    [(x / 0x100_0000) as byte, (x / 0x1_0000 % 0x100) as byte, (x / 0x100 % 0x100) as byte, (x % 0x100) as byte]
  }

  function FromBigEndian(b: seq<byte>): (x: nat)
    requires |b| == 4
    ensures x < 0x1_0000_0000
  {
    b[0] as nat * 0x100_0000 + b[1] as nat * 0x1_0000 + b[2] as nat * 0x100 + b[3] as nat
  }

  function Reversed(b: seq<byte>): (r: seq<byte>)
    requires |b| == 4
    ensures |r| == 4
  {
    [b[3], b[2], b[1], b[0]]
  }

  /** How a host lays a word out in memory, and reads it back. */
  function Store(x: nat, little: bool): (b: seq<byte>)
    requires x < 0x1_0000_0000
    ensures |b| == 4
  {
    if little then Reversed(BigEndian(x)) else BigEndian(x)
  }

  function Load(b: seq<byte>, little: bool): (x: nat)
    requires |b| == 4
    ensures x < 0x1_0000_0000
  {
    if little then FromBigEndian(Reversed(b)) else FromBigEndian(b)
  }

  /** `htonl` and `ntohl`: swap the bytes on a little-endian host. */
  function NetworkOrder(x: nat, little: bool): (y: nat)
    requires x < 0x1_0000_0000
    ensures y < 0x1_0000_0000
  {
    if little then FromBigEndian(Reversed(BigEndian(x))) else x
  }

  lemma FromToBigEndian(x: nat)
    requires x < 0x1_0000_0000
    ensures FromBigEndian(BigEndian(x)) == x
  {
    var h, m := x / 0x100, x / 0x1_0000;
    assert h / 0x100 == m && m / 0x100 == x / 0x100_0000;
    assert x == 0x100 * h + x % 0x100 && h == 0x100 * m + h % 0x100 && m == 0x100 * (m / 0x100) + m % 0x100;
  }

  lemma ToFromBigEndian(b: seq<byte>)
    requires |b| == 4
    ensures BigEndian(FromBigEndian(b)) == b
  {
    var b0, b1, b2, b3 := b[0] as nat, b[1] as nat, b[2] as nat, b[3] as nat;
    var x := FromBigEndian(b);
    assert x / 0x100_0000 == b0;
    assert x / 0x1_0000 == b0 * 0x100 + b1;
    assert x / 0x100 == (b0 * 0x100 + b1) * 0x100 + b2;
  }

  /** On either kind of host the stored network-order word is big-endian. */
  lemma WireIsBigEndian(x: nat, little: bool)
    requires x < 0x1_0000_0000
    ensures Store(NetworkOrder(x, little), little) == BigEndian(x)
  {
    if little { ToFromBigEndian(Reversed(BigEndian(x))); }
  }

  lemma LoadUndoesWire(x: nat, little: bool)
    requires x < 0x1_0000_0000
    ensures NetworkOrder(Load(BigEndian(x), little), little) == x
  {
    FromToBigEndian(x);
    if little { ToFromBigEndian(Reversed(BigEndian(x))); }
  }

  // ------------------------------------------------------------------ framing

  function Encode(reverse: bool, duration: nat, little: bool): (b: seq<byte>)
    requires duration < 0x1_0000_0000
    ensures |b| == LENGTH
  {
    [if reverse then 1 else 0] + Store(NetworkOrder(duration, little), little)
  }

  datatype Message = Message(reverse: bool, duration: nat)

  function Decode(b: seq<byte>, little: bool): Message
    requires |b| == LENGTH
  {
    Message(b[0] != 0, NetworkOrder(Load(b[1..], little), little))
  }

  /** The five bytes on the wire: the role, then the duration from its most to its
      least significant byte. */
  lemma WireBytes(reverse: bool, duration: nat, little: bool)
    requires duration < 0x1_0000_0000
    ensures var b := Encode(reverse, duration, little);
      && |b| == 5 && b[0] as int == (if reverse then 1 else 0)
      && b[1] as int == duration / 16777216 % 256 && b[2] as int == duration / 65536 % 256
      && b[3] as int == duration / 256 % 256 && b[4] as int == duration % 256
  {
    WireIsBigEndian(duration, little);
  }

  /** Sender and receiver may run on hosts of different byte order. */
  lemma DecodeUndoesEncode(reverse: bool, duration: nat, sender: bool, receiver: bool)
    requires duration < 0x1_0000_0000
    ensures Decode(Encode(reverse, duration, sender), receiver) == Message(reverse, duration)
  {
    WireIsBigEndian(duration, sender);
    LoadUndoesWire(duration, receiver);
    var b := Encode(reverse, duration, sender);
    assert b[1..] == BigEndian(duration);
  }

  // ---------------------------------------------------------------- transport

  /** One call into the socket: bytes moved, a retry after which `poll` reports
      ready or not, or a failure (error, or zero bytes). */
  datatype Io = Moved(n: nat) | WouldBlock(ready: bool) | Broken

  /** A call after which the loop goes on. */
  predicate Good(io: Io) { (io.Moved? && io.n > 0) || (io.WouldBlock? && io.ready) }

  predicate AllGood(schedule: seq<Io>, j: nat)
    requires j <= |schedule|
  {
    forall i :: 0 <= i < j ==> Good(schedule[i])
  }

  /** What the first `j` calls offer to move. */
  function MovedBy(schedule: seq<Io>, j: nat): nat
    requires j <= |schedule|
  {
    if j == 0 then 0 else MovedBy(schedule, j - 1) + if schedule[j - 1].Moved? then schedule[j - 1].n else 0
  }

  /** Good calls move at least `len` bytes before anything goes wrong. */
  ghost predicate Completes(schedule: seq<Io>, len: nat) {
    exists j :: 0 <= j <= |schedule| && AllGood(schedule, j) && MovedBy(schedule, j) >= len
  }

  /** The first call that is not good, or the end of the schedule (a time-out),
      comes at `j`, before `len` bytes have been moved. */
  predicate BreaksAt(schedule: seq<Io>, len: nat, j: nat) {
    && j <= |schedule| && AllGood(schedule, j) && MovedBy(schedule, j) < len
    && (j < |schedule| ==> !Good(schedule[j]))
  }

  lemma {:induction false} MovedMonotone(schedule: seq<Io>, i: nat, j: nat)
    requires i <= j <= |schedule|
    ensures MovedBy(schedule, i) <= MovedBy(schedule, j)
  {
    if i < j { MovedMonotone(schedule, i, j - 1); }
  }

  /** What breaks does not complete. */
  lemma BreaksOrCompletes(schedule: seq<Io>, len: nat, j: nat)
    requires BreaksAt(schedule, len, j)
    ensures !Completes(schedule, len)
  {
    forall k | 0 <= k <= |schedule| && AllGood(schedule, k) ensures MovedBy(schedule, k) < len {
      if k <= j { MovedMonotone(schedule, k, j); }
    }
  }

  /** A schedule breaks at one place only. */
  lemma BreaksOnce(schedule: seq<Io>, len: nat, i: nat, j: nat)
    requires BreaksAt(schedule, len, i) && BreaksAt(schedule, len, j)
    ensures i == j
  {
  }

  /** `send_all`: `wire` is what reached the peer. Everything, exactly when the
      schedule completes; otherwise what was moved before it broke. */
  method SendAll(buf: seq<byte>, schedule: seq<Io>) returns (ok: bool, wire: seq<byte>)
    ensures ok <==> Completes(schedule, |buf|)
    ensures wire <= buf && (ok <==> wire == buf)
    ensures forall j: nat :: BreaksAt(schedule, |buf|, j) ==> wire == buf[..MovedBy(schedule, j)]
  {
    var sent, i := 0, 0;
    while sent < |buf|
      invariant sent <= |buf| && i <= |schedule| && AllGood(schedule, i)
      invariant sent == if MovedBy(schedule, i) < |buf| then MovedBy(schedule, i) else |buf|
      decreases |schedule| - i
    {
      if i == |schedule| || !Good(schedule[i]) {
        SentUntil(schedule, |buf|, i);
        return false, buf[..sent];
      }
      match schedule[i] {
        case Moved(k) => sent := sent + if k < |buf| - sent then k else |buf| - sent;
        case WouldBlock(_) =>
      }
      i := i + 1;
    }
    assert MovedBy(schedule, i) >= |buf|;
    assert Completes(schedule, |buf|);
    NeverBreaks(schedule, |buf|);
    return true, buf[..sent];
  }

  lemma SentUntil(schedule: seq<Io>, len: nat, i: nat)
    requires BreaksAt(schedule, len, i)
    ensures !Completes(schedule, len)
    ensures forall j: nat :: BreaksAt(schedule, len, j) ==> j == i
  {
    BreaksOrCompletes(schedule, len, i);
    forall j: nat | BreaksAt(schedule, len, j) ensures j == i { BreaksOnce(schedule, len, i, j); }
  }

  lemma NeverBreaks(schedule: seq<Io>, len: nat)
    requires Completes(schedule, len)
    ensures forall j: nat :: !BreaksAt(schedule, len, j)
  {
    forall j: nat ensures !BreaksAt(schedule, len, j) {
      if BreaksAt(schedule, len, j) { BreaksOrCompletes(schedule, len, j); }
    }
  }

  function Min(a: nat, b: nat): nat { if a < b then a else b }

  /** `recv_all`: takes bytes from the front of `stream`; running out of stream
      is the peer closing early. */
  method RecvAll(stream: seq<byte>, len: nat, schedule: seq<Io>)
    returns (ok: bool, buf: seq<byte>, rest: seq<byte>)
    ensures buf + rest == stream
    ensures ok <==> |buf| == len
    ensures ok <==> Completes(schedule, len) && len <= |stream|
    ensures forall j: nat :: BreaksAt(schedule, len, j) ==> |buf| == Min(MovedBy(schedule, j), |stream|)
    ensures Completes(schedule, len) ==> |buf| == Min(len, |stream|)
  {
    var got, i := 0, 0;
    while got < len
      invariant got <= len && got <= |stream| && i <= |schedule| && AllGood(schedule, i)
      invariant got == Min(Min(MovedBy(schedule, i), len), |stream|)
      decreases |schedule| - i
    {
      if i == |schedule| || !Good(schedule[i]) {
        if MovedBy(schedule, i) < len {
          SentUntil(schedule, len, i);
        } else {
          assert Completes(schedule, len);
          NeverBreaks(schedule, len);
        }
        return false, stream[..got], stream[got..];
      }
      if schedule[i].Moved? {
        if got == |stream| {
          RanOut(schedule, len, i, |stream|);
          return false, stream[..got], stream[got..];
        }
        got := got + Min(schedule[i].n, Min(len - got, |stream| - got));
      }
      i := i + 1;
    }
    assert MovedBy(schedule, i) >= len;
    assert Completes(schedule, len);
    NeverBreaks(schedule, len);
    return true, stream[..got], stream[got..];
  }

  /** Once the stream has run out, later calls change nothing. */
  lemma RanOut(schedule: seq<Io>, len: nat, i: nat, have: nat)
    requires i < |schedule| && AllGood(schedule, i) && Good(schedule[i]) && have <= MovedBy(schedule, i) && have < len
    ensures forall j: nat :: BreaksAt(schedule, len, j) ==> Min(MovedBy(schedule, j), have) == have
    ensures Min(len, have) == have
  {
    forall j: nat | BreaksAt(schedule, len, j) ensures MovedBy(schedule, j) >= have {
      if j > i { MovedMonotone(schedule, i, j); }
    }
  }

  /** `send_handshake`. */
  method SendHandshake(reverse: bool, duration: nat, little: bool, schedule: seq<Io>)
    returns (ok: bool, wire: seq<byte>)
    requires duration < 0x1_0000_0000
    ensures wire <= Encode(reverse, duration, little)
    ensures ok <==> wire == Encode(reverse, duration, little)
    ensures ok <==> Completes(schedule, LENGTH)
  {
    ok, wire := SendAll(Encode(reverse, duration, little), schedule);
  }

  datatype Received = Failed | Got(message: Message)

  /** `recv_handshake`. */
  method RecvHandshake(stream: seq<byte>, little: bool, schedule: seq<Io>)
    returns (r: Received, ghost used: seq<byte>, rest: seq<byte>)
    ensures used + rest == stream
    ensures r.Got? <==> |used| == LENGTH
    ensures r.Got? <==> Completes(schedule, LENGTH) && LENGTH <= |stream|
    ensures r.Got? ==> r.message == Decode(used, little)
  {
    var ok, buf;
    ok, buf, rest := RecvAll(stream, LENGTH, schedule);
    used := buf;
    if !ok { return Failed, used, rest; }
    r := Got(Decode(buf, little));
  }

  /** A whole exchange. Whatever the two schedules: if both sides report success
      the receiver has the pair that was sent, has consumed exactly the
      handshake and left the payload behind it untouched; if the sender failed,
      the receiver fails too unless payload bytes follow the broken frame. */
  method Exchange(reverse: bool, duration: nat, payload: seq<byte>,
                  sender: bool, receiver: bool, out: seq<Io>, inn: seq<Io>)
    returns (sent: bool, r: Received, rest: seq<byte>)
    requires duration < 0x1_0000_0000
    ensures sent <==> Completes(out, LENGTH)
    ensures sent && r.Got? ==> r.message == Message(reverse, duration) && rest == payload
    ensures sent ==> (r.Got? <==> Completes(inn, LENGTH))
    ensures !sent && payload == [] ==> r.Failed?
  {
    var wire; ghost var used;
    sent, wire := SendHandshake(reverse, duration, sender, out);
    r, used, rest := RecvHandshake(wire + payload, receiver, inn);
    if sent && r.Got? {
      assert used == (wire + payload)[..LENGTH] == wire;
      DecodeUndoesEncode(reverse, duration, sender, receiver);
    }
  }
}
