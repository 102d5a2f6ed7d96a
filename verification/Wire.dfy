// The signaling wire format (crates/protocol) and the few string facts the
// protocol depends on: the byte length of a field and the order of user ids.

module Wire {
  datatype Option<+T> = None | Some(value: T)

  /** The longest description the server relays, in bytes. */
  const MAX_SDP: nat := 16 * 1024

  type RoomId = string
  type UserId = string

  /** A session description: the PeerConnection that made it, the offering
      PeerConnection it answers (for an answer), and its length in bytes. */
  datatype Sdp = Sdp(pc: nat, answers: Option<nat>, len: nat)

  /** A trickled ICE candidate; `parses` is whether the JSON parser accepts it. */
  datatype Candidate = Candidate(text: string, parses: bool)

  datatype PeerInfo = PeerInfo(userId: UserId, name: string)

  datatype ClientMsg =
    | Join(room: RoomId, userId: UserId, name: string, token: Option<string>)
    | Offer(to: UserId, sdp: Sdp)
    | Answer(to: UserId, sdp: Sdp)
    | Ice(to: UserId, cand: Candidate)
    | Ptt(active: bool)
    | Rekey
    | Leave

  datatype ServerMsg =
    | Roster(peers: seq<PeerInfo>)
    | Turn(creds: string)
    | PeerJoined(userId: UserId, name: string)
    | PeerLeft(userId: UserId)
    | Offer(from: UserId, sdp: Sdp)
    | Answer(from: UserId, sdp: Sdp)
    | Ice(from: UserId, cand: Candidate)
    | Ptt(userId: UserId, active: bool)
    | Rekey(who: string)
    | RoomFull(cap: nat)
    | Warn(size: nat, cap: nat)
    | Error(code: string)

  /** Bytes a character takes in UTF-8. */
  function CharBytes(c: char): nat {
    if c as int < 0x80 then 1
    else if c as int < 0x800 then 2
    else if c as int < 0x10000 then 3
    else 4
  }

  /** Length in bytes, which is what the server's field limits count. */
  function ByteLen(s: string): nat {
    if s == [] then 0 else CharBytes(s[0]) + ByteLen(s[1..])
  }

  predicate LenOk(s: string, max: nat) {
    s != [] && ByteLen(s) <= max
  }

  /** The order of user ids: lexicographic, as string comparison is in the source. */
  predicate Less(a: UserId, b: UserId) {
    b != [] && (a == [] || a[0] < b[0] || (a[0] == b[0] && Less(a[1..], b[1..])))
  }

  /** A character's bytes in UTF-8 (section 3 of RFC 3629). */
  function Utf8(c: char): seq<nat> {
    var n := c as int;
    if n < 0x80 then [n]
    else if n < 0x800 then [0xC0 + n / 0x40, Tail(n)]
    else if n < 0x10000 then [0xE0 + n / 0x1000, Tail(n / 0x40), Tail(n)]
    else [0xF0 + n / 0x40000, Tail(n / 0x1000), Tail(n / 0x40), Tail(n)]
  }

  function Tail(n: nat): nat {
    0x80 + n % 0x40
  }

  function Utf8Of(s: string): seq<nat> {
    if s == [] then [] else Utf8(s[0]) + Utf8Of(s[1..])
  }

  /** The limits count the bytes of the UTF-8 encoding. */
  lemma {:induction false} ByteLenIsUtf8(s: string)
    ensures ByteLen(s) == |Utf8Of(s)|
  {
    if s != [] { ByteLenIsUtf8(s[1..]); }
  }

  /** The first character in which two ids differ decides, and a proper prefix is
      smaller. */
  lemma {:induction false} FirstDifferenceDecides(p: UserId, a: UserId, b: UserId)
    requires a == [] || b == [] || a[0] != b[0]
    ensures Less(p + a, p + b) <==> b != [] && (a == [] || a[0] < b[0])
    decreases |p|
  {
    if p == [] {
      assert p + a == a && p + b == b;
    } else {
      assert (p + a)[1..] == p[1..] + a && (p + b)[1..] == p[1..] + b;
      FirstDifferenceDecides(p[1..], a, b);
    }
  }

  /** The glare rule picks exactly one side of every pair of distinct ids. */
  lemma {:induction false} ExactlyOneSideIsSmaller(a: UserId, b: UserId)
    ensures Less(a, b) || Less(b, a) <==> a != b
    ensures !(Less(a, b) && Less(b, a))
  {
    if a != [] && b != [] && a[0] == b[0] {
      ExactlyOneSideIsSmaller(a[1..], b[1..]);
      assert a == [a[0]] + a[1..] && b == [b[0]] + b[1..];
    }
  }
}
