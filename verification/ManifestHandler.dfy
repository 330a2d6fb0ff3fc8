/** The handler of a manifest request (app.cpp). */
module ManifestHandler {
  import opened Ints
  import opened Chunks
  import opened Wire
  import opened Players
  import opened Guardian
  import opened ManifestStore
  import opened ManifestReply

  const MSG_BUILDING_MANIFEST_REQUEST: u8 := 0x51

  function EncodeRequest(knownRevision: u64): bytes { [MSG_BUILDING_MANIFEST_REQUEST] + W64(knownRevision) }

  function DecodeRequest(b: bytes): Option<u64> {
    if |b| != 9 || b[0] != MSG_BUILDING_MANIFEST_REQUEST then None else Some(R64(b[1..9]))
  }

  /** A request is recovered from its bytes, and what decodes is the encoding of what it decodes to. */
  lemma RequestRoundTrip(knownRevision: u64, b: bytes)
    ensures DecodeRequest(EncodeRequest(knownRevision)) == Some(knownRevision)
    ensures DecodeRequest(b).Some? ==> EncodeRequest(DecodeRequest(b).value) == b
  {
    hide W64, R64;
    assert EncodeRequest(knownRevision)[1..9] == W64(knownRevision);
    Inverse64(knownRevision);
    if DecodeRequest(b).Some? {
      Rewrite64(b[1..9]);
      assert b == [b[0]] + b[1..9];
    }
  }

  datatype Outcome = Refused(code: u16) | Replied(reply: Reply)

  /** The frames that an outcome counts as sent. */
  function Frames(outcome: Outcome): nat {
    match outcome
    case Refused(_) => 0
    case Replied(Digest(_)) => 1
    case Replied(Pages(pages)) => |pages|
  }

  /** The socket may have no player, an inactive one, or an active one; only the last gets a manifest. */
  method HandleRequest(g: GuardianState, p: Player?, b: BuildingManifest, msg: bytes) returns (outcome: Outcome)
    requires b.cfg == g.cfg && Validated(g.cfg)
    modifies g`messagesOut
    ensures outcome == if p == null || !g.Speaks(p) then Refused(ERROR_NOT_HELLO)
                       else if DecodeRequest(msg).None? then Refused(ERROR_BAD_PAYLOAD_LENGTH)
                       else Replied(ReplyTo(g.cfg, b.State(), DecodeRequest(msg).value))
    ensures g.messagesOut == old(g.messagesOut) + Frames(outcome)
  {
    hide R64, ReplyTo, Validated, GuardianState.IsActivePlayer;
    if p == null || !g.Speaks(p) {
      return Refused(ERROR_NOT_HELLO);
    }
    var request := DecodeRequest(msg);
    if request.None? {
      return Refused(ERROR_BAD_PAYLOAD_LENGTH);
    }
    var reply := Answer(b, request.value);
    outcome := Replied(reply);
    g.messagesOut := g.messagesOut + Frames(outcome);
  }
}
