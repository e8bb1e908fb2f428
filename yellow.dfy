/**
 * The state-channel session hook: how both clients agree on one ordered
 * participant pair, and the guard that keeps events from being sent before
 * the session exists.
 */
module Yellow {
  import opened Wrappers
  import opened Realtime

  predicate IsHexDigit(c: char) {
    '0' <= c <= '9' || 'a' <= c <= 'f' || 'A' <= c <= 'F'
  }

  function HexDigit(c: char): (r: nat)
    requires IsHexDigit(c)
    ensures r < 16
  {
    if '0' <= c <= '9' then c as nat - '0' as nat
    else if 'a' <= c <= 'f' then c as nat - 'a' as nat + 10
    else c as nat - 'A' as nat + 10
  }

  /** The value of a string of hexadecimal digits, most significant first; none for an empty or non-hex string. */
  function HexDigitsValue(s: string): (r: Option<nat>)
    ensures r.Some? <==> |s| > 0 && forall i :: 0 <= i < |s| ==> IsHexDigit(s[i])
    decreases |s|
  {
    if |s| == 0 || !IsHexDigit(s[|s| - 1]) then None
    else if |s| == 1 then Some(HexDigit(s[0]))
    else
      match HexDigitsValue(s[..|s| - 1])
      case None => None
      case Some(v) => Some(v * 16 + HexDigit(s[|s| - 1]))
  }

  /** 16 to the power `n`. */
  function Pow16(n: nat): (r: nat)
    ensures r > 0
  {
    if n == 0 then 1 else 16 * Pow16(n - 1)
  }

  /** The digit table: the character at position `i` of "0123456789abcdef", in either case, is worth `i`. */
  lemma HexDigitTable()
    ensures forall i :: 0 <= i < 16 ==> IsHexDigit("0123456789abcdef"[i]) && HexDigit("0123456789abcdef"[i]) == i
    ensures forall i :: 0 <= i < 16 ==> IsHexDigit("0123456789ABCDEF"[i]) && HexDigit("0123456789ABCDEF"[i]) == i
  {
  }

  /** The last digit is the units digit; the digits before it count sixteen times. */
  lemma HexDigitsLast(s: string)
    requires |s| >= 2 && HexDigitsValue(s).Some?
    ensures HexDigitsValue(s[..|s| - 1]).Some?
    ensures HexDigitsValue(s).value == HexDigitsValue(s[..|s| - 1]).value * 16 + HexDigit(s[|s| - 1])
  {
  }

  lemma ShiftOnePlace(x: nat, p: nat, y: nat, d: nat)
    ensures (x * p + y) * 16 + d == x * (16 * p) + (y * 16 + d)
  {
  }

  /**
   * Positional notation: one digit is worth its table value, and writing the
   * digits of `b` after those of `a` shifts `a` by `|b|` places.
   */
  lemma {:induction false} HexDigitsAppend(a: string, b: string)
    requires HexDigitsValue(a).Some? && HexDigitsValue(b).Some?
    ensures |b| == 1 ==> HexDigitsValue(b) == Some(HexDigit(b[0]))
    ensures HexDigitsValue(a + b) == Some(HexDigitsValue(a).value * Pow16(|b|) + HexDigitsValue(b).value)
    decreases |b|
  {
    var ab := a + b;
    assert HexDigitsValue(ab).Some?;
    HexDigitsLast(ab);
    if |b| == 1 {
      assert ab[..|ab| - 1] == a;
      assert ab[|ab| - 1] == b[0];
    } else {
      var b0 := b[..|b| - 1];
      assert ab[..|ab| - 1] == a + b0;
      assert ab[|ab| - 1] == b[|b| - 1];
      HexDigitsLast(b);
      HexDigitsAppend(a, b0);
      ShiftOnePlace(HexDigitsValue(a).value, Pow16(|b0|), HexDigitsValue(b0).value, HexDigit(b[|b| - 1]));
    }
  }

  /** `BigInt` of a `0x` address: its value, or none where `BigInt` would throw. */
  function AddressValue(s: string): (r: Option<nat>)
    ensures r.Some? <==>
      |s| > 2 && s[0] == '0' && (s[1] == 'x' || s[1] == 'X') && forall i :: 2 <= i < |s| ==> IsHexDigit(s[i])
    ensures r.Some? ==> r == HexDigitsValue(s[2..])
  {
    if |s| >= 2 && s[0] == '0' && (s[1] == 'x' || s[1] == 'X') then
      var r := HexDigitsValue(s[2..]);
      assert forall i :: 2 <= i < |s| ==> s[i] == s[2..][i - 2];
      r
    else None
  }

  /** Digits are read most significant first, in either case; a bare or missing prefix has no value. */
  lemma AddressValueExamples()
    ensures AddressValue("0x10") == Some(16)
    ensures AddressValue("0x01") == Some(1)
    ensures AddressValue("0xfF") == Some(255)
    ensures AddressValue("0X2a") == AddressValue("0x2A")
    ensures AddressValue("0x") == None
    ensures AddressValue("10") == None
  {
    assert "0x10"[2..] == "10" && "0x10"[2..][..1] == "1";
    assert "0x01"[2..] == "01" && "0x01"[2..][..1] == "0";
    assert "0xfF"[2..] == "fF" && "0xfF"[2..][..1] == "f";
    assert "0X2a"[2..] == "2a" && "0X2a"[2..][..1] == "2";
    assert "0x2A"[2..] == "2A" && "0x2A"[2..][..1] == "2";
  }

  datatype YellowError =
    | WebSocketNotConnected
    | WalletNotConnected
    | InvalidAddress
    | SessionRejected
    | SessionNotActive

  /** The ordered participant pair of an application session: the numerically smaller address first. */
  function Participants(sessionAddress: string, partnerAddress: string): Result<seq<string>, YellowError> {
    match (AddressValue(sessionAddress), AddressValue(partnerAddress))
    case (Some(s), Some(p)) =>
      var first := if s > p then partnerAddress else sessionAddress;
      var second := if first == sessionAddress then partnerAddress else sessionAddress;
      Success([first, second])
    case _ => Failure(InvalidAddress)
  }

  /**
   * The first participant is the partner exactly when the session address is
   * numerically greater; the pair is the two addresses, smaller value first.
   */
  lemma ParticipantsOrdered(sessionAddress: string, partnerAddress: string)
    ensures Participants(sessionAddress, partnerAddress).Success? <==>
      AddressValue(sessionAddress).Some? && AddressValue(partnerAddress).Some?
    ensures Participants(sessionAddress, partnerAddress).Success? ==>
      var pair := Participants(sessionAddress, partnerAddress).value;
      var s := AddressValue(sessionAddress).value;
      var p := AddressValue(partnerAddress).value;
      && |pair| == 2
      && (pair[0] == partnerAddress <==> s > p || partnerAddress == sessionAddress)
      && multiset(pair) == multiset{sessionAddress, partnerAddress}
      && AddressValue(pair[0]).value <= AddressValue(pair[1]).value
  {
  }

  /**
   * Both clients build the same pair: swapping the session and partner roles
   * gives the same array whenever the addresses differ in value.
   */
  lemma ParticipantsAgree(a: string, b: string)
    requires AddressValue(a).Some? && AddressValue(b).Some?
    requires AddressValue(a).value != AddressValue(b).value
    ensures Participants(a, b) == Participants(b, a)
  {
  }

  /** The application session a game opens. */
  datatype AppDefinition = AppDefinition(
    application: string,
    challenge: int,
    participants: seq<string>,
    quorum: int,
    weights: seq<int>)

  const APPLICATION: string := "cza-game-v1"
  const QUORUM: int := 100

  function Definition(participants: seq<string>): AppDefinition {
    AppDefinition(APPLICATION, 0, participants, QUORUM, [50, 50])
  }

  /** The two participants weigh the same and together reach the quorum. */
  lemma WeightsReachQuorum(participants: seq<string>)
    ensures |Definition(participants).weights| == 2
    ensures Definition(participants).weights[0] == Definition(participants).weights[1]
    ensures Definition(participants).weights[0] + Definition(participants).weights[1] == Definition(participants).quorum
  {
  }

  /** The signer a session signs its messages with, standing for the key derived from the wallet's signature. */
  datatype MessageSigner = MessageSigner(sessionAddress: string)

  /** A message written to the socket. */
  datatype Message =
    | AuthRequest(address: string)
    | AuthVerify(address: string)
    | CreateAppSession(signer: MessageSigner, definition: AppDefinition)
    | Transfer(signer: MessageSigner, destination: string, eventType: string, data: Json)

  /** A wallet address is usable when present and not empty. */
  predicate WalletConnected(evmAddress: Option<string>) {
    evmAddress.Some? && evmAddress.value != ""
  }

  class YellowSession {
    /** Whether the shared socket exists. */
    var connected: bool
    var isSessionActive: bool
    var messageSigner: Option<MessageSigner>
    /** Everything written to the socket, oldest first. */
    var sent: seq<Message>

    /** An active session always has a signer to sign with. */
    predicate Valid()
      reads this
    {
      isSessionActive ==> messageSigner.Some?
    }

    constructor(socketOpened: bool)
      ensures Valid() && connected == socketOpened
      ensures !isSessionActive && messageSigner.None? && sent == []
    {
      connected := socketOpened;
      isSessionActive := false;
      messageSigner := None;
      sent := [];
    }

    /**
     * `createSession`: with a socket and a connected wallet, derive the
     * session address, order the participants, run the handshake and open
     * the application session; `accepted` is whether the node's reply
     * verifies the session.
     */
    method CreateSession(partnerAddress: string, evmAddress: Option<string>, sessionAddress: string, accepted: bool)
      returns (r: Result<AppDefinition, YellowError>)
      requires Valid()
      modifies this
      ensures Valid() && connected == old(connected)
      ensures !old(connected) ==> r == Failure(WebSocketNotConnected) && sent == old(sent)
      ensures old(connected) && !WalletConnected(evmAddress) ==> r == Failure(WalletNotConnected) && sent == old(sent)
      ensures old(connected) && WalletConnected(evmAddress) && Participants(sessionAddress, partnerAddress).Failure? ==>
        r == Failure(InvalidAddress) && sent == old(sent)
      ensures old(connected) && WalletConnected(evmAddress) && Participants(sessionAddress, partnerAddress).Success? ==>
        var definition := Definition(Participants(sessionAddress, partnerAddress).value);
        && sent == old(sent) + [AuthRequest(sessionAddress), AuthVerify(sessionAddress),
                                CreateAppSession(MessageSigner(sessionAddress), definition)]
        && r == (if accepted then Success(definition) else Failure(SessionRejected))
      ensures r.Success? ==> isSessionActive && messageSigner == Some(MessageSigner(sessionAddress))
      ensures r.Failure? ==> isSessionActive == old(isSessionActive) && messageSigner == old(messageSigner)
    {
      if !connected {
        return Failure(WebSocketNotConnected);
      }
      if !WalletConnected(evmAddress) {
        return Failure(WalletNotConnected);
      }
      var signer := MessageSigner(sessionAddress);
      var participants := Participants(sessionAddress, partnerAddress);
      if participants.Failure? {
        return Failure(InvalidAddress);
      }
      var definition := Definition(participants.value);
      sent := sent + [AuthRequest(sessionAddress)];
      sent := sent + [AuthVerify(sessionAddress)];
      sent := sent + [CreateAppSession(signer, definition)];
      if !accepted {
        return Failure(SessionRejected);
      }
      messageSigner := Some(signer);
      isSessionActive := true;
      r := Success(definition);
    }

    /** `sendEvent`: a signed transfer carrying the event, refused without a socket or an active session. */
    method SendEvent(recipient: string, eventType: string, payload: Json) returns (r: Result<(), YellowError>)
      requires Valid()
      modifies this
      ensures Valid()
      ensures connected == old(connected) && isSessionActive == old(isSessionActive) && messageSigner == old(messageSigner)
      ensures !connected ==> r == Failure(WebSocketNotConnected) && sent == old(sent)
      ensures connected && !isSessionActive ==> r == Failure(SessionNotActive) && sent == old(sent)
      ensures connected && isSessionActive ==>
        r == Success(()) && sent == old(sent) + [Transfer(messageSigner.value, recipient, eventType, payload)]
    {
      if !connected {
        return Failure(WebSocketNotConnected);
      }
      if !isSessionActive {
        return Failure(SessionNotActive);
      }
      sent := sent + [Transfer(messageSigner.value, recipient, eventType, payload)];
      r := Success(());
    }
  }

  /**
   * Nothing can be sent before a session is created: on a fresh hook every
   * event is refused, and once the session is accepted the same event goes out.
   */
  method SessionGuardScenario(partnerAddress: string, sessionAddress: string, payload: Json)
    returns (before: Result<(), YellowError>, created: Result<AppDefinition, YellowError>, after: Result<(), YellowError>)
    requires AddressValue(partnerAddress).Some? && AddressValue(sessionAddress).Some?
    ensures before == Failure(SessionNotActive)
    ensures created.Success? && created.value.participants == Participants(sessionAddress, partnerAddress).value
    ensures after == Success(())
  {
    var session := new YellowSession(true);
    before := session.SendEvent(partnerAddress, "game.move", payload);
    created := session.CreateSession(partnerAddress, Some(sessionAddress), sessionAddress, true);
    after := session.SendEvent(partnerAddress, "game.move", payload);
  }
}
