/**
 * What each command of the loyalty wallet does, as functions of the wallet's state
 * and the command APDU. Money is checked in exact integer arithmetic (no 16-bit
 * wrap can occur while the balance invariant holds); points are updated with the
 * 16-bit wrap-around the applet really performs, because nothing bounds them.
 */
module WalletSpec {
  import opened JavaTypes
  import opened ShortCodec
  import opened Iso7816
  import opened PinModel

  /** The class byte of the wallet's own commands, `(byte) 0x80`. */
  const LOYALTY_CLA: Byte := -0x80
  /** The interindustry SELECT instruction, `(byte) 0xA4`. */
  const INS_SELECT: Byte := -0x5C

  const VERIFY: Byte := 0x20
  const CREDIT: Byte := 0x30
  const DEBIT: Byte := 0x40
  const GET_BALANCE: Byte := 0x50
  const GET_BALANCE_POINTS: Byte := 0x65

  /** Debit mode flags: P1 selects money, P2 selects points. */
  const P1_MONEY: Byte := 0x55
  const P2_POINTS: Byte := 0x45
  const NONE: Byte := 0x00

  const MAX_BALANCE: Short := 0x2710
  const MAX_TRANSACTION_AMOUNT: Short := 0x3E8
  /** The most points one debit can award: MAX_TRANSACTION_AMOUNT / 10. */
  const MAX_EARN := 100

  const PIN_TRY_LIMIT: Byte := 0x03
  const MAX_PIN_SIZE: Byte := 0x08

  const SW_VERIFICATION_FAILED := 0x6300
  const SW_PIN_VERIFICATION_REQUIRED := 0x6301
  const SW_INVALID_TRANSACTION_AMOUNT := 0x6A83
  const SW_EXCEED_MAXIMUM_BALANCE := 0x6A84
  const SW_NEGATIVE_BALANCE := 0x6A85
  const SW_NOT_ENOUGH_POINTS := 0x6A82

  /** The header and the longest data field (four bytes) the applet reads. */
  const MIN_BUFFER_LENGTH := OFFSET_CDATA + 4

  datatype Option<T> = None | Some(value: T)

  datatype Ledger = Ledger(balance: Short, points: Short)

  datatype WalletState = WalletState(ledger: Ledger, pin: PinState)

  /** A ledger command's outcome: the new ledger and the response. */
  datatype Effect = Effect(ledger: Ledger, response: Response)

  /** The outcome of VERIFY: the new PIN state and the response. */
  datatype PinEffect = PinEffect(pin: PinState, response: Response)

  /** The outcome of one command APDU. */
  datatype Reply = Reply(state: WalletState, response: Response)

  predicate BalanceInRange(l: Ledger) {
    0 <= l.balance <= MAX_BALANCE
  }

  /** The PIN object as the applet creates it: try limit 3, at most 8 digits. */
  predicate PinWellFormed(p: PinState) {
    p.tryLimit == PIN_TRY_LIMIT as nat && p.maxPinSize == MAX_PIN_SIZE as nat
    && p.triesRemaining <= p.tryLimit && |p.reference| <= p.maxPinSize
  }

  /** What holds of the wallet between any two commands. */
  predicate Invariant(st: WalletState) {
    BalanceInRange(st.ledger) && PinWellFormed(st.pin)
  }

  /** The 16-bit big-endian amount in `buf[at]`, `buf[at + 1]`. */
  function Amount(buf: seq<Byte>, at: nat): Short
    requires at + 1 < |buf|
  {
    Decode(buf[at], buf[at + 1])
  }

  /** The Lc byte and the number of bytes received both equal `n`. */
  predicate LengthIs(numBytes: Byte, byteRead: Byte, n: int) {
    numBytes == n && byteRead == n
  }

  /**
   * The install parameters: the AID length and AID, the control-information length
   * and information, the applet-data length and data, from `bOffset` on. The applet
   * data is the PIN seed. Every index is computed as a Java short; an index outside
   * the array (the Java code would throw) gives None.
   */
  function InstallPinSeed(bArray: seq<Byte>, bOffset: Short): (seed: Option<seq<Byte>>)
    ensures seed.Some? ==> |seed.value| < 0x80
  {
    if !(0 <= bOffset < |bArray|) then None
    else
      var iLen := bArray[bOffset];
      var infoOffset := ToShort(bOffset + iLen + 1);
      if !(0 <= infoOffset < |bArray|) then None
      else
        var cLen := bArray[infoOffset];
        var dataOffset := ToShort(infoOffset + cLen + 1);
        if !(0 <= dataOffset < |bArray|) then None
        else
          var aLen := bArray[dataOffset];
          var seedOffset := ToShort(dataOffset + 1);
          if 0 <= seedOffset && 0 <= aLen && seedOffset + aLen <= |bArray| then
            Some(bArray[seedOffset..seedOffset + aLen])
          else None
  }

  /** The installed wallet: nothing on it, and the PIN seed as its reference PIN. */
  function InitialState(seed: seq<Byte>): (st: WalletState)
    requires |seed| <= MAX_PIN_SIZE as int
    ensures Invariant(st)
    ensures st.ledger == Ledger(0, 0) && st.pin.reference == seed
    ensures !st.pin.validated && st.pin.triesRemaining == PIN_TRY_LIMIT as nat
  {
    WalletState(Ledger(0, 0),
      Update(Created(PIN_TRY_LIMIT as nat, MAX_PIN_SIZE as nat), seed, 0, |seed|))
  }

  /** CREDIT: add a transaction amount to the balance. */
  function CreditEffect(l: Ledger, validated: bool, buf: seq<Byte>, received: Short): (e: Effect)
    requires |buf| >= MIN_BUFFER_LENGTH
    requires BalanceInRange(l)
    ensures BalanceInRange(e.ledger)
    ensures e.ledger.points == l.points
    ensures e.response.Failure? ==> e.ledger == l
    ensures !validated ==> e.response == Failure(SW_PIN_VERIFICATION_REQUIRED)
    ensures validated ==>
      (e.response == Failure(SW_WRONG_LENGTH) <==> !LengthIs(buf[OFFSET_LC], ToByte(received), 2))
    ensures var amount := Amount(buf, OFFSET_CDATA);
      validated && LengthIs(buf[OFFSET_LC], ToByte(received), 2) ==>
        && (e.response == Failure(SW_INVALID_TRANSACTION_AMOUNT) <==> !(0 <= amount <= MAX_TRANSACTION_AMOUNT))
        && (e.response == Failure(SW_EXCEED_MAXIMUM_BALANCE) <==>
              0 <= amount <= MAX_TRANSACTION_AMOUNT && l.balance + amount > MAX_BALANCE)
    ensures var amount := Amount(buf, OFFSET_CDATA);
      e.response.Success? <==>
        validated && LengthIs(buf[OFFSET_LC], ToByte(received), 2)
        && 0 <= amount <= MAX_TRANSACTION_AMOUNT && l.balance + amount <= MAX_BALANCE
    ensures e.response.Success? ==>
      e.response.data == [] && e.ledger.balance == l.balance + Amount(buf, OFFSET_CDATA)
  {
    if !validated then Effect(l, Failure(SW_PIN_VERIFICATION_REQUIRED))
    else if !LengthIs(buf[OFFSET_LC], ToByte(received), 2) then Effect(l, Failure(SW_WRONG_LENGTH))
    else
      var amount := Amount(buf, OFFSET_CDATA);
      if amount < 0 || amount > MAX_TRANSACTION_AMOUNT then
        Effect(l, Failure(SW_INVALID_TRANSACTION_AMOUNT))
      else if l.balance + amount > MAX_BALANCE then
        Effect(l, Failure(SW_EXCEED_MAXIMUM_BALANCE))
      else
        Effect(l.(balance := l.balance + amount), Success([]))
  }

  /** The three ways of paying, chosen by P1 and P2, and every other flag pair. */
  datatype DebitMode = MoneyOnly | PointsOnly | MoneyAndPoints | NotAllowed

  function Mode(p1: Byte, p2: Byte): DebitMode {
    if p1 == P1_MONEY && p2 == NONE then MoneyOnly
    else if p1 == NONE && p2 == P2_POINTS then PointsOnly
    else if p1 == P1_MONEY && p2 == P2_POINTS then MoneyAndPoints
    else NotAllowed
  }

  /** Paying amount `d` with money: the balance falls by `d` and `d / 10` points are earned. */
  function MoneyDebit(l: Ledger, numBytes: Byte, byteRead: Byte, d: Short): (e: Effect)
    requires BalanceInRange(l)
    ensures BalanceInRange(e.ledger)
    ensures e.response.Failure? ==> e.ledger == l
    ensures e.response == Failure(SW_WRONG_LENGTH) <==> !LengthIs(numBytes, byteRead, 2)
    ensures e.response == Failure(SW_INVALID_TRANSACTION_AMOUNT) <==>
      LengthIs(numBytes, byteRead, 2) && !(0 <= d <= MAX_TRANSACTION_AMOUNT)
    ensures e.response == Failure(SW_NEGATIVE_BALANCE) <==>
      LengthIs(numBytes, byteRead, 2) && 0 <= d <= MAX_TRANSACTION_AMOUNT && d > l.balance
    ensures e.response.Success? <==>
      LengthIs(numBytes, byteRead, 2) && 0 <= d <= MAX_TRANSACTION_AMOUNT && d <= l.balance
    ensures e.response.Success? ==>
      e.response.data == [] && e.ledger.balance == l.balance - d
      && e.ledger.points == ToShort(l.points + d / 10)
    ensures 0 <= l.points <= 0x7FFF - MAX_EARN ==> e.ledger.points >= 0
  {
    if !LengthIs(numBytes, byteRead, 2) then Effect(l, Failure(SW_WRONG_LENGTH))
    else if d < 0 || d > MAX_TRANSACTION_AMOUNT then Effect(l, Failure(SW_INVALID_TRANSACTION_AMOUNT))
    else if d > l.balance then Effect(l, Failure(SW_NEGATIVE_BALANCE))
    else Effect(Ledger(l.balance - d, ToShort(l.points + d / 10)), Success([]))
  }

  /** Paying `p` points: there is no upper limit on `p` besides the points held. */
  function PointsDebit(l: Ledger, numBytes: Byte, byteRead: Byte, p: Short): (e: Effect)
    ensures e.ledger.balance == l.balance
    ensures e.response.Failure? ==> e.ledger == l
    ensures e.response == Failure(SW_WRONG_LENGTH) <==> !LengthIs(numBytes, byteRead, 2)
    ensures e.response == Failure(SW_INVALID_TRANSACTION_AMOUNT) <==> LengthIs(numBytes, byteRead, 2) && p < 0
    ensures l.points >= 0 ==>
      (e.response == Failure(SW_NOT_ENOUGH_POINTS) <==> LengthIs(numBytes, byteRead, 2) && 0 <= p && p > l.points)
    ensures l.points >= 0 ==>
      (e.response.Success? <==> LengthIs(numBytes, byteRead, 2) && 0 <= p <= l.points)
    ensures e.response.Success? ==> e.response.data == []
    ensures e.response.Success? && l.points >= 0 ==> e.ledger.points == l.points - p
    ensures l.points >= 0 ==> e.ledger.points >= 0
  {
    if !LengthIs(numBytes, byteRead, 2) then Effect(l, Failure(SW_WRONG_LENGTH))
    else if p < 0 then Effect(l, Failure(SW_INVALID_TRANSACTION_AMOUNT))
    else if ToShort(l.points - p) < 0 then Effect(l, Failure(SW_NOT_ENOUGH_POINTS))
    else Effect(l.(points := ToShort(l.points - p)), Success([]))
  }

  /**
   * Paying `d` in money and `p` in points. The money side is checked and the
   * balance debited before the points side is looked at, so a points failure
   * leaves the money debited.
   */
  function CombinedDebit(l: Ledger, numBytes: Byte, byteRead: Byte, d: Short, p: Short): (e: Effect)
    requires BalanceInRange(l)
    ensures BalanceInRange(e.ledger)
    ensures e.response == Failure(SW_WRONG_LENGTH) <==> !LengthIs(numBytes, byteRead, 4)
    ensures var moneyOk := LengthIs(numBytes, byteRead, 4) && 0 <= d <= MAX_TRANSACTION_AMOUNT && d <= l.balance;
      && (!moneyOk ==> e.ledger == l)
      && (e.response == Failure(SW_INVALID_TRANSACTION_AMOUNT) <==>
            LengthIs(numBytes, byteRead, 4) && (!(0 <= d <= MAX_TRANSACTION_AMOUNT) || (d <= l.balance && p < 0)))
      && (e.response == Failure(SW_NEGATIVE_BALANCE) <==>
            LengthIs(numBytes, byteRead, 4) && 0 <= d <= MAX_TRANSACTION_AMOUNT && d > l.balance)
      && (moneyOk ==> e.ledger.balance == l.balance - d)
      && (moneyOk && e.response.Failure? ==> e.ledger.points == l.points)
      && (l.points >= 0 ==>
            (e.response == Failure(SW_NOT_ENOUGH_POINTS) <==> moneyOk && 0 <= p && p > l.points))
      && (l.points >= 0 ==> (e.response.Success? <==> moneyOk && 0 <= p <= l.points))
    ensures e.response.Success? ==> e.response.data == []
    ensures e.response.Success? && l.points >= 0 ==>
      e.ledger.points == ToShort(l.points - p + d / 10)
    ensures 0 <= l.points <= 0x7FFF - MAX_EARN ==> e.ledger.points >= 0
  {
    if !LengthIs(numBytes, byteRead, 4) then Effect(l, Failure(SW_WRONG_LENGTH))
    else if d < 0 || d > MAX_TRANSACTION_AMOUNT then Effect(l, Failure(SW_INVALID_TRANSACTION_AMOUNT))
    else if d > l.balance then Effect(l, Failure(SW_NEGATIVE_BALANCE))
    else
      var debited := l.(balance := l.balance - d);
      if p < 0 then Effect(debited, Failure(SW_INVALID_TRANSACTION_AMOUNT))
      else if ToShort(l.points - p) < 0 then Effect(debited, Failure(SW_NOT_ENOUGH_POINTS))
      else Effect(debited.(points := ToShort(ToShort(l.points - p) + d / 10)), Success([]))
  }

  /** DEBIT: the mode flags are decided first, each mode then checks its own length. */
  function DebitEffect(l: Ledger, validated: bool, buf: seq<Byte>, received: Short): (e: Effect)
    requires |buf| >= MIN_BUFFER_LENGTH
    requires BalanceInRange(l)
    ensures BalanceInRange(e.ledger)
    ensures !validated ==> e == Effect(l, Failure(SW_PIN_VERIFICATION_REQUIRED))
    ensures validated && Mode(buf[OFFSET_P1], buf[OFFSET_P2]) == NotAllowed ==>
      e == Effect(l, Failure(SW_COMMAND_NOT_ALLOWED))
    ensures e.response.Success? ==> e.response.data == []
    ensures 0 <= l.points <= 0x7FFF - MAX_EARN ==> e.ledger.points >= 0
  {
    if !validated then Effect(l, Failure(SW_PIN_VERIFICATION_REQUIRED))
    else
      var numBytes := buf[OFFSET_LC];
      var byteRead := ToByte(received);
      match Mode(buf[OFFSET_P1], buf[OFFSET_P2])
      case MoneyOnly => MoneyDebit(l, numBytes, byteRead, Amount(buf, OFFSET_CDATA))
      case PointsOnly => PointsDebit(l, numBytes, byteRead, Amount(buf, OFFSET_CDATA))
      case MoneyAndPoints =>
        CombinedDebit(l, numBytes, byteRead, Amount(buf, OFFSET_CDATA), Amount(buf, OFFSET_CDATA + 2))
      case NotAllowed => Effect(l, Failure(SW_COMMAND_NOT_ALLOWED))
  }

  /** GET BALANCE and GET BALANCE POINTS: `v` as two big-endian bytes. */
  function BalanceReply(v: Short, validated: bool, le: Short): (r: Response)
    ensures !validated ==> r == Failure(SW_PIN_VERIFICATION_REQUIRED)
    ensures validated && le < 2 ==> r == Failure(SW_WRONG_LENGTH)
    ensures r.Success? <==> validated && le >= 2
    ensures r.Success? ==> |r.data| == 2 && Decode(r.data[0], r.data[1]) == v
  {
    if !validated then Failure(SW_PIN_VERIFICATION_REQUIRED)
    else if le < 2 then Failure(SW_WRONG_LENGTH)
    else
      var bytes := Encode(v);
      DecodeEncode(v);
      Success([bytes.hi, bytes.lo])
  }

  /** VERIFY: the received data field is the PIN candidate. */
  function VerifyEffect(p: PinState, buf: seq<Byte>, received: Short): (r: PinEffect)
    requires PinWellFormed(p)
    ensures PinWellFormed(r.pin) && r.pin.reference == p.reference
    ensures r.response.Success? <==>
      p.triesRemaining > 0 && CandidateMatches(p.reference, buf, OFFSET_CDATA, ToByte(received))
    ensures r.response.Success? ==> r.response.data == [] && r.pin.triesRemaining == p.tryLimit
    ensures r.response.Failure? ==> r.response.sw == SW_VERIFICATION_FAILED
    ensures r.pin.validated <==> r.response.Success?
    ensures r.response.Failure? ==>
      r.pin.triesRemaining == if p.triesRemaining == 0 then 0 else p.triesRemaining - 1
  {
    var c := Check(p, buf, OFFSET_CDATA, ToByte(received));
    PinEffect(c.pin, if c.matched then Success([]) else Failure(SW_VERIFICATION_FAILED))
  }

  /** The instructions the dispatcher routes. */
  predicate IsWalletInstruction(ins: Byte) {
    ins == GET_BALANCE || ins == GET_BALANCE_POINTS || ins == DEBIT || ins == CREDIT || ins == VERIFY
  }

  /** The instructions that need a verified PIN. */
  predicate IsPinGated(ins: Byte) {
    ins == GET_BALANCE || ins == GET_BALANCE_POINTS || ins == DEBIT || ins == CREDIT
  }

  /** One command APDU, from the class check to the chosen operation. */
  function ProcessEffect(st: WalletState, buf: seq<Byte>, received: Short, le: Short): (r: Reply)
    requires |buf| >= MIN_BUFFER_LENGTH
    requires Invariant(st)
    ensures Invariant(r.state)
    ensures IsInterindustryCla(buf[OFFSET_CLA]) ==>
      r == Reply(st, if buf[OFFSET_INS] == INS_SELECT then Success([]) else Failure(SW_CLA_NOT_SUPPORTED))
    ensures !IsInterindustryCla(buf[OFFSET_CLA]) && buf[OFFSET_CLA] != LOYALTY_CLA ==>
      r == Reply(st, Failure(SW_CLA_NOT_SUPPORTED))
    ensures buf[OFFSET_CLA] == LOYALTY_CLA && !IsWalletInstruction(buf[OFFSET_INS]) ==>
      r == Reply(st, Failure(SW_INS_NOT_SUPPORTED))
    ensures buf[OFFSET_CLA] == LOYALTY_CLA && IsPinGated(buf[OFFSET_INS]) && !st.pin.validated ==>
      r == Reply(st, Failure(SW_PIN_VERIFICATION_REQUIRED))
    ensures r.state.ledger != st.ledger ==>
      buf[OFFSET_CLA] == LOYALTY_CLA && (buf[OFFSET_INS] == CREDIT || buf[OFFSET_INS] == DEBIT)
      && st.pin.validated
    ensures r.state.pin != st.pin ==> buf[OFFSET_CLA] == LOYALTY_CLA && buf[OFFSET_INS] == VERIFY
    ensures r.response.Success? && r.response.data != [] ==>
      buf[OFFSET_CLA] == LOYALTY_CLA && (buf[OFFSET_INS] == GET_BALANCE || buf[OFFSET_INS] == GET_BALANCE_POINTS)
    ensures 0 <= st.ledger.points <= 0x7FFF - MAX_EARN ==> r.state.ledger.points >= 0
  {
    var cla, ins := buf[OFFSET_CLA], buf[OFFSET_INS];
    if IsInterindustryCla(cla) then
      Reply(st, if ins == INS_SELECT then Success([]) else Failure(SW_CLA_NOT_SUPPORTED))
    else if cla != LOYALTY_CLA then
      Reply(st, Failure(SW_CLA_NOT_SUPPORTED))
    else if ins == GET_BALANCE then
      Reply(st, BalanceReply(st.ledger.balance, st.pin.validated, le))
    else if ins == GET_BALANCE_POINTS then
      Reply(st, BalanceReply(st.ledger.points, st.pin.validated, le))
    else if ins == DEBIT then
      var e := DebitEffect(st.ledger, st.pin.validated, buf, received);
      Reply(st.(ledger := e.ledger), e.response)
    else if ins == CREDIT then
      var e := CreditEffect(st.ledger, st.pin.validated, buf, received);
      Reply(st.(ledger := e.ledger), e.response)
    else if ins == VERIFY then
      var v := VerifyEffect(st.pin, buf, received);
      Reply(st.(pin := v.pin), v.response)
    else
      Reply(st, Failure(SW_INS_NOT_SUPPORTED))
  }

  /** `select()`: the applet refuses to be selected once the PIN is blocked. */
  function SelectAccepted(p: PinState): (ok: bool)
    ensures ok <==> p.triesRemaining > 0
  {
    p.triesRemaining != 0
  }

  /** `deselect()`: the PIN session ends; the ledger is untouched. */
  function DeselectEffect(st: WalletState): (st': WalletState)
    requires Invariant(st)
    ensures Invariant(st') && st'.ledger == st.ledger && !st'.pin.validated
    ensures st'.pin.reference == st.pin.reference
  {
    st.(pin := Reset(st.pin))
  }
}
