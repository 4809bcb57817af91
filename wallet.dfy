/**
 * The wallet applet itself: two 16-bit counters and the PIN object, updated in
 * place by the command handlers. Each handler is written in the applet's own order
 * (a thrown `ISOException` is an early return with a Failure) and is proved to do
 * what WalletSpec says of the state it starts from.
 */
module WalletApplet {
  import opened JavaTypes
  import opened ShortCodec
  import opened Iso7816
  import opened PinModel
  import opened WalletSpec

  class Wallet {
    var balance: Short
    var points: Short
    var pin: PinState

    ghost predicate Valid()
      reads this
    {
      Invariant(State())
    }

    function CurrentLedger(): Ledger
      reads this
    {
      Ledger(balance, points)
    }

    function State(): WalletState
      reads this
    {
      WalletState(CurrentLedger(), pin)
    }

    /**
     * The applet's constructor: walks the install parameters past the AID and the
     * control information to the applet data, which seeds the PIN.
     */
    constructor (bArray: array<Byte>, bOffset: Short)
      requires InstallPinSeed(bArray[..], bOffset).Some?
      requires |InstallPinSeed(bArray[..], bOffset).value| <= MAX_PIN_SIZE as int
      ensures Valid()
      ensures State() == InitialState(InstallPinSeed(bArray[..], bOffset).value)
    {
      balance, points := 0, 0;
      var created := Created(PIN_TRY_LIMIT as nat, MAX_PIN_SIZE as nat);
      var offset := bOffset;
      var iLen := bArray[offset];
      offset := ToShort(offset + iLen + 1);
      var cLen := bArray[offset];
      offset := ToShort(offset + cLen + 1);
      var aLen := bArray[offset];
      pin := Update(created, bArray[..], ToShort(offset + 1), aLen);
    }

    method Select() returns (ok: bool)
      ensures ok == SelectAccepted(pin)
    {
      if pin.triesRemaining == 0 {
        return false;
      }
      return true;
    }

    method Deselect()
      requires Valid()
      modifies this
      ensures Valid()
      ensures State() == DeselectEffect(old(State()))
    {
      pin := Reset(pin);
    }

    /** The command dispatcher. */
    method Process(buf: array<Byte>, received: Short, le: Short) returns (r: Response)
      requires Valid() && buf.Length >= MIN_BUFFER_LENGTH
      modifies this, buf
      ensures Valid()
      ensures var reply := ProcessEffect(old(State()), old(buf[..]), received, le);
        State() == reply.state && r == reply.response
      ensures buf[..] == Transmit(old(buf[..]), r)
    {
      if IsInterindustryCla(buf[OFFSET_CLA]) {
        if buf[OFFSET_INS] == INS_SELECT {
          return Success([]);
        }
        return Failure(SW_CLA_NOT_SUPPORTED);
      }
      if buf[OFFSET_CLA] != LOYALTY_CLA {
        return Failure(SW_CLA_NOT_SUPPORTED);
      }
      var ins := buf[OFFSET_INS];
      if ins == GET_BALANCE {
        r := GetBalance(buf, le);
      } else if ins == GET_BALANCE_POINTS {
        r := GetBalancePoints(buf, le);
      } else if ins == DEBIT {
        r := Debit(buf, received);
      } else if ins == CREDIT {
        r := Credit(buf, received);
      } else if ins == VERIFY {
        r := Verify(buf, received);
      } else {
        r := Failure(SW_INS_NOT_SUPPORTED);
      }
    }

    method Credit(buf: array<Byte>, received: Short) returns (r: Response)
      requires Valid() && buf.Length >= MIN_BUFFER_LENGTH
      modifies this
      ensures Valid() && pin == old(pin)
      ensures var e := CreditEffect(old(CurrentLedger()), old(pin.validated), buf[..], received);
        CurrentLedger() == e.ledger && r == e.response
    {
      if !pin.validated {
        return Failure(SW_PIN_VERIFICATION_REQUIRED);
      }
      var numBytes := buf[OFFSET_LC];
      var byteRead := ToByte(received);
      if numBytes != 2 || byteRead != 2 {
        return Failure(SW_WRONG_LENGTH);
      }
      var creditAmountF := buf[OFFSET_CDATA];
      var creditAmountS := buf[OFFSET_CDATA + 1];
      var creditAmount := Decode(creditAmountF, creditAmountS);
      if creditAmount > MAX_TRANSACTION_AMOUNT || creditAmount < 0 {
        return Failure(SW_INVALID_TRANSACTION_AMOUNT);
      }
      if ToShort(balance + creditAmount) > MAX_BALANCE {
        return Failure(SW_EXCEED_MAXIMUM_BALANCE);
      }
      balance := ToShort(balance + creditAmount);
      r := Success([]);
    }

    method Debit(buf: array<Byte>, received: Short) returns (r: Response)
      requires Valid() && buf.Length >= MIN_BUFFER_LENGTH
      modifies this
      ensures Valid() && pin == old(pin)
      ensures var e := DebitEffect(old(CurrentLedger()), old(pin.validated), buf[..], received);
        CurrentLedger() == e.ledger && r == e.response
    {
      if !pin.validated {
        return Failure(SW_PIN_VERIFICATION_REQUIRED);
      }
      var numBytes := buf[OFFSET_LC];
      var byteRead := ToByte(received);
      var p1Money := buf[OFFSET_P1];
      var p2Points := buf[OFFSET_P2];
      if p1Money == P1_MONEY && p2Points == NONE {
        r := DebitMoney(buf, numBytes, byteRead);
      } else if p1Money == NONE && p2Points == P2_POINTS {
        r := DebitPoints(buf, numBytes, byteRead);
      } else if p1Money == P1_MONEY && p2Points == P2_POINTS {
        r := DebitMoneyAndPoints(buf, numBytes, byteRead);
      } else {
        r := Failure(SW_COMMAND_NOT_ALLOWED);
      }
    }

    /** The money-only branch of DEBIT. */
    method DebitMoney(buf: array<Byte>, numBytes: Byte, byteRead: Byte) returns (r: Response)
      requires Valid() && buf.Length >= MIN_BUFFER_LENGTH
      modifies this
      ensures Valid() && pin == old(pin)
      ensures var e := MoneyDebit(old(CurrentLedger()), numBytes, byteRead, Amount(buf[..], OFFSET_CDATA));
        CurrentLedger() == e.ledger && r == e.response
    {
      if numBytes != 2 || byteRead != 2 {
        return Failure(SW_WRONG_LENGTH);
      }
      var debitAmount := Decode(buf[OFFSET_CDATA], buf[OFFSET_CDATA + 1]);
      if debitAmount > MAX_TRANSACTION_AMOUNT || debitAmount < 0 {
        return Failure(SW_INVALID_TRANSACTION_AMOUNT);
      }
      if ToShort(balance - debitAmount) < 0 {
        return Failure(SW_NEGATIVE_BALANCE);
      }
      balance := ToShort(balance - debitAmount);
      // debitAmount >= 0 here, so Java's truncating division is Dafny's
      points := ToShort(points + ToShort(debitAmount / 10));
      r := Success([]);
    }

    /** The points-only branch of DEBIT. */
    method DebitPoints(buf: array<Byte>, numBytes: Byte, byteRead: Byte) returns (r: Response)
      requires Valid() && buf.Length >= MIN_BUFFER_LENGTH
      modifies this
      ensures Valid() && pin == old(pin)
      ensures var e := PointsDebit(old(CurrentLedger()), numBytes, byteRead, Amount(buf[..], OFFSET_CDATA));
        CurrentLedger() == e.ledger && r == e.response
    {
      if numBytes != 2 || byteRead != 2 {
        return Failure(SW_WRONG_LENGTH);
      }
      var pointsAmount := Decode(buf[OFFSET_CDATA], buf[OFFSET_CDATA + 1]);
      if pointsAmount < 0 {
        return Failure(SW_INVALID_TRANSACTION_AMOUNT);
      }
      if ToShort(points - pointsAmount) < 0 {
        return Failure(SW_NOT_ENOUGH_POINTS);
      }
      points := ToShort(points - pointsAmount);
      r := Success([]);
    }

    /** The money-and-points branch of DEBIT. */
    method DebitMoneyAndPoints(buf: array<Byte>, numBytes: Byte, byteRead: Byte) returns (r: Response)
      requires Valid() && buf.Length >= MIN_BUFFER_LENGTH
      modifies this
      ensures Valid() && pin == old(pin)
      ensures var e := CombinedDebit(old(CurrentLedger()), numBytes, byteRead,
        Amount(buf[..], OFFSET_CDATA), Amount(buf[..], OFFSET_CDATA + 2));
        CurrentLedger() == e.ledger && r == e.response
    {
      if numBytes != 4 || byteRead != 4 {
        return Failure(SW_WRONG_LENGTH);
      }
      var debitAmount := Decode(buf[OFFSET_CDATA], buf[OFFSET_CDATA + 1]);
      var pointsAmount := Decode(buf[OFFSET_CDATA + 2], buf[OFFSET_CDATA + 3]);
      if debitAmount > MAX_TRANSACTION_AMOUNT || debitAmount < 0 {
        return Failure(SW_INVALID_TRANSACTION_AMOUNT);
      }
      if ToShort(balance - debitAmount) < 0 {
        return Failure(SW_NEGATIVE_BALANCE);
      }
      // committed before the points are checked: no transaction protects it
      balance := ToShort(balance - debitAmount);
      if pointsAmount < 0 {
        return Failure(SW_INVALID_TRANSACTION_AMOUNT);
      }
      if ToShort(points - pointsAmount) < 0 {
        return Failure(SW_NOT_ENOUGH_POINTS);
      }
      points := ToShort(points - pointsAmount);
      points := ToShort(points + ToShort(debitAmount / 10));
      r := Success([]);
    }

    method GetBalance(buf: array<Byte>, le: Short) returns (r: Response)
      requires buf.Length >= MIN_BUFFER_LENGTH
      modifies buf
      ensures r == BalanceReply(balance, pin.validated, le)
      ensures buf[..] == Transmit(old(buf[..]), r)
    {
      if !pin.validated {
        return Failure(SW_PIN_VERIFICATION_REQUIRED);
      }
      if le < 2 {
        return Failure(SW_WRONG_LENGTH);
      }
      var bytes := Encode(balance);
      buf[0] := bytes.hi;
      buf[1] := bytes.lo;
      r := Success(buf[0..2]);
    }

    method GetBalancePoints(buf: array<Byte>, le: Short) returns (r: Response)
      requires buf.Length >= MIN_BUFFER_LENGTH
      modifies buf
      ensures r == BalanceReply(points, pin.validated, le)
      ensures buf[..] == Transmit(old(buf[..]), r)
    {
      if !pin.validated {
        return Failure(SW_PIN_VERIFICATION_REQUIRED);
      }
      if le < 2 {
        return Failure(SW_WRONG_LENGTH);
      }
      var bytes := Encode(points);
      buf[0] := bytes.hi;
      buf[1] := bytes.lo;
      r := Success(buf[0..2]);
    }

    method Verify(buf: array<Byte>, received: Short) returns (r: Response)
      requires Valid()
      modifies this
      ensures Valid() && CurrentLedger() == old(CurrentLedger())
      ensures var v := VerifyEffect(old(pin), buf[..], received);
        pin == v.pin && r == v.response
    {
      var byteRead := ToByte(received);
      var check := Check(pin, buf[..], OFFSET_CDATA, byteRead);
      pin := check.pin;
      if !check.matched {
        return Failure(SW_VERIFICATION_FAILED);
      }
      r := Success([]);
    }
  }
}
