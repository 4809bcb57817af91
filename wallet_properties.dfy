/**
 * Properties of the wallet over whole sessions: what every reachable state
 * satisfies, how wrong PINs block the card, what deselection revokes, where the
 * applet is atomic and where it is not, and the install-parameter layout.
 */
module WalletProperties {
  import opened JavaTypes
  import opened ShortCodec
  import opened Iso7816
  import opened PinModel
  import opened WalletSpec

  /** What the platform delivers to the applet: a session end, or a command APDU. */
  datatype Event = Deselect | Command(buf: seq<Byte>, received: Short, le: Short)

  predicate WellFormedEvent(ev: Event) {
    ev.Command? ==> |ev.buf| >= MIN_BUFFER_LENGTH
  }

  function Step(st: WalletState, ev: Event): (st': WalletState)
    requires Invariant(st) && WellFormedEvent(ev)
    ensures Invariant(st')
  {
    match ev
    case Deselect => DeselectEffect(st)
    case Command(buf, received, le) => ProcessEffect(st, buf, received, le).state
  }

  /** The state after a sequence of events: every state on the way keeps the invariant. */
  function Run(st: WalletState, evs: seq<Event>): (st': WalletState)
    requires Invariant(st)
    requires forall i :: 0 <= i < |evs| ==> WellFormedEvent(evs[i])
    ensures Invariant(st')
    ensures 0 <= st'.ledger.balance <= MAX_BALANCE
    decreases |evs|
  {
    if evs == [] then st else Run(Step(st, evs[0]), evs[1..])
  }

  /** Every state the installed applet can reach keeps 0 <= balance <= MAX_BALANCE. */
  lemma ReachableBalanceInRange(seed: seq<Byte>, evs: seq<Event>)
    requires |seed| <= MAX_PIN_SIZE as int
    requires forall i :: 0 <= i < |evs| ==> WellFormedEvent(evs[i])
    ensures BalanceInRange(Run(InitialState(seed), evs).ledger)
  {
  }

  /** A VERIFY command whose candidate is not `reference`. */
  predicate IsMismatchedVerify(reference: seq<Byte>, ev: Event) {
    && ev.Command? && |ev.buf| >= MIN_BUFFER_LENGTH
    && ev.buf[OFFSET_CLA] == LOYALTY_CLA && ev.buf[OFFSET_INS] == VERIFY
    && !CandidateMatches(reference, ev.buf, OFFSET_CDATA, ToByte(ev.received))
  }

  /** Each wrong PIN spends one try, down to zero, and touches nothing else. */
  lemma {:induction false} MismatchedVerifiesSpendTries(st: WalletState, evs: seq<Event>)
    requires Invariant(st)
    requires forall i :: 0 <= i < |evs| ==> IsMismatchedVerify(st.pin.reference, evs[i])
    ensures forall i :: 0 <= i < |evs| ==> WellFormedEvent(evs[i])
    ensures Run(st, evs).pin.triesRemaining ==
      if |evs| >= st.pin.triesRemaining then 0 else st.pin.triesRemaining - |evs|
    ensures Run(st, evs).ledger == st.ledger
    ensures Run(st, evs).pin.reference == st.pin.reference
    ensures |evs| > 0 ==> !Run(st, evs).pin.validated
    decreases |evs|
  {
    assert forall i :: 0 <= i < |evs| ==> WellFormedEvent(evs[i]) by {
      forall i | 0 <= i < |evs| ensures WellFormedEvent(evs[i]) {
        assert IsMismatchedVerify(st.pin.reference, evs[i]);
      }
    }
    if evs != [] {
      var ev := evs[0];
      assert IsMismatchedVerify(st.pin.reference, ev);
      var v := VerifyEffect(st.pin, ev.buf, ev.received);
      var st1 := Step(st, ev);
      assert st1 == st.(pin := v.pin);
      assert forall i :: 0 <= i < |evs[1..]| ==> IsMismatchedVerify(st1.pin.reference, evs[1..][i]) by {
        forall i | 0 <= i < |evs[1..]|
          ensures IsMismatchedVerify(st1.pin.reference, evs[1..][i])
        {
          assert evs[1..][i] == evs[i + 1];
          assert IsMismatchedVerify(st.pin.reference, evs[i + 1]);
        }
      }
      MismatchedVerifiesSpendTries(st1, evs[1..]);
    }
  }

  /** After PIN_TRY_LIMIT wrong PINs in a row the applet refuses to be selected. */
  lemma WrongPinsBlockSelection(st: WalletState, evs: seq<Event>)
    requires Invariant(st) && |evs| >= PIN_TRY_LIMIT as int
    requires forall i :: 0 <= i < |evs| ==> IsMismatchedVerify(st.pin.reference, evs[i])
    ensures forall i :: 0 <= i < |evs| ==> WellFormedEvent(evs[i])
    ensures !SelectAccepted(Run(st, evs).pin)
    ensures Run(st, evs).ledger == st.ledger
  {
    MismatchedVerifiesSpendTries(st, evs);
  }

  /** After deselection every PIN-gated command fails with 0x6301 and changes nothing. */
  lemma DeselectRevokesAuthorization(st: WalletState, buf: seq<Byte>, received: Short, le: Short)
    requires Invariant(st) && |buf| >= MIN_BUFFER_LENGTH
    requires buf[OFFSET_CLA] == LOYALTY_CLA && IsPinGated(buf[OFFSET_INS])
    ensures var st' := DeselectEffect(st);
      ProcessEffect(st', buf, received, le) == Reply(st', Failure(SW_PIN_VERIFICATION_REQUIRED))
  {
  }

  /** A balance query changes nothing, so asking twice gives the same answer, which decodes to the value held. */
  lemma BalanceQueriesAreIdempotent(st: WalletState, buf: seq<Byte>, received: Short, le: Short)
    requires Invariant(st) && |buf| >= MIN_BUFFER_LENGTH
    requires buf[OFFSET_CLA] == LOYALTY_CLA
    requires buf[OFFSET_INS] == GET_BALANCE || buf[OFFSET_INS] == GET_BALANCE_POINTS
    ensures var r := ProcessEffect(st, buf, received, le);
      r.state == st && ProcessEffect(r.state, buf, received, le) == r
    ensures var r := ProcessEffect(st, buf, received, le);
      r.response.Success? ==>
        |r.response.data| == 2
        && Decode(r.response.data[0], r.response.data[1]) ==
             if buf[OFFSET_INS] == GET_BALANCE then st.ledger.balance else st.ledger.points
  {
  }

  /** A command is a combined (money and points) debit. */
  predicate IsCombinedDebit(buf: seq<Byte>)
    requires |buf| >= MIN_BUFFER_LENGTH
  {
    buf[OFFSET_CLA] == LOYALTY_CLA && buf[OFFSET_INS] == DEBIT
    && Mode(buf[OFFSET_P1], buf[OFFSET_P2]) == MoneyAndPoints
  }

  /** Every failing command except the combined debit leaves balance and points as they were. */
  lemma FailuresAreAtomic(st: WalletState, buf: seq<Byte>, received: Short, le: Short)
    requires Invariant(st) && |buf| >= MIN_BUFFER_LENGTH
    requires ProcessEffect(st, buf, received, le).response.Failure?
    requires !IsCombinedDebit(buf)
    ensures ProcessEffect(st, buf, received, le).state.ledger == st.ledger
  {
  }

  /**
   * A failing combined debit either changes nothing or, when it fails on the
   * points side, keeps the money debited and the points unchanged.
   */
  lemma CombinedDebitFailureKeepsMoneyDebit(st: WalletState, buf: seq<Byte>, received: Short, le: Short)
    requires Invariant(st) && |buf| >= MIN_BUFFER_LENGTH
    requires IsCombinedDebit(buf) && st.pin.validated
    requires ProcessEffect(st, buf, received, le).response.Failure?
    ensures var l' := ProcessEffect(st, buf, received, le).state.ledger;
      l' == st.ledger
      || (l'.points == st.ledger.points
          && l'.balance == st.ledger.balance - Amount(buf, OFFSET_CDATA)
          && ProcessEffect(st, buf, received, le).response in
               {Failure(SW_INVALID_TRANSACTION_AMOUNT), Failure(SW_NOT_ENOUGH_POINTS)})
  {
  }

  /** The non-atomic case happens: 100 money and 60 points against 500 money and 50 points. */
  lemma CombinedDebitIsNotAtomic()
    ensures var e := CombinedDebit(Ledger(500, 50), 4, 4, 100, 60);
      e.response == Failure(SW_NOT_ENOUGH_POINTS) && e.ledger == Ledger(400, 50)
  {
  }

  /** Points earned past 32767 wrap around to a negative count: nothing bounds them. */
  lemma PointsCanWrapNegative()
    ensures var e := MoneyDebit(Ledger(1000, 32700), 2, 2, 1000);
      e.response == Success([]) && e.ledger == Ledger(0, -32736)
  {
  }

  /**
   * Once the points have wrapped negative, paying 100 points passes the wrapped
   * sufficiency test, `(short)(-32736 - 100)` being 32700, and the points jump to 32700.
   */
  lemma PointsDebitFromWrappedPoints(balance: Short)
    ensures var e := PointsDebit(Ledger(balance, -32736), 2, 2, 100);
      e.response == Success([]) && e.ledger == Ledger(balance, 32700)
  {
  }

  /** A verified wallet holding `balance` and `points`. */
  function VerifiedWallet(pin: PinState, balance: Short, points: Short): WalletState {
    WalletState(Ledger(balance, points), pin.(validated := true))
  }

  /** Crediting 1000 to an empty wallet succeeds. */
  lemma ScenarioCreditFromEmpty(pin: PinState)
    requires PinWellFormed(pin)
    ensures var st := VerifiedWallet(pin, 0, 0);
      ProcessEffect(st, [LOYALTY_CLA, CREDIT, 0, 0, 2, 0x03, -0x18, 0, 0], 2, 0)
        == Reply(st.(ledger := Ledger(1000, 0)), Success([]))
  {
    assert Amount([LOYALTY_CLA, CREDIT, 0, 0, 2, 0x03, -0x18, 0, 0], OFFSET_CDATA) == 1000;
  }

  /** Crediting 9001 fails on the transaction limit, which is checked before the balance ceiling. */
  lemma ScenarioCreditOverTransactionLimit(pin: PinState)
    requires PinWellFormed(pin)
    ensures var st := VerifiedWallet(pin, 1000, 0);
      ProcessEffect(st, [LOYALTY_CLA, CREDIT, 0, 0, 2, 0x23, 0x29, 0, 0], 2, 0)
        == Reply(st, Failure(SW_INVALID_TRANSACTION_AMOUNT))
  {
    assert Amount([LOYALTY_CLA, CREDIT, 0, 0, 2, 0x23, 0x29, 0, 0], OFFSET_CDATA) == 9001;
  }

  /** Crediting 1000 to a balance of 9500 would pass 10000 and fails. */
  lemma ScenarioCreditOverMaximumBalance(pin: PinState)
    requires PinWellFormed(pin)
    ensures var st := VerifiedWallet(pin, 9500, 0);
      ProcessEffect(st, [LOYALTY_CLA, CREDIT, 0, 0, 2, 0x03, -0x18, 0, 0], 2, 0)
        == Reply(st, Failure(SW_EXCEED_MAXIMUM_BALANCE))
  {
    assert Amount([LOYALTY_CLA, CREDIT, 0, 0, 2, 0x03, -0x18, 0, 0], OFFSET_CDATA) == 1000;
  }

  /** Paying 500 in money from 1000 leaves 500 and earns 50 points. */
  lemma ScenarioMoneyDebit(pin: PinState)
    requires PinWellFormed(pin)
    ensures var st := VerifiedWallet(pin, 1000, 0);
      ProcessEffect(st, [LOYALTY_CLA, DEBIT, P1_MONEY, NONE, 2, 0x01, -0x0C, 0, 0], 2, 0)
        == Reply(st.(ledger := Ledger(500, 50)), Success([]))
  {
    assert Amount([LOYALTY_CLA, DEBIT, P1_MONEY, NONE, 2, 0x01, -0x0C, 0, 0], OFFSET_CDATA) == 500;
  }

  /** Paying 60 points with 50 held fails and leaves the points. */
  lemma ScenarioPointsDebitShort(pin: PinState)
    requires PinWellFormed(pin)
    ensures var st := VerifiedWallet(pin, 500, 50);
      ProcessEffect(st, [LOYALTY_CLA, DEBIT, NONE, P2_POINTS, 2, 0x00, 0x3C, 0, 0], 2, 0)
        == Reply(st, Failure(SW_NOT_ENOUGH_POINTS))
  {
    assert Amount([LOYALTY_CLA, DEBIT, NONE, P2_POINTS, 2, 0x00, 0x3C, 0, 0], OFFSET_CDATA) == 60;
  }

  /** Paying 100 in money and 20 in points from 500 and 50 leaves 400 and 50 - 20 + 10. */
  lemma ScenarioCombinedDebit(pin: PinState)
    requires PinWellFormed(pin)
    ensures var st := VerifiedWallet(pin, 500, 50);
      ProcessEffect(st, [LOYALTY_CLA, DEBIT, P1_MONEY, P2_POINTS, 4, 0x00, 0x64, 0x00, 0x14], 4, 0)
        == Reply(st.(ledger := Ledger(400, 40)), Success([]))
  {
    var buf: seq<Byte> := [LOYALTY_CLA, DEBIT, P1_MONEY, P2_POINTS, 4, 0x00, 0x64, 0x00, 0x14];
    assert Amount(buf, OFFSET_CDATA) == 100;
    assert Amount(buf, OFFSET_CDATA + 2) == 20;
  }

  /** Mode flags naming neither money nor points are refused before the length is looked at. */
  lemma ScenarioNoModeFlags(pin: PinState, lc: Byte, received: Short)
    requires PinWellFormed(pin)
    ensures var st := VerifiedWallet(pin, 400, 40);
      ProcessEffect(st, [LOYALTY_CLA, DEBIT, NONE, NONE, lc, 0x00, 0x0A, 0, 0], received, 0)
        == Reply(st, Failure(SW_COMMAND_NOT_ALLOWED))
  {
  }

  /** Install parameters laid out as length-prefixed AID, control information and applet data. */
  function InstallParameters(aid: seq<Byte>, info: seq<Byte>, seed: seq<Byte>): seq<Byte>
    requires |aid| < 0x80 && |info| < 0x80 && |seed| < 0x80
  {
    [|aid|] + aid + [|info|] + info + [|seed|] + seed
  }

  /** The offset walk finds the applet data wherever the parameters start. */
  lemma InstallPinSeedFindsAppletData(
    prefix: seq<Byte>, aid: seq<Byte>, info: seq<Byte>, seed: seq<Byte>, suffix: seq<Byte>)
    requires |aid| < 0x80 && |info| < 0x80 && |seed| < 0x80
    requires |prefix| + |aid| + |info| + 3 < 0x8000
    ensures InstallPinSeed(prefix + InstallParameters(aid, info, seed) + suffix, |prefix|) == Some(seed)
  {
    var bArray := prefix + InstallParameters(aid, info, seed) + suffix;
    var o0 := |prefix|;
    var o1 := o0 + |aid| + 1;
    var o2 := o1 + |info| + 1;
    assert bArray[o0] == |aid|;
    assert bArray[o1] == |info|;
    assert bArray[o2] == |seed|;
    assert bArray[o2 + 1..o2 + 1 + |seed|] == seed;
  }
}
