# Loyalty wallet applet, modelled in Dafny

A model of `Wallet`, a Java Card applet for a stored-value loyalty card. It keeps a
money balance and a points balance, each a Java `short`. Every command except VERIFY
needs a verified PIN. Commands arrive as ISO/IEC 7816-4 APDUs:

- VERIFY (0x20) presents a PIN.
- CREDIT (0x30) adds money.
- DEBIT (0x40) pays with money, with points, or with both. P1 = 0x55 selects money and P2 = 0x45 selects points.
- GET BALANCE (0x50) and GET BALANCE POINTS (0x65) return a value as two big-endian bytes.

Failures are ISO/IEC 7816-4 status words (section 5.1.3), plus the applet's own
words 0x6300, 0x6301, 0x6A82, 0x6A83, 0x6A84 and 0x6A85.

The files:

- `java_types.dfy` has two modules. `JavaTypes` defines Java's `byte` and `short` and the narrowing casts `(byte)` and `(short)`, with the wrap-around written out. `ShortCodec` holds the big-endian 16-bit decode `(short)((F<<8)|(S&0xFF))` and the encode `(byte)(v>>8)`, `(byte)(v&0xFF)`, with both round trips proved.
- `iso7816.dfy` holds the header offsets, the ISO status words, the interindustry-class test, and the response shape.
- `owner_pin.dfy` holds the applet's view of the library class `OwnerPIN`: a reference PIN, a try limit, a tries-remaining counter and a validated flag.
- `wallet_spec.dfy` has one function per command, on values. The dispatcher is `ProcessEffect`. The install-parameter walk is `InstallPinSeed`.
- `wallet.dfy` is the applet as a class. The fields `balance`, `points` and `pin` are updated in place. `Process`, `Credit`, `Debit`, `GetBalance`, `GetBalancePoints`, `Verify`, `Select`, `Deselect` and the constructor follow the Java statement by statement. The three modes of `Debit` are the methods `DebitMoney`, `DebitPoints` and `DebitMoneyAndPoints`, one per branch of the Java. A thrown `ISOException` becomes an early return of a `Failure`. Each method is proved to match its function in `wallet_spec.dfy`. The balance queries write their two bytes into the APDU buffer array.
- `wallet_properties.dfy` holds properties over sessions. Every reachable state keeps the balance in [0, 10000]. Three wrong PINs block selection. Deselection revokes authorization. Failures are atomic, except for the combined debit. It also replays the balance scenarios.

Money checks are modelled in exact integer arithmetic. The Java casts in those checks cannot wrap while 0 <= balance <= 10000, and the class methods, which keep the casts, are proved equal to the exact version. Points updates keep the 16-bit wrap, because nothing in the applet bounds the points.

## Model

| member | source | states |
|---|---|---|
| JavaTypes.ToByte | Wallet.java:180 | `(byte) x` keeps x modulo 256 and is the identity on byte values |
| JavaTypes.ToShort | Wallet.java:202-207 | `(short) x` keeps x modulo 65536 and is the identity on short values |
| JavaTypes.Unsigned | Wallet.java:194 | `S & 0xFF` is the byte read as 0..255: S itself or S + 256 |
| ShortCodec.Decode | Wallet.java:194 | the decoded short has F as its high byte (floor division by 256) and S's bits as its low byte |
| ShortCodec.Encode | Wallet.java:360-361 | the high byte is v >> 8 and the low byte carries v's low 8 bits |
| ShortCodec.DecodeEncode | Wallet.java:386-387 | decoding the two bytes sent for v gives v back, for every 16-bit v |
| ShortCodec.EncodeDecode | Wallet.java:298-299 | decoding is injective: re-encoding a decoded amount gives the same two bytes |
| Iso7816.Transmit | Wallet.java:356-365 | reply data sits at offset 0 of the buffer; every other byte is left as it was |
| PinModel.Created | Wallet.java:69 | a new PIN object has full tries and is not validated |
| PinModel.Check | Wallet.java:402 | a match happens iff tries remain and the candidate equals the reference PIN; a match validates and restores all tries; a mismatch clears validation and spends one try, with a floor at zero |
| PinModel.Reset | Wallet.java:106 | validation is cleared; tries are restored only if the session was validated |
| PinModel.Update | Wallet.java:79 | the given bytes become the reference PIN, all tries come back, and validation is cleared |
| WalletSpec.InstallPinSeed | Wallet.java:71-79 | the PIN seed found by the offset walk is shorter than 128 bytes; None stands for an index the Java would reject |
| WalletSpec.InitialState | Wallet.java:62-79 | a new wallet has balance 0, points 0, the seed as reference PIN, 3 tries and no validation, and satisfies the invariant |
| WalletSpec.CreditEffect | Wallet.java:163-209 | checks in order: PIN (0x6301), Lc and received length = 2 (WRONG_LENGTH), 0 <= amount <= 1000 (0x6A83), balance + amount <= 10000 (0x6A84); each failure leaves the ledger unchanged; it succeeds exactly when the PIN is verified, both lengths are 2, the amount is in [0, 1000] and the new balance is at most 10000, and success adds the amount; points never change; the balance stays in [0, 10000] |
| WalletSpec.MoneyDebit | Wallet.java:229-253 | checks in order: length 2, 0 <= d <= 1000, d <= balance, each with its status word; failures change nothing; success makes balance - d and points + d/10 (16-bit wrap); balance stays in [0, 10000]; points stay >= 0 if they were at most 32667 |
| WalletSpec.PointsDebit | Wallet.java:255-281 | checks in order: length 2, p >= 0, enough points; with non-negative points it succeeds iff 0 <= p <= points, with no other upper bound on p; failures change nothing; the balance never changes |
| WalletSpec.CombinedDebit | Wallet.java:283-327 | length 4, then money range, money sufficiency, points range, points sufficiency; money failures change nothing; a points failure keeps the money debited and the points unchanged; success makes balance - d and points - p + d/10 |
| WalletSpec.DebitEffect | Wallet.java:211-333 | PIN first; mode flags other than the three modes give 0x6986 whatever the length; the balance stays in [0, 10000] |
| WalletSpec.BalanceReply | Wallet.java:336-367 | PIN first, then Le < 2 gives WRONG_LENGTH; otherwise two bytes answer, and they decode to the value |
| WalletSpec.VerifyEffect | Wallet.java:392-406 | success iff tries remain and the received bytes are the PIN; failure gives 0x6300 and one try fewer; success restores the tries; the validated flag is set exactly on success |
| WalletSpec.ProcessEffect | Wallet.java:111-161 | interindustry SELECT succeeds with no change; any other interindustry command and any CLA other than 0x80 give 0x6E00; an unknown INS gives 0x6D00; all of these change nothing; PIN-gated commands without a verified PIN give 0x6301 and change nothing; only CREDIT and DEBIT change the ledger; only VERIFY changes the PIN; the invariant is kept |
| WalletSpec.SelectAccepted | Wallet.java:90-100 | selection is accepted iff tries remain |
| WalletSpec.DeselectEffect | Wallet.java:103-108 | deselection clears validation and keeps the ledger and the invariant |
| WalletApplet.Wallet.constructor | Wallet.java:64-82 | the in-place offset walk leaves the state given by InitialState for the seed InstallPinSeed finds |
| WalletApplet.Wallet.Select | Wallet.java:90-100 | returns false exactly when no PIN tries remain |
| WalletApplet.Wallet.Deselect | Wallet.java:103-108 | the new state is DeselectEffect of the old |
| WalletApplet.Wallet.Process | Wallet.java:111-161 | the new state and the response are those of ProcessEffect; the buffer afterwards is Transmit of the response |
| WalletApplet.Wallet.Credit | Wallet.java:163-209 | the Java-arithmetic handler produces CreditEffect's ledger and response; the PIN is unchanged |
| WalletApplet.Wallet.Debit | Wallet.java:211-333 | the handler decides the mode from P1 and P2 and produces DebitEffect's ledger and response |
| WalletApplet.Wallet.DebitMoney | Wallet.java:229-253 | the money-only branch, in Java arithmetic, produces MoneyDebit's ledger and response |
| WalletApplet.Wallet.DebitPoints | Wallet.java:255-281 | the points-only branch produces PointsDebit's ledger and response |
| WalletApplet.Wallet.DebitMoneyAndPoints | Wallet.java:283-327 | the combined branch, which writes the balance before the points checks, produces CombinedDebit's ledger and response |
| WalletApplet.Wallet.GetBalance | Wallet.java:336-367 | the response is BalanceReply of the balance; buffer[0..1] hold the two bytes sent |
| WalletApplet.Wallet.GetBalancePoints | Wallet.java:371-390 | the response is BalanceReply of the points; buffer[0..1] hold the two bytes sent |
| WalletApplet.Wallet.Verify | Wallet.java:392-406 | the new PIN state and the response are VerifyEffect's; the ledger is unchanged |
| WalletProperties.Step | Wallet.java:103-161 | a deselection or a command keeps the invariant |
| WalletProperties.Run | Wallet.java:36-62 | after any sequence of commands and deselections, 0 <= balance <= MAX_BALANCE |
| WalletProperties.ReachableBalanceInRange | Wallet.java:62-82 | every state reachable from installation keeps the balance in range |
| WalletProperties.MismatchedVerifiesSpendTries | Wallet.java:402-404 | k wrong PINs in a row leave max(tries - k, 0) tries, no validation, and the ledger and reference PIN untouched |
| WalletProperties.WrongPinsBlockSelection | Wallet.java:94-98 | after three wrong PINs in a row, selection is refused, whatever the balance |
| WalletProperties.DeselectRevokesAuthorization | Wallet.java:106 | after deselection, CREDIT, DEBIT, GET BALANCE and GET BALANCE POINTS fail with 0x6301 and change nothing |
| WalletProperties.BalanceQueriesAreIdempotent | Wallet.java:336-390 | a balance query changes no state, so a repeated query returns the same reply, and its bytes decode to the value held |
| WalletProperties.FailuresAreAtomic | Wallet.java:163-281 | every failing command other than the combined debit leaves balance and points unchanged |
| WalletProperties.CombinedDebitFailureKeepsMoneyDebit | Wallet.java:307-321 | a failing combined debit either changes nothing or, failing on points (0x6A83 or 0x6A82), keeps the money debited with the points unchanged |
| WalletProperties.CombinedDebitIsNotAtomic | Wallet.java:311-321 | paying 100 money and 60 points from 500 and 50 fails with 0x6A82 and leaves balance 400 |
| WalletProperties.PointsCanWrapNegative | Wallet.java:252 | paying 1000 with 32700 points held succeeds and leaves points at -32736 |
| WalletProperties.PointsDebitFromWrappedPoints | Wallet.java:270-277 | with points wrapped to -32736, paying 100 points passes the wrapped test and leaves 32700 points |
| WalletProperties.ScenarioCreditFromEmpty | Wallet.java:184-207 | crediting 1000 to an empty wallet succeeds with balance 1000 |
| WalletProperties.ScenarioCreditOverTransactionLimit | Wallet.java:197-199 | crediting 9001 fails with 0x6A83 and changes nothing |
| WalletProperties.ScenarioCreditOverMaximumBalance | Wallet.java:202-204 | crediting 1000 onto 9500 fails with 0x6A84 and changes nothing |
| WalletProperties.ScenarioMoneyDebit | Wallet.java:229-253 | paying 500 from 1000 leaves 500 and earns 50 points |
| WalletProperties.ScenarioPointsDebitShort | Wallet.java:270-277 | paying 60 points with 50 held fails with 0x6A82 and changes nothing |
| WalletProperties.ScenarioCombinedDebit | Wallet.java:283-324 | paying 100 and 20 points from 500 and 50 leaves 400 and 40 |
| WalletProperties.ScenarioNoModeFlags | Wallet.java:329-331 | a DEBIT with P1 = P2 = 0 fails with 0x6986 for any Lc and received count |
| WalletProperties.InstallPinSeedFindsAppletData | Wallet.java:71-79 | for parameters laid out as length-prefixed AID, control information and applet data at any offset, the walk returns exactly the applet data |

## Behaviour of the code as written

These are the places where the code does something other than the obvious reading of the wallet. The model follows the code in each case.

- The combined debit is not atomic. It writes `balance` (Wallet.java:311) before it checks the points (Wallet.java:314-321), and no transaction is opened. A points failure therefore leaves the money debited and no points earned. `CombinedDebitFailureKeepsMoneyDebit` and `CombinedDebitIsNotAtomic` state this. Every other failing command is atomic (`FailuresAreAtomic`).
- In DEBIT, the mode flags are checked before the length (Wallet.java:229, 255, 283, 329). A bad pair of mode flags gives 0x6986 even when the length is also wrong.
- CREDIT checks the transaction limit before the balance ceiling. Crediting 9001 onto a balance of 1000 therefore fails with 0x6A83, not 0x6A84.
- The points are not bounded. `points +=` (Wallet.java:252, 324) wraps past 32767 to a negative count (`PointsCanWrapNegative`). So `points >= 0` is not an invariant of the model. It holds after any step that starts with 0 <= points <= 32667. Once the points are negative, the wrapped comparison at Wallet.java:275 and 319 is modelled exactly as Java computes it. `PointsDebitFromWrappedPoints` shows it: from -32736 points, paying 100 points succeeds and leaves 32700.
- The points side has no upper limit besides the points held, unlike the money side's 1000.

## Left out

- APDU transport: `getBuffer`, `setIncomingAndReceive`, `setOutgoing`, `setOutgoingLength` and `sendBytes` are not modelled. The buffer arrives with its data already received. The byte count that `setIncomingAndReceive` returns and the Le that `setOutgoing` returns are parameters (`received`, `le`). Sending is modelled as the reply data at offset 0 of the buffer. Misuse errors of the transport API (calling it twice, for example) are not modelled.
- `isISOInterindustryCLA` is computed from the class byte, as bit b8 clear, which is how the Java Card API defines it. It is not an independent input.
- `OwnerPIN` is a library class, and its source is not part of this model. Its `check`, `reset`, `update`, `getTriesRemaining` and `isValidated` are modelled from the behaviour the Java Card API describes for the calls the applet makes with in-bounds arguments. They are not verified against any implementation. The rule that the PIN's internal state does not take part in transactions is not modelled.
- PinModel.Check: a candidate of 128 bytes or more makes VERIFY's `(byte)` length negative (Wallet.java:396, 402). `OwnerPIN.check` is documented to throw `ArrayIndexOutOfBoundsException` for a length that leaves the array, and the runtime then answers 0x6F00. The model treats such a call as a plain mismatch: validation is cleared and one try is spent. It does not model the exception.
- WalletSpec.VerifyEffect: answers 0x6300 where the Java would end with 0x6F00 for a negative or out-of-bounds candidate length, as described for `PinModel.Check`.
- WalletApplet.Wallet.constructor: requires that the offset walk stays inside the install array and that the seed has at most MAX_PIN_SIZE bytes. Otherwise the Java constructor throws and no applet exists, so the model has no instance for those inputs.
- The static `install`, `register()` and the `Applet` base class are platform side effects with no logic of their own, so they are not modelled.
- The command methods require an APDU buffer of at least 9 bytes: the 5 header bytes and the 4 data bytes the applet reads. The platform's buffer is always larger.
- What the platform does after `select()` returns false (it stops routing commands to the applet) is not modelled. `Run` accepts any sequence of commands, so the balance invariant is proved for a larger set of sequences than can occur.
- Persistence, tearing and power-loss rollback belong to the Java Card runtime, so they are not modelled.
