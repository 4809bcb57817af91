/**
 * The applet's view of the Java Card library class `OwnerPIN`: a reference PIN,
 * a try limit, a tries-remaining counter and a validated flag. The library source
 * is not part of this model; its operations follow the behaviour the Java Card API
 * describes for them, and only as far as the applet's call sites need.
 */
module PinModel {
  import opened JavaTypes

  datatype PinState = PinState(
    reference: seq<Byte>,
    tryLimit: nat,
    maxPinSize: nat,
    triesRemaining: nat,
    validated: bool)

  /** `new OwnerPIN(tryLimit, maxPINSize)`: no PIN value yet, full tries, not validated. */
  function Created(tryLimit: nat, maxPinSize: nat): (p: PinState)
    ensures p.tryLimit == tryLimit && p.maxPinSize == maxPinSize
    ensures p.triesRemaining == tryLimit && !p.validated
  {
    PinState([], tryLimit, maxPinSize, tryLimit, false)
  }

  /** The `length` bytes of `buf` from `offset` are exactly `reference`. */
  predicate CandidateMatches(reference: seq<Byte>, buf: seq<Byte>, offset: int, length: int) {
    0 <= offset && length == |reference| && offset + length <= |buf|
    && buf[offset..offset + length] == reference
  }

  datatype CheckResult = CheckResult(pin: PinState, matched: bool)

  /**
   * `check(buf, offset, length)`: the validated flag is cleared first; a blocked
   * PIN (no tries left) refuses; otherwise one try is spent, and a match sets the
   * flag and gives all tries back.
   */
  function Check(p: PinState, buf: seq<Byte>, offset: int, length: int): (r: CheckResult)
    ensures r.matched <==> p.triesRemaining > 0 && CandidateMatches(p.reference, buf, offset, length)
    ensures r.pin.validated == r.matched
    ensures r.matched ==> r.pin.triesRemaining == p.tryLimit
    ensures !r.matched && p.triesRemaining > 0 ==> r.pin.triesRemaining == p.triesRemaining - 1
    ensures p.triesRemaining == 0 ==> r.pin.triesRemaining == 0
    ensures r.pin.reference == p.reference && r.pin.tryLimit == p.tryLimit
    ensures r.pin.maxPinSize == p.maxPinSize
  {
    var cleared := p.(validated := false);
    if cleared.triesRemaining == 0 then
      CheckResult(cleared, false)
    else
      var spent := cleared.(triesRemaining := cleared.triesRemaining - 1);
      if CandidateMatches(spent.reference, buf, offset, length) then
        CheckResult(spent.(validated := true, triesRemaining := spent.tryLimit), true)
      else
        CheckResult(spent, false)
  }

  /** `reset()`: a validated session is closed and its tries given back; otherwise nothing happens. */
  function Reset(p: PinState): (q: PinState)
    ensures !q.validated
    ensures q.triesRemaining == if p.validated then p.tryLimit else p.triesRemaining
    ensures q.reference == p.reference && q.tryLimit == p.tryLimit && q.maxPinSize == p.maxPinSize
  {
    if p.validated then p.(validated := false, triesRemaining := p.tryLimit) else p
  }

  /** `update(bytes, offset, length)`: a new reference PIN, all tries back, not validated. */
  function Update(p: PinState, bytes: seq<Byte>, offset: int, length: int): (q: PinState)
    requires 0 <= length <= p.maxPinSize
    requires 0 <= offset && offset + length <= |bytes|
    ensures q.reference == bytes[offset..offset + length] && |q.reference| <= q.maxPinSize
    ensures q.triesRemaining == q.tryLimit && !q.validated
    ensures q.tryLimit == p.tryLimit && q.maxPinSize == p.maxPinSize
  {
    p.(reference := bytes[offset..offset + length], triesRemaining := p.tryLimit, validated := false)
  }
}
