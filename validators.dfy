/**
 * Field validators. Each inspects one dynamically typed value and either accepts it
 * or fails with a `MessageError` carrying a message that names the violated rule.
 * Python's dynamic values are modelled by `Value`, the raise-or-return outcome by
 * `Check`.
 */
module Validators {
  import opened Wrappers
  import Decimal
  import Constants

  type byte = bv8

  /** The kinds of Python value the validators tell apart. */
  datatype Value =
    | VBytes(bytes: seq<byte>)    // bytes
    | VInt(i: int)                // int (not bool)
    | VBool(b: bool)              // bool, a subclass of int
    | VStr(s: string)             // str
    | VList(items: seq<Value>)    // list or tuple
    | VOther                      // anything else: None, float, dict, ...

  /** Returning normally, or raising `MessageError(msg)`. */
  datatype Check = Ok | Err(msg: string)

  const InvalidKey := "Invalid key"
  const CookieNotBytes := "Invalid cookie: Must be `bytes` instance"
  const CookieLengthPrefix := "Invalid cookie: Invalid length ("
  const InvalidInitiatorConnected := "Invalid value for field 'initiator_connected'"
  const InvalidResponder := "Invalid responder in responder list"
  const NotIterable := "Responder list is not iterable"
  const InvalidHash := "Invalid hash"

  /** `'Invalid cookie: Invalid length (%d != %d)' % (len(cookie), COOKIE_LENGTH)` */
  function CookieLengthMessage(length: nat): (r: string)
    ensures r == CookieLengthPrefix + Decimal.FromNat(length) + " != 16)"
  {
    assert Decimal.FromNat(Constants.CookieLength) == "16" by {
      assert Decimal.FromNat(1) == "1";
    }
    CookieLengthPrefix + Decimal.FromNat(length) + " != " + Decimal.FromNat(Constants.CookieLength) + ")"
  }

  /** `isinstance(v, int)` holds for ints and for bools, which count as 1 and 0. */
  function AsInt(v: Value): (r: Option<int>)
    ensures r.Some? <==> v.VInt? || v.VBool?
    ensures v.VInt? ==> r == Some(v.i)
    ensures v.VBool? ==> r == Some(if v.b then 1 else 0)
  {
    match v
    case VInt(i) => Some(i)
    case VBool(b) => Some(if b then 1 else 0)
    case _ => None
  }

  /** `validate_public_key`: accepts exactly the byte strings of KEY_LENGTH bytes. */
  function ValidatePublicKey(key: Value): (r: Check)
    ensures r == Ok <==> exists k: seq<byte> :: key == VBytes(k) && |k| == 32
    ensures r != Ok ==> r == Err("Invalid key")
  {
    if !key.VBytes? || |key.bytes| != Constants.KeyLength then Err(InvalidKey) else Ok
  }

  /**
   * `validate_cookie`: a value that is not bytes is refused for its type whatever its
   * length; bytes of the wrong length are refused with a message giving the length
   * found; bytes of exactly COOKIE_LENGTH are accepted.
   */
  function ValidateCookie(cookie: Value): (r: Check)
    ensures !cookie.VBytes? ==> r == Err("Invalid cookie: Must be `bytes` instance")
    ensures cookie.VBytes? && |cookie.bytes| != 16 ==> r == Err(CookieLengthMessage(|cookie.bytes|))
    ensures r == Ok <==> cookie.VBytes? && |cookie.bytes| == 16
  {
    if !cookie.VBytes? then Err(CookieNotBytes)
    else if |cookie.bytes| != Constants.CookieLength then Err(CookieLengthMessage(|cookie.bytes|))
    else Ok
  }

  /** `validate_initiator_connected`: only a genuine bool is accepted, not the int 1 or 0. */
  function ValidateInitiatorConnected(flag: Value): (r: Check)
    ensures r == Ok <==> flag == VBool(true) || flag == VBool(false)
    ensures r != Ok ==> r == Err("Invalid value for field 'initiator_connected'")
  {
    if !flag.VBool? then Err(InvalidInitiatorConnected) else Ok
  }

  /**
   * `validate_responder_id`: accepts an int in the responder address range
   * 0x01 < id <= 0xff. Bools pass the `int` test but, as 1 and 0, fail the range.
   */
  function ValidateResponderId(responder: Value): (r: Check)
    ensures r == Ok <==> responder.VInt? && 0x01 < responder.i <= 0xff
    ensures r != Ok ==> r == Err("Invalid responder in responder list")
  {
    var n := AsInt(responder);
    if n.None? || !(0x01 < n.value <= 0xff) then Err(InvalidResponder) else Ok
  }

  /**
   * `iter(v)`: the elements a value yields when iterated, or None when `iter` raises
   * TypeError. Bytes yield ints, strings yield one-character strings.
   */
  function Elements(v: Value): (r: Option<seq<Value>>)
    ensures r.Some? <==> v.VList? || v.VBytes? || v.VStr?
    ensures v.VList? ==> r == Some(v.items)
    ensures v.VBytes? ==> r.Some? && |r.value| == |v.bytes|
                          && forall i :: 0 <= i < |v.bytes| ==> r.value[i] == VInt(v.bytes[i] as int)
    ensures v.VStr? ==> r.Some? && |r.value| == |v.s|
                        && forall i :: 0 <= i < |v.s| ==> r.value[i] == VStr([v.s[i]])
  {
    match v
    case VList(items) => Some(items)
    case VBytes(bytes) => Some(seq(|bytes|, i requires 0 <= i < |bytes| => VInt(bytes[i] as int)))
    case VStr(s) => Some(seq(|s|, i requires 0 <= i < |s| => VStr([s[i]])))
    case _ => None
  }

  /**
   * The loop of `validate_responder_ids`: validates the elements in order and stops at
   * the first one that fails, whose error is the loop's error.
   */
  function ValidateEach(responders: seq<Value>): (r: Check)
    ensures r == Ok <==> forall i :: 0 <= i < |responders| ==> ValidateResponderId(responders[i]) == Ok
    ensures r != Ok ==> r == Err(InvalidResponder)
  {
    if responders == [] then Ok
    else
      var first := ValidateResponderId(responders[0]);
      if first != Ok then first else ValidateEach(responders[1..])
  }

  /**
   * Fail-fast: the index at which a failing loop stops. It is the first invalid element,
   * and its error is the loop's error.
   */
  function FirstInvalid(responders: seq<Value>): (k: nat)
    requires ValidateEach(responders) != Ok
    ensures k < |responders| && ValidateEach(responders) == ValidateResponderId(responders[k])
    ensures forall j :: 0 <= j < k ==> ValidateResponderId(responders[j]) == Ok
  {
    if ValidateResponderId(responders[0]) != Ok then 0
    else
      var k := 1 + FirstInvalid(responders[1..]);
      assert forall j :: 1 <= j < k ==> responders[j] == responders[1..][j - 1];
      k
  }

  /**
   * `validate_responder_ids`: a value that cannot be iterated is refused with its own
   * message; otherwise every element must be a valid responder id, the first invalid
   * one deciding the error.
   */
  function ValidateResponderIds(responders: Value): (r: Check)
    ensures r == Ok <==> Elements(responders).Some?
                         && forall e :: e in Elements(responders).value ==> ValidateResponderId(e) == Ok
    ensures Elements(responders).None? ==> r == Err("Responder list is not iterable")
    ensures Elements(responders).Some? ==> r == ValidateEach(Elements(responders).value)
  {
    match Elements(responders)
    case None => Err(NotIterable)
    case Some(items) => ValidateEach(items)
  }

  /** `validate_hash`: accepts exactly the byte strings of HASH_LENGTH bytes. */
  function ValidateHash(hash: Value): (r: Check)
    ensures r == Ok <==> exists h: seq<byte> :: hash == VBytes(h) && |h| == 32
    ensures r != Ok ==> r == Err("Invalid hash")
  {
    if !hash.VBytes? || |hash.bytes| != Constants.HashLength then Err(InvalidHash) else Ok
  }

  /** The two cookie failures are told apart: the type message is never a length message. */
  lemma CookieMessagesDistinct(length: nat)
    ensures CookieLengthMessage(length) != CookieNotBytes
  {
    assert CookieLengthMessage(length)[16] == 'I';
    assert CookieNotBytes[16] == 'M';
  }

  /** The length message embeds the length found: different lengths, different messages. */
  lemma CookieLengthMessageInjective(m: nat, n: nat)
    ensures CookieLengthMessage(m) == CookieLengthMessage(n) ==> m == n
  {
    var tail := " != " + Decimal.FromNat(Constants.CookieLength) + ")";
    var dm, dn := Decimal.FromNat(m), Decimal.FromNat(n);
    assert CookieLengthMessage(m) == CookieLengthPrefix + (dm + tail);
    assert CookieLengthMessage(n) == CookieLengthPrefix + (dn + tail);
    if CookieLengthMessage(m) == CookieLengthMessage(n) {
      var p := |CookieLengthPrefix|;
      assert CookieLengthMessage(m)[p..] == dm + tail;
      assert CookieLengthMessage(n)[p..] == dn + tail;
      assert tail[0] == ' ';
      Decimal.LeadingDigitsOf(dm, tail);
      Decimal.LeadingDigitsOf(dn, tail);
      assert dm == (dm + tail)[..|dm|];
      assert dn == (dn + tail)[..|dn|];
      Decimal.FromNatInjective(m, n);
    }
  }

  /** Only a bool is an `initiator_connected` flag; the ints 1 and 0 are refused. */
  lemma InitiatorConnectedRejectsInts(i: int)
    ensures ValidateInitiatorConnected(VInt(i)) == Err(InvalidInitiatorConnected)
    ensures ValidateInitiatorConnected(VBool(true)) == Ok
    ensures ValidateInitiatorConnected(VBool(false)) == Ok
  {
  }

  /**
   * The responder range is 0x02..0xff: the initiator address 0x01 and 0x100 are
   * refused, 0x02 and 0xff accepted, and bools (1 and 0) never pass.
   */
  lemma ResponderIdBoundaries(b: bool)
    ensures ValidateResponderId(VInt(0x01)) != Ok
    ensures ValidateResponderId(VInt(0x100)) != Ok
    ensures ValidateResponderId(VInt(0x02)) == Ok
    ensures ValidateResponderId(VInt(0xff)) == Ok
    ensures ValidateResponderId(VBool(b)) == Err(InvalidResponder)
  {
  }

  /** An empty responder list is accepted: there is no element to fail. */
  lemma EmptyResponderListAccepted()
    ensures ValidateResponderIds(VList([])) == Ok
  {
  }

  /**
   * Iterating bytes yields ints, so a byte string passes exactly when none of its
   * bytes is 0x00 or 0x01.
   */
  lemma ResponderIdsOfBytes(bytes: seq<byte>)
    ensures ValidateResponderIds(VBytes(bytes)) == Ok
        <==> forall i :: 0 <= i < |bytes| ==> bytes[i] as int > 0x01
  {
  }

  /**
   * Iterating a string yields one-character strings, which are not ints, so only
   * the empty string passes.
   */
  lemma ResponderIdsOfString(s: string)
    ensures ValidateResponderIds(VStr(s)) == Ok <==> s == []
  {
  }

  /**
   * A failing `validate_responder_ids` reports why: the not-iterable message exactly
   * when the value cannot be iterated, the element message otherwise.
   */
  lemma ResponderIdsErrors(responders: Value)
    ensures ValidateResponderIds(responders) == Err(NotIterable) <==> Elements(responders).None?
    ensures ValidateResponderIds(responders) != Ok && Elements(responders).Some?
        ==> ValidateResponderIds(responders) == Err(InvalidResponder)
  {
  }

  /** Concrete outcomes: a valid list, a list holding the initiator address, a bare int. */
  lemma ResponderIdsExamples()
    ensures ValidateResponderIds(VList([VInt(0x02), VInt(0xff)])) == Ok
    ensures ValidateResponderIds(VList([VInt(0x01)])) == Err(InvalidResponder)
    ensures ValidateResponderIds(VInt(42)) == Err(NotIterable)
  {
  }
}
