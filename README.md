# SaltyRTC signalling vocabulary, verified in Dafny

This project models `saltyrtc/common.py` of the SaltyRTC signalling server. That file is the
shared vocabulary of the protocol:

- the fixed field sizes (key, nonce, cookie, hash);
- the nonce layout `!16s2B6s`;
- the sub-protocol identifier, close codes, address roles and server message types, each an
  enumeration with fixed wire values;
- the address classification `AddressType.from_address`;
- the six field validators that accept a value or raise `MessageError`.

Files:

- `wrappers.dfy`: `Option`.
- `decimal.dfy`: Python's `'%d'` rendering of a natural number, and reading digits back.
- `constants.dfy`: the length constants; the `struct` format string parsed into items and fields.
- `enums.dfy`: one module per enumeration. `ToWire` is a member's value. `FromWire` is Python's
  lookup by value (`Enum(value)`), which is None when no member has that value.
- `validators.dfy`: Python values as `Value`
  (`VBytes | VInt | VBool | VStr | VList | VOther`), the raise-or-return outcome as
  `Check = Ok | Err(msg)`, and the validators with the exact messages of the source.

Two Python facts are kept on purpose:

- `isinstance(True, int)` holds, so a bool reaches the responder-id range test as 1 or 0 (`AsInt`).
- Bytes and strings are iterable. Iterating bytes yields ints; iterating a string yields
  one-character strings (`Elements`).

Every validator is a function, so calling it twice on the same value gives the same outcome
and message by construction.

A one-byte address might be expected to be range-checked, but `from_address` has no upper
bound: `from_address(300)` is `responder`. Only negative addresses fail, because the lookup by
value finds no member for them. `AddressTypes.FromAddress` takes any `int` and models exactly
this.

## Model

| member | source | states |
|---|---|---|
| Constants.NonceLayout | saltyrtc/common.py:27-31 | `!16s2B6s` parses to a 16-byte string, two unsigned bytes and a 6-byte string. Its fields are COOKIE_LENGTH, 1, 1 and 6 bytes wide, at offsets 0, 16, 17 and 18. They fill NONCE_LENGTH = 24 bytes, and that is also what `struct.calcsize` reports. |
| Constants.FieldsFillSize | saltyrtc/common.py:29 | For every format made of `s` and `B` items, the field widths add up to the format's `struct.calcsize`. |
| Decimal.FromNat | saltyrtc/common.py:89-90 | `%d` of a natural number is a non-empty run of digits with no leading zero (except for 0 itself). |
| Decimal.ToNatFromNat | saltyrtc/common.py:89-90 | Reading back the digits `%d` wrote gives the original number. |
| SubProtocols.ToWire | saltyrtc/common.py:39 | The sub-protocol's wire identifier is `saltyrtc-1.0`. |
| SubProtocols.FromWire | saltyrtc/common.py:37-39 | A successful lookup returns the member whose value is the given string. |
| SubProtocols.RoundTrip | saltyrtc/common.py:37-39 | Looking up `saltyrtc-1.0` gives the sub-protocol back. |
| CloseCodes.ToWire | saltyrtc/common.py:44-50 | Every close code's value is 1001 or 1002 (exactly for `going_away` and `sub_protocol_error`) or lies in 3000-3004. |
| CloseCodes.FromWire | saltyrtc/common.py:42-50 | A successful lookup by integer returns the code carrying that integer. |
| CloseCodes.RoundTrip | saltyrtc/common.py:42-50 | Looking up each code's integer gives that code back. |
| CloseCodes.Unique | saltyrtc/common.py:42-50 | `@enum.unique`: two codes with the same integer are the same code. |
| CloseCodes.Bands | saltyrtc/common.py:44-50 | Every code fits in 16 bits. `going_away` and `sub_protocol_error` are in the WebSocket band 1000-2999; the other five are in the application band 3000-3999 (section 7.4.2 of RFC 6455). |
| AddressTypes.ToWire | saltyrtc/common.py:55-57 | Every role's value is a single byte, and only the server's and the initiator's values are at or below 0x01. |
| AddressTypes.FromWire | saltyrtc/common.py:53-57 | Lookup by value succeeds only for 0x00, 0x01 and 0xff, and returns the role carrying that value. |
| AddressTypes.RoundTrip | saltyrtc/common.py:53-57 | Looking up each role's value gives that role back. |
| AddressTypes.Unique | saltyrtc/common.py:53-57 | `@enum.unique`: two roles with the same value are the same role. |
| AddressTypes.FromAddress | saltyrtc/common.py:59-64 | `from_address` returns responder iff the address is above 0x01, with no upper bound. It returns initiator iff the address is 0x01 and server iff it is 0x00. It fails iff the address is negative. |
| AddressTypes.ClassifyRoundTrip | saltyrtc/common.py:55-64 | Classifying a role's own value (0x00, 0x01, 0xff) gives that role. |
| AddressTypes.ClassifyByte | saltyrtc/common.py:59-64 | Every byte address has a role. It is a responder iff it is neither 0x00 nor 0x01. |
| MessageTypes.ToWire | saltyrtc/common.py:70-77 | Every message type's tag is a non-empty string of lower-case letters and hyphens that neither starts nor ends with a hyphen. |
| MessageTypes.FromWire | saltyrtc/common.py:67-77 | A successful lookup by tag returns the message type with that tag. |
| MessageTypes.RoundTrip | saltyrtc/common.py:67-77 | Looking up each message type's tag gives it back. |
| MessageTypes.Unique | saltyrtc/common.py:67-77 | `@enum.unique`: two message types with the same tag are the same type. |
| MessageTypes.UnknownTagRejected | saltyrtc/common.py:67-77 | A tag that no member carries is rejected by the lookup. |
| Validators.AsInt | saltyrtc/common.py:99 | `isinstance(v, int)` holds exactly for ints and bools. An int keeps its own value and a bool counts as 1 or 0. |
| Validators.ValidatePublicKey | saltyrtc/common.py:80-82 | Accepts iff the value is bytes of exactly 32 bytes (KEY_LENGTH). Otherwise fails with 'Invalid key'. |
| Validators.ValidateCookie | saltyrtc/common.py:85-90 | A non-bytes value fails with the "Must be `bytes` instance" message, whatever its length. Bytes of another length fail with the length message for that length. It accepts iff the value is bytes of exactly 16 bytes. |
| Validators.CookieLengthMessage | saltyrtc/common.py:89-90 | The length message is `Invalid cookie: Invalid length (`, then the length in decimal, then ` != 16)`. |
| Validators.CookieMessagesDistinct | saltyrtc/common.py:86-90 | The type failure and the length failure of `validate_cookie` never carry the same message. |
| Validators.CookieLengthMessageInjective | saltyrtc/common.py:88-90 | The length message embeds the actual length: different lengths give different messages. |
| Validators.ValidateInitiatorConnected | saltyrtc/common.py:93-95 | Accepts iff the value is a bool. Otherwise fails with the `initiator_connected` message. |
| Validators.InitiatorConnectedRejectsInts | saltyrtc/common.py:93-95 | Every int, 1 and 0 included, is refused. `True` and `False` are accepted. |
| Validators.ValidateResponderId | saltyrtc/common.py:98-100 | Accepts iff the value is an int (not a bool) with 0x01 < id <= 0xff. Otherwise fails with 'Invalid responder in responder list'. |
| Validators.ResponderIdBoundaries | saltyrtc/common.py:98-100 | 0x01 and 0x100 are refused, 0x02 and 0xff are accepted, and every bool is refused. |
| Validators.Elements | saltyrtc/common.py:104-105 | `iter(v)` succeeds iff v is a list, bytes or a string. Bytes yield their bytes as ints and a string yields its characters as one-character strings. |
| Validators.ValidateEach | saltyrtc/common.py:108-109 | The loop accepts iff every element is a valid responder id. Otherwise it fails with the element message. |
| Validators.FirstInvalid | saltyrtc/common.py:108-109 | Fail-fast: a failing loop stops at an element that is invalid, and every element before it is valid. The loop's error is that element's error. |
| Validators.ValidateResponderIds | saltyrtc/common.py:103-109 | Accepts iff the value is iterable and every element it yields is a valid responder id. A value that cannot be iterated fails with 'Responder list is not iterable'. Otherwise the outcome is that of the element loop. |
| Validators.EmptyResponderListAccepted | saltyrtc/common.py:103-109 | An empty list is accepted. |
| Validators.ResponderIdsOfBytes | saltyrtc/common.py:103-109 | A bytes value is accepted iff none of its bytes is 0x00 or 0x01. |
| Validators.ResponderIdsOfString | saltyrtc/common.py:103-109 | A string is accepted iff it is empty, because its characters are not ints. |
| Validators.ResponderIdsErrors | saltyrtc/common.py:104-109 | The error is the not-iterable message exactly when the value cannot be iterated. Any other failure carries the element message. |
| Validators.ResponderIdsExamples | saltyrtc/common.py:103-109 | `[0x02, 0xff]` is accepted. `[0x01]` fails with the element message and `42` with the not-iterable message. |
| Validators.ValidateHash | saltyrtc/common.py:112-114 | Accepts iff the value is bytes of exactly 32 bytes (HASH_LENGTH). Otherwise fails with 'Invalid hash'. |

## Left out

- `RELAY_TIMEOUT`, `KEEP_ALIVE_TIMEOUT` and `KEEP_ALIVE_INTERVAL` (lines 32-34) are left out. They are floating-point data that other components use for scheduling, and no logic here uses them.
- Packing and unpacking nonces with `NONCE_FORMATTER` is done by other components and is not modelled. Only the format's field widths and offsets are modelled.
- The format parser understands only the `s` and `B` codes, the codes the nonce layout uses. It also does not allow whitespace between items.
- The `MessageError` class (from `saltyrtc/exception.py`, which is not part of this model) is represented by `Err(msg)`. Exception chaining (`from exc`, line 107) is not modelled.
- Iteration is modelled only for lists and tuples (`VList`), bytes and strings. Other iterables (dicts, sets, generators, `bytearray`) and other Python types are `VOther`, which is not iterable and not an int.
- `AddressTypes.FromAddress` takes an `int`. Comparing a non-number with 0x01 raises `TypeError` in Python, and that case is not modelled.
