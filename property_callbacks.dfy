/**
 * The property-value callback the stack calls when it needs an unsigned value
 * of the client's own device (here only the two APDU settings it asks about).
 */
module PropertyCallbacks {
  import opened Bacnet
  import opened Optional

  const ApduTimeoutMilliseconds: nat := 3000
  const ApduRetries: nat := 3

  /** CallbackGetUnsignedInteger: Some(v) is "returns true having written v", None is
      "returns false, *value untouched". Only the object type and property identifier
      decide; the device instance, object instance and array index are ignored. */
  function CallbackGetUnsignedInteger(deviceInstance: nat, objectType: nat, objectInstance: nat,
                                      propertyIdentifier: nat, useArrayIndex: bool,
                                      propertyArrayIndex: nat): (r: Option<nat>)
    ensures r.Some? <==>
              objectType == ObjectTypeDevice &&
              (propertyIdentifier == PropertyIdentifierApduTimeout ||
               propertyIdentifier == PropertyIdentifierNumberOfApduRetries)
    ensures r == Some(ApduTimeoutMilliseconds) <==>
              objectType == ObjectTypeDevice && propertyIdentifier == PropertyIdentifierApduTimeout
    ensures r == Some(ApduRetries) <==>
              objectType == ObjectTypeDevice && propertyIdentifier == PropertyIdentifierNumberOfApduRetries
  {
    if objectType == ObjectTypeDevice && propertyIdentifier == PropertyIdentifierApduTimeout then
      Some(3000)
    else if objectType == ObjectTypeDevice && propertyIdentifier == PropertyIdentifierNumberOfApduRetries then
      Some(3)
    else
      None
  }

  /** The answer depends on nothing but the object type and property identifier. */
  lemma LookupIgnoresInstanceAndIndex(d1: nat, d2: nat, objectType: nat, i1: nat, i2: nat,
                                      propertyIdentifier: nat, u1: bool, u2: bool, a1: nat, a2: nat)
    ensures CallbackGetUnsignedInteger(d1, objectType, i1, propertyIdentifier, u1, a1) ==
            CallbackGetUnsignedInteger(d2, objectType, i2, propertyIdentifier, u2, a2)
  {
  }
}
