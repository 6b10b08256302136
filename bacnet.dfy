/**
 * The BACnet enumeration values the client uses, as numbered in ANSI/ASHRAE
 * Standard 135 (BACnetObjectType, BACnetPropertyIdentifier and the application
 * tag numbers of clause 20.2.1.4, which the stack uses as its data-type codes).
 */
module Bacnet {
  const ObjectTypeAnalogInput: nat := 0
  const ObjectTypeAnalogOutput: nat := 1
  const ObjectTypeBinaryInput: nat := 3
  const ObjectTypeBinaryOutput: nat := 4
  const ObjectTypeDevice: nat := 8
  const ObjectTypeMultiStateInput: nat := 13
  const ObjectTypeMultiStateOutput: nat := 14

  const PropertyIdentifierAll: nat := 8
  const PropertyIdentifierApduTimeout: nat := 11
  const PropertyIdentifierNumberOfApduRetries: nat := 73
  const PropertyIdentifierObjectName: nat := 77
  const PropertyIdentifierPresentValue: nat := 85

  const DataTypeReal: nat := 4
  const DataTypeEnumerated: nat := 9
}
