/**
 * The fixed GATT profile BluetoothHelper.java looks for: the device's service
 * and characteristic, and the descriptor that switches notifications on.
 */
module DeviceProfile {
  import opened Formatting

  const DEVICE_SERVICE_UUID: string := "9E672755-C622-49E0-93B8-4BE76A97208B"
  const DEVICE_CHARACTERISTIC_UUID: string := "E2CC9711-C6D2-464D-AC7C-25DC963F0BDE"

  /** UUID.fromString(DEVICE_CHARACTERISTIC_UUID), group by group. */
  const DEVICE_CHARACTERISTIC: Uuid :=
    Uuid([0xE, 0x2, 0xC, 0xC, 0x9, 0x7, 0x1, 0x1], [0xC, 0x6, 0xD, 0x2], [0x4, 0x6, 0x4, 0xD],
         [0xA, 0xC, 0x7, 0xC], [0x2, 0x5, 0xD, 0xC, 0x9, 0x6, 0x3, 0xF, 0x0, 0xB, 0xD, 0xE])

  /**
   * The Client Characteristic Configuration descriptor (Bluetooth Core
   * Specification, Vol 3, Part G, section 3.3.3.3) and the value that turns
   * notifications on (BluetoothGattDescriptor.ENABLE_NOTIFICATION_VALUE).
   */
  const CHARACTERISTIC_CONFIG: string := "00002902-0000-1000-8000-00805f9b34fb"
  const ENABLE_NOTIFICATION_VALUE: seq<int> := [0x01, 0x00]

  /**
   * DEVICE_CHARACTERISTIC is the UUID the constant string names: UUID.toString
   * renders its groups as the constant's groups in lower case.
   */
  lemma DeviceCharacteristicSpelling()
    ensures ValidUuid(DEVICE_CHARACTERISTIC)
    ensures LowerHex(DEVICE_CHARACTERISTIC.timeLow) == "e2cc9711"
    ensures LowerHex(DEVICE_CHARACTERISTIC.timeMid) == "c6d2"
    ensures LowerHex(DEVICE_CHARACTERISTIC.timeHigh) == "464d"
    ensures LowerHex(DEVICE_CHARACTERISTIC.clockSeq) == "ac7c"
    ensures LowerHex(DEVICE_CHARACTERISTIC.node) == "25dc96" + "3f0bde"
  {
    SpellTimeLow(); SpellTimeMid(); SpellTimeHigh(); SpellClockSeq(); SpellNode();
  }

  lemma SpellTimeLow()
    ensures LowerHex(DEVICE_CHARACTERISTIC.timeLow) == "e2cc9711"
  {
    assert LowerHex([0xE, 0x2, 0xC, 0xC, 0x9, 0x7, 0x1, 0x1]) == "e2cc9711";
  }

  lemma SpellTimeMid()
    ensures LowerHex(DEVICE_CHARACTERISTIC.timeMid) == "c6d2"
  {
    assert LowerHex([0xC, 0x6, 0xD, 0x2]) == "c6d2";
  }

  lemma SpellTimeHigh()
    ensures LowerHex(DEVICE_CHARACTERISTIC.timeHigh) == "464d"
  {
    assert LowerHex([0x4, 0x6, 0x4, 0xD]) == "464d";
  }

  lemma SpellClockSeq()
    ensures LowerHex(DEVICE_CHARACTERISTIC.clockSeq) == "ac7c"
  {
    assert LowerHex([0xA, 0xC, 0x7, 0xC]) == "ac7c";
  }

  lemma SpellNode()
    ensures LowerHex(DEVICE_CHARACTERISTIC.node) == "25dc96" + "3f0bde"
  {
    var front, back: seq<Nibble> := [0x2, 0x5, 0xD, 0xC, 0x9, 0x6], [0x3, 0xF, 0x0, 0xB, 0xD, 0xE];
    assert LowerHex(front) == "25dc96";
    assert LowerHex(back) == "3f0bde";
    LowerHexConcat(front, back);
    assert front + back == DEVICE_CHARACTERISTIC.node;
  }

  /**
   * UUID.fromString(DEVICE_CHARACTERISTIC_UUID).toString() is the constant in
   * lower case: DEVICE_CHARACTERISTIC transcribes the constant, and the two
   * texts differ only in the case of their letters.
   */
  lemma DeviceCharacteristicText()
    ensures UuidToString(DEVICE_CHARACTERISTIC) == LowerCase(DEVICE_CHARACTERISTIC_UUID)
  {
    ConstantGroups();
    LowerTimeLow(); LowerGroups(); LowerNode();
    DeviceCharacteristicSpelling();
    SpelledAsLowerCase(DEVICE_CHARACTERISTIC, "E2CC9711", "C6D2", "464D", "AC7C", "25DC96" + "3F0BDE");
  }

  /** A UUID whose groups spell the parts of a dashed text in lower case prints as that text in lower case. */
  lemma SpelledAsLowerCase(u: Uuid, g1: string, g2: string, g3: string, g4: string, g5: string)
    requires LowerHex(u.timeLow) == LowerCase(g1) && LowerHex(u.timeMid) == LowerCase(g2)
    requires LowerHex(u.timeHigh) == LowerCase(g3) && LowerHex(u.clockSeq) == LowerCase(g4)
    requires LowerHex(u.node) == LowerCase(g5)
    ensures UuidToString(u) == LowerCase(g1 + "-" + g2 + "-" + g3 + "-" + g4 + "-" + g5)
  {
    LowerCaseDashed(g1, g2, g3, g4, g5);
  }

  /** The constant is its five groups joined by dashes. */
  lemma ConstantGroups()
    ensures DEVICE_CHARACTERISTIC_UUID == "E2CC9711" + "-" + "C6D2" + "-" + "464D" + "-" + "AC7C" + "-" + ("25DC96" + "3F0BDE")
  {
  }

  lemma LowerTimeLow()
    ensures LowerCase("E2CC9711") == "e2cc9711"
  {
    LowerCaseConcat("E2CC", "9711");
    assert LowerCase("E2CC") == "e2cc";
    assert LowerCase("9711") == "9711";
  }

  lemma LowerGroups()
    ensures LowerCase("C6D2") == "c6d2" && LowerCase("464D") == "464d" && LowerCase("AC7C") == "ac7c"
  {
    assert LowerCase("C6D2") == "c6d2";
    assert LowerCase("464D") == "464d";
    assert LowerCase("AC7C") == "ac7c";
  }

  lemma LowerNode()
    ensures LowerCase("25DC96" + "3F0BDE") == "25dc96" + "3f0bde"
  {
    LowerCaseConcat("25DC96", "3F0BDE");
    assert LowerCase("25DC96") == "25dc96";
    assert LowerCase("3F0BDE") == "3f0bde";
  }
}
