/**
 * The device registry built from a registry telegram (message type 2561):
 * the payload is read as packed 4-byte records `[addrHi, addrLo, fBlockID,
 * instanceID]`, and each record is appended, in payload order, to the list
 * filed under its function-block label.
 *
 * Both copies of the parse loop (the `AutomationServer` and the `SinkManager`)
 * are identical, so this module is shared; the loop itself lives in
 * `Gate.CommandGate.BuildRegistry`, which is proved equal to `Parse` below.
 */
module RegistryParse {
  import opened Optional

  /** One byte of a Node `Buffer`. */
  type byte = x: int | 0 <= x < 0x100

  /** The value of `readUint16BE`. */
  type uint16 = x: int | 0 <= x < 0x1_0000

  /** One device record, as pushed by the parse loop. */
  datatype Entry = Entry(address: uint16, instanceID: byte, fBlockID: byte)

  /** Label -> devices of that function block, in payload order. */
  type Registry = map<string, seq<Entry>>

  /**
   * The closed `fBlocks` table of function-block names, as (ID, name) pairs
   * in the order the object literal lists them.
   */
  const FBlocks: seq<(byte, string)> := [
    (0x01, "NetBlock"),
    (0x02, "NetworkMaster"),
    (0x03, "ConnectionMaster"),
    (0x05, "Vehicle"),
    (0x06, "Diagnosis"),
    (0x07, "DebugMessages"),
    (0x0e, "Tool"),
    (0x0f, "EnhancedTestibility"),
    (0x10, "Sources"),
    (0x21, "33"),
    (0x22, "Amplifier"),
    (0x23, "35"),
    (0x24, "AuxIn"),
    (0x26, "MicrophoneInput"),
    (0x30, "AudioTapePlayer"),
    (0x31, "AudioDiskPlayer"),
    (0x34, "DVDVideoPlayer"),
    (0x40, "AmFmTuner"),
    (0x41, "TMCTuner"),
    (0x42, "TVTuner"),
    (0x43, "DABTuner"),
    (0x44, "SDARS"),
    (0x50, "Telephone"),
    (0x51, "GeneralPhoneBook"),
    (0x60, "GraphicDisplay"),
    (0xf5, "245"),
    (0xf0, "240"),
    (0x71, "Climate")
  ]

  const AmplifierLabel: string := "Amplifier"
  const AmplifierBlock: byte := 0x22

  // ---------------------------------------------------------------------
  // Decimal rendering: a numeric object key becomes its decimal string
  // ---------------------------------------------------------------------

  predicate IsDigit(c: char) {
    '0' <= c <= '9'
  }

  predicate AllDigits(s: string) {
    forall i :: 0 <= i < |s| ==> IsDigit(s[i])
  }

  function DigitChar(d: nat): char
    requires d < 10
  {
    ('0' as int + d) as char
  }

  function DigitValue(c: char): nat
    requires IsDigit(c)
  {
    c as int - '0' as int
  }

  /** `String(n)`: the canonical decimal form, without leading zeros. */
  function DecimalString(n: nat): (s: string)
    ensures |s| >= 1 && AllDigits(s)
    ensures s[0] == '0' <==> n == 0
    decreases n
  {
    if n < 10 then [DigitChar(n)] else DecimalString(n / 10) + [DigitChar(n % 10)]
  }

  /** The number a string of decimal digits denotes. */
  function DecimalValue(s: string): nat
    requires AllDigits(s)
  {
    if s == [] then 0 else 10 * DecimalValue(s[..|s| - 1]) + DigitValue(s[|s| - 1])
  }

  /** Reading back the decimal form gives the number again. */
  lemma {:induction false} DecimalRoundTrip(n: nat)
    ensures DecimalValue(DecimalString(n)) == n
    decreases n
  {
    var s := DecimalString(n);
    if n >= 10 {
      assert s[..|s| - 1] == DecimalString(n / 10);
      DecimalRoundTrip(n / 10);
    }
  }

  lemma DecimalStringInjective(a: nat, b: nat)
    requires DecimalString(a) == DecimalString(b)
    ensures a == b
  {
    DecimalRoundTrip(a);
    DecimalRoundTrip(b);
  }

  // ---------------------------------------------------------------------
  // Label resolution
  // ---------------------------------------------------------------------

  /** `id in fBlocks ? fBlocks[id] : ...`: the name a table gives an ID, if any. */
  function TableName(t: seq<(byte, string)>, id: byte): Option<string> {
    if t == [] then None
    else if t[0].0 == id then Some(t[0].1)
    else TableName(t[1..], id)
  }

  /** No name is given to two IDs. */
  predicate NamesDistinct(t: seq<(byte, string)>) {
    forall i, j :: 0 <= i < j < |t| ==> t[i].1 != t[j].1
  }

  /** A name that starts with a digit is the decimal form of its own ID. */
  predicate NumericNamesCanonical(t: seq<(byte, string)>) {
    forall i :: 0 <= i < |t| && t[i].1 != [] && IsDigit(t[i].1[0]) ==> t[i].1 == DecimalString(t[i].0)
  }

  /**
   * The key a record is filed under: the table's name when the ID is one of
   * its keys, otherwise the ID itself, which JavaScript turns into its
   * decimal string when it is used as an object key.
   */
  function Label(id: byte): string {
    match TableName(FBlocks, id)
    case Some(name) => name
    case None => DecimalString(id)
  }

  /**
   * A fingerprint of a non-empty name: its length and its first, middle and
   * last characters. Equal names have equal fingerprints. Comparing these
   * short tuples is much cheaper for the verifier than comparing the 28
   * table names character by character, which is why `TableNames` goes
   * through them.
   */
  function Fingerprint(s: string): (int, char, char, char)
    requires s != []
  {
    (|s|, s[0], s[|s| / 2], s[|s| - 1])
  }

  /** The fingerprints of the table's names, row by row. */
  const Prints: seq<(int, char, char, char)> := [
    (8, 'N', 'l', 'k'),
    (13, 'N', 'k', 'r'),
    (16, 'C', 'o', 'r'),
    (7, 'V', 'i', 'e'),
    (9, 'D', 'n', 's'),
    (13, 'D', 'e', 's'),
    (4, 'T', 'o', 'l'),
    (19, 'E', 'e', 'y'),
    (7, 'S', 'r', 's'),
    (2, '3', '3', '3'),
    (9, 'A', 'i', 'r'),
    (2, '3', '5', '5'),
    (5, 'A', 'x', 'n'),
    (15, 'M', 'o', 't'),
    (15, 'A', 'p', 'r'),
    (15, 'A', 's', 'r'),
    (14, 'D', 'o', 'r'),
    (9, 'A', 'T', 'r'),
    (8, 'T', 'u', 'r'),
    (7, 'T', 'u', 'r'),
    (8, 'D', 'u', 'r'),
    (5, 'S', 'A', 'S'),
    (9, 'T', 'p', 'e'),
    (16, 'G', 'h', 'k'),
    (14, 'G', 'D', 'y'),
    (3, '2', '4', '5'),
    (3, '2', '4', '0'),
    (7, 'C', 'm', 'e')
  ]

  /** Rows 0 to 13 have the listed fingerprints... */
  lemma PrintsLow()
    ensures |FBlocks| == 28 && |Prints| == 28
    ensures forall i :: 0 <= i < 14 ==> FBlocks[i].1 != [] && Fingerprint(FBlocks[i].1) == Prints[i]
  {
  }

  /** ...and so do rows 14 to 27... */
  lemma PrintsHigh()
    ensures |FBlocks| == 28 && |Prints| == 28
    ensures forall i :: 14 <= i < 28 ==> FBlocks[i].1 != [] && Fingerprint(FBlocks[i].1) == Prints[i]
  {
  }

  /** ...and no two rows share a fingerprint. */
  lemma PrintsDistinct()
    ensures |Prints| == 28 && forall i, j :: 0 <= i < j < 28 ==> Prints[i] != Prints[j]
  {
  }

  /** ...so no two of them are equal. */
  lemma TableNames()
    ensures |FBlocks| == 28 && NamesDistinct(FBlocks)
  {
    PrintsLow();
    PrintsHigh();
    PrintsDistinct();
    forall i, j | 0 <= i < j < 28
      ensures FBlocks[i].1 != FBlocks[j].1
    {
      assert Fingerprint(FBlocks[i].1) != Fingerprint(FBlocks[j].1);
    }
  }

  /** Rows 9, 11, 25 and 26 hold the table's only names that start with a digit... */
  lemma TableLetterNames()
    ensures |FBlocks| == 28
    ensures forall i :: 0 <= i < 28 && i != 9 && i != 11 && i != 25 && i != 26 ==>
              FBlocks[i].1 != [] && !IsDigit(FBlocks[i].1[0])
  {
  }

  /** ...and those are the decimal forms of their keys. */
  lemma TableDecimalNames()
    ensures FBlocks[9].1 == DecimalString(FBlocks[9].0) && FBlocks[11].1 == DecimalString(FBlocks[11].0)
    ensures FBlocks[25].1 == DecimalString(FBlocks[25].0) && FBlocks[26].1 == DecimalString(FBlocks[26].0)
  {
    NumericKeys();
  }

  /** `String(33)`, `String(35)`, `String(245)` and `String(240)`. */
  lemma NumericKeys()
    ensures DecimalString(0x21) == "33" && DecimalString(0x23) == "35"
    ensures DecimalString(0xf5) == "245" && DecimalString(0xf0) == "240"
  {
    assert DecimalString(24) == "24";
  }

  /** So every numeric name in the table is the decimal form of its key. */
  lemma TableNumericNames()
    ensures NumericNamesCanonical(FBlocks)
  {
    TableLetterNames();
    TableDecimalNames();
  }

  /** An ID in no row has no name. */
  lemma {:induction false} TableNameMissing(t: seq<(byte, string)>, id: byte)
    requires forall i :: 0 <= i < |t| ==> t[i].0 != id
    ensures TableName(t, id) == None
  {
    if t != [] {
      assert forall i :: 0 <= i < |t[1..]| ==> t[1..][i] == t[i + 1];
      TableNameMissing(t[1..], id);
    }
  }

  /** The lookup finds the first row that holds the ID. */
  lemma {:induction false} TableNameAt(t: seq<(byte, string)>, i: nat)
    requires i < |t| && forall j :: 0 <= j < i ==> t[j].0 != t[i].0
    ensures TableName(t, t[i].0) == Some(t[i].1)
  {
    if i > 0 {
      assert t[1..][i - 1] == t[i];
      TableNameAt(t[1..], i - 1);
    }
  }

  /** A name the lookup finds sits in some row together with the ID. */
  lemma {:induction false} TableNameRow(t: seq<(byte, string)>, id: byte) returns (i: nat)
    requires TableName(t, id).Some?
    ensures i < |t| && t[i] == (id, TableName(t, id).value)
  {
    if t[0].0 == id {
      i := 0;
    } else {
      var j := TableNameRow(t[1..], id);
      i := j + 1;
    }
  }

  /** Label resolution is injective on byte IDs. */
  lemma LabelInjective(a: byte, b: byte)
    requires Label(a) == Label(b)
    ensures a == b
  {
    TableNames();
    TableNumericNames();
    var na, nb := TableName(FBlocks, a), TableName(FBlocks, b);
    if na.Some? && nb.Some? {
      var i := TableNameRow(FBlocks, a);
      var j := TableNameRow(FBlocks, b);
      assert FBlocks[i].1 == FBlocks[j].1;
    } else if na.Some? {
      var i := TableNameRow(FBlocks, a);
      assert DecimalString(b)[0] == FBlocks[i].1[0];
      DecimalStringInjective(a, b);
    } else if nb.Some? {
      var j := TableNameRow(FBlocks, b);
      assert DecimalString(a)[0] == FBlocks[j].1[0];
      DecimalStringInjective(a, b);
    } else {
      DecimalStringInjective(a, b);
    }
  }

  /** Block 0x22 is filed under "Amplifier"... */
  lemma AmplifierLabelExample()
    ensures Label(AmplifierBlock) == AmplifierLabel
  {
    TableNameAt(FBlocks, 10);
  }

  /** ...a block missing from the table under its decimal ID... */
  lemma UnknownLabelExample()
    ensures Label(0x99) == "153"
  {
    TableNameMissing(FBlocks, 0x99);
    DecimalRendering();
  }

  /** `String(153)` is "153". */
  lemma DecimalRendering()
    ensures DecimalString(153) == "153"
  {
    assert DecimalString(15) == "15";
  }

  /** ...and block 0x21, which the table names "33", under "33". */
  lemma NumericLabelExample()
    ensures Label(0x21) == "33"
  {
    TableNameAt(FBlocks, 9);
  }

  /** Only function block 0x22 is filed under "Amplifier". */
  lemma AmplifierLabelOnly(id: byte)
    ensures Label(id) == AmplifierLabel <==> id == AmplifierBlock
  {
    AmplifierLabelExample();
    if Label(id) == AmplifierLabel {
      LabelInjective(id, AmplifierBlock);
    }
  }

  // ---------------------------------------------------------------------
  // Records and the registry they build
  // ---------------------------------------------------------------------

  /** `readUint16BE(i)`: bytes i and i+1 as a big-endian 16-bit number. */
  function ReadUint16BE(p: seq<byte>, i: nat): uint16
    requires i + 2 <= |p|
  {
    (p[i] as int) * 0x100 + p[i + 1]
  }

  /** The high and low byte of the address are the two bytes it was read from. */
  lemma AddressBytes(p: seq<byte>, i: nat)
    requires i + 2 <= |p|
    ensures ReadUint16BE(p, i) / 0x100 == p[i] && ReadUint16BE(p, i) % 0x100 == p[i + 1]
  {
  }

  /** The record at offset `i`: big-endian address, then fBlockID, instanceID. */
  function RecordAt(p: seq<byte>, i: nat): Entry
    requires i + 4 <= |p|
  {
    Entry(ReadUint16BE(p, i), p[i + 3], p[i + 2])
  }

  /** The entries of the first `k` complete records, in payload order. */
  function Records(p: seq<byte>, k: nat): (rs: seq<Entry>)
    requires 4 * k <= |p|
    ensures |rs| == k
    ensures forall j :: 0 <= j < k ==> rs[j] == RecordAt(p, 4 * j)
  {
    if k == 0 then [] else Records(p, k - 1) + [RecordAt(p, 4 * (k - 1))]
  }

  /** `if (!(name in registry)) registry[name] = []` */
  function Touch(reg: Registry, name: string): (r: Registry)
    ensures name in r && r.Keys == reg.Keys + {name}
    ensures forall l :: l in reg ==> r[l] == reg[l]
    ensures name !in reg ==> r[name] == []
  {
    if name in reg then reg else reg[name := []]
  }

  /** The list under `name`, touched if missing, then `push(e)`. */
  function Push(reg: Registry, name: string, e: Entry): (r: Registry)
    ensures r.Keys == reg.Keys + {name}
    ensures forall l :: l in reg && l != name ==> r[l] == reg[l]
    ensures r[name] == (if name in reg then reg[name] else []) + [e]
  {
    var t := Touch(reg, name);
    t[name := t[name] + [e]]
  }

  /** Pushing onto an empty registry gives a one-entry list. */
  lemma PushFresh(name: string, e: Entry)
    ensures Push(map[], name, e) == map[name := [e]]
  {
    assert [] + [e] == [e];
  }

  /** Pushing onto the only list of a one-list registry appends to it. */
  lemma PushOnto(name: string, l: seq<Entry>, e: Entry)
    ensures Push(map[name := l], name, e) == map[name := l + [e]]
  {
  }

  /** Pushing under a new name adds a one-entry list and leaves the rest. */
  lemma PushNew(reg: Registry, name: string, e: Entry)
    requires name !in reg
    ensures Push(reg, name, e) == reg[name := [e]]
  {
    assert [] + [e] == [e];
  }

  /** The registry after the loop has handled the first `k` records. */
  function ParseRecords(p: seq<byte>, k: nat): Registry
    requires 4 * k <= |p|
  {
    if k == 0 then map[]
    else
      var e := RecordAt(p, 4 * (k - 1));
      Push(ParseRecords(p, k - 1), Label(e.fBlockID), e)
  }

  lemma ParseRecordsNext(p: seq<byte>, k: nat)
    requires 4 * k + 4 <= |p|
    ensures ParseRecords(p, k + 1) == Push(ParseRecords(p, k), Label(p[4 * k + 2]), RecordAt(p, 4 * k))
  {
  }

  /**
   * What the parse loop leaves behind. The loop runs `for (i = 0; i < length;
   * i += 4)`, so a payload whose length is not a multiple of 4 makes its last
   * iteration read past the end, and Node's `Buffer` read throws a RangeError.
   * The registry object was assigned before the loop, so what was pushed so
   * far stays: `RangeError` carries that partial registry.
   */
  datatype ParseOutcome = Parsed(registry: Registry) | RangeError(registry: Registry)

  /**
   * The parse, as the loop runs it. With 1 or 2 trailing bytes the read of
   * byte i+2 throws; with 3, byte i+2 is read and an empty list is created
   * under its label if that label has none yet, before the read of byte i+3
   * throws.
   */
  function Parse(p: seq<byte>): (r: ParseOutcome)
    ensures r.Parsed? <==> |p| % 4 == 0
  {
    ParseTail(p, |p| / 4, |p| % 4)
  }

  /** How the loop ends on `n` whole records followed by `tail` more bytes. */
  function ParseTail(p: seq<byte>, n: nat, tail: nat): (r: ParseOutcome)
    requires tail < 4 && |p| == 4 * n + tail
    ensures r.Parsed? <==> tail == 0
  {
    var whole := ParseRecords(p, n);
    if tail == 0 then Parsed(whole)
    else if tail == 3 then RangeError(Touch(whole, Label(p[4 * n + 2])))
    else RangeError(whole)
  }

  lemma DivMod4(n: nat, r: nat)
    requires r < 4
    ensures (4 * n + r) / 4 == n && (4 * n + r) % 4 == r
  {
  }

  /** The loop ends normally after the last complete record... */
  lemma ParseCompletes(p: seq<byte>, k: nat)
    requires |p| == 4 * k
    ensures Parse(p) == Parsed(ParseRecords(p, k))
  {
    DivMod4(k, 0);
    var n, tail := |p| / 4, |p| % 4;
    assert n == k && tail == 0;
    assert Parse(p) == ParseTail(p, n, tail);
  }

  /** ...or throws reading byte i+2 of a 1- or 2-byte tail... */
  lemma ParseThrowsOnFBlockID(p: seq<byte>, k: nat)
    requires 4 * k < |p| <= 4 * k + 2
    ensures Parse(p) == RangeError(ParseRecords(p, k))
  {
    DivMod4(k, |p| - 4 * k);
    var n, tail := |p| / 4, |p| % 4;
    assert n == k && 0 < tail < 3;
    assert Parse(p) == ParseTail(p, n, tail);
  }

  /** ...or throws reading byte i+3 of a 3-byte tail, after creating the label's list. */
  lemma ParseThrowsOnInstanceID(p: seq<byte>, k: nat)
    requires |p| == 4 * k + 3
    ensures Parse(p) == RangeError(Touch(ParseRecords(p, k), Label(p[4 * k + 2])))
  {
    DivMod4(k, 3);
    var n, tail := |p| / 4, |p| % 4;
    assert n == k && tail == 3;
    assert Parse(p) == ParseTail(p, n, tail);
  }

  // ---------------------------------------------------------------------
  // What the registry holds
  // ---------------------------------------------------------------------

  /** The entries of `rs` whose function block resolves to `name`, in payload order. */
  function Labelled(rs: seq<Entry>, name: string): (fs: seq<Entry>)
    ensures |fs| <= |rs|
    ensures forall e :: e in fs ==> e in rs && Label(e.fBlockID) == name
  {
    if rs == [] then []
    else
      var last := rs[|rs| - 1];
      Labelled(rs[..|rs| - 1], name) + (if Label(last.fBlockID) == name then [last] else [])
  }

  lemma LabelledAppend(rs: seq<Entry>, e: Entry, name: string)
    ensures Labelled(rs + [e], name)
         == Labelled(rs, name) + (if Label(e.fBlockID) == name then [e] else [])
  {
    assert (rs + [e])[..|rs|] == rs;
  }

  /**
   * The registry groups the records by label: a label is present exactly
   * when some record resolves to it, and its list is exactly those records
   * in payload order (a repeated label appends, it never overwrites).
   */
  lemma {:induction false} ParseGroups(p: seq<byte>, k: nat, name: string)
    requires 4 * k <= |p|
    ensures name in ParseRecords(p, k) <==> Labelled(Records(p, k), name) != []
    ensures name in ParseRecords(p, k) ==> ParseRecords(p, k)[name] == Labelled(Records(p, k), name)
  {
    if k > 0 {
      var e := RecordAt(p, 4 * (k - 1));
      ParseGroups(p, k - 1, name);
      LabelledAppend(Records(p, k - 1), e, name);
    }
  }

  lemma {:induction false} LabelledPrefix(rs: seq<Entry>, j: nat, name: string)
    requires j <= |rs|
    ensures Labelled(rs[..j], name) <= Labelled(rs, name)
    decreases |rs|
  {
    if j < |rs| {
      LabelledPrefix(rs[..|rs| - 1], j, name);
      assert rs[..|rs| - 1][..j] == rs[..j];
    } else {
      assert rs[..j] == rs;
    }
  }

  lemma RecordsPrefix(p: seq<byte>, k: nat, j: nat)
    requires 4 * k <= |p| && j <= k
    ensures Records(p, k)[..j] == Records(p, j)
  {
  }

  /**
   * Record `j` sits in its label's list at the position given by the number
   * of earlier records with the same label: payload order is kept.
   */
  lemma RecordPosition(p: seq<byte>, k: nat, j: nat)
    requires 4 * k <= |p| && j < k
    ensures var e := RecordAt(p, 4 * j);
            var reg := ParseRecords(p, k);
            var l := Label(e.fBlockID);
            var pos := |Labelled(Records(p, j), l)|;
            l in reg && pos < |reg[l]| && reg[l][pos] == e
  {
    var e := RecordAt(p, 4 * j);
    var l := Label(e.fBlockID);
    RecordListPrefix(p, k, j);
    ListPositionFromPrefix(p, k, j, l, e, Labelled(Records(p, j), l));
  }

  lemma RecordListPrefix(p: seq<byte>, k: nat, j: nat)
    requires 4 * k <= |p| && j < k
    ensures var e := RecordAt(p, 4 * j);
            var l := Label(e.fBlockID);
            Labelled(Records(p, k)[..j + 1], l) == Labelled(Records(p, j), l) + [e]
  {
    var e := RecordAt(p, 4 * j);
    RecordsPrefix(p, k, j + 1);
    assert Records(p, j + 1) == Records(p, j) + [e];
    LabelledAppend(Records(p, j), e, Label(e.fBlockID));
  }

  lemma ListPositionFromPrefix(p: seq<byte>, k: nat, j: nat, l: string, e: Entry, before: seq<Entry>)
    requires 4 * k <= |p| && j < k
    requires Labelled(Records(p, k)[..j + 1], l) == before + [e]
    ensures l in ParseRecords(p, k) && |before| < |ParseRecords(p, k)[l]|
    ensures ParseRecords(p, k)[l][|before|] == e
  {
    LabelledPrefix(Records(p, k), j + 1, l);
    ParseGroups(p, k, l);
  }

  /** All entries filed under one label carry the same function-block ID. */
  lemma OneBlockPerLabel(p: seq<byte>, k: nat, name: string, a: nat, b: nat)
    requires 4 * k <= |p|
    requires name in ParseRecords(p, k)
    requires a < |ParseRecords(p, k)[name]| && b < |ParseRecords(p, k)[name]|
    ensures ParseRecords(p, k)[name][a].fBlockID == ParseRecords(p, k)[name][b].fBlockID
  {
    ParseGroups(p, k, name);
    var fs := ParseRecords(p, k)[name];
    assert fs[a] in fs && fs[b] in fs;
    LabelInjective(fs[a].fBlockID, fs[b].fBlockID);
  }

  /** Every entry under "Amplifier", however the parse ended, is block 0x22. */
  lemma ParsedAmplifiers(p: seq<byte>, a: nat)
    requires AmplifierLabel in Parse(p).registry
    requires a < |Parse(p).registry[AmplifierLabel]|
    ensures Parse(p).registry[AmplifierLabel][a].fBlockID == AmplifierBlock
  {
    var n := |p| / 4;
    var whole := ParseRecords(p, n);
    ParseGroups(p, n, AmplifierLabel);
    if AmplifierLabel in whole {
      assert Parse(p).registry[AmplifierLabel] == whole[AmplifierLabel];
      var e := whole[AmplifierLabel][a];
      assert e in Labelled(Records(p, n), AmplifierLabel);
      AmplifierLabelOnly(e.fBlockID);
    } else {
      assert false;
    }
  }

  // ---------------------------------------------------------------------
  // Counting entries
  // ---------------------------------------------------------------------

  ghost function PickLabel(reg: Registry): (l: string)
    requires reg != map[]
    ensures l in reg
  {
    var l :| l in reg; l
  }

  /** The number of entries over all labels. */
  ghost function TotalSize(reg: Registry): nat
    decreases |reg|
  {
    if reg == map[] then 0
    else
      var l := PickLabel(reg);
      assert (reg - {l}).Keys == reg.Keys - {l};
      |reg[l]| + TotalSize(reg - {l})
  }

  /** `TotalSize` does not depend on which name it takes first. */
  lemma {:induction false} TotalSizeRemove(reg: Registry, l: string)
    requires l in reg
    ensures TotalSize(reg) == |reg[l]| + TotalSize(reg - {l})
    decreases |reg|
  {
    var m := PickLabel(reg);
    assert (reg - {m}).Keys == reg.Keys - {m};
    if m != l {
      assert (reg - {l}).Keys == reg.Keys - {l};
      TotalSizeRemove(reg - {m}, l);
      TotalSizeRemove(reg - {l}, m);
      assert reg - {m} - {l} == reg - {l} - {m};
    }
  }

  lemma TotalSizeTouch(reg: Registry, name: string)
    ensures TotalSize(Touch(reg, name)) == TotalSize(reg)
  {
    if name !in reg {
      var t := Touch(reg, name);
      TotalSizeRemove(t, name);
      assert t - {name} == reg;
    }
  }

  lemma TotalSizePush(reg: Registry, name: string, e: Entry)
    ensures TotalSize(Push(reg, name, e)) == TotalSize(reg) + 1
  {
    var r := Push(reg, name, e);
    TotalSizeRemove(r, name);
    if name in reg {
      TotalSizeRemove(reg, name);
      assert r - {name} == reg - {name};
    } else {
      assert r - {name} == reg;
    }
  }

  lemma ParseCountStep(p: seq<byte>, k: nat)
    requires 4 * k + 4 <= |p|
    ensures TotalSize(ParseRecords(p, k + 1)) == TotalSize(ParseRecords(p, k)) + 1
  {
    ParseRecordsNext(p, k);
    TotalSizePush(ParseRecords(p, k), Label(p[4 * k + 2]), RecordAt(p, 4 * k));
  }

  /** `k` records make exactly `k` entries. */
  lemma {:induction false} ParseCount(p: seq<byte>, k: nat)
    requires 4 * k <= |p|
    ensures TotalSize(ParseRecords(p, k)) == k
  {
    if k == 0 {
      assert ParseRecords(p, k) == map[];
    } else {
      var j := k - 1;
      ParseCount(p, j);
      ParseCountStep(p, j);
      assert j + 1 == k;
    }
  }

  /**
   * A payload of length L yields L / 4 entries: exactly all of them when
   * L is a multiple of 4, and otherwise those of the complete records before
   * the read that throws.
   */
  lemma ParseEntryCount(p: seq<byte>)
    ensures TotalSize(Parse(p).registry) == |p| / 4
  {
    ParseCount(p, |p| / 4);
    if |p| % 4 == 3 {
      TotalSizeTouch(ParseRecords(p, |p| / 4), Label(p[4 * (|p| / 4) + 2]));
    }
  }

  // ---------------------------------------------------------------------
  // Worked examples
  // ---------------------------------------------------------------------

  /** Two amplifier records and one 0x21 record. */
  const OrderPayload: seq<byte> := [0x10, 0x01, 0x22, 0x00, 0x10, 0x02, 0x22, 0x01, 0x20, 0x02, 0x21, 0x01]

  /** The first record opens the "Amplifier" list... */
  lemma OrderExampleFirst()
    ensures ParseRecords(OrderPayload, 1) == map[AmplifierLabel := [Entry(0x1001, 0, 0x22)]]
  {
    AmplifierLabelExample();
    var a1 := Entry(0x1001, 0, 0x22);
    assert RecordAt(OrderPayload, 0) == a1;
    ParseRecordsNext(OrderPayload, 0);
    PushFresh(AmplifierLabel, a1);
  }

  /** ...the second is appended to it... */
  lemma OrderExampleFirstTwo()
    ensures ParseRecords(OrderPayload, 2) == map[AmplifierLabel := [Entry(0x1001, 0, 0x22), Entry(0x1002, 1, 0x22)]]
  {
    AmplifierLabelExample();
    OrderExampleFirst();
    var a2 := Entry(0x1002, 1, 0x22);
    assert RecordAt(OrderPayload, 4) == a2;
    ParseRecordsNext(OrderPayload, 1);
    assert OrderPayload[6] == AmplifierBlock;
    PushOnto(AmplifierLabel, [Entry(0x1001, 0, 0x22)], a2);
    assert [Entry(0x1001, 0, 0x22)] + [a2] == [Entry(0x1001, 0, 0x22), a2];
  }

  /** ...and 0x21 is filed under "33": payload order is kept throughout. */
  lemma OrderExample()
    ensures Parse(OrderPayload) == Parsed(map[
              AmplifierLabel := [Entry(0x1001, 0, 0x22), Entry(0x1002, 1, 0x22)],
              "33" := [Entry(0x2002, 1, 0x21)]])
  {
    NumericLabelExample();
    OrderExampleFirstTwo();
    var b := Entry(0x2002, 1, 0x21);
    assert RecordAt(OrderPayload, 8) == b;
    ParseRecordsNext(OrderPayload, 2);
    assert AmplifierLabel[0] != '3';
    PushNew(ParseRecords(OrderPayload, 2), "33", b);
    ParseCompletes(OrderPayload, 3);
  }

  /**
   * A 3-byte payload whose block is the amplifier: a new, empty list is
   * created, then the read of the instance ID throws, leaving "Amplifier"
   * with an empty list.
   */
  lemma TruncatedAmplifierExample()
    ensures Parse([0x10, 0x01, 0x22]) == RangeError(map[AmplifierLabel := []])
  {
    var p: seq<byte> := [0x10, 0x01, 0x22];
    AmplifierLabelExample();
    ParseThrowsOnInstanceID(p, 0);
    assert Touch(map[], AmplifierLabel) == map[AmplifierLabel := []];
  }

  /**
   * A 3-byte tail whose label already has a list leaves that list as it is:
   * the amplifier entry read before the tail survives the throw.
   */
  lemma TruncatedKeepsExistingList()
    ensures Parse([0x10, 0x01, 0x22, 0x00, 0x10, 0x02, 0x22])
         == RangeError(map[AmplifierLabel := [Entry(0x1001, 0, 0x22)]])
  {
    var p: seq<byte> := [0x10, 0x01, 0x22, 0x00, 0x10, 0x02, 0x22];
    AmplifierLabelExample();
    var a1 := Entry(0x1001, 0, 0x22);
    assert RecordAt(p, 0) == a1;
    ParseRecordsNext(p, 0);
    PushFresh(AmplifierLabel, a1);
    ParseThrowsOnInstanceID(p, 1);
    assert p[6] == AmplifierBlock;
  }
}
