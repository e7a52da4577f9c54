/**
  The encrypted phone number column: padding, cipher block chaining with a fixed
  initialisation vector and hexadecimal text, over any invertible block function.  Equality
  of the stored texts is equality of the numbers, so searching the column is exact.
 */
module PhoneColumn {
  import opened Values

  const BLOCK_SIZE: nat := 8

  type Block = b: Bytes | |b| == BLOCK_SIZE witness [0, 0, 0, 0, 0, 0, 0, 0]

  /** decrypt undoes encrypt on blocks. */
  ghost predicate Invertible(encrypt: Block -> Block, decrypt: Block -> Block) {
    forall b: Block :: decrypt(encrypt(b)) == b
  }

  // ------------------------------------------------------------------ padding, section 6.3 of RFC 5652

  function Pad(data: Bytes): (r: Bytes)
    ensures |r| % BLOCK_SIZE == 0 && |data| < |r| <= |data| + BLOCK_SIZE
  {
    var padding := BLOCK_SIZE - |data| % BLOCK_SIZE;
    data + seq(padding, _ => padding as bv8)
  }

  /** None where the slice bounds of the source panic. */
  function Unpad(data: Bytes): (r: Option<Bytes>) {
    if data == [] then None else
    var padding := data[|data| - 1] as int;
    if padding > |data| then None else Some(data[..|data| - padding])
  }

  /** The padding bytes tell how many they are. */
  lemma PadBytes(data: Bytes)
    ensures data <= Pad(data) && forall i :: |data| <= i < |Pad(data)| ==> Pad(data)[i] as int == |Pad(data)| - |data|
  {
    var padding := BLOCK_SIZE - |data| % BLOCK_SIZE;
    assert (padding as bv8) as int == padding;
  }

  lemma UnpadPad(data: Bytes)
    ensures Unpad(Pad(data)) == Some(data)
  {
    var padding := BLOCK_SIZE - |data| % BLOCK_SIZE;
    assert (padding as bv8) as int == padding;
    var r := Pad(data);
    assert r[|r| - 1] == padding as bv8;
    assert r[..|r| - padding] == data;
  }

  // ------------------------------------------------------------------ cipher block chaining

  function Xor(a: Block, b: Block): (r: Block) {
    seq(BLOCK_SIZE, i requires 0 <= i < BLOCK_SIZE => a[i] ^ b[i])
  }

  lemma XorByte(x: bv8, y: bv8)
    ensures (x ^ y) ^ y == x
  {
  }

  lemma XorTwice(a: Block, b: Block)
    ensures Xor(Xor(a, b), b) == a
  {
    forall i | 0 <= i < BLOCK_SIZE ensures Xor(Xor(a, b), b)[i] == a[i] {
      XorByte(a[i], b[i]);
    }
  }

  function EncryptBlocks(encrypt: Block -> Block, iv: Block, data: Bytes): (r: Bytes)
    requires |data| % BLOCK_SIZE == 0
    ensures |r| == |data|
    decreases |data|
  {
    if data == [] then [] else
    var c := encrypt(Xor(data[..BLOCK_SIZE], iv));
    c + EncryptBlocks(encrypt, c, data[BLOCK_SIZE..])
  }

  function DecryptBlocks(decrypt: Block -> Block, iv: Block, data: Bytes): (r: Bytes)
    requires |data| % BLOCK_SIZE == 0
    ensures |r| == |data|
    decreases |data|
  {
    if data == [] then [] else
    Xor(decrypt(data[..BLOCK_SIZE]), iv) + DecryptBlocks(decrypt, data[..BLOCK_SIZE], data[BLOCK_SIZE..])
  }

  lemma {:induction false} DecryptEncryptBlocks(encrypt: Block -> Block, decrypt: Block -> Block, iv: Block, data: Bytes)
    requires Invertible(encrypt, decrypt) && |data| % BLOCK_SIZE == 0
    ensures DecryptBlocks(decrypt, iv, EncryptBlocks(encrypt, iv, data)) == data
    decreases |data|
  {
    if data != [] {
      var first, rest := data[..BLOCK_SIZE], data[BLOCK_SIZE..];
      var c := encrypt(Xor(first, iv));
      DecryptEncryptBlocks(encrypt, decrypt, c, rest);
      XorTwice(first, iv);
      FirstBlock(decrypt, iv, c, EncryptBlocks(encrypt, c, rest));
    }
  }

  /** Block i of some data. */
  function BlockAt(data: Bytes, i: nat): (b: Block)
    requires (i + 1) * BLOCK_SIZE <= |data|
  {
    data[i * BLOCK_SIZE..(i + 1) * BLOCK_SIZE]
  }

  /** Every block is encrypted after it is combined with the one written before it, the first with the vector. */
  lemma {:induction false} CipherChain(encrypt: Block -> Block, iv: Block, data: Bytes, i: nat)
    requires |data| % BLOCK_SIZE == 0 && (i + 1) * BLOCK_SIZE <= |data|
    ensures var r := EncryptBlocks(encrypt, iv, data);
      BlockAt(r, i) == encrypt(Xor(BlockAt(data, i), if i == 0 then iv else BlockAt(r, i - 1)))
    decreases |data|
  {
    var c, rest := encrypt(Xor(data[..BLOCK_SIZE], iv)), data[BLOCK_SIZE..];
    var r := EncryptBlocks(encrypt, iv, data);
    assert r == c + EncryptBlocks(encrypt, c, rest);
    assert BlockAt(r, 0) == c && BlockAt(data, 0) == data[..BLOCK_SIZE];
    if i > 0 {
      CipherChain(encrypt, c, rest, i - 1);
      LaterBlock(c, EncryptBlocks(encrypt, c, rest), i);
      LaterBlock(data[..BLOCK_SIZE], rest, i);
      assert data == data[..BLOCK_SIZE] + rest;
      if i > 1 { LaterBlock(c, EncryptBlocks(encrypt, c, rest), i - 1); }
    }
  }

  lemma LaterBlock(first: Block, rest: Bytes, i: nat)
    requires 0 < i && i * BLOCK_SIZE <= |rest|
    ensures BlockAt(first + rest, i) == BlockAt(rest, i - 1)
  {
  }

  lemma FirstBlock(decrypt: Block -> Block, iv: Block, c: Block, rest: Bytes)
    requires |rest| % BLOCK_SIZE == 0
    ensures DecryptBlocks(decrypt, iv, c + rest) == Xor(decrypt(c), iv) + DecryptBlocks(decrypt, c, rest)
  {
    assert (c + rest)[..BLOCK_SIZE] == c && (c + rest)[BLOCK_SIZE..] == rest;
  }

  // ------------------------------------------------------------------ hexadecimal text

  function Digit(n: bv8): (c: char)
    requires n < 16
  {
    if n == 0 then '0' else if n == 1 then '1' else if n == 2 then '2' else if n == 3 then '3'
    else if n == 4 then '4' else if n == 5 then '5' else if n == 6 then '6' else if n == 7 then '7'
    else if n == 8 then '8' else if n == 9 then '9' else if n == 10 then 'a' else if n == 11 then 'b'
    else if n == 12 then 'c' else if n == 13 then 'd' else if n == 14 then 'e' else 'f'
  }

  function Nibble(c: char): (n: Option<bv8>) {
    if c == '0' then Some(0) else if c == '1' then Some(1) else if c == '2' then Some(2) else if c == '3' then Some(3)
    else if c == '4' then Some(4) else if c == '5' then Some(5) else if c == '6' then Some(6) else if c == '7' then Some(7)
    else if c == '8' then Some(8) else if c == '9' then Some(9)
    else if c == 'a' || c == 'A' then Some(10) else if c == 'b' || c == 'B' then Some(11)
    else if c == 'c' || c == 'C' then Some(12) else if c == 'd' || c == 'D' then Some(13)
    else if c == 'e' || c == 'E' then Some(14) else if c == 'f' || c == 'F' then Some(15)
    else None
  }

  lemma NibbleDigit(n: bv8)
    requires n < 16
    ensures Nibble(Digit(n)) == Some(n)
  {
  }

  lemma Halves(b: bv8)
    ensures b >> 4 < 16 && b & 15 < 16 && ((b >> 4) << 4) | (b & 15) == b
  {
  }

  function HexEncode(data: Bytes): (s: string) {
    if data == [] then "" else
    Halves(data[0]);
    [Digit(data[0] >> 4), Digit(data[0] & 15)] + HexEncode(data[1..])
  }

  function HexDecode(s: string): (r: Option<Bytes>) {
    if s == "" then Some([]) else if |s| == 1 then None else
    match (Nibble(s[0]), Nibble(s[1]), HexDecode(s[2..]))
    case (Some(hi), Some(lo), Some(rest)) => Some([(hi << 4) | lo] + rest)
    case _ => None
  }

  const DIGITS: string := "0123456789abcdef"

  /** Two lower case digits a byte, the high half first. */
  lemma {:induction false} HexDigits(data: Bytes, i: nat)
    requires i < |data|
    ensures |HexEncode(data)| == 2 * |data|
    ensures HexEncode(data)[2 * i] == DIGITS[data[i] as int / 16] && HexEncode(data)[2 * i + 1] == DIGITS[data[i] as int % 16]
  {
    if |data| > 1 {
      HexDigits(data[1..], if i > 0 then i - 1 else 0);
    }
    HexByte(data[0]);
  }

  lemma HexByte(b: bv8)
    ensures b >> 4 < 16 && b & 15 < 16 && b as int < 256
    ensures Digit(b >> 4) == DIGITS[b as int / 16] && Digit(b & 15) == DIGITS[b as int % 16]
  {
    Halves(b);
    HalvesAreDigits(b);
    DigitIs(b >> 4);
    DigitIs(b & 15);
  }

  lemma HalvesAreDigits(b: bv8)
    ensures (b >> 4) as int == b as int / 16 && (b & 15) as int == b as int % 16
  {
    assert b >> 4 == b / 16 && b & 15 == b % 16;
  }

  lemma DigitIs(n: bv8)
    requires n < 16
    ensures n as int < 16 && Digit(n) == DIGITS[n as int]
  {
    assert n == 0 || n == 1 || n == 2 || n == 3 || n == 4 || n == 5 || n == 6 || n == 7 ||
           n == 8 || n == 9 || n == 10 || n == 11 || n == 12 || n == 13 || n == 14 || n == 15;
  }

  lemma {:induction false} HexRoundTrip(data: Bytes)
    ensures HexDecode(HexEncode(data)) == Some(data)
  {
    if data != [] {
      var b := data[0];
      HexRoundTrip(data[1..]);
      Halves(b);
      NibbleDigit(b >> 4);
      NibbleDigit(b & 15);
      assert HexEncode(data)[2..] == HexEncode(data[1..]);
      assert [b] + data[1..] == data;
    }
  }

  // ------------------------------------------------------------------ the column

  function Sealed(encrypt: Block -> Block, key: Block, number: Bytes): (s: string) {
    HexEncode(EncryptBlocks(encrypt, key, Pad(number)))
  }

  /** None where the source returns an error or panics. */
  function Opened(decrypt: Block -> Block, key: Block, s: string): (r: Option<Bytes>) {
    match HexDecode(s)
    case None => None
    case Some(data) => if |data| % BLOCK_SIZE != 0 then None else Unpad(DecryptBlocks(decrypt, key, data))
  }

  /** Reading a stored number gives it back. */
  lemma OpenedSealed(encrypt: Block -> Block, decrypt: Block -> Block, key: Block, number: Bytes)
    requires Invertible(encrypt, decrypt)
    ensures Opened(decrypt, key, Sealed(encrypt, key, number)) == Some(number)
  {
    var data := EncryptBlocks(encrypt, key, Pad(number));
    HexRoundTrip(data);
    DecryptEncryptBlocks(encrypt, decrypt, key, Pad(number));
    UnpadPad(number);
  }

  /** Stored texts are equal exactly when the numbers are. */
  lemma SealedIsExact(encrypt: Block -> Block, decrypt: Block -> Block, key: Block, a: Bytes, b: Bytes)
    requires Invertible(encrypt, decrypt)
    ensures Sealed(encrypt, key, a) == Sealed(encrypt, key, b) <==> a == b
  {
    OpenedSealed(encrypt, decrypt, key, a);
    OpenedSealed(encrypt, decrypt, key, b);
  }

  datatype Info = Info(phoneNumber: Bytes, anonymityId: string, content: string, createTime: int)

  datatype Row = Row(phoneNumber: string, anonymityId: string, content: string, createTime: int)

  function ToRow(encrypt: Block -> Block, key: Block, info: Info): (row: Row) {
    Row(Sealed(encrypt, key, info.phoneNumber), info.anonymityId, info.content, info.createTime)
  }

  /** t_anonymous_sms_vcode; records is what its rows stand for. */
  class Vcodes {
    const encrypt: Block -> Block
    const decrypt: Block -> Block
    const key: Block
    var rows: map<string, Row>
    ghost var records: map<string, Info>

    ghost predicate Valid()
      reads this
    {
      && Invertible(encrypt, decrypt)
      && rows.Keys == records.Keys
      && forall id :: id in rows ==> rows[id] == ToRow(encrypt, key, records[id])
    }

    constructor (encrypt: Block -> Block, decrypt: Block -> Block, key: Block)
      requires Invertible(encrypt, decrypt)
      ensures Valid() && records == map[]
    {
      this.encrypt, this.decrypt, this.key := encrypt, decrypt, key;
      rows, records := map[], map[];
    }

    /** A second row with the id breaks the primary key. */
    method Create(id: string, info: Info) returns (ok: bool)
      requires Valid()
      modifies this
      ensures Valid() && ok == (id !in old(records))
      ensures records == if ok then old(records)[id := info] else old(records)
    {
      if id in rows {
        return false;
      }
      var phoneNumber := Sealed(encrypt, key, info.phoneNumber);
      rows := rows[id := Row(phoneNumber, info.anonymityId, info.content, info.createTime)];
      records := records[id := info];
      ok := true;
    }

    method GetInfoByID(id: string) returns (r: Option<Info>)
      requires Valid()
      ensures r == if id in records then Some(records[id]) else None
    {
      if id !in rows {
        return None;
      }
      var row := rows[id];
      OpenedSealed(encrypt, decrypt, key, records[id].phoneNumber);
      var number := Opened(decrypt, key, row.phoneNumber);
      if number.None? {
        return None;
      }
      r := Some(Info(number.value, row.anonymityId, row.content, row.createTime));
    }

    /** Exactly the records of that number and account since the cutoff go. */
    method DeleteRecordWithinValidityPeriod(phoneNumber: Bytes, anonymityId: string, cutoff: int)
      requires Valid()
      modifies this
      ensures Valid()
      ensures forall id :: id in records ==> id in old(records) && records[id] == old(records)[id]
      ensures forall id :: id in old(records) ==> (id !in records <==>
        && old(records)[id].phoneNumber == phoneNumber && old(records)[id].anonymityId == anonymityId
        && old(records)[id].createTime >= cutoff)
    {
      var wanted := Sealed(encrypt, key, phoneNumber);
      forall id | id in rows
        ensures Hit(rows[id], wanted, anonymityId, cutoff) <==> Matches(records[id], phoneNumber, anonymityId, cutoff)
      {
        SealedIsExact(encrypt, decrypt, key, records[id].phoneNumber, phoneNumber);
      }
      rows := map id | id in rows && !Hit(rows[id], wanted, anonymityId, cutoff) :: rows[id];
      records := map id | id in records && !Matches(records[id], phoneNumber, anonymityId, cutoff) :: records[id];
    }
  }

  /** The where clause of the delete statement. */
  predicate Hit(row: Row, sealed: string, anonymityId: string, cutoff: int) {
    row.phoneNumber == sealed && row.anonymityId == anonymityId && row.createTime >= cutoff
  }

  predicate Matches(info: Info, phoneNumber: Bytes, anonymityId: string, cutoff: int) {
    info.phoneNumber == phoneNumber && info.anonymityId == anonymityId && info.createTime >= cutoff
  }
}
