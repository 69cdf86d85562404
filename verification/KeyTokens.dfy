/**
 The over-the-air fields. HMAC-SHA256 is a parameter: nothing here depends on what it
 computes, only on both sides computing the same 32 bytes, truncated to the leftmost four
 as section 5 of RFC 2104 allows.
 */
module KeyTokens {
  import opened Common
  import opened KeyTable

  type Mac = s: seq<byte> | |s| == 32 witness seq(32, _ => 0)
  type Hmac = (seq<byte>, seq<byte>) -> Mac

  function SlotSeconds(cfg: Config): nat {
    if cfg.rotation < 1 then 1 else cfg.rotation
  }

  function Slot(cfg: Config, now: nat): nat {
    now / SlotSeconds(cfg)
  }

  /** The last `n` base-256 digits of `v`, most significant first: `u64::to_be_bytes` for n = 8. */
  function BigEndian(v: nat, n: nat): (s: seq<byte>)
    ensures |s| == n
  {
    if n == 0 then [] else BigEndian(v / 256, n - 1) + [v % 256]
  }

  function TokenForSlot(hmac: Hmac, key: BroadcastKey, slot: nat): seq<byte> {
    hmac(key.material, BigEndian(slot, 8))[..4]
  }

  function GenerateToken(hmac: Hmac, cfg: Config, key: BroadcastKey, now: nat): (t: seq<byte>)
    ensures |t| == 4
  {
    TokenForSlot(hmac, key, Slot(cfg, now))
  }

  // ── What a receiver that holds the key material computes ─────────────────────────────

  /** The number a byte string spells, most significant byte first. */
  function Reading(bytes: seq<byte>): nat {
    if bytes == [] then 0 else Reading(Front(bytes)) * 256 + Last(bytes)
  }

  const U64: nat := 0x1_0000_0000_0000_0000

  /** `token` is the first four bytes of the MAC, under `material`, of `slot` as eight bytes. */
  ghost predicate TokenOf(hmac: Hmac, material: KeyMaterial, slot: nat, token: seq<byte>) {
    exists message: seq<byte> ::
      |message| == 8 && Reading(message) == slot % U64 && token == hmac(material, message)[..4]
  }

  /** A receiver holds the material and accepts tokens of its own slot and of both neighbours. */
  ghost predicate Accepts(hmac: Hmac, rotation: nat, material: KeyMaterial, now: nat, token: seq<byte>) {
    var slot := now / (if rotation == 0 then 1 else rotation);
    || TokenOf(hmac, material, slot, token)
    || TokenOf(hmac, material, slot + 1, token)
    || (slot > 0 && TokenOf(hmac, material, slot - 1, token))
  }

  function Pow256(n: nat): (p: nat)
    ensures p > 0
  {
    if n == 0 then 1 else 256 * Pow256(n - 1)
  }

  /** Splitting off the last digit of a remainder. */
  lemma SplitDigit(v: nat, p: nat)
    requires p > 0
    ensures v % (256 * p) == (v / 256) % p * 256 + v % 256
  {
    var q, d := v / 256, v % 256;
    var k, r := q / p, q % p;
    assert v == 256 * q + d && q == p * k + r;
    assert v == 256 * (p * k) + (256 * r + d);
    assert 256 * (p * k) == (256 * p) * k by { MulAssoc(256, p, k); }
    RemainderIs(v, 256 * p, k, 256 * r + d);
  }

  lemma MulAssoc(a: nat, b: nat, c: nat)
    ensures a * (b * c) == (a * b) * c
  {
  }

  lemma RemainderIs(v: nat, m: nat, k: nat, r: nat)
    requires v == m * k + r && r < m
    ensures v % m == r
  {
    var q := v / m;
    SlotSpan(v, m);
    assert q * m < (k + 1) * m by { assert (k + 1) * m == m * k + m; }
    assert k * m < (q + 1) * m by { assert (q + 1) * m == q * m + m; }
    MulCancels(q, k + 1, m);
    MulCancels(k, q + 1, m);
  }

  /** The bytes of `BigEndian` spell the number they were made from. */
  lemma {:induction false} BigEndianReads(v: nat, n: nat)
    ensures Reading(BigEndian(v, n)) == v % Pow256(n)
  {
    if n > 0 {
      BigEndianReads(v / 256, n - 1);
      SplitDigit(v, Pow256(n - 1));
      assert Front(BigEndian(v, n)) == BigEndian(v / 256, n - 1);
    }
  }

  lemma {:induction false} Pow256Is64Bits()
    ensures Pow256(8) == U64
  {
    assert Pow256(4) == 256 * Pow256(3) && Pow256(3) == 256 * Pow256(2) && Pow256(2) == 256 * Pow256(1) && Pow256(1) == 256;
    assert Pow256(8) == 256 * Pow256(7) && Pow256(7) == 256 * Pow256(6) && Pow256(6) == 256 * Pow256(5) && Pow256(5) == 256 * Pow256(4);
  }

  /** Two messages of the same length that spell the same number are the same. */
  lemma {:induction false} ReadingIsInjective(a: seq<byte>, b: seq<byte>)
    requires |a| == |b| && Reading(a) == Reading(b)
    ensures a == b
  {
    if a != [] {
      var x, y := Reading(Front(a)), Reading(Front(b));
      assert x * 256 + Last(a) == y * 256 + Last(b);
      assert x == y && Last(a) == Last(b);
      ReadingIsInjective(Front(a), Front(b));
      assert a == Front(a) + [Last(a)] && b == Front(b) + [Last(b)];
    }
  }

  lemma SlotTokens(hmac: Hmac, key: BroadcastKey, slot: nat)
    ensures TokenOf(hmac, key.material, slot, TokenForSlot(hmac, key, slot))
  {
    BigEndianReads(slot, 8);
    Pow256Is64Bits();
    assert |BigEndian(slot, 8)| == 8;
  }

  /**
   The token at `now` is the one token of slot now / max(1, rotation) under the key's material:
   nothing else of the key enters it, and there is no other token for that slot.
   */
  lemma TokenIsTruncatedMac(hmac: Hmac, cfg: Config, key: BroadcastKey, now: nat, token: seq<byte>)
    ensures TokenOf(hmac, key.material, now / (if cfg.rotation == 0 then 1 else cfg.rotation), token)
       <==> token == GenerateToken(hmac, cfg, key, now)
  {
    var slot := now / (if cfg.rotation == 0 then 1 else cfg.rotation);
    SlotTokens(hmac, key, slot);
    if TokenOf(hmac, key.material, slot, token) {
      var a: seq<byte> :| |a| == 8 && Reading(a) == slot % U64 && token == hmac(key.material, a)[..4];
      var t := GenerateToken(hmac, cfg, key, now);
      var b: seq<byte> :| |b| == 8 && Reading(b) == slot % U64 && t == hmac(key.material, b)[..4];
      ReadingIsInjective(a, b);
    }
  }

  lemma SlotSpan(now: nat, r: nat)
    requires r >= 1
    ensures (now / r) * r <= now < (now / r) * r + r
  {
  }

  /** Instants at most `r` apart lie in the same slot or in neighbouring ones. */
  lemma NearbySlots(a: nat, b: nat, r: nat)
    requires r >= 1 && a <= b <= a + r
    ensures a / r <= b / r <= a / r + 1
  {
    var p, q := a / r, b / r;
    SlotSpan(a, r);
    SlotSpan(b, r);
    assert (q + 1) * r == q * r + r && (p + 2) * r == p * r + 2 * r;
    MulCancels(p, q + 1, r);
    MulCancels(q, p + 2, r);
  }

  /** A receiver whose clock is off by at most one rotation interval accepts the sender's token. */
  lemma DriftIsTolerated(hmac: Hmac, cfg: Config, key: BroadcastKey, sender: nat, receiver: nat)
    requires sender <= receiver + SlotSeconds(cfg) && receiver <= sender + SlotSeconds(cfg)
    ensures Accepts(hmac, cfg.rotation, key.material, receiver, GenerateToken(hmac, cfg, key, sender))
  {
    SlotTokens(hmac, key, Slot(cfg, sender));
    if sender <= receiver {
      NearbySlots(sender, receiver, SlotSeconds(cfg));
    } else {
      NearbySlots(receiver, sender, SlotSeconds(cfg));
    }
  }

  /** A MAC that shows the last byte of its message. */
  function LastByteMac(material: seq<byte>, message: seq<byte>): Mac {
    [if message == [] then 0 else Last(message)] + seq(31, _ => 0)
  }

  lemma LastByteTokens(material: KeyMaterial, slot: nat, token: seq<byte>)
    requires TokenOf(LastByteMac, material, slot, token)
    ensures |token| == 4 && token[0] == slot % U64 % 256
  {
    var m: seq<byte> :| |m| == 8 && Reading(m) == slot % U64 && token == LastByteMac(material, m)[..4];
    assert Reading(m) == Reading(Front(m)) * 256 + Last(m);
  }

  lemma TwoSlotsApart(r: nat)
    requires r >= 1
    ensures (r - 1) / r == 0 && (2 * r) / r == 2
  {
    SlotSpan(2 * r, r);
    var q := (2 * r) / r;
    assert (q + 1) * r == q * r + r;
    MulCancels(q, 3, r);
    MulCancels(2, q + 1, r);
  }

  lemma LastByteSlotsDiffer(key: BroadcastKey, slot: nat)
    requires 1 <= slot <= 3
    ensures !TokenOf(LastByteMac, key.material, slot, TokenForSlot(LastByteMac, key, 0))
  {
    var token := TokenForSlot(LastByteMac, key, 0);
    SlotTokens(LastByteMac, key, 0);
    LastByteTokens(key.material, 0, token);
    if TokenOf(LastByteMac, key.material, slot, token) {
      LastByteTokens(key.material, slot, token);
    }
  }

  /** One second more can be too much: the slots are then two apart and a receiver may reject. */
  lemma MoreDriftCanMiss(cfg: Config, key: BroadcastKey)
    requires cfg.rotation >= 1
    ensures var sender, receiver := cfg.rotation - 1, 2 * cfg.rotation;
            !Accepts(LastByteMac, cfg.rotation, key.material, receiver, GenerateToken(LastByteMac, cfg, key, sender))
  {
    TwoSlotsApart(cfg.rotation);
    LastByteSlotsDiffer(key, 1);
    LastByteSlotsDiffer(key, 2);
    LastByteSlotsDiffer(key, 3);
  }

  /** The tokens derived during one key's active window take at most two adjacent slots. */
  lemma WindowTakesTwoSlots(cfg: Config, created: nat, now: nat)
    requires cfg.rotation >= 1 && created <= now < created + cfg.rotation
    ensures Slot(cfg, now) == Slot(cfg, created) || Slot(cfg, now) == Slot(cfg, created) + 1
  {
    NearbySlots(created, now, cfg.rotation);
  }

  // ── Hexadecimal ──────────────────────────────────────────────────────────────────────

  const DIGITS: string := "0123456789abcdef"

  function HexByte(b: byte): (s: string)
    ensures |s| == 2
  {
    [DIGITS[b / 16], DIGITS[b % 16]]
  }

  function HexEncode(bytes: seq<byte>): string {
    if bytes == [] then [] else HexByte(bytes[0]) + HexEncode(bytes[1..])
  }

  /** The value of a lower-case hexadecimal digit, by its character code. */
  function DigitValue(c: char): Option<nat> {
    if '0' <= c <= '9' then Some((c - '0') as nat)
    else if 'a' <= c <= 'f' then Some(10 + (c - 'a') as nat)
    else None
  }

  function HexDecode(s: string): Option<seq<byte>> {
    if s == [] then Some([])
    else if |s| == 1 then None
    else
      var hi, lo, rest := DigitValue(s[0]), DigitValue(s[1]), HexDecode(s[2..]);
      if hi.None? || lo.None? || rest.None? || hi.value > 15 || lo.value > 15 then None
      else Some([hi.value * 16 + lo.value] + rest.value)
  }

  lemma DigitRoundTrip(n: nat)
    requires n < 16
    ensures DigitValue(DIGITS[n]) == Some(n)
  {
    assert DIGITS[0] == '0' && DIGITS[1] == '1' && DIGITS[2] == '2' && DIGITS[3] == '3';
    assert DIGITS[4] == '4' && DIGITS[5] == '5' && DIGITS[6] == '6' && DIGITS[7] == '7';
    assert DIGITS[8] == '8' && DIGITS[9] == '9' && DIGITS[10] == 'a' && DIGITS[11] == 'b';
    assert DIGITS[12] == 'c' && DIGITS[13] == 'd' && DIGITS[14] == 'e' && DIGITS[15] == 'f';
  }

  /** Encoding doubles the length and decodes back, for all byte strings. */
  lemma {:induction false} HexRoundTrip(bytes: seq<byte>)
    ensures |HexEncode(bytes)| == 2 * |bytes|
    ensures HexDecode(HexEncode(bytes)) == Some(bytes)
  {
    if bytes != [] {
      HexRoundTrip(bytes[1..]);
      DigitRoundTrip(bytes[0] / 16);
      DigitRoundTrip(bytes[0] % 16);
      var s, b := HexEncode(bytes), bytes[0];
      assert s == [DIGITS[b / 16], DIGITS[b % 16]] + HexEncode(bytes[1..]);
      assert s[2..] == HexEncode(bytes[1..]) && s[0] == DIGITS[b / 16] && s[1] == DIGITS[b % 16];
      assert (b / 16) * 16 + b % 16 == b;
      assert [b] + bytes[1..] == bytes;
    }
  }

  /** `ota_fields`: `(kid, tok)`. */
  function OtaFields(hmac: Hmac, cfg: Config, key: BroadcastKey, now: nat): (string, string) {
    (HexEncode(key.keyId), HexEncode(GenerateToken(hmac, cfg, key, now)))
  }

  /**
   Both fields are eight characters; a receiver that looks the key up by `kid` and whose clock
   is off by at most one rotation interval finds `tok` among its three slots.
   */
  lemma OtaFieldsAuthenticate(hmac: Hmac, cfg: Config, key: BroadcastKey, sender: nat, receiver: nat)
    requires sender <= receiver + SlotSeconds(cfg) && receiver <= sender + SlotSeconds(cfg)
    ensures var (kid, tok) := OtaFields(hmac, cfg, key, sender);
            && |kid| == 8 && |tok| == 8
            && HexDecode(kid) == Some(key.keyId)
            && HexDecode(tok).Some? && Accepts(hmac, cfg.rotation, key.material, receiver, HexDecode(tok).value)
  {
    HexRoundTrip(key.keyId);
    HexRoundTrip(GenerateToken(hmac, cfg, key, sender));
    DriftIsTolerated(hmac, cfg, key, sender, receiver);
  }
}
