/** Ping ids: the client's IPv4 address in the high half, a counter in the low
    half. A server tells the completion of a PONG from that of an ACK by the work
    request id: a PONG's is its ping id, an ACK's is a constant. */
module PingId {
  import opened Bits
  import opened TimeDelta

  const NUM_BUFFER: nat := 256
  const WRID_PONG_ACK: nat := NUM_BUFFER * 4

  function MakePingid(high: nat, low: nat): nat {
    Or(high * MODULO, low)
  }

  function ParsePingid(value: nat): (nat, nat) {
    (value / MODULO % MODULO, And(value, MODULO - 1))
  }

  /** Or of numbers without common bits is their sum. */
  lemma {:induction false} OrIsSum(high: nat, low: nat, k: nat)
    requires low < Pow2(k)
    ensures Or(high * Pow2(k), low) == high * Pow2(k) + low
  {
    if k == 0 {
      OrZero(high);
    } else {
      var h := high * Pow2(k - 1);
      assert high * Pow2(k) == 2 * h by { Associate(high, 2, Pow2(k - 1)); Associate(2, high, Pow2(k - 1)); }
      OrIsSum(high, low / 2, k - 1);
      OrHalves(h, low);
    }
  }

  lemma OrHalves(h: nat, low: nat)
    ensures Or(2 * h, low) == 2 * Or(h, low / 2) + low % 2
  {
    if h == 0 && low == 0 {
    } else {
      assert 2 * h / 2 == h && (2 * h) % 2 == 0;
    }
  }

  lemma PingidIsSum(high: nat, low: nat)
    requires low < MODULO
    ensures MakePingid(high, low) == high * MODULO + low
  {
    ModuloIsPow2(32);
    OrIsSum(high, low, 32);
  }

  /** The two halves come back from the id. */
  lemma PingidRoundTrip(high: nat, low: nat)
    requires high < MODULO && low < MODULO
    ensures ParsePingid(MakePingid(high, low)) == (high, low)
  {
    var id := MakePingid(high, low);
    PingidIsSum(high, low);
    DivModUnique(id, MODULO, high, low);
    SmallMod(high, MODULO);
    LowHalf(id, 32);
  }

  lemma LowHalf(id: nat, k: nat)
    requires k == 32
    ensures And(id, MODULO - 1) == id % MODULO
  {
    ModuloIsPow2(k);
    Pow2IsPow2(k);
    AndIsMod(id, MODULO);
  }

  /** And the id from its halves. */
  lemma PingidOfHalves(id: nat)
    requires id < WORD
    ensures MakePingid(ParsePingid(id).0, ParsePingid(id).1) == id
  {
    WordIsSquare(32);
    var q, r := id / MODULO, id % MODULO;
    assert id == q * MODULO + r;
    QuotientSmall(id, MODULO);
    SmallMod(q, MODULO);
    LowHalf(id, 32);
    PingidIsSum(q, r);
  }

  lemma QuotientSmall(x: nat, m: nat)
    requires m > 0 && x < m * m
    ensures x / m < m
  {
    if x / m >= m {
      MulMono(m, x / m, m);
    }
  }

  /** A PONG's completion is taken for an ACK's exactly when the address half is 0
      and the counter is 1024: never for an address that is not 0. */
  lemma WridCollidesIff(high: nat, low: nat)
    requires low < MODULO
    ensures MakePingid(high, low) == WRID_PONG_ACK <==> high == 0 && low == WRID_PONG_ACK
  {
    PingidIsSum(high, low);
    if high > 0 {
      MulMono(1, high, MODULO);
    }
  }
}
