/** Octets, options, addresses, replay windows and the small facts the other modules share. */
module Common {

  datatype Option<+T> = None | Some(value: T) {
    function GetOr(default: T): T {
      if Some? then value else default
    }
  }

  type byte = x: int | 0 <= x < 256
  type Bytes = seq<byte>

  type Mac = nat

  const MAX_PACKET_NUMBER: nat := 0xffff_ffff_ffff

  // One counter per QoS TID, and slot 16 for frames without one.
  type Window = w: seq<nat> | |w| == 17 witness [0, 0, 0, 0, 0, 0, 0, 0, 0, 0, 0, 0, 0, 0, 0, 0, 0]
  type Slot = i: nat | i < 17

  function Uniform(v: nat): (w: Window)
    ensures forall i: Slot :: w[i] == v
  {
    [v, v, v, v, v, v, v, v, v, v, v, v, v, v, v, v, v]
  }

  function Min(a: nat, b: nat): nat {
    if a <= b then a else b
  }

  // A number's low `width` octets, least significant first.
  function LittleEndian(value: nat, width: nat): (b: Bytes)
    ensures |b| == width
  {
    if width == 0 then [] else [value % 256] + LittleEndian(value / 256, width - 1)
  }

  function FromLittleEndian(b: Bytes): nat {
    if b == [] then 0 else b[0] + 256 * FromLittleEndian(b[1..])
  }

  function Pow256(n: nat): (p: nat)
    ensures p > 0
  {
    if n == 0 then 1 else 256 * Pow256(n - 1)
  }

  lemma {:induction false} LittleEndianRoundTrip(value: nat, width: nat)
    ensures FromLittleEndian(LittleEndian(value, width)) == value % Pow256(width)
  {
    if width > 0 {
      var p := Pow256(width - 1);
      LittleEndianRoundTrip(value / 256, width - 1);
      assert LittleEndian(value, width)[1..] == LittleEndian(value / 256, width - 1);
      DivModTower(value, p);
    }
  }

  lemma {:induction false} DivModTower(v: nat, p: nat)
    requires p > 0
    ensures v % 256 + 256 * ((v / 256) % p) == v % (256 * p)
  {
    var q, r := (v / 256) / p, (v / 256) % p;
    assert v / 256 == q * p + r;
    var low := v % 256 + 256 * r;
    assert v == (256 * p) * q + low;
    assert 256 * r + 256 <= 256 * p;
    EuclidUnique(v, 256 * p, q, low);
  }

  lemma {:induction false} EuclidUnique(v: nat, m: nat, q: nat, r: nat)
    requires m > 0 && v == m * q + r && r < m
    ensures v % m == r && v / m == q
  {
    assert m * (v / m - q) == r - v % m;
    MultipleInside(m, v / m - q);
  }

  lemma {:induction false} MultipleInside(m: int, d: int)
    requires m >= 0
    ensures d >= 1 ==> m * d >= m
    ensures d <= -1 ==> m * d <= -m
  {
    if d >= 1 {
      assert m * d == m + m * (d - 1);
    } else if d <= -1 {
      assert m * d == -m + m * (d + 1);
    }
  }

  lemma {:induction false} SubsetSize<T>(a: set<T>, b: set<T>)
    requires a <= b
    ensures |a| <= |b|
  {
    if a != {} {
      var x :| x in a;
      SubsetSize(a - {x}, b - {x});
    }
  }
}
