/**
 AES key wrap (RFC 3394) over an arbitrary block permutation. The two methods run the
 in-place indexed loops of the program; the functions give their meaning one step at a
 time; the lemmas show that wrapping and unwrapping are exact inverses and that the
 indexed form is the shift-register form of section 2.2.1.
 */
module KeyWrap {
  import opened Common

  type Semiblock = s: Bytes | |s| == 8 witness [0, 0, 0, 0, 0, 0, 0, 0]
  datatype Block = Block(hi: Semiblock, lo: Semiblock)

  type Cipher = (Bytes, Block) -> Block

  ghost predicate Permutation(enc: Cipher, dec: Cipher) {
    && (forall k, b {:trigger dec(k, enc(k, b))} :: dec(k, enc(k, b)) == b)
    && (forall k, b {:trigger enc(k, dec(k, b))} :: enc(k, dec(k, b)) == b)
  }

  const KEY_WRAP_IV: Semiblock := [0xA6, 0xA6, 0xA6, 0xA6, 0xA6, 0xA6, 0xA6, 0xA6]

  // ---- the register A and its counter -----------------------------------

  // Exclusive or of the low `width` bits, one bit at a time.
  function Xor(a: nat, b: nat, width: nat): nat {
    if width == 0 then 0 else (a + b) % 2 + 2 * Xor(a / 2, b / 2, width - 1)
  }

  function Pow2(n: nat): nat {
    if n == 0 then 1 else 2 * Pow2(n - 1)
  }

  lemma {:induction false} XorBit(a: nat, b: nat, rest: nat)
    ensures var x := (a + b) % 2 + 2 * rest;
            x / 2 == rest && (x + b) % 2 == a % 2
  {
    var x := (a + b) % 2 + 2 * rest;
    assert x / 2 == rest;
    assert x + b == a + 2 * (rest + b - (a + b) / 2);
  }

  lemma {:induction false} XorCancels(a: nat, b: nat, width: nat)
    requires a < Pow2(width)
    ensures Xor(a, b, width) < Pow2(width) && Xor(Xor(a, b, width), b, width) == a
  {
    if width > 0 {
      XorCancels(a / 2, b / 2, width - 1);
      XorBit(a, b, Xor(a / 2, b / 2, width - 1));
    }
  }

  function XorByte(a: byte, b: byte): byte
  {
    XorCancels(a, b, 8);
    Xor(a, b, 8)
  }

  lemma {:induction false} XorByteCancels(a: byte, b: byte)
    ensures XorByte(XorByte(a, b), b) == a
  {
    XorCancels(a, b, 8);
  }

  // The counter as the eight big-endian octets of a 64-bit word.
  function Counter(t: nat): Semiblock {
    var le := LittleEndian(t, 8);
    [le[7], le[6], le[5], le[4], le[3], le[2], le[1], le[0]]
  }

  function Mix(a: Semiblock, t: nat): Semiblock {
    var c := Counter(t);
    seq(8, i requires 0 <= i < 8 => XorByte(a[i], c[i]))
  }

  lemma {:induction false} MixCancels(a: Semiblock, t: nat)
    ensures Mix(Mix(a, t), t) == a
  {
    forall i | 0 <= i < 8 ensures Mix(Mix(a, t), t)[i] == a[i] {
      XorByteCancels(a[i], Counter(t)[i]);
    }
  }

  // ---- steps and passes ------------------------------------------------------

  datatype Registers = Registers(a: Semiblock, r: seq<Semiblock>)

  // Step t mixes the counter into A and rewrites semiblock i.
  function WrapAt(enc: Cipher, kek: Bytes, w: Registers, i: nat, t: nat): (x: Registers)
    requires i < |w.r|
    ensures |x.r| == |w.r|
  {
    var b := enc(kek, Block(w.a, w.r[i]));
    Registers(Mix(b.hi, t), w.r[i := b.lo])
  }

  function UnwrapAt(dec: Cipher, kek: Bytes, w: Registers, i: nat, t: nat): (x: Registers)
    requires i < |w.r|
    ensures |x.r| == |w.r|
  {
    var b := dec(kek, Block(Mix(w.a, t), w.r[i]));
    Registers(b.hi, w.r[i := b.lo])
  }

  // The first i steps of the pass that begins after `base` steps.
  function WrapPass(enc: Cipher, kek: Bytes, w: Registers, base: nat, i: nat): (x: Registers)
    requires i <= |w.r|
    ensures |x.r| == |w.r|
  {
    if i == 0 then w else WrapAt(enc, kek, WrapPass(enc, kek, w, base, i - 1), i - 1, base + i)
  }

  function UnwrapPass(dec: Cipher, kek: Bytes, w: Registers, base: nat, i: nat): (x: Registers)
    requires i <= |w.r|
    ensures |x.r| == |w.r|
    decreases i
  {
    if i == 0 then w else UnwrapPass(dec, kek, UnwrapAt(dec, kek, w, i - 1, base + i), base, i - 1)
  }

  // The number of steps in j passes over n semiblocks.
  function PassStart(n: nat, j: nat): nat {
    if j == 0 then 0 else PassStart(n, j - 1) + n
  }

  function WrapPasses(enc: Cipher, kek: Bytes, w: Registers, j: nat): (x: Registers)
    ensures |x.r| == |w.r|
  {
    if j == 0 then w else WrapPass(enc, kek, WrapPasses(enc, kek, w, j - 1), PassStart(|w.r|, j - 1), |w.r|)
  }

  function UnwrapPasses(dec: Cipher, kek: Bytes, w: Registers, j: nat): (x: Registers)
    ensures |x.r| == |w.r|
    decreases j
  {
    if j == 0 then w else UnwrapPasses(dec, kek, UnwrapPass(dec, kek, w, PassStart(|w.r|, j - 1), |w.r|), j - 1)
  }

  // ---- each undoes the other --------------------------------------------------

  lemma {:induction false} StepUndone(enc: Cipher, dec: Cipher, kek: Bytes, w: Registers, i: nat, t: nat)
    requires Permutation(enc, dec) && i < |w.r|
    ensures UnwrapAt(dec, kek, WrapAt(enc, kek, w, i, t), i, t) == w
    ensures WrapAt(enc, kek, UnwrapAt(dec, kek, w, i, t), i, t) == w
  {
    var b := enc(kek, Block(w.a, w.r[i]));
    MixCancels(b.hi, t);
    assert w.r[i := b.lo][i := w.r[i]] == w.r;
    var d := dec(kek, Block(Mix(w.a, t), w.r[i]));
    MixCancels(w.a, t);
    assert w.r[i := d.lo][i := w.r[i]] == w.r;
  }

  lemma {:induction false} WrapPassUndone(enc: Cipher, dec: Cipher, kek: Bytes, w: Registers, base: nat, i: nat)
    requires Permutation(enc, dec) && i <= |w.r|
    ensures UnwrapPass(dec, kek, WrapPass(enc, kek, w, base, i), base, i) == w
  {
    hide Mix, WrapAt, UnwrapAt, Permutation;
    if i > 0 {
      WrapPassUndone(enc, dec, kek, w, base, i - 1);
      StepUndone(enc, dec, kek, WrapPass(enc, kek, w, base, i - 1), i - 1, base + i);
    }
  }

  lemma {:induction false} UnwrapPassUndone(enc: Cipher, dec: Cipher, kek: Bytes, w: Registers, base: nat, i: nat)
    requires Permutation(enc, dec) && i <= |w.r|
    ensures WrapPass(enc, kek, UnwrapPass(dec, kek, w, base, i), base, i) == w
    decreases i
  {
    hide Mix, WrapAt, UnwrapAt, Permutation;
    if i > 0 {
      UnwrapPassUndone(enc, dec, kek, UnwrapAt(dec, kek, w, i - 1, base + i), base, i - 1);
      StepUndone(enc, dec, kek, w, i - 1, base + i);
    }
  }

  lemma {:induction false} WrapPassesUndone(enc: Cipher, dec: Cipher, kek: Bytes, w: Registers, j: nat)
    requires Permutation(enc, dec)
    ensures UnwrapPasses(dec, kek, WrapPasses(enc, kek, w, j), j) == w
  {
    hide WrapPass, UnwrapPass, Permutation, PassStart;
    if j > 0 {
      WrapPassesUndone(enc, dec, kek, w, j - 1);
      WrapPassUndone(enc, dec, kek, WrapPasses(enc, kek, w, j - 1), PassStart(|w.r|, j - 1), |w.r|);
    }
  }

  lemma {:induction false} UnwrapPassesUndone(enc: Cipher, dec: Cipher, kek: Bytes, w: Registers, j: nat)
    requires Permutation(enc, dec)
    ensures WrapPasses(enc, kek, UnwrapPasses(dec, kek, w, j), j) == w
    decreases j
  {
    hide WrapPass, UnwrapPass, Permutation, PassStart;
    if j > 0 {
      UnwrapPassesUndone(enc, dec, kek, UnwrapPass(dec, kek, w, PassStart(|w.r|, j - 1), |w.r|), j - 1);
      UnwrapPassUndone(enc, dec, kek, w, PassStart(|w.r|, j - 1), |w.r|);
    }
  }

  // ---- octet strings and semiblocks ---------------------------------------

  function Split(b: Bytes): (s: seq<Semiblock>)
    ensures |s| == |b| / 8
  {
    if |b| < 8 then [] else [b[..8]] + Split(b[8..])
  }

  function Join(s: seq<Semiblock>): (b: Bytes)
    ensures |b| == 8 * |s|
  {
    if s == [] then [] else s[0] + Join(s[1..])
  }

  lemma {:induction false} SplitJoin(s: seq<Semiblock>)
    ensures Split(Join(s)) == s
  {
    if s != [] {
      SplitJoin(s[1..]);
      assert Join(s)[..8] == s[0] && Join(s)[8..] == Join(s[1..]);
    }
  }

  lemma {:induction false} JoinSplit(b: Bytes)
    requires |b| % 8 == 0
    ensures Join(Split(b)) == b
  {
    if b != [] {
      JoinSplit(b[8..]);
      assert Split(b)[1..] == Split(b[8..]);
      assert b == b[..8] + b[8..];
    }
  }

  lemma {:induction false} SplitIndex(b: Bytes, i: nat)
    requires i < |b| / 8
    ensures Split(b)[i] == b[8 * i..8 * i + 8]
  {
    if i > 0 {
      SplitIndex(b[8..], i - 1);
      assert b[8..][8 * (i - 1)..8 * (i - 1) + 8] == b[8 * i..8 * i + 8];
    }
  }

  // ---- the meaning of the two programs -------------------------------------

  // Trailing octets beyond the last whole semiblock are not read.
  function Wrap(enc: Cipher, kek: Bytes, plain: Bytes): Bytes {
    var w := WrapPasses(enc, kek, Registers(KEY_WRAP_IV, Split(plain)), 6);
    w.a + Join(w.r)
  }

  function Unwrap(dec: Cipher, kek: Bytes, wrapped: Bytes): Option<Bytes> {
    if |wrapped| < 16 || |wrapped| % 8 != 0 then None else
      var w := UnwrapPasses(dec, kek, Registers(wrapped[..8], Split(wrapped[8..])), 6);
      if w.a != KEY_WRAP_IV then None else Some(Join(w.r))
  }

  // Exact two-sided inverse: unwrapping yields p just when p is what was wrapped.
  lemma {:induction false} UnwrapIffWrapped(enc: Cipher, dec: Cipher, kek: Bytes, wrapped: Bytes, p: Bytes)
    requires Permutation(enc, dec)
    ensures Unwrap(dec, kek, wrapped) == Some(p)
       <==> |p| >= 8 && |p| % 8 == 0 && Wrap(enc, kek, p) == wrapped
  {
    hide Unwrap, Wrap, Permutation;
    if Unwrap(dec, kek, wrapped) == Some(p) {
      UnwrapThenWrap(enc, dec, kek, wrapped, p);
    }
    if |p| >= 8 && |p| % 8 == 0 && Wrap(enc, kek, p) == wrapped {
      WrapThenUnwrap(enc, dec, kek, p);
    }
  }

  // Unwrapping reads back the registers whose octets it is given.
  lemma {:induction false} UnwrapReads(dec: Cipher, kek: Bytes, w: Registers)
    requires w.r != []
    ensures Unwrap(dec, kek, w.a + Join(w.r))
         == (var u := UnwrapPasses(dec, kek, w, 6);
             if u.a != KEY_WRAP_IV then None else Some(Join(u.r)))
  {
    hide UnwrapPasses;
    var wrapped := w.a + Join(w.r);
    assert wrapped[..8] == w.a && wrapped[8..] == Join(w.r);
    SplitJoin(w.r);
  }

  lemma {:induction false} WrapThenUnwrap(enc: Cipher, dec: Cipher, kek: Bytes, p: Bytes)
    requires Permutation(enc, dec) && |p| >= 8 && |p| % 8 == 0
    ensures Unwrap(dec, kek, Wrap(enc, kek, p)) == Some(p)
  {
    hide WrapPasses, UnwrapPasses, Unwrap, Split, Permutation;
    var start := Registers(KEY_WRAP_IV, Split(p));
    UnwrapReads(dec, kek, WrapPasses(enc, kek, start, 6));
    WrapPassesUndone(enc, dec, kek, start, 6);
    JoinSplit(p);
  }

  lemma {:induction false} UnwrapThenWrap(enc: Cipher, dec: Cipher, kek: Bytes, wrapped: Bytes, p: Bytes)
    requires Permutation(enc, dec) && Unwrap(dec, kek, wrapped) == Some(p)
    ensures |p| >= 8 && |p| % 8 == 0 && Wrap(enc, kek, p) == wrapped
  {
    hide WrapPasses, UnwrapPasses, Split, Join, Permutation;
    var rest := wrapped[8..];
    var start := Registers(wrapped[..8], Split(rest));
    var w := UnwrapPasses(dec, kek, start, 6);
    SplitJoin(w.r);
    UnwrapPassesUndone(enc, dec, kek, start, 6);
    JoinSplit(rest);
    assert wrapped == wrapped[..8] + rest;
  }

  // ---- the shift-register definition, RFC 3394 sections 2.2.1 and 2.2.2 ------

  function ShiftStep(enc: Cipher, kek: Bytes, w: Registers, t: nat): (x: Registers)
    requires w.r != []
    ensures |x.r| == |w.r|
  {
    var b := enc(kek, Block(w.a, w.r[0]));
    Registers(Mix(b.hi, t), w.r[1..] + [b.lo])
  }

  // Steps base + 1 to base + count.
  function ShiftSteps(enc: Cipher, kek: Bytes, w: Registers, base: nat, count: nat): (x: Registers)
    requires w.r != []
    ensures |x.r| == |w.r|
  {
    if count == 0 then w else ShiftStep(enc, kek, ShiftSteps(enc, kek, w, base, count - 1), base + count)
  }

  function UnshiftStep(dec: Cipher, kek: Bytes, w: Registers, t: nat): (x: Registers)
    requires w.r != []
    ensures |x.r| == |w.r|
  {
    var last := |w.r| - 1;
    var b := dec(kek, Block(Mix(w.a, t), w.r[last]));
    Registers(b.hi, [b.lo] + w.r[..last])
  }

  // Steps t down to 1.
  function UnshiftSteps(dec: Cipher, kek: Bytes, w: Registers, t: nat): (x: Registers)
    requires w.r != []
    ensures |x.r| == |w.r|
    decreases t
  {
    if t == 0 then w else UnshiftSteps(dec, kek, UnshiftStep(dec, kek, w, t), t - 1)
  }

  lemma {:induction false} RotateUpdate(r: seq<Semiblock>, i: nat, v: Semiblock)
    requires i < |r|
    ensures var y := r[i := v];
            (r[i..] + r[..i])[1..] + [v] == y[i + 1..] + y[..i + 1]
  {
    assert (r[i..] + r[..i])[1..] == r[i + 1..] + r[..i];
    assert r[i := v][..i + 1] == r[..i] + [v];
  }

  // Inside a pass the shift register is the indexed one rotated left by the steps done.
  lemma {:induction false} PassIsRotation(enc: Cipher, kek: Bytes, w: Registers, base: nat, i: nat)
    requires w.r != [] && i <= |w.r|
    ensures ShiftSteps(enc, kek, w, base, i)
         == (var x := WrapPass(enc, kek, w, base, i); Registers(x.a, x.r[i..] + x.r[..i]))
  {
    hide Mix;
    if i > 0 {
      PassIsRotation(enc, kek, w, base, i - 1);
      var x := WrapPass(enc, kek, w, base, i - 1);
      RotateUpdate(x.r, i - 1, enc(kek, Block(x.a, x.r[i - 1])).lo);
    }
  }

  lemma {:induction false} ShiftStepsCompose(enc: Cipher, kek: Bytes, w: Registers, first: nat, second: nat)
    requires w.r != []
    ensures ShiftSteps(enc, kek, w, 0, first + second)
         == ShiftSteps(enc, kek, ShiftSteps(enc, kek, w, 0, first), first, second)
  {
    hide ShiftStep;
    if second > 0 {
      ShiftStepsCompose(enc, kek, w, first, second - 1);
    }
  }

  lemma {:induction false} PassesAreShifts(enc: Cipher, kek: Bytes, w: Registers, j: nat)
    requires w.r != []
    ensures WrapPasses(enc, kek, w, j) == ShiftSteps(enc, kek, w, 0, PassStart(|w.r|, j))
  {
    hide ShiftStep, WrapPass;
    if j > 0 {
      var n, done := |w.r|, PassStart(|w.r|, j - 1);
      var x := WrapPasses(enc, kek, w, j - 1);
      PassesAreShifts(enc, kek, w, j - 1);
      PassIsRotation(enc, kek, x, done, n);
      var y := WrapPass(enc, kek, x, done, n);
      assert y.r[n..] + y.r[..n] == y.r;
      ShiftStepsCompose(enc, kek, w, done, n);
    }
  }

  lemma {:induction false} SixPasses(n: nat)
    ensures PassStart(n, 6) == 6 * n
  {
    PassStartIsProduct(n, 6);
  }

  // Wrapping as section 2.2.1 states it: 6n steps of the shift register.
  lemma {:induction false} WrapIsShiftRegister(enc: Cipher, kek: Bytes, plain: Bytes)
    requires |plain| >= 8
    ensures var p := Split(plain);
            var s := ShiftSteps(enc, kek, Registers(KEY_WRAP_IV, p), 0, 6 * |p|);
            Wrap(enc, kek, plain) == s.a + Join(s.r)
  {
    hide ShiftSteps, WrapPasses, PassStart, Split;
    var p := Split(plain);
    SixPasses(|p|);
    PassesAreShifts(enc, kek, Registers(KEY_WRAP_IV, p), 6);
  }

  lemma {:induction false} ShiftUndone(enc: Cipher, dec: Cipher, kek: Bytes, w: Registers, t: nat)
    requires Permutation(enc, dec) && w.r != []
    ensures UnshiftStep(dec, kek, ShiftStep(enc, kek, w, t), t) == w
  {
    var b := enc(kek, Block(w.a, w.r[0]));
    MixCancels(b.hi, t);
    var s := ShiftStep(enc, kek, w, t);
    assert s.r[..|w.r| - 1] == w.r[1..];
    assert [w.r[0]] + w.r[1..] == w.r;
  }

  lemma {:induction false} ShiftsUndone(enc: Cipher, dec: Cipher, kek: Bytes, w: Registers, t: nat)
    requires Permutation(enc, dec) && w.r != []
    ensures UnshiftSteps(dec, kek, ShiftSteps(enc, kek, w, 0, t), t) == w
  {
    hide ShiftStep, UnshiftStep, Permutation;
    if t > 0 {
      ShiftUndone(enc, dec, kek, ShiftSteps(enc, kek, w, 0, t - 1), t);
      ShiftsUndone(enc, dec, kek, w, t - 1);
    }
  }

  // Unwrapping as section 2.2.2 states it, for every input the program does not refuse.
  lemma {:induction false} UnwrapIsShiftRegister(enc: Cipher, dec: Cipher, kek: Bytes, wrapped: Bytes)
    requires Permutation(enc, dec) && |wrapped| >= 16 && |wrapped| % 8 == 0
    ensures var c := Split(wrapped[8..]);
            var s := UnshiftSteps(dec, kek, Registers(wrapped[..8], c), 6 * |c|);
            Unwrap(dec, kek, wrapped) == if s.a == KEY_WRAP_IV then Some(Join(s.r)) else None
  {
    hide ShiftSteps, UnshiftSteps, WrapPasses, UnwrapPasses, PassStart, Split, Permutation;
    var start := Registers(wrapped[..8], Split(wrapped[8..]));
    var w := UnwrapPasses(dec, kek, start, 6);
    UnwrapPassesUndone(enc, dec, kek, start, 6);
    SixPasses(|start.r|);
    PassesAreShifts(enc, kek, w, 6);
    ShiftsUndone(enc, dec, kek, w, 6 * |start.r|);
  }

  // ---- the programs ---------------------------------------------------------

  lemma {:induction false} PassStartIsProduct(n: nat, j: nat)
    ensures PassStart(n, j) == n * j
  {
    if j > 0 {
      PassStartIsProduct(n, j - 1);
    }
  }

  // The semiblocks of `b` from octet `skip` on, as an array with `lead` unused elements before them.
  method Load(b: Bytes, lead: nat) returns (r: array<Semiblock>)
    requires |b| / 8 >= lead
    ensures fresh(r) && r.Length == |b| / 8
    ensures r[lead..] == Split(b)[lead..]
  {
    r := new Semiblock[|b| / 8](i requires 0 <= i < |b| / 8 => b[8 * i..8 * i + 8]);
    forall i | lead <= i < |b| / 8 ensures r[i] == Split(b)[i] {
      SplitIndex(b, i);
    }
  }

  lemma {:induction false} JoinFrom(s: seq<Semiblock>)
    ensures Join(s) == if s == [] then [] else s[0] + Join(s[1..])
  {
  }

  method Concatenate(r: array<Semiblock>, from: nat) returns (b: Bytes)
    requires from <= r.Length
    ensures b == Join(r[from..])
  {
    hide Join;
    b := [];
    JoinFrom([]);
    for i := from to r.Length
      invariant b + Join(r[i..]) == Join(r[from..])
    {
      assert r[i..][1..] == r[i + 1..];
      JoinFrom(r[i..]);
      b := b + r[i];
    }
  }

  method AesWrap(enc: Cipher, kek: Bytes, plain: Bytes) returns (out: Bytes)
    ensures out == Wrap(enc, kek, plain)
  {
    hide Mix, PassStart;
    var n := |plain| / 8;
    var a: Semiblock := KEY_WRAP_IV;
    var r := Load(plain, 0);
    ghost var start := Registers(a, Split(plain));
    assert r[..] == r[0..] == start.r;
    for j := 0 to 6
      invariant Registers(a, r[..]) == WrapPasses(enc, kek, start, j)
    {
      ghost var pass := Registers(a, r[..]);
      PassStartIsProduct(n, j);
      var done: nat := n * j;
      for i := 1 to n + 1
        invariant Registers(a, r[..]) == WrapPass(enc, kek, pass, done, i - 1)
      {
        ghost var w := Registers(a, r[..]);
        var b := enc(kek, Block(a, r[i - 1]));
        a := Mix(b.hi, done + i);
        r[i - 1] := b.lo;
        assert r[..] == w.r[i - 1 := b.lo];
      }
    }
    var body := Concatenate(r, 0);
    assert r[0..] == r[..];
    out := a + body;
  }

  lemma {:induction false} LastStep(dec: Cipher, kek: Bytes, w: Registers, base: nat, i: nat)
    requires i <= |w.r|
    ensures UnwrapPass(dec, kek, w, base, i)
         == if i == 0 then w else UnwrapPass(dec, kek, UnwrapAt(dec, kek, w, i - 1, base + i), base, i - 1)
  {
  }

  // One backward pass over elements 1 to n; element 0 is unused, as in the standard.
  method UnwrapInPlace(dec: Cipher, kek: Bytes, a0: Semiblock, r: array<Semiblock>, j: nat)
    returns (a: Semiblock)
    requires r.Length >= 1
    modifies r
    ensures Registers(a, r[1..])
         == UnwrapPass(dec, kek, Registers(a0, old(r[1..])), PassStart(r.Length - 1, j), r.Length - 1)
  {
    hide UnwrapPass, Mix, PassStart;
    a := a0;
    var n := r.Length - 1;
    PassStartIsProduct(n, j);
    var done: nat := n * j;
    var i: nat := n;
    ghost var end := UnwrapPass(dec, kek, Registers(a, r[1..]), done, n);
    while i > 0
      invariant 0 <= i <= n
      invariant UnwrapPass(dec, kek, Registers(a, r[1..]), done, i) == end
    {
      ghost var w := Registers(a, r[1..]);
      LastStep(dec, kek, w, done, i);
      var b := dec(kek, Block(Mix(a, done + i), r[i]));
      a := b.hi;
      r[i] := b.lo;
      assert r[1..] == w.r[i - 1 := b.lo];
      i := i - 1;
    }
    LastStep(dec, kek, Registers(a, r[1..]), done, 0);
  }

  lemma {:induction false} SplitTail(b: Bytes)
    requires |b| >= 8
    ensures Split(b)[1..] == Split(b[8..])
  {
  }

  method AesUnwrap(dec: Cipher, kek: Bytes, wrapped: Bytes) returns (out: Option<Bytes>)
    ensures out == Unwrap(dec, kek, wrapped)
  {
    hide UnwrapPass, PassStart, Join, Split;
    if |wrapped| < 16 || |wrapped| % 8 != 0 {
      return None;
    }
    var a: Semiblock := wrapped[..8];
    var r := Load(wrapped, 1);
    SplitTail(wrapped);
    ghost var goal := UnwrapPasses(dec, kek, Registers(a, r[1..]), 6);
    var j := 6;
    while j > 0
      invariant 0 <= j <= 6
      invariant UnwrapPasses(dec, kek, Registers(a, r[1..]), j) == goal
    {
      j := j - 1;
      a := UnwrapInPlace(dec, kek, a, r, j);
    }
    assert Registers(a, r[1..]) == goal;
    if a != KEY_WRAP_IV {
      out := None;
    } else {
      var plain := Concatenate(r, 1);
      out := Some(plain);
    }
  }
}
